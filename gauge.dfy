/** The arithmetic of the BMI gauge in script.js (`renderBMIChart` and
    `drawNeedle`): the width of each coloured segment of the half ring, the
    angle of the needle, and where the ring places each segment's arc given
    its rotation of -pi and sweep of pi. That placement is done by the
    charting library; `ArcStart` states the proportional layout it is
    configured for. The drawing operations are not modelled. */
module Gauge {

  /** One coloured segment of the gauge, ending at BMI `max`. */
  datatype Segment = Segment(labelText: string, max: real, color: string)

  /** The gauge configuration. Its last label is "Obesity", not the category
      string "Obese" that the calculator produces. */
  function BmiCategories(): (cats: seq<Segment>)
    ensures |cats| == 4 && Ascending(cats)
    ensures cats[3].max == 40.0
  {
    [
      Segment("Underweight", 18.5, "#FF6666"),
      Segment("Normal", 25.0, "#66FF66"),
      Segment("Overweight", 30.0, "#FFFF66"),
      Segment("Obesity", 40.0, "#FF3333")
    ]
  }

  /** The upper bound of the segment before segment `i`; 0 before the first. */
  function PreviousMax(cats: seq<Segment>, i: nat): real
    requires i <= |cats|
  {
    if i == 0 then 0.0 else cats[i - 1].max
  }

  /** Upper bounds strictly increasing from a positive first bound. */
  predicate Ascending(cats: seq<Segment>)
  {
    forall i :: 0 <= i < |cats| ==> PreviousMax(cats, i) < cats[i].max
  }

  /** Reference definition of the segment widths, built one segment at a
      time: each segment is as wide as the distance from the previous bound. */
  function Widths(cats: seq<Segment>): seq<real>
  {
    if cats == [] then []
    else Widths(cats[..|cats| - 1]) + [cats[|cats| - 1].max - PreviousMax(cats, |cats| - 1)]
  }

  /** Sum of a sequence of widths. */
  function Sum(s: seq<real>): real
  {
    if s == [] then 0.0 else Sum(s[..|s| - 1]) + s[|s| - 1]
  }

  /** One width per segment, and width `i` is `max_i - max_(i-1)`. */
  lemma {:induction false} WidthAt(cats: seq<Segment>, i: nat)
    requires i < |cats|
    ensures |Widths(cats)| == |cats|
    ensures Widths(cats)[i] == cats[i].max - PreviousMax(cats, i)
  {
    var n := |cats| - 1;
    if i < n {
      WidthAt(cats[..n], i);
      assert PreviousMax(cats[..n], i) == PreviousMax(cats, i);
    } else if n > 0 {
      WidthAt(cats[..n], 0);
    }
  }

  /** The widths of a prefix of the configuration are a prefix of its widths. */
  lemma {:induction false} WidthsPrefix(cats: seq<Segment>, k: nat)
    requires k <= |cats|
    ensures |Widths(cats)| == |cats|
    ensures Widths(cats)[..k] == Widths(cats[..k])
  {
    if k == |cats| {
      if cats == [] {
      } else {
        WidthAt(cats, 0);
      }
      assert cats[..k] == cats;
    } else {
      var n := |cats| - 1;
      WidthsPrefix(cats[..n], k);
      assert cats[..n][..k] == cats[..k];
    }
  }

  /** The widths telescope: together they span exactly from 0 to the last
      upper bound. */
  lemma {:induction false} WidthsTelescope(cats: seq<Segment>)
    ensures Sum(Widths(cats)) == PreviousMax(cats, |cats|)
  {
    if cats != [] {
      var n := |cats| - 1;
      WidthsTelescope(cats[..n]);
      var w := Widths(cats);
      assert w[..|w| - 1] == Widths(cats[..n]) by {
        WidthsPrefix(cats, n);
      }
    }
  }

  /** Ascending bounds give segments of positive width. */
  lemma WidthsPositive(cats: seq<Segment>)
    requires Ascending(cats)
    ensures forall i :: 0 <= i < |Widths(cats)| ==> Widths(cats)[i] > 0.0
  {
    forall i | 0 <= i < |Widths(cats)|
      ensures Widths(cats)[i] > 0.0
    {
      WidthsPrefix(cats, 0);
      WidthAt(cats, i);
    }
  }

  /** The concrete gauge: widths 18.5, 6.5, 5 and 10, summing to 40. */
  lemma BmiCategoriesWidths()
    ensures Widths(BmiCategories()) == [18.5, 6.5, 5.0, 10.0]
    ensures Sum(Widths(BmiCategories())) == 40.0
  {
    var cats := BmiCategories();
    WidthsTelescope(cats);
    WidthAt(cats, 0);
    WidthAt(cats, 1);
    WidthAt(cats, 2);
    WidthAt(cats, 3);
  }

  /** The `forEach` loop that fills `segmentValues`, carrying the previous
      upper bound in `lastMax`. */
  method SegmentValues(cats: seq<Segment>) returns (values: seq<real>)
    ensures values == Widths(cats)
    ensures |values| == |cats|
  {
    values := [];
    var lastMax := 0.0;
    for i := 0 to |cats|
      invariant values == Widths(cats[..i])
      invariant lastMax == PreviousMax(cats, i)
    {
      assert cats[..i + 1][..i] == cats[..i];
      values := values + [cats[i].max - lastMax];
      lastMax := cats[i].max;
    }
    assert cats[..|cats|] == cats;
    WidthsPrefix(cats, |cats|);
  }

  /** The BMI at the right-hand end of the gauge: the last upper bound. */
  function TotalRange(cats: seq<Segment>): (total: real)
    requires cats != []
    ensures total == Sum(Widths(cats))
    ensures Ascending(cats) ==> total > 0.0
  {
    WidthsTelescope(cats);
    AscendingTotalPositive(cats);
    cats[|cats| - 1].max
  }

  /** The needle angle in radians: BMI 0 points at -pi, the total range at 0,
      linearly in between and beyond (no clamping). `pi` stands for the
      constant the browser supplies. */
  function NeedleAngle(userBmi: real, totalRange: real, pi: real): (angle: real)
    requires totalRange != 0.0
    ensures (angle + pi) * totalRange == userBmi * pi
  {
    -pi + (userBmi / totalRange) * pi
  }

  /** The ends and the middle of the scale. */
  lemma NeedleLandmarks(totalRange: real, pi: real)
    requires totalRange != 0.0
    ensures NeedleAngle(0.0, totalRange, pi) == -pi
    ensures NeedleAngle(totalRange / 2.0, totalRange, pi) == -pi / 2.0
    ensures NeedleAngle(totalRange, totalRange, pi) == 0.0
  {
  }

  /** On the configured gauge: BMI 0, 20 and 40 point at -pi, -pi/2 and 0. */
  lemma BmiGaugeLandmarks(pi: real)
    ensures NeedleAngle(0.0, TotalRange(BmiCategories()), pi) == -pi
    ensures NeedleAngle(20.0, TotalRange(BmiCategories()), pi) == -pi / 2.0
    ensures NeedleAngle(40.0, TotalRange(BmiCategories()), pi) == 0.0
  {
    NeedleLandmarks(40.0, pi);
  }

  /** A larger BMI always turns the needle further clockwise. */
  lemma NeedleStrictlyIncreasing(b1: real, b2: real, totalRange: real, pi: real)
    requires totalRange > 0.0 && pi > 0.0
    requires b1 < b2
    ensures NeedleAngle(b1, totalRange, pi) < NeedleAngle(b2, totalRange, pi)
  {
    var d := (b2 - b1) / totalRange;
    assert d > 0.0;
    assert NeedleAngle(b2, totalRange, pi) - NeedleAngle(b1, totalRange, pi) == d * pi;
    assert d * pi > 0.0;
  }

  /** The needle stays on the drawn half circle exactly when the BMI is on
      the scale; values off the scale point past its ends. */
  lemma NeedleUnclamped(userBmi: real, totalRange: real, pi: real)
    requires totalRange > 0.0 && pi > 0.0
    ensures -pi <= NeedleAngle(userBmi, totalRange, pi) <= 0.0 <==> 0.0 <= userBmi <= totalRange
    ensures userBmi < 0.0 ==> NeedleAngle(userBmi, totalRange, pi) < -pi
    ensures userBmi > totalRange ==> NeedleAngle(userBmi, totalRange, pi) > 0.0
  {
    NeedleLandmarks(totalRange, pi);
    if userBmi < 0.0 {
      NeedleStrictlyIncreasing(userBmi, 0.0, totalRange, pi);
    } else if userBmi > totalRange {
      NeedleStrictlyIncreasing(totalRange, userBmi, totalRange, pi);
    } else {
      if 0.0 < userBmi { NeedleStrictlyIncreasing(0.0, userBmi, totalRange, pi); }
      if userBmi < totalRange { NeedleStrictlyIncreasing(userBmi, totalRange, totalRange, pi); }
    }
  }

  /** Ascending bounds make a gauge of positive total width. */
  lemma AscendingTotalPositive(cats: seq<Segment>)
    requires cats != []
    ensures Ascending(cats) ==> Sum(Widths(cats)) > 0.0
  {
    if Ascending(cats) {
      WidthsPositive(cats);
      WidthsPrefix(cats, 0);
      WidthsPositiveSum(Widths(cats));
    }
  }

  /** A non-empty sequence of positive widths has a positive sum. */
  lemma {:induction false} WidthsPositiveSum(s: seq<real>)
    requires s != []
    requires forall i :: 0 <= i < |s| ==> s[i] > 0.0
    ensures Sum(s) > 0.0
  {
    if |s| > 1 {
      WidthsPositiveSum(s[..|s| - 1]);
    }
  }

  /** Where the ring starts segment `i`'s arc, as the doughnut chart lays out
      its data: each segment takes a share of the sweep pi proportional to its
      width, beginning at the rotation -pi. `ArcStart(cats, |cats|, pi)` is
      where the last arc ends. */
  function ArcStart(cats: seq<Segment>, i: nat, pi: real): (start: real)
    requires Ascending(cats) && cats != []
    requires i <= |cats|
    ensures i == 0 ==> start == -pi
    ensures i == |cats| ==> start == 0.0
  {
    AscendingTotalPositive(cats);
    WidthsPrefix(cats, i);
    assert Widths(cats)[..|cats|] == Widths(cats);
    -pi + (Sum(Widths(cats)[..i]) / Sum(Widths(cats))) * pi
  }

  /** Segment `i` starts where the needle for its lower bound points. */
  lemma ArcStartIsNeedle(cats: seq<Segment>, i: nat, pi: real)
    requires Ascending(cats) && cats != []
    requires i <= |cats|
    ensures ArcStart(cats, i, pi) == NeedleAngle(PreviousMax(cats, i), TotalRange(cats), pi)
  {
    AscendingTotalPositive(cats);
    WidthsPrefix(cats, 0);
    var total := Sum(Widths(cats));
    var before := Sum(Widths(cats)[..i]);
    assert before == PreviousMax(cats, i) by {
      WidthsPrefix(cats, i);
      WidthsTelescope(cats[..i]);
      assert PreviousMax(cats[..i], i) == PreviousMax(cats, i);
    }
    assert total == TotalRange(cats);
    assert ArcStart(cats, i, pi) == -pi + (before / total) * pi;
  }

  /** The needle for a BMI inside segment `i` points into the arc the ring
      draws for segment `i`. */
  lemma NeedleInSegment(cats: seq<Segment>, i: nat, userBmi: real, pi: real)
    requires Ascending(cats) && pi > 0.0
    requires i < |cats|
    requires PreviousMax(cats, i) <= userBmi < cats[i].max
    ensures ArcStart(cats, i, pi) <= NeedleAngle(userBmi, TotalRange(cats), pi) < ArcStart(cats, i + 1, pi)
  {
    AscendingTotalPositive(cats);
    var total := TotalRange(cats);
    ArcStartIsNeedle(cats, i, pi);
    ArcStartIsNeedle(cats, i + 1, pi);
    if PreviousMax(cats, i) < userBmi {
      NeedleStrictlyIncreasing(PreviousMax(cats, i), userBmi, total, pi);
    }
    NeedleStrictlyIncreasing(userBmi, cats[i].max, total, pi);
  }
}
