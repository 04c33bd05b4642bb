/** The whole of `calculateBMI` in script.js: validate, compute the metrics,
    then build the gauge and the recommendations for the result. */
module Calculator {
  import opened Wrappers
  import opened Metrics
  import Gauge
  import Recommendations

  /** Everything one valid submission puts on the screen, apart from the
      markup: the figures, the BMI as displayed (rounded), the gauge's segment
      widths and needle angle, and the advice. */
  datatype Screen = Screen(
    result: MetricsResult,
    bmiShown: real,
    segmentValues: seq<real>,
    needleAngle: real,
    advice: Recommendations.Advice)

  /** One press of the calculate button. `toFixed1` is the browser's rounding
      of the BMI to one decimal for display, and `pi` the browser's constant.
      When height, weight or age is missing nothing new is shown: no figures,
      no gauge and no recommendations are produced, and whatever the page
      showed before stays. */
  method CalculateBmi(heightCm: Option<real>, weightKg: Option<real>, age: Option<int>,
                      gender: string, activityLevel: real, toFixed1: real -> real, pi: real)
    returns (screen: Option<Screen>)
    requires heightCm.Some? && weightKg.Some? && age.Some? ==> heightCm.value != 0.0
    ensures screen.None? <==> heightCm.None? || weightKg.None? || age.None?
    ensures screen.Some? ==>
      var s := screen.value;
      Some(s.result) == CalculateMetrics(heightCm, weightKg, age, gender, activityLevel) &&
      s.bmiShown == toFixed1(s.result.bmi) &&
      s.segmentValues == [18.5, 6.5, 5.0, 10.0] &&
      s.needleAngle == Gauge.NeedleAngle(s.bmiShown, 40.0, pi) &&
      s.advice == Recommendations.Generate(s.bmiShown, Name(s.result.category), age.value, gender, activityLevel) &&
      s.advice != Recommendations.DefaultAdvice
  {
    var metrics := CalculateMetrics(heightCm, weightKg, age, gender, activityLevel);
    if metrics.None? {
      return None;
    }
    var result := metrics.value;
    var bmiRounded := toFixed1(result.bmi);
    // renderBMIChart
    var segmentValues := Gauge.SegmentValues(Gauge.BmiCategories());
    Gauge.BmiCategoriesWidths();
    var needleAngle := Gauge.NeedleAngle(bmiRounded, Gauge.TotalRange(Gauge.BmiCategories()), pi);
    // generateRecommendations
    var categoryName := Name(result.category);
    NameHasRecommendation(result.category);
    var advice := Recommendations.Generate(bmiRounded, categoryName, age.value, gender, activityLevel);
    screen := Some(Screen(result, bmiRounded, segmentValues, needleAngle, advice));
  }

  /** Every category the calculator can produce has its own case in the
      recommendation switch, so the default advice is never shown after a
      valid calculation. */
  lemma NameHasRecommendation(c: Category)
    ensures Name(c) in Recommendations.KnownCategories
    ensures forall c' :: Name(c') == Name(c) ==> c' == c
  {
  }

  /** The category thresholds are the first three upper bounds of the gauge:
      a BMI on the scale falls in the gauge segment whose position is its
      category's rank. */
  lemma CategoryMatchesGaugeSegment(bmi: real)
    requires 0.0 <= bmi < 40.0
    ensures var k := Rank(Classify(bmi));
      k < |Gauge.BmiCategories()| &&
      Gauge.PreviousMax(Gauge.BmiCategories(), k) <= bmi < Gauge.BmiCategories()[k].max
  {
  }

  /** So a needle placed at the unrounded BMI, when that BMI is on the scale,
      points into the arc of its category's segment. */
  lemma NeedleOnCategoryArc(bmi: real, pi: real)
    requires 0.0 <= bmi < 40.0 && pi > 0.0
    ensures var k := Rank(Classify(bmi));
      k < |Gauge.BmiCategories()| &&
      Gauge.ArcStart(Gauge.BmiCategories(), k, pi)
        <= Gauge.NeedleAngle(bmi, Gauge.TotalRange(Gauge.BmiCategories()), pi)
        < Gauge.ArcStart(Gauge.BmiCategories(), k + 1, pi)
  {
    Gauge.BmiCategoriesWidths();
    CategoryMatchesGaugeSegment(bmi);
    Gauge.NeedleInSegment(Gauge.BmiCategories(), Rank(Classify(bmi)), bmi, pi);
  }

  /** The gauge's segment labels agree with the category strings except the
      last: the gauge says "Obesity" where the calculator says "Obese". */
  lemma GaugeLabelsAgainstCategories()
    ensures Gauge.BmiCategories()[0].labelText == Name(Underweight)
    ensures Gauge.BmiCategories()[1].labelText == Name(Normal)
    ensures Gauge.BmiCategories()[2].labelText == Name(Overweight)
    ensures Gauge.BmiCategories()[3].labelText != Name(Obese)
  {
  }

  /** The page places the needle at the BMI rounded to one decimal, while the
      category comes from the unrounded BMI, so just below a threshold the
      needle leaves the category's arc. At 200 cm and 99.9 kg the BMI is
      24.975, which is Normal; rounded for display it is 25.0, and the needle
      for 25.0 sits at the start of the Overweight arc, the end of Normal's. */
  lemma RoundedNeedleLeavesCategoryArc(pi: real)
    requires pi > 0.0
    ensures Bmi(200.0, 99.9) == 24.975
    ensures Classify(24.975) == Normal
    ensures Gauge.NeedleAngle(25.0, Gauge.TotalRange(Gauge.BmiCategories()), pi)
         == Gauge.ArcStart(Gauge.BmiCategories(), Rank(Normal) + 1, pi)
  {
    Gauge.BmiCategoriesWidths();
    Gauge.ArcStartIsNeedle(Gauge.BmiCategories(), 2, pi);
  }
}
