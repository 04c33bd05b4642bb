/** The metrics calculator of script.js (`calculateBMI`): the validation gate,
    the BMI formula, the four-way BMI classification, the Mifflin-St Jeor BMR
    equation and TDEE. Arithmetic is exact (`real`), not IEEE doubles. */
module Metrics {
  import opened Wrappers

  /** The BMI category assigned by the threshold chain. */
  datatype Category = Underweight | Normal | Overweight | Obese

  /** The category string the calculator displays and hands to the
      recommendation lookup. */
  function Name(c: Category): string
  {
    match c
    case Underweight => "Underweight"
    case Normal => "Normal"
    case Overweight => "Overweight"
    case Obese => "Obese"
  }

  /** Position of a category on the BMI scale, lightest first. */
  function Rank(c: Category): nat
  {
    match c
    case Underweight => 0
    case Normal => 1
    case Overweight => 2
    case Obese => 3
  }

  /** The thresholds that separate consecutive categories. */
  const Thresholds: seq<real> := [18.5, 25.0, 30.0]

  /** Reference definition of the bands: half-open intervals, each boundary
      value belonging to the upper category. */
  predicate InBand(bmi: real, c: Category)
  {
    match c
    case Underweight => bmi < 18.5
    case Normal => 18.5 <= bmi < 25.0
    case Overweight => 25.0 <= bmi < 30.0
    case Obese => 30.0 <= bmi
  }

  /** Number of thresholds at or below `bmi`. */
  function ThresholdsPassed(ts: seq<real>, bmi: real): (n: nat)
    ensures n <= |ts|
  {
    if ts == [] then 0
    else (if ts[0] <= bmi then 1 else 0) + ThresholdsPassed(ts[1..], bmi)
  }

  /** Metres from centimetres. */
  function HeightInMetres(heightCm: real): real
  {
    heightCm / 100.0
  }

  /** Body Mass Index: weight over the square of the height in metres. The
      height must be non-zero; a zero height is a division by zero. */
  function Bmi(heightCm: real, weightKg: real): (bmi: real)
    requires heightCm != 0.0
    ensures bmi * HeightInMetres(heightCm) * HeightInMetres(heightCm) == weightKg
    ensures weightKg > 0.0 ==> bmi > 0.0
  {
    var heightM := HeightInMetres(heightCm);
    weightKg / (heightM * heightM)
  }

  /** The threshold chain, applied to the unrounded BMI. */
  function Classify(bmi: real): (c: Category)
    ensures InBand(bmi, c)
  {
    if bmi < 18.5 then Underweight
    else if bmi >= 18.5 && bmi < 25.0 then Normal
    else if bmi >= 25.0 && bmi < 30.0 then Overweight
    else Obese
  }

  /** The bands do not overlap: a BMI lies in exactly one of them, the one
      `Classify` picks. */
  lemma BandsPartition(bmi: real, c: Category)
    ensures InBand(bmi, c) <==> c == Classify(bmi)
  {
  }

  /** Independent reading of the chain: the rank of the category is the
      number of thresholds the BMI has reached. */
  lemma ClassifyCountsThresholds(bmi: real)
    ensures Rank(Classify(bmi)) == ThresholdsPassed(Thresholds, bmi)
  {
    var ts := Thresholds;
    assert ts[1..][1..][1..] == [];
    calc {
      ThresholdsPassed(ts, bmi);
      (if 18.5 <= bmi then 1 else 0) + ThresholdsPassed(ts[1..], bmi);
      (if 18.5 <= bmi then 1 else 0) + (if 25.0 <= bmi then 1 else 0) + ThresholdsPassed(ts[1..][1..], bmi);
      (if 18.5 <= bmi then 1 else 0) + (if 25.0 <= bmi then 1 else 0) + (if 30.0 <= bmi then 1 else 0);
    }
  }

  /** Passing more thresholds never becomes fewer as the value grows. */
  lemma {:induction false} ThresholdsPassedMonotone(ts: seq<real>, lo: real, hi: real)
    requires lo <= hi
    ensures ThresholdsPassed(ts, lo) <= ThresholdsPassed(ts, hi)
  {
    if ts != [] {
      ThresholdsPassedMonotone(ts[1..], lo, hi);
    }
  }

  /** The category rank never decreases as the BMI increases. */
  lemma ClassifyMonotone(lo: real, hi: real)
    requires lo <= hi
    ensures Rank(Classify(lo)) <= Rank(Classify(hi))
  {
    ClassifyCountsThresholds(lo);
    ClassifyCountsThresholds(hi);
    ThresholdsPassedMonotone(Thresholds, lo, hi);
  }

  /** A non-zero square is positive. */
  lemma SquarePositive(x: real)
    requires x != 0.0
    ensures x * x > 0.0
  {
    if x < 0.0 {
      assert x * x == (-x) * (-x);
    }
  }

  /** At the same height a heavier person has a higher BMI. */
  lemma BmiIncreasesWithWeight(heightCm: real, w1: real, w2: real)
    requires heightCm != 0.0
    requires w1 < w2
    ensures Bmi(heightCm, w1) < Bmi(heightCm, w2)
  {
    var hm := HeightInMetres(heightCm);
    var h2 := hm * hm;
    SquarePositive(hm);
    assert Bmi(heightCm, w2) - Bmi(heightCm, w1) == (w2 - w1) / h2;
    assert (w2 - w1) / h2 > 0.0;
  }

  /** The Mifflin-St Jeor terms common to both branches. */
  function MifflinStJeorBase(weightKg: real, heightCm: real, age: int): real
  {
    10.0 * weightKg + 6.25 * heightCm - 5.0 * (age as real)
  }

  /** Basal Metabolic Rate: the male branch is taken only for the exact
      string "male"; every other value takes the second branch. */
  function Bmr(weightKg: real, heightCm: real, age: int, gender: string): (bmr: real)
    ensures gender == "male" <==> bmr == MifflinStJeorBase(weightKg, heightCm, age) + 5.0
    ensures gender != "male" <==> bmr == MifflinStJeorBase(weightKg, heightCm, age) - 161.0
  {
    if gender == "male" then MifflinStJeorBase(weightKg, heightCm, age) + 5.0
    else MifflinStJeorBase(weightKg, heightCm, age) - 161.0
  }

  /** For the same measurements the male result exceeds the result for any
      other gender value by exactly 166 kcal. */
  lemma BmrGenderGap(weightKg: real, heightCm: real, age: int, other: string)
    requires other != "male"
    ensures Bmr(weightKg, heightCm, age, "male") - Bmr(weightKg, heightCm, age, other) == 166.0
  {
  }

  /** BMR rises with weight and height and falls with age, whatever the gender. */
  lemma BmrMonotone(w1: real, w2: real, h1: real, h2: real, a1: int, a2: int, gender: string)
    requires w1 <= w2 && h1 <= h2 && a1 >= a2
    ensures Bmr(w1, h1, a1, gender) <= Bmr(w2, h2, a2, gender)
  {
  }

  /** The worked example: a 70 kg, 175 cm, 30-year-old male. */
  lemma BmrExample()
    ensures Bmr(70.0, 175.0, 30, "male") == 1648.75
  {
  }

  /** Total Daily Energy Expenditure: BMR scaled by the activity level, which
      is used as given, without any range check. */
  function Tdee(bmr: real, activityLevel: real): (tdee: real)
    ensures bmr != 0.0 ==> tdee / bmr == activityLevel
  {
    bmr * activityLevel
  }

  /** TDEE follows the activity level linearly for a positive BMR, level 1
      giving the BMR itself; a level outside the form's 1.2-1.9 options is not
      refused and simply scales the BMR, a negative one to a negative TDEE. */
  lemma TdeeFollowsActivityLevel(bmr: real, l1: real, l2: real)
    requires bmr > 0.0
    ensures Tdee(bmr, 1.0) == bmr
    ensures l1 < l2 ==> Tdee(bmr, l1) < Tdee(bmr, l2)
    ensures l1 < 0.0 ==> Tdee(bmr, l1) < 0.0
  {
    if l1 < l2 {
      assert Tdee(bmr, l2) - Tdee(bmr, l1) == bmr * (l2 - l1);
    }
    if l1 < 0.0 {
      assert Tdee(bmr, l1) == -(bmr * (-l1));
    }
  }

  /** The figures produced for one valid submission. `bmi` is the unrounded
      value; it is the one the category is computed from. */
  datatype MetricsResult = MetricsResult(bmi: real, category: Category, bmr: real, tdee: real)

  /** The calculation behind the button: nothing is produced unless height,
      weight and age all parsed as numbers. */
  function CalculateMetrics(heightCm: Option<real>, weightKg: Option<real>, age: Option<int>,
                            gender: string, activityLevel: real): (r: Option<MetricsResult>)
    requires heightCm.Some? && weightKg.Some? && age.Some? ==> heightCm.value != 0.0
    ensures r.None? <==> heightCm.None? || weightKg.None? || age.None?
    ensures r.Some? ==>
      var m := r.value;
      m.bmi * HeightInMetres(heightCm.value) * HeightInMetres(heightCm.value) == weightKg.value &&
      InBand(m.bmi, m.category) &&
      m.bmr == Bmr(weightKg.value, heightCm.value, age.value, gender) &&
      m.tdee == m.bmr * activityLevel
  {
    if heightCm.None? || weightKg.None? || age.None? then None
    else
      var bmi := Bmi(heightCm.value, weightKg.value);
      var bmr := Bmr(weightKg.value, heightCm.value, age.value, gender);
      Some(MetricsResult(bmi, Classify(bmi), bmr, Tdee(bmr, activityLevel)))
  }
}
