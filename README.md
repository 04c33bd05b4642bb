# BMI / BMR / TDEE calculator — a Dafny model

This project models the computational core of a single-screen health
calculator (`script.js`). When the user presses *Calculate*, the page does
four things:

- It reads height (cm), weight (kg), age, gender and activity level.
- It rejects the submission unless height, weight and age are numbers.
- It computes the Body Mass Index (BMI), a BMI category, the Basal Metabolic
  Rate (BMR, Mifflin-St Jeor equation) and the Total Daily Energy Expenditure
  (TDEE).
- It draws a half-ring gauge with a needle at the BMI, and shows exercise and
  diet advice for the category.

The model uses exact `real` arithmetic instead of IEEE doubles, and the
browser's π is a parameter `pi`.

Modules:

- `Wrappers` (`wrappers.dfy`): `Option`, for a height, weight or age that did
  not parse.
- `Metrics` (`metrics.dfy`): the validation gate, BMI, the threshold chain,
  BMR and TDEE, all as functions. A reference definition of the bands
  (`InBand`) and a threshold count (`ThresholdsPassed`) act as independent
  specifications of the chain.
- `Gauge` (`gauge.dfy`): the segment configuration (`BmiCategories`). The
  `forEach` loop that fills `segmentValues` is a method with loop invariants,
  proved equal to the telescoping function `Widths`. Also the needle-angle
  formula. `ArcStart` states where the charting library places each
  segment's arc for the configured rotation (−π) and sweep (π). That layout
  is an assumption about the library's doughnut chart, not code of the
  calculator.
- `Recommendations` (`recommendations.dfy`): the `switch` on the category
  string, with its default branch.
- `Calculator` (`calculator.dfy`): the whole button handler as a method, plus
  lemmas that connect the parts. The category rank equals the gauge segment
  the BMI lies in, and a needle placed at the unrounded BMI points into that
  segment's arc. The page places the needle at the rounded BMI, which can
  leave the arc just below a threshold. `RoundedNeedleLeavesCategoryArc`
  exhibits such a case.

## Model

| member | source | states |
|---|---|---|
| `Metrics.CalculateMetrics` | script.js:7-49 | No result exactly when height, weight or age is missing. Otherwise the BMI times the squared height in metres gives back the weight, the category is the band of the unrounded BMI, the BMR is the Mifflin-St Jeor value and TDEE = BMR × activity level with no check on the level |
| `Metrics.Bmi` | script.js:22-25 | BMI × (height/100)² equals the weight, so BMI = weight / (height/100)²; a positive weight gives a positive BMI |
| `Metrics.BmiIncreasesWithWeight` | script.js:22-25 | At a fixed height, a greater weight gives a strictly greater BMI |
| `Metrics.Name` | script.js:30-38 | The category strings the chain assigns: "Underweight", "Normal", "Overweight", "Obese" |
| `Metrics.Classify` | script.js:29-38 | The chosen category's band contains the BMI: below 18.5 Underweight, [18.5, 25) Normal, [25, 30) Overweight, 30 and above Obese |
| `Metrics.BandsPartition` | script.js:30-38 | A BMI lies in a band exactly when that band is the one chosen, so the bands never overlap and boundary values go to the upper category |
| `Metrics.ClassifyCountsThresholds` | script.js:30-38 | The category's rank equals the number of thresholds 18.5, 25, 30 that the BMI has reached |
| `Metrics.ThresholdsPassedMonotone` | script.js:30-38 | The count of thresholds reached never decreases as the value grows |
| `Metrics.ClassifyMonotone` | script.js:30-38 | The category rank never decreases as BMI increases |
| `Metrics.Bmr` | script.js:40-46 | The constant +5 is used exactly when the gender is the string "male"; −161 is used exactly for every other string. Both are added to 10·weight + 6.25·height − 5·age |
| `Metrics.BmrGenderGap` | script.js:42-46 | For identical inputs the result for the exact string "male" exceeds the result for any other gender value by 166 |
| `Metrics.BmrMonotone` | script.js:42-46 | For either branch, BMR rises with weight and height and falls with age |
| `Metrics.BmrExample` | script.js:43 | Male, 70 kg, 175 cm, 30 years gives 1648.75 |
| `Metrics.Tdee` | script.js:49 | For a non-zero BMR, TDEE divided by BMR gives back the activity level, whatever the level |
| `Metrics.TdeeFollowsActivityLevel` | script.js:49 | For a positive BMR, TDEE at level 1 is the BMR and TDEE strictly increases with the level. A negative level is accepted and gives a negative TDEE |
| `Gauge.BmiCategories` | script.js:68-73 | Four segments ending at 18.5, 25, 30 and 40, labelled "Underweight", "Normal", "Overweight", "Obesity"; the bounds strictly ascend from above 0 and the last is 40 |
| `Gauge.Widths` | script.js:76-81 | Reference definition of the segment widths. Each segment is as wide as the distance from the previous bound, or from 0 for the first |
| `Gauge.WidthAt` | script.js:76-81 | There is one width per segment, and width i is max_i − max_(i−1), with max_(−1) = 0 |
| `Gauge.WidthsPrefix` | script.js:76-81 | The widths of the first k segments are the first k widths |
| `Gauge.WidthsTelescope` | script.js:76-81 | The widths sum to the last upper bound |
| `Gauge.WidthsPositive` | script.js:68-81 | Strictly ascending upper bounds, starting above 0, give strictly positive widths |
| `Gauge.WidthsPositiveSum` | script.js:76-81 | Positive widths have a positive sum |
| `Gauge.AscendingTotalPositive` | script.js:68-81 | An ascending configuration has a positive total width |
| `Gauge.BmiCategoriesWidths` | script.js:68-81 | The configured bounds ascend, the widths are 18.5, 6.5, 5 and 10, and they sum to 40 |
| `Gauge.SegmentValues` | script.js:76-81 | The accumulator loop yields exactly the telescoping widths, one per segment |
| `Gauge.TotalRange` | script.js:104 | The last upper bound equals the total of the widths, and it is positive for an ascending configuration |
| `Gauge.NeedleAngle` | script.js:105 | (angle + π) × range = BMI × π, so the BMI can be recovered from the angle |
| `Gauge.NeedleLandmarks` | script.js:105 | BMI 0 maps to −π, half the range to −π/2 and the full range to 0 |
| `Gauge.BmiGaugeLandmarks` | script.js:104-105 | On the configured gauge, BMI 0, 20 and 40 map to −π, −π/2 and 0 |
| `Gauge.NeedleStrictlyIncreasing` | script.js:105 | The angle is strictly increasing in BMI |
| `Gauge.NeedleUnclamped` | script.js:105 | The angle lies in [−π, 0] exactly when the BMI lies in [0, range]. Below 0 it passes −π, and above the range it passes 0 |
| `Gauge.ArcStart` | script.js:129-134 | Assumed layout of the library's doughnut chart: segment i's arc starts at the rotation −π plus its share of the π sweep, in proportion to the widths. The first arc starts at −π and the last ends at 0 |
| `Gauge.ArcStartIsNeedle` | script.js:104-134 | Under that layout, the arc of segment i starts where the needle for max_(i−1) points |
| `Gauge.NeedleInSegment` | script.js:104-105 | A BMI inside segment i puts the needle inside the arc drawn for segment i |
| `Recommendations.Generate` | script.js:161-190 | Each of the four category strings gets its own fixed entry. Any other string gets "No specific recommendation." twice and an empty link, and the link is empty exactly for those strings |
| `Recommendations.EntriesDistinct` | script.js:161-185 | The lookup gives two known category strings the same advice only when they are the same string |
| `Recommendations.DependsOnlyOnCategory` | script.js:157-161 | The advice does not depend on the BMI, age, gender or activity-level arguments |
| `Calculator.CalculateBmi` | script.js:7-62 | Nothing new is shown (no figures, gauge or advice) exactly when height, weight or age is missing. Otherwise it shows the metrics, the rounded BMI, the widths 18.5, 6.5, 5 and 10, the needle angle of the rounded BMI, and the advice for the category string, which is never the default |
| `Calculator.NameHasRecommendation` | script.js:30-38 | Every category string the chain produces has its own case in the switch, and distinct categories have distinct strings |
| `Calculator.CategoryMatchesGaugeSegment` | script.js:30-38 | For a BMI in [0, 40), the category rank is the index of the gauge segment containing the BMI |
| `Calculator.NeedleOnCategoryArc` | script.js:96-105 | For a BMI in [0, 40), a needle placed at the unrounded BMI points into the arc of the segment for its category |
| `Calculator.RoundedNeedleLeavesCategoryArc` | script.js:22-105 | At 200 cm and 99.9 kg the BMI is 24.975, which is Normal. The needle for its display value 25.0 sits at the end of Normal's arc, which is the start of Overweight's |
| `Calculator.GaugeLabelsAgainstCategories` | script.js:68-73 | Three gauge labels equal the category strings. The last label, "Obesity", differs from the category string "Obese" |

## Left out

- Page access: reading the form fields, the alert on invalid input, and writing the result and advice markup. Inputs are parameters; a rejected submission is `None`.
- Number parsing (`parseFloat`, `parseInt`): the parsed values are taken as given. A value that fails to parse is `None`.
- An activity level that fails to parse (NaN): the activity level is a `real`, so it is always a number here.
- Zero height: the source divides by zero, giving an infinite or NaN BMI. A NaN falls through the `else` to "Obese". Exact reals cannot represent this. So `Metrics.Bmi` requires a non-zero height. `Metrics.CalculateMetrics` and `Calculator.CalculateBmi` require it only when height, weight and age are all present. A zero height with another field missing is still rejected, as in the source. Negative heights are allowed, as in the source.
- Floating-point results near a threshold: the model's BMI is exact, so a category can differ from the page's. At 160 cm and 64 kg the page computes 24.999999999999996, which is Normal (shown as "25.0"). The model's BMI is exactly 25, which is Overweight.
- Infinite inputs: `parseFloat("Infinity")` passes the number check and gives a BMI of 0 or an infinite BMR. Inputs here are finite reals.
- Display rounding (`toFixed(1)`, `Math.round`): the one-decimal rounding is the parameter `toFixed1` of `Calculator.CalculateBmi`. The model does not say what that rounding computes. Classification always uses the unrounded BMI, while the needle and the recommendation call receive the rounded value.
- The BMI passed to the gauge and the recommendations: the source passes the display string and relies on JavaScript's conversion to a number. The model passes a number.
- The charting library: rendering, legend, tooltips, cutout, the labels and colour arrays, and the ordering of the needle after the animation. Only the proportional layout of the arcs for the configured rotation and sweep is stated, as an assumption, by `Gauge.ArcStart`.
- `Calculator.NeedleOnCategoryArc`: proved for a needle at the unrounded BMI. The page draws the needle at the BMI rounded to one decimal, so just below a threshold it can sit outside its category's arc (see `Calculator.RoundedNeedleLeavesCategoryArc`). From 39.95 upwards it sits at 0 or beyond, past the last arc.
- Canvas drawing: the needle end point (`Math.cos`, `Math.sin`), its length and the pivot dot. Only the angle is modelled.
- The global `bmiChart` variable, which is never assigned or read.
