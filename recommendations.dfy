/** The recommendation lookup of script.js (`generateRecommendations`): a
    switch on the category string. Writing the text into the page is not
    modelled. */
module Recommendations {

  /** Exercise advice, diet advice and a link as HTML markup. */
  datatype Advice = Advice(exercise: string, diet: string, links: string)

  /** The category strings the switch has a case for. */
  const KnownCategories: set<string> := {"Underweight", "Normal", "Overweight", "Obese"}

  const NoRecommendation: string := "No specific recommendation."

  /** The default branch, taken for every other string. */
  const DefaultAdvice: Advice := Advice(NoRecommendation, NoRecommendation, "")

  const UnderweightAdvice: Advice := Advice(
    "Focus on strength training to build muscle mass. Include resistance exercises like weightlifting.",
    "Increase your calorie intake with high-protein meals, whole grains, and healthy fats.",
    "<a href=\"https://www.healthline.com/nutrition/weight-gain-meal-plan\">Weight Gain Meal Plan</a>")

  const NormalAdvice: Advice := Advice(
    "Maintain your fitness with a mix of cardio (like jogging or cycling) and strength training.",
    "Maintain a balanced diet with fruits, vegetables, lean protein, and whole grains.",
    "<a href=\"https://www.choosemyplate.gov/\">Balanced Diet Tips</a>")

  const OverweightAdvice: Advice := Advice(
    "Engage in regular cardio workouts (e.g., walking, running, swimming) to burn calories.",
    "Follow a calorie-deficit diet with high-fiber and low-fat meals.",
    "<a href=\"https://www.eatingwell.com/\">Healthy Recipes</a>")

  const ObeseAdvice: Advice := Advice(
    "Start with low-impact exercises like walking, swimming, or stationary cycling.",
    "Adopt a low-calorie, nutrient-dense diet. Focus on vegetables, lean protein, and avoid sugary foods.",
    "<a href=\"https://www.nhs.uk/live-well/healthy-weight/\">Weight Loss Advice</a>")

  /** The lookup. The BMI, age, gender and activity level are accepted and
      not used. */
  function Generate(bmi: real, category: string, age: int, gender: string, activityLevel: real): (a: Advice)
    ensures category !in KnownCategories ==> a == DefaultAdvice
    ensures a.links == "" <==> category !in KnownCategories
    ensures a.exercise == NoRecommendation <==> category !in KnownCategories
    ensures a.diet == NoRecommendation <==> category !in KnownCategories
  {
    match category
    case "Underweight" => UnderweightAdvice
    case "Normal" => NormalAdvice
    case "Overweight" => OverweightAdvice
    case "Obese" => ObeseAdvice
    case _ => DefaultAdvice
  }

  /** Different known categories get different advice. */
  lemma EntriesDistinct(c1: string, c2: string, bmi: real, age: int, gender: string, activityLevel: real)
    requires c1 in KnownCategories && c2 in KnownCategories
    ensures Generate(bmi, c1, age, gender, activityLevel) == Generate(bmi, c2, age, gender, activityLevel) <==> c1 == c2
  {
  }

  /** Only the category decides the advice. */
  lemma DependsOnlyOnCategory(category: string,
                              bmi1: real, age1: int, gender1: string, level1: real,
                              bmi2: real, age2: int, gender2: string, level2: real)
    ensures Generate(bmi1, category, age1, gender1, level1) == Generate(bmi2, category, age2, gender2, level2)
  {
  }
}
