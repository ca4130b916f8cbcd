/** The calculations every diet plan shares: BMI classification and display, projected
    weight change for a daily calorie offset, and grams of each macronutrient. */
module DietBase {
  import opened Wrappers
  import opened Numbers
  import opened MacroDiets
  import Conversions

  /** Calories needed to gain or lose one pound in a week. */
  const CaloriesRequired: real := 3500.0

  datatype BmiCategory = Underweight | Healthy | Overweight | Obese

  /** The weight range of displayBmi. The upper bounds are the inclusive 24.9 and 29.9,
      so a BMI strictly between 24.9 and 25 or between 29.9 and 30 falls through to obese. */
  function ClassifyBmi(bmi: real): (c: BmiCategory)
    ensures c == Underweight <==> bmi < 18.5
    ensures c == Healthy <==> 18.5 <= bmi <= 24.9
    ensures c == Overweight <==> 25.0 <= bmi <= 29.9
    ensures c == Obese <==> (24.9 < bmi < 25.0) || 29.9 < bmi
  {
    if bmi < 18.5 then Underweight
    else if bmi >= 18.5 && bmi <= 24.9 then Healthy
    else if bmi >= 25.0 && bmi <= 29.9 then Overweight
    else Obese
  }

  function CategoryLabel(c: BmiCategory): string {
    match c
    case Underweight => "(underweight)"
    case Healthy => "(healthy)"
    case Overweight => "(overweight)"
    case Obese => "(obese)"
  }

  /** The BMI with two decimals, then its weight range in parentheses. */
  function DisplayBmi(bmi: real): (s: string)
    ensures bmi < 18.5 ==> s == FormatFixed2(bmi) + "(underweight)"
    ensures 18.5 <= bmi <= 24.9 ==> s == FormatFixed2(bmi) + "(healthy)"
    ensures 25.0 <= bmi <= 29.9 ==> s == FormatFixed2(bmi) + "(overweight)"
    ensures (24.9 < bmi < 25.0) || 29.9 < bmi ==> s == FormatFixed2(bmi) + "(obese)"
  {
    FormatFixed2(bmi) + CategoryLabel(ClassifyBmi(bmi))
  }

  /** The boundary values of the classification. */
  lemma ClassifyBoundaries()
    ensures ClassifyBmi(18.49) == Underweight && ClassifyBmi(18.5) == Healthy
    ensures ClassifyBmi(24.9) == Healthy && ClassifyBmi(24.95) == Obese && ClassifyBmi(25.0) == Overweight
    ensures ClassifyBmi(29.9) == Overweight && ClassifyBmi(29.95) == Obese && ClassifyBmi(30.0) == Obese
  {
  }

  /** The display of a BMI from 10.00 to 99.99, given in hundredths h, from the text of its
      whole part, of its decimals and of its category. */
  lemma DisplayText(bmi: real, h: nat, whole: string, decimals: string, category: string, text: string)
    requires 1000 <= h < 10000 && bmi * 100.0 == h as real
    requires Decimals(h / 100) == whole && Decimals(h % 100) == decimals
    requires CategoryLabel(ClassifyBmi(bmi)) == category
    requires whole + "." + decimals + category == text
    ensures DisplayBmi(bmi) == text
  {
    assert HundredthsHalfUp(bmi) == h;
    TwoDigitText(h / 100);
  }

  // The four strings the display tests expect, one lemma each.

  lemma DisplayUnderweightExample()
    ensures DisplayBmi(18.24) == "18.24(underweight)"
  {
    assert "18" + "." + "24" + "(underweight)" == "18.24(underweight)";
    DisplayText(18.24, 1824, "18", "24", "(underweight)", "18.24(underweight)");
  }

  lemma DisplayHealthyExample()
    ensures DisplayBmi(23.00) == "23.00(healthy)"
  {
    assert "23" + "." + "00" + "(healthy)" == "23.00(healthy)";
    DisplayText(23.00, 2300, "23", "00", "(healthy)", "23.00(healthy)");
  }

  lemma DisplayOverweightExample()
    ensures DisplayBmi(25.92) == "25.92(overweight)"
  {
    assert "25" + "." + "92" + "(overweight)" == "25.92(overweight)";
    DisplayText(25.92, 2592, "25", "92", "(overweight)", "25.92(overweight)");
  }

  lemma DisplayObeseExample()
    ensures DisplayBmi(39.82) == "39.82(obese)"
  {
    assert "39" + "." + "82" + "(obese)" == "39.82(obese)";
    DisplayText(39.82, 3982, "39", "82", "(obese)", "39.82(obese)");
  }

  /** Expected change in pounds per week, month and year. */
  datatype WeightChange = WeightChange(week: real, month: real, year: real)

  /** calculateWeightChange: a negative offset is an arithmetic error; otherwise a week
      is 7 days of the offset against 3500 calories per pound, a month 4.345 weeks and a
      year 12 months. */
  function CalculateWeightChange(calorieOffset: int): (r: Result<WeightChange>)
    ensures r.Err? <==> calorieOffset < 0
    ensures r.Err? ==> r.error == Arithmetic("parameter cannot be less than 0")
    ensures r.Ok? ==> 0.0 <= r.value.week <= r.value.month <= r.value.year
    ensures r.Ok? ==> r.value.week * CaloriesRequired == 7.0 * calorieOffset as real
    ensures r.Ok? ==> r.value.month == 4.345 * r.value.week && r.value.year == 12.0 * r.value.month
  {
    if calorieOffset < 0 then Err(Arithmetic("parameter cannot be less than 0"))
    else
      var weeklyCalories := (calorieOffset * 7) as real;
      var expectedWeek := weeklyCalories / CaloriesRequired;
      var expectedMonth := expectedWeek * 4.345;
      var expectedYear := expectedMonth * 12.0;
      Ok(WeightChange(expectedWeek, expectedMonth, expectedYear))
  }

  /** A larger offset never projects a smaller change. */
  lemma WeightChangeMonotone(a: int, b: int)
    requires 0 <= a <= b
    ensures CalculateWeightChange(a).Ok? && CalculateWeightChange(b).Ok?
    ensures CalculateWeightChange(a).value.week <= CalculateWeightChange(b).value.week
    ensures CalculateWeightChange(a).value.month <= CalculateWeightChange(b).value.month
    ensures CalculateWeightChange(a).value.year <= CalculateWeightChange(b).value.year
  {
    var wa, wb := CalculateWeightChange(a).value, CalculateWeightChange(b).value;
    assert wa.week <= wb.week;
    assert wa.month <= wb.month;
  }

  /** No offset, no change; 500 calories a day is a pound a week. */
  lemma WeightChangeExamples()
    ensures CalculateWeightChange(0) == Ok(WeightChange(0.0, 0.0, 0.0))
    ensures CalculateWeightChange(500) == Ok(WeightChange(1.0, 4.345, 52.14))
    ensures CalculateWeightChange(-1).Err?
  {
  }

  /** What expectedProgress computes before printing: the projected change in pounds and
      each value converted to kilograms. */
  datatype Progress = Progress(pounds: WeightChange, weekKg: real, monthKg: real, yearKg: real)

  /** expectedProgress for a plan whose offset is calorieOffset. The conversions to
      kilograms reject zero, so a zero offset fails as well as a negative one. */
  function ExpectedProgress(calorieOffset: int): (r: Result<Progress>)
    ensures r.Ok? <==> calorieOffset > 0
    ensures calorieOffset < 0 ==> r == Err(Arithmetic("parameter cannot be less than 0"))
    ensures calorieOffset == 0 ==> r == Err(Arithmetic("Input must be greater than 0"))
    ensures r.Ok? ==> r.value.pounds == CalculateWeightChange(calorieOffset).value
    ensures r.Ok? ==> r.value.weekKg * Conversions.PoundsPerKilogram == r.value.pounds.week
    ensures r.Ok? ==> r.value.monthKg * Conversions.PoundsPerKilogram == r.value.pounds.month
    ensures r.Ok? ==> r.value.yearKg * Conversions.PoundsPerKilogram == r.value.pounds.year
  {
    var w :- CalculateWeightChange(calorieOffset);
    var weekKg :- Conversions.PoundsToKilograms(w.week);
    // once the week converts, the month and year (larger multiples of it) do too
    match Conversions.PoundsToKilograms(w.month)
    case Err(e) => Err(e)
    case Ok(monthKg) =>
      match Conversions.PoundsToKilograms(w.year)
      case Err(e) => Err(e)
      case Ok(yearKg) => Ok(Progress(w, weekKg, monthKg, yearKg))
  }

  /** Grams of carbohydrate, protein and fat for a day's calories. */
  datatype MacroGrams = MacroGrams(carbs: int, protein: int, fat: int)

  /** g is calories / k rounded toward zero: g grams of k calories each stay within the
      calories, and one gram more (or less, for negative calories) passes them. */
  predicate TruncatedQuotient(g: int, calories: real, k: int) {
    && (calories >= 0.0 ==> 0 <= g && (k * g) as real <= calories < (k * (g + 1)) as real)
    && (calories < 0.0 ==> g <= 0 && (k * (g - 1)) as real < calories <= (k * g) as real)
  }

  /** The calories of one macronutrient, cast to int, then divided (as int) by the
      calories in one gram. */
  function Grams(fraction: real, dailyCalories: real, caloriesPerGram: int): (g: int)
    requires caloriesPerGram > 0
    ensures TruncatedQuotient(g, fraction * dailyCalories, caloriesPerGram)
  {
    JavaDiv(Trunc(fraction * dailyCalories), caloriesPerGram)
  }

  /** 4 calories per gram of carbohydrate or protein, 9 per gram of fat. */
  function MacroGramsFor(diet: MacroDiet, dailyCalories: real): MacroGrams {
    MacroGrams(Grams(diet.Carbs(), dailyCalories, 4),
               Grams(diet.Protein(), dailyCalories, 4),
               Grams(diet.Fat(), dailyCalories, 9))
  }

  /** Each macronutrient's grams are its share of the calories over its own calories per
      gram (4, 4 and 9), rounded toward zero. */
  lemma MacroGramsBounds(diet: MacroDiet, dailyCalories: real)
    ensures var r := MacroGramsFor(diet, dailyCalories);
            && TruncatedQuotient(r.carbs, diet.Carbs() * dailyCalories, 4)
            && TruncatedQuotient(r.protein, diet.Protein() * dailyCalories, 4)
            && TruncatedQuotient(r.fat, diet.Fat() * dailyCalories, 9)
  {
    assert MacroGramsFor(diet, dailyCalories)
        == MacroGrams(Grams(diet.Carbs(), dailyCalories, 4),
                      Grams(diet.Protein(), dailyCalories, 4),
                      Grams(diet.Fat(), dailyCalories, 9)) by {
    }
  }

  /** The macro profile a menu option selects: 1 Paleo, 2 Keto, 3 Atkins, 4 Default. */
  function MacroForOption(option: int): (r: Option<MacroDiet>)
    ensures r.Some? <==> 1 <= option <= 4
  {
    match option
    case 1 => Some(Paleo)
    case 2 => Some(Keto)
    case 3 => Some(Atkins)
    case 4 => Some(Default)
    case _ => None
  }

  /** Each profile has exactly one option. */
  lemma MacroOptionsDistinct(i: int, j: int)
    requires MacroForOption(i).Some? && MacroForOption(i) == MacroForOption(j)
    ensures i == j
  {
  }
}
