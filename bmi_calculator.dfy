/** The profile analyzer: BMI, its category, the daily calorie goal from the
    Mifflin-St Jeor equation, and the macro split by goal. */
module BmiCalculator {
  import opened Types

  /** weight / (heightCm / 100)^2: kilograms over metres squared. */
  function CalculateBmi(weight: real, heightCm: real): (bmi: real)
    requires heightCm != 0.0
    ensures bmi * (heightCm / 100.0) * (heightCm / 100.0) == weight
    ensures weight > 0.0 ==> bmi > 0.0
  {
    var heightInMeters := heightCm / 100.0;
    weight / (heightInMeters * heightInMeters)
  }

  /** The four half-open bands with thresholds 18.5, 25 and 30; a boundary
      value belongs to the higher band. */
  function BmiCategoryOf(bmi: real): (c: BmiCategory)
    ensures c == Underweight <==> bmi < 18.5
    ensures c == Normal <==> 18.5 <= bmi < 25.0
    ensures c == Overweight <==> 25.0 <= bmi < 30.0
    ensures c == Obese <==> 30.0 <= bmi
  {
    if bmi < 18.5 then Underweight
    else if bmi < 25.0 then Normal
    else if bmi < 30.0 then Overweight
    else Obese
  }

  /** The position of a category from lightest to heaviest. */
  function CategoryRank(c: BmiCategory): nat
  {
    match c
    case Underweight => 0
    case Normal => 1
    case Overweight => 2
    case Obese => 3
  }

  /** A larger BMI never falls into a lighter category. */
  lemma CategoryMonotone(bmi1: real, bmi2: real)
    requires bmi1 <= bmi2
    ensures CategoryRank(BmiCategoryOf(bmi1)) <= CategoryRank(BmiCategoryOf(bmi2))
  {
  }

  /** Basal metabolic rate; every gender other than male takes the female
      constant. */
  function Bmr(p: UserProfile): real
  {
    if p.gender == Male then 10.0 * p.weight + 6.25 * p.height - 5.0 * p.age as real + 5.0
    else 10.0 * p.weight + 6.25 * p.height - 5.0 * p.age as real - 161.0
  }

  /** Other fields being equal, the male BMR exceeds the non-male one by 166. */
  lemma MaleBmrExceedsOthersBy166(p: UserProfile, g: Gender)
    requires p.gender == Male && g != Male
    ensures Bmr(p) - Bmr(p.(gender := g)) == 166.0
    ensures Bmr(p.(gender := Female)) == Bmr(p.(gender := Other))
  {
  }

  function ActivityMultiplier(a: ActivityLevel): (m: real)
    ensures 1.2 <= m <= 1.9
  {
    match a
    case Low => 1.2
    case Moderate => 1.55
    case High => 1.9
  }

  /** The goal's adjustment: a 500 kcal deficit to lose, a surplus to gain. */
  function GoalAdjustment(g: Goal): (kcal: real)
    ensures kcal == 0.0 <==> g == Maintain
    ensures kcal == -500.0 <==> g == Lose
    ensures kcal == 500.0 <==> g == Gain
  {
    match g
    case Lose => -500.0
    case Gain => 500.0
    case Maintain => 0.0
  }

  /** Total daily energy expenditure, adjusted for the goal. */
  function AdjustedTdee(p: UserProfile): real
  {
    Bmr(p) * ActivityMultiplier(p.activityLevel) + GoalAdjustment(p.goal)
  }

  /** `Math.round`: the nearest integer, halves rounded up. */
  function Round(x: real): (r: int)
    ensures r as real - 0.5 <= x < r as real + 0.5
  {
    (x + 0.5).Floor
  }

  /** The rounding is the unique integer within half a unit below and above. */
  lemma RoundUnique(x: real, k: int)
    requires k as real - 0.5 <= x < k as real + 0.5
    ensures Round(x) == k
  {
  }

  /** The daily calorie goal. The `bmi` argument is accepted and ignored. */
  function CalculateDailyCalories(p: UserProfile, bmi: real): (kcal: int)
    ensures kcal as real - 0.5 <= AdjustedTdee(p) < kcal as real + 0.5
  {
    Round(AdjustedTdee(p))
  }

  /** The goal depends on the profile only, never on the BMI passed in. */
  lemma DailyCaloriesIgnoreBmi(p: UserProfile, bmi1: real, bmi2: real)
    ensures CalculateDailyCalories(p, bmi1) == CalculateDailyCalories(p, bmi2)
  {
  }

  /** Changing only the goal moves the calorie goal by exactly 500 kcal. */
  lemma GoalShiftsCaloriesBy500(p: UserProfile)
    ensures CalculateDailyCalories(p.(goal := Lose), 0.0) == CalculateDailyCalories(p.(goal := Maintain), 0.0) - 500
    ensures CalculateDailyCalories(p.(goal := Gain), 0.0) == CalculateDailyCalories(p.(goal := Maintain), 0.0) + 500
  {
    var m := AdjustedTdee(p.(goal := Maintain));
    assert AdjustedTdee(p.(goal := Lose)) == m - 500.0;
    assert AdjustedTdee(p.(goal := Gain)) == m + 500.0;
    RoundUnique(m - 500.0, Round(m) - 500);
    RoundUnique(m + 500.0, Round(m) + 500);
  }

  /** Male, 30 years, 175 cm, 70 kg, moderate activity: BMR
      700 + 1093.75 - 150 + 5 = 1648.75, TDEE 2555.5625, so 2556 kcal to
      maintain and 2056 kcal to lose. */
  lemma WorkedExample()
    ensures var p := UserProfile("A", 30, 175.0, 70.0, Male, Moderate, Maintain, Vegetarian);
      && Bmr(p) == 1648.75
      && AdjustedTdee(p) == 2555.5625
      && CalculateDailyCalories(p, 0.0) == 2556
      && CalculateDailyCalories(p.(goal := Lose), 0.0) == 2056
  {
    var p := UserProfile("A", 30, 175.0, 70.0, Male, Moderate, Maintain, Vegetarian);
    assert Bmr(p) == 1648.75;
    assert AdjustedTdee(p) == 2555.5625;
    RoundUnique(AdjustedTdee(p), 2556);
    RoundUnique(AdjustedTdee(p.(goal := Lose)), 2056);
  }

  /** The macro split is a fixed table by goal; every row sums to 100. */
  function GetMacroRatios(goal: Goal): (m: Macros)
    ensures m.carbs + m.protein + m.fats == 100
    ensures m.carbs > 0 && m.protein > 0 && m.fats > 0
  {
    match goal
    case Lose => Macros(40, 30, 30)
    case Gain => Macros(50, 25, 25)
    case Maintain => Macros(45, 25, 30)
  }

  /** The goal determines the split and no two goals share one. */
  lemma MacroRatiosDistinct(g1: Goal, g2: Goal)
    requires g1 != g2
    ensures GetMacroRatios(g1) != GetMacroRatios(g2)
  {
  }

  /** The full analysis of a profile; its parts agree with each other. */
  function AnalyzeBmi(p: UserProfile): (r: BmiResult)
    requires p.height != 0.0
    ensures r.bmi * (p.height / 100.0) * (p.height / 100.0) == p.weight
    ensures r.category == BmiCategoryOf(r.bmi)
    ensures r.dailyCalorieGoal as real - 0.5 <= AdjustedTdee(p) < r.dailyCalorieGoal as real + 0.5
    ensures r.macros.carbs + r.macros.protein + r.macros.fats == 100
    ensures r.macros == GetMacroRatios(p.goal)
  {
    var bmi := CalculateBmi(p.weight, p.height);
    BmiResult(bmi, BmiCategoryOf(bmi), CalculateDailyCalories(p, bmi), GetMacroRatios(p.goal))
  }
}
