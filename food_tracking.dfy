/** The food-tracking screen: the calorie text filter, the check and
    construction of a new log, today's totals and goal, the guarded
    percentage with its bar, and the meal-type icons. */
module FoodTracking {
  import opened Types
  import opened NumberText
  import BmiCalculator
  import Storage

  /** The characters the calorie field keeps: decimal digits and the point. */
  predicate IsCalorieChar(c: char)
  {
    '0' <= c <= '9' || c == '.'
  }

  /** The calorie field's filter: every other character is dropped, the kept
      ones stay in order. */
  function CleanCalorieText(text: string): (r: string)
    ensures |r| <= |text|
    ensures forall i :: 0 <= i < |r| ==> IsCalorieChar(r[i])
  {
    if text == [] then []
    else if IsCalorieChar(text[0]) then [text[0]] + CleanCalorieText(text[1..])
    else CleanCalorieText(text[1..])
  }

  /** Filtering a concatenation filters each part. */
  lemma {:induction false} CleanCalorieTextConcat(a: string, b: string)
    ensures CleanCalorieText(a + b) == CleanCalorieText(a) + CleanCalorieText(b)
  {
    if a == [] {
      assert a + b == b;
    } else {
      assert (a + b)[1..] == a[1..] + b;
      CleanCalorieTextConcat(a[1..], b);
    }
  }

  /** Text made only of kept characters passes unchanged; so filtering twice
      is filtering once. */
  lemma {:induction false} CleanCalorieTextKeepsClean(text: string)
    requires forall i :: 0 <= i < |text| ==> IsCalorieChar(text[i])
    ensures CleanCalorieText(text) == text
  {
    if text != [] {
      CleanCalorieTextKeepsClean(text[1..]);
    }
  }

  lemma CleanCalorieTextIdempotent(text: string)
    ensures CleanCalorieText(CleanCalorieText(text)) == CleanCalorieText(text)
  {
    CleanCalorieTextKeepsClean(CleanCalorieText(text));
  }

  /** A dropped character leaves nothing behind; a kept one is kept. */
  lemma CleanCalorieTextOfChar(c: char)
    ensures CleanCalorieText([c]) == if IsCalorieChar(c) then [c] else []
  {
    assert [c][1..] == [];
  }

  /** The check and construction of a new log: refused when the name is
      blank or the calorie text empty, then when the calorie text does not
      read as a positive integer; otherwise a log carrying exactly the name,
      the whole calories, the timestamp and the meal type. */
  function ValidateFood(foodName: string, caloriesText: string, mealType: MealType,
                        id: string, timestamp: int): (r: Result<FoodLog>)
    ensures r.Ok? <==> && !IsBlank(foodName) && caloriesText != []
                       && ParseInt(caloriesText).Some? && ParseInt(caloriesText).value > 0
    ensures r.Ok? ==> && r.value == FoodLog(id, foodName, ParseInt(caloriesText).value, timestamp, mealType)
                      && r.value.calories > 0
    ensures IsBlank(foodName) || caloriesText == [] ==> r == Err("Please enter both food name and calories")
    ensures !IsBlank(foodName) && caloriesText != [] && r.Err? ==> r == Err("Please enter valid calories")
  {
    if IsBlank(foodName) || caloriesText == [] then Err("Please enter both food name and calories")
    else
      var calorieValue := ParseInt(caloriesText);
      if calorieValue.None? || calorieValue.value <= 0 then Err("Please enter valid calories")
      else Ok(FoodLog(id, foodName, calorieValue.value, timestamp, mealType))
  }

  /** A calorie text with a fraction counts its whole part only: "12.7" logs
      12 calories, while "0.5" and ".5" are refused. */
  lemma FractionalCalories(name: string, ds: string, frac: string, mealType: MealType, id: string, timestamp: int)
    requires !IsBlank(name)
    requires |ds| > 0 && forall i :: 0 <= i < |ds| ==> IsDigit(ds[i])
    ensures var r := ValidateFood(name, ds + "." + frac, mealType, id, timestamp);
      && (r.Ok? <==> DigitsValue(ds) > 0)
      && (r.Ok? ==> r.value.calories == DigitsValue(ds))
    ensures ValidateFood(name, "." + frac, mealType, id, timestamp).Err?
  {
    ParseIntStopsAtPoint(ds, frac);
    ParseIntOfLeadingPoint(frac);
  }

  /** `trim` also strips the Unicode space separators: a name made of an
      ideographic space is refused. */
  lemma UnicodeSpaceNameRefused(caloriesText: string, mealType: MealType, id: string, timestamp: int)
    ensures ValidateFood("\U{3000}", caloriesText, mealType, id, timestamp)
            == Err("Please enter both food name and calories")
  {
    assert IsBlank("\U{3000}");
  }

  /** The share of the goal consumed, in percent; 0 when there is no
      positive goal. */
  function DisplayPercentage(total: int, goal: int): (pct: real)
    ensures goal <= 0 ==> pct == 0.0
    ensures goal > 0 ==> pct * goal as real == total as real * 100.0
    ensures goal > 0 && total >= 0 ==> pct >= 0.0
  {
    if goal > 0 then total as real / goal as real * 100.0 else 0.0
  }

  /** The bar's width: the percentage, cut off at 100. */
  function BarWidth(pct: real): (w: real)
    ensures w <= 100.0
    ensures w == pct || w == 100.0
    ensures pct <= 100.0 <==> w == pct
  {
    if pct < 100.0 then pct else 100.0
  }

  /** The bar is full exactly when the goal is reached. */
  lemma BarFullIffGoalReached(total: int, goal: int)
    requires goal > 0
    ensures BarWidth(DisplayPercentage(total, goal)) == 100.0 <==> total >= goal
  {
    var pct := DisplayPercentage(total, goal);
    assert pct >= 100.0 <==> total >= goal by {
      assert pct * goal as real == total as real * 100.0;
      if total >= goal {
        assert pct * goal as real >= 100.0 * goal as real;
      } else {
        assert pct * goal as real < 100.0 * goal as real;
      }
    }
  }

  function MealIcon(t: MealType): string
  {
    match t
    case Breakfast => "🌅"
    case Lunch => "☀️"
    case Dinner => "🌙"
    case Snack => "🍎"
  }

  /** Every meal type has an icon, and no two share one. */
  lemma MealIconsDistinct(a: MealType, b: MealType)
    ensures |MealIcon(a)| > 0
    ensures a != b ==> MealIcon(a) != MealIcon(b)
  {
    assert MealIcon(Breakfast)[0] == '🌅';
    assert MealIcon(Lunch)[0] == '☀';
    assert MealIcon(Dinner)[0] == '🌙';
    assert MealIcon(Snack)[0] == '🍎';
  }

  class FoodTrackingScreen {
    var foodName: string
    var calories: string
    var mealType: MealType
    var todayLogs: seq<FoodLog>
    var totalCalories: int
    var calorieGoal: int
    var profile: Option<UserProfile>

    constructor()
      ensures foodName == "" && calories == "" && mealType == Breakfast
      ensures todayLogs == [] && totalCalories == 0 && calorieGoal == 0 && profile == None
    {
      foodName := "";
      calories := "";
      mealType := Breakfast;
      todayLogs := [];
      totalCalories := 0;
      calorieGoal := 0;
      profile := None;
    }

    /** The percentage shown for today. */
    function Percentage(): real
      reads this
    {
      DisplayPercentage(totalCalories, calorieGoal)
    }

    /** Shows today's record when there is one, goal included. Otherwise the
        goal comes from the saved profile, if any, and the logs and total are
        left as they were. */
    method LoadTodayData(store: Storage.Store, today: string)
      modifies this
      ensures today in store.progress ==> var p := store.progress[today];
        && todayLogs == p.foodLogs && totalCalories == p.caloriesConsumed
        && calorieGoal == p.caloriesGoal && profile == old(profile)
      ensures today !in store.progress ==>
        && todayLogs == old(todayLogs) && totalCalories == old(totalCalories)
        && (store.profile.Some? ==> && calorieGoal == BmiCalculator.CalculateDailyCalories(store.profile.value, 0.0)
                                    && profile == store.profile)
        && (store.profile.None? ==> calorieGoal == old(calorieGoal) && profile == old(profile))
      ensures foodName == old(foodName) && calories == old(calories) && mealType == old(mealType)
    {
      var progress := store.GetDailyProgress(today);
      if progress.Some? {
        todayLogs := progress.value.foodLogs;
        totalCalories := progress.value.caloriesConsumed;
        calorieGoal := progress.value.caloriesGoal;
      } else {
        var userProfile := store.GetUserProfile();
        if userProfile.Some? {
          // The goal never depends on the BMI (DailyCaloriesIgnoreBmi), so
          // the analysis reduces to the calorie goal of the profile.
          calorieGoal := BmiCalculator.CalculateDailyCalories(userProfile.value, 0.0);
          profile := userProfile;
        }
      }
    }

    method OnFoodNameChange(text: string)
      modifies this
      ensures foodName == text
      ensures calories == old(calories) && mealType == old(mealType)
      ensures todayLogs == old(todayLogs) && totalCalories == old(totalCalories)
      ensures calorieGoal == old(calorieGoal) && profile == old(profile)
    {
      foodName := text;
    }

    /** The calorie field keeps only digits and points. */
    method OnCaloriesTextChange(text: string)
      modifies this
      ensures calories == CleanCalorieText(text)
      ensures foodName == old(foodName) && mealType == old(mealType)
      ensures todayLogs == old(todayLogs) && totalCalories == old(totalCalories)
      ensures calorieGoal == old(calorieGoal) && profile == old(profile)
    {
      calories := CleanCalorieText(text);
    }

    method OnMealTypeChange(t: MealType)
      modifies this
      ensures mealType == t
      ensures foodName == old(foodName) && calories == old(calories)
      ensures todayLogs == old(todayLogs) && totalCalories == old(totalCalories)
      ensures calorieGoal == old(calorieGoal) && profile == old(profile)
    {
      mealType := t;
    }

    /** Checks the fields; on acceptance adds the log to today's record,
        clears the name and calories and reloads. A refusal changes
        nothing. A first log of the day creates a record with a goal of 0,
        so from then on the percentage shown is 0. */
    method HandleAddFood(store: Storage.Store, today: string, id: string, now: int) returns (r: Result<FoodLog>)
      modifies this, store
      ensures r == ValidateFood(old(foodName), old(calories), old(mealType), id, now)
      ensures r.Err? ==> && store.progress == old(store.progress)
                         && foodName == old(foodName) && calories == old(calories)
                         && todayLogs == old(todayLogs) && totalCalories == old(totalCalories)
                         && calorieGoal == old(calorieGoal) && profile == old(profile)
      ensures r.Ok? ==> var rec := Storage.WithFoodLog(Storage.Lookup(old(store.progress), today), today, r.value);
        && store.progress == old(store.progress)[rec.date := rec]
        && foodName == "" && calories == ""
      ensures r.Ok? && old(store.Keyed()) ==>
        && store.Keyed() && today in store.progress
        && todayLogs == store.progress[today].foodLogs
        && totalCalories == store.progress[today].caloriesConsumed
        && calorieGoal == store.progress[today].caloriesGoal
        && profile == old(profile)
      ensures r.Ok? && today !in old(store.progress) ==>
        && todayLogs == [r.value] && totalCalories == r.value.calories
        && calorieGoal == 0 && Percentage() == 0.0
      ensures store.profile == old(store.profile) && store.weightHistory == old(store.weightHistory)
      ensures mealType == old(mealType)
    {
      r := ValidateFood(foodName, calories, mealType, id, now);
      if r.Err? {
        return;
      }
      store.AddFoodLog(today, r.value);
      foodName := "";
      calories := "";
      LoadTodayData(store, today);
    }
  }
}
