/** Record shapes shared by the whole app: the user profile, the analyzer's
    result, a day's meal plan, food-log entries, the per-date progress record
    and weight samples. Every string-literal union of the app becomes a
    closed datatype, so "one of exactly these values" holds by construction. */
module Types {

  datatype Option<+T> = None | Some(value: T)

  /** An operation that either succeeds with a value or is refused with the
      message the app shows (or throws). */
  datatype Result<+T> = Ok(value: T) | Err(message: string)

  datatype Gender = Male | Female | Other
  datatype ActivityLevel = Low | Moderate | High
  datatype Goal = Maintain | Lose | Gain
  datatype DietaryPreference = Vegetarian | Vegan | NonVeg

  /** Height is in centimetres and weight in kilograms. */
  datatype UserProfile = UserProfile(
    name: string,
    age: int,
    height: real,
    weight: real,
    gender: Gender,
    activityLevel: ActivityLevel,
    goal: Goal,
    dietaryPreference: DietaryPreference)

  datatype BmiCategory = Underweight | Normal | Overweight | Obese

  /** Percentages of the daily calories. */
  datatype Macros = Macros(carbs: int, protein: int, fats: int)

  datatype BmiResult = BmiResult(
    bmi: real,
    category: BmiCategory,
    dailyCalorieGoal: int,
    macros: Macros)

  /** Exactly four free-text slots. */
  datatype MealPlan = MealPlan(breakfast: string, lunch: string, dinner: string, snacks: string)

  datatype MealType = Breakfast | Lunch | Dinner | Snack

  /** A logged food; the timestamp is the creation time in milliseconds. */
  datatype FoodLog = FoodLog(
    id: string,
    name: string,
    calories: int,
    timestamp: int,
    mealType: MealType)

  /** The record kept for one calendar date (YYYY-MM-DD); foodLogs is in
      insertion order. */
  datatype DailyProgress = DailyProgress(
    date: string,
    caloriesConsumed: int,
    caloriesGoal: int,
    weight: Option<real>,
    foodLogs: seq<FoodLog>)

  datatype WeightSample = WeightSample(date: string, weight: real)

  /** The sum of the calories of a sequence of logs. */
  function TotalCalories(logs: seq<FoodLog>): int
  {
    if logs == [] then 0 else TotalCalories(logs[..|logs| - 1]) + logs[|logs| - 1].calories
  }

  /** Summing over a concatenation is summing over each part. */
  lemma {:induction false} TotalCaloriesConcat(a: seq<FoodLog>, b: seq<FoodLog>)
    ensures TotalCalories(a + b) == TotalCalories(a) + TotalCalories(b)
    decreases |b|
  {
    if b == [] {
      assert a + b == a;
    } else {
      var b' := b[..|b| - 1];
      assert (a + b)[..|a + b| - 1] == a + b';
      TotalCaloriesConcat(a, b');
    }
  }

  /** The text the app uses for each enumeration value. */
  function GenderText(g: Gender): string
  {
    match g
    case Male => "male"
    case Female => "female"
    case Other => "other"
  }

  function ActivityText(a: ActivityLevel): string
  {
    match a
    case Low => "low"
    case Moderate => "moderate"
    case High => "high"
  }

  function GoalText(g: Goal): string
  {
    match g
    case Maintain => "maintain"
    case Lose => "lose"
    case Gain => "gain"
  }

  function DietText(d: DietaryPreference): string
  {
    match d
    case Vegetarian => "vegetarian"
    case Vegan => "vegan"
    case NonVeg => "non-veg"
  }

  function CategoryText(c: BmiCategory): string
  {
    match c
    case Underweight => "Underweight"
    case Normal => "Normal"
    case Overweight => "Overweight"
    case Obese => "Obese"
  }

  /** The last min(n, |s|) elements, as JavaScript's `s.slice(-n)` gives them. */
  function LastUpTo<T>(s: seq<T>, n: nat): (r: seq<T>)
    requires n > 0
    ensures |r| == if |s| < n then |s| else n
    ensures forall i :: 0 <= i < |r| ==> r[i] == s[|s| - |r| + i]
  {
    if |s| < n then s else s[|s| - n..]
  }

  function Reverse<T>(s: seq<T>): seq<T>
  {
    if s == [] then [] else Reverse(s[1..]) + [s[0]]
  }

  lemma {:induction false} ReverseAt<T>(s: seq<T>, k: nat)
    requires k < |s|
    ensures |Reverse(s)| == |s| && Reverse(s)[k] == s[|s| - 1 - k]
  {
    ReverseLength(s);
    if k < |s| - 1 {
      ReverseAt(s[1..], k);
    }
  }

  lemma {:induction false} ReverseLength<T>(s: seq<T>)
    ensures |Reverse(s)| == |s|
  {
    if s != [] {
      ReverseLength(s[1..]);
    }
  }
}
