/** The meal planner: a fixed vegetarian catalog keyed by goal, one pick per
    slot, the five-band progress tip and the motivation picker. Each use of
    `Math.random()` is an injected draw `r` with 0 <= r < 1. */
module MealPlanner {
  import opened Types
  import opened NumberText
  import BmiCalculator

  /** The four slots of a day's plan. */
  datatype Slot = BreakfastSlot | LunchSlot | DinnerSlot | SnacksSlot

  /** The text of candidate k (0 to 3) of a slot in the vegetarian catalog of
      a goal. Only a vegetarian catalog exists. */
  function CatalogText(goal: Goal, slot: Slot, k: nat): string
    requires k < 4
  {
    match (goal, slot)
    case (Lose, BreakfastSlot) =>
      if k == 0 then "Oatmeal with berries and almonds (~300 cal) - High fiber, protein-rich"
      else if k == 1 then "Greek yogurt with chia seeds and honey (~250 cal) - Probiotic, omega-3"
      else if k == 2 then "Vegetable poha with peanuts (~280 cal) - Light, nutritious"
      else "Smoothie bowl with banana, spinach, protein powder (~320 cal) - Vitamin-packed"
    case (Lose, LunchSlot) =>
      if k == 0 then "Quinoa salad with chickpeas, cucumber, tomatoes (~400 cal) - Complete protein, fiber"
      else if k == 1 then "Brown rice with dal and steamed vegetables (~420 cal) - Balanced, filling"
      else if k == 2 then "Whole wheat wrap with paneer and veggies (~380 cal) - Protein-rich"
      else "Vegetable khichdi with curd (~350 cal) - Easy to digest, comforting"
    case (Lose, DinnerSlot) =>
      if k == 0 then "Grilled vegetables with tofu (~300 cal) - Low-cal, high protein"
      else if k == 1 then "Vegetable soup with multigrain bread (~280 cal) - Light, satisfying"
      else if k == 2 then "Palak paneer with roti (~350 cal) - Iron, calcium-rich"
      else "Stir-fried vegetables with brown rice (~320 cal) - Fiber-rich"
    case (Lose, SnacksSlot) =>
      if k == 0 then "Apple with peanut butter (~150 cal)"
      else if k == 1 then "Carrot sticks with hummus (~120 cal)"
      else if k == 2 then "Roasted chickpeas (~130 cal)"
      else "Mixed nuts (small handful ~160 cal)"
    case (Maintain, BreakfastSlot) =>
      if k == 0 then "Whole wheat toast with avocado and eggs (~400 cal) - Healthy fats, protein"
      else if k == 1 then "Upma with vegetables and coconut chutney (~380 cal) - Energizing"
      else if k == 2 then "Masala dosa with sambar (~420 cal) - Traditional, balanced"
      else "Paneer paratha with curd (~450 cal) - Protein-packed"
    case (Maintain, LunchSlot) =>
      if k == 0 then "Rice with rajma and salad (~500 cal) - Complete protein, fiber"
      else if k == 1 then "Chole with brown rice and raita (~520 cal) - Satisfying, nutritious"
      else if k == 2 then "Vegetable biryani with raita (~550 cal) - Flavorful, balanced"
      else "Mixed dal with roti and vegetables (~480 cal) - Traditional, wholesome"
    case (Maintain, DinnerSlot) =>
      if k == 0 then "Paneer tikka with quinoa (~450 cal) - High protein"
      else if k == 1 then "Vegetable curry with brown rice (~420 cal) - Nutrient-dense"
      else if k == 2 then "Mushroom masala with roti (~400 cal) - Umami-rich"
      else "Dal makhani with jeera rice (~480 cal) - Protein-rich, comforting"
    case (Maintain, SnacksSlot) =>
      if k == 0 then "Fruit chaat (~180 cal)"
      else if k == 1 then "Sprouted moong salad (~160 cal)"
      else if k == 2 then "Paneer cubes with mint chutney (~200 cal)"
      else "Trail mix (~190 cal)"
    case (Gain, BreakfastSlot) =>
      if k == 0 then "Banana smoothie with oats, peanut butter, milk (~500 cal) - Calorie-dense"
      else if k == 1 then "Aloo paratha with butter and curd (~550 cal) - High-energy"
      else if k == 2 then "Idli with coconut chutney and sambhar (~480 cal) - Carb-rich"
      else "Stuffed paneer sandwich with cheese (~520 cal) - Protein-packed"
    case (Gain, LunchSlot) =>
      if k == 0 then "Paneer butter masala with naan and rice (~700 cal) - Rich, satisfying"
      else if k == 1 then "Rajma chawal with raita and salad (~650 cal) - Complete meal"
      else if k == 2 then "Vegetable pulao with paneer curry (~680 cal) - Wholesome"
      else "Chole bhature with lassi (~720 cal) - Traditional, filling"
    case (Gain, DinnerSlot) =>
      if k == 0 then "Stuffed capsicum with rice (~550 cal) - Nutrient-dense"
      else if k == 1 then "Paneer tikka masala with naan (~600 cal) - Protein-rich"
      else if k == 2 then "Mixed vegetable curry with paratha (~580 cal) - Balanced"
      else "Palak paneer with rice and dal (~620 cal) - Iron-rich"
    case (Gain, SnacksSlot) =>
      if k == 0 then "Peanut butter banana sandwich (~300 cal)"
      else if k == 1 then "Protein shake with fruits (~280 cal)"
      else if k == 2 then "Cheese and crackers (~250 cal)"
      else "Dry fruits and nuts mix (~320 cal)"
  }

  /** The candidate list of a slot, in catalog order. */
  function VegetarianMeals(goal: Goal, slot: Slot): (list: seq<string>)
    ensures |list| == 4
  {
    [CatalogText(goal, slot, 0), CatalogText(goal, slot, 1), CatalogText(goal, slot, 2), CatalogText(goal, slot, 3)]
  }

  /** A draw of `Math.random()`. */
  predicate IsDraw(r: real) { 0.0 <= r < 1.0 }

  /** `Math.floor(r * len)`: always a valid index of a non-empty list. */
  function PickIndex(r: real, len: nat): (i: nat)
    requires IsDraw(r) && len > 0
    ensures i < len
  {
    var x := r * len as real;
    assert 0.0 <= x < len as real;
    x.Floor
  }

  /** Every index is picked, exactly by the draws in [k/len, (k+1)/len), so
      each candidate has an equal share of the draws. */
  lemma PickIndexExactly(r: real, len: nat, k: nat)
    requires IsDraw(r) && len > 0 && k < len
    ensures PickIndex(r, len) == k <==> k as real / len as real <= r < (k + 1) as real / len as real
  {
    var n := len as real;
    var x := r * n;
    assert PickIndex(r, len) == x.Floor;
    assert x.Floor == k <==> k as real <= x < (k + 1) as real;
    ScaledBound(k as real, n, r);
    ScaledBound((k + 1) as real, n, r);
  }

  /** Multiplying by a positive n keeps a lower bound: a <= r * n exactly
      when a / n <= r. */
  lemma ScaledBound(a: real, n: real, r: real)
    requires n > 0.0
    ensures a <= r * n <==> a / n <= r
  {
    assert a / n * n == a;
    if a / n <= r {
      assert a / n * n <= r * n;
    } else {
      assert r * n < a / n * n;
    }
  }

  /** The four draws of one plan, one per slot. */
  datatype Draws = Draws(breakfast: real, lunch: real, dinner: real, snacks: real)

  predicate ValidDraws(d: Draws)
  {
    IsDraw(d.breakfast) && IsDraw(d.lunch) && IsDraw(d.dinner) && IsDraw(d.snacks)
  }

  function PickMeal(list: seq<string>, r: real): (m: string)
    requires IsDraw(r) && |list| > 0
    ensures m in list
  {
    list[PickIndex(r, |list|)]
  }

  /** One pick from each of four candidate lists, each with its own draw. */
  function PlanFrom(b: seq<string>, lu: seq<string>, dn: seq<string>, sn: seq<string>, d: Draws): (plan: MealPlan)
    requires |b| > 0 && |lu| > 0 && |dn| > 0 && |sn| > 0
    requires ValidDraws(d)
    ensures plan.breakfast in b && plan.lunch in lu && plan.dinner in dn && plan.snacks in sn
  {
    MealPlan(PickMeal(b, d.breakfast), PickMeal(lu, d.lunch), PickMeal(dn, d.dinner), PickMeal(sn, d.snacks))
  }

  /** A day's plan: each slot a member of that slot's list for the profile's
      goal. The calorie figure and the dietary preference play no part. */
  function GenerateMealPlan(profile: UserProfile, calories: int, d: Draws): (plan: MealPlan)
    requires ValidDraws(d)
    ensures plan.breakfast in VegetarianMeals(profile.goal, BreakfastSlot)
    ensures plan.lunch in VegetarianMeals(profile.goal, LunchSlot)
    ensures plan.dinner in VegetarianMeals(profile.goal, DinnerSlot)
    ensures plan.snacks in VegetarianMeals(profile.goal, SnacksSlot)
  {
    var goal := profile.goal;
    PlanFrom(VegetarianMeals(goal, BreakfastSlot), VegetarianMeals(goal, LunchSlot),
             VegetarianMeals(goal, DinnerSlot), VegetarianMeals(goal, SnacksSlot), d)
  }

  /** Only the goal selects the lists: two profiles with the same goal get the
      same plan from the same draws, whatever the calories and preferences. */
  lemma PlanDependsOnlyOnGoal(p: UserProfile, q: UserProfile, c1: int, c2: int, d: Draws)
    requires ValidDraws(d) && p.goal == q.goal
    ensures GenerateMealPlan(p, c1, d) == GenerateMealPlan(q, c2, d)
  {
  }

  /** The draw k/len picks candidate k of a list of len. */
  lemma PickMealAt(list: seq<string>, k: nat)
    requires k < |list|
    ensures IsDraw(k as real / |list| as real)
    ensures PickMeal(list, k as real / |list| as real) == list[k]
  {
    PickIndexExactly(k as real / |list| as real, |list|, k);
  }

  /** Every combination of candidates is produced by some draws: candidates
      i, j, k and l come from the draws i/|b|, j/|lu|, k/|dn| and l/|sn|. Each
      of the app's lists has four candidates, so all 256 plans per goal are
      reachable. */
  lemma EveryCombinationReachable(b: seq<string>, lu: seq<string>, dn: seq<string>, sn: seq<string>,
                                  i: nat, j: nat, k: nat, l: nat)
    requires i < |b| && j < |lu| && k < |dn| && l < |sn|
    ensures var d := Draws(i as real / |b| as real, j as real / |lu| as real,
                           k as real / |dn| as real, l as real / |sn| as real);
      && ValidDraws(d)
      && PlanFrom(b, lu, dn, sn, d) == MealPlan(b[i], lu[j], dn[k], sn[l])
  {
    PickMealAt(b, i);
    PickMealAt(lu, j);
    PickMealAt(dn, k);
    PickMealAt(sn, l);
  }

  /** The five tips, each with the figure it shows. */
  datatype Tip =
    | EatNutritious(percent: int)
    | GreatProgress(percent: int)
    | AlmostThere(percent: int, lightMeal: string)
    | GoalMet
    | OverGoal(overBy: int)

  /** `(consumed / goal) * 100`. */
  function Percentage(consumed: real, goal: real): (pct: real)
    requires goal != 0.0
    ensures pct * goal == consumed * 100.0
  {
    consumed / goal * 100.0
  }

  /** The band of the percentage of the goal: below 50, [50,80), [80,100),
      [100,110), and 110 or more. Inside [80,100) the light meal suggested is
      dinner for a user who wants to lose weight, a snack for everyone else. */
  function ProgressTip(consumed: real, caloriesGoal: real, goal: Goal): (t: Tip)
    requires caloriesGoal != 0.0
    ensures var pct := Percentage(consumed, caloriesGoal);
      && (t.EatNutritious? <==> pct < 50.0)
      && (t.GreatProgress? <==> 50.0 <= pct < 80.0)
      && (t.AlmostThere? <==> 80.0 <= pct < 100.0)
      && (t.GoalMet? <==> 100.0 <= pct < 110.0)
      && (t.OverGoal? <==> 110.0 <= pct)
    ensures t.AlmostThere? ==> (t.lightMeal == "dinner" <==> goal == Lose)
    ensures t.AlmostThere? ==> (t.lightMeal == "snack" <==> goal != Lose)
    ensures t.OverGoal? ==> t.overBy >= 10
    ensures t.OverGoal? ==> t.overBy == BmiCalculator.Round(Percentage(consumed, caloriesGoal) - 100.0)
    ensures !t.GoalMet? && !t.OverGoal? ==> t.percent == BmiCalculator.Round(Percentage(consumed, caloriesGoal))
  {
    var pct := Percentage(consumed, caloriesGoal);
    if pct < 50.0 then EatNutritious(BmiCalculator.Round(pct))
    else if pct < 80.0 then GreatProgress(BmiCalculator.Round(pct))
    else if pct < 100.0 then AlmostThere(BmiCalculator.Round(pct), if goal == Lose then "dinner" else "snack")
    else if pct < 110.0 then GoalMet
    else OverGoal(BmiCalculator.Round(pct - 100.0))
  }

  /** The message shown for a tip. */
  function TipText(t: Tip): string
  {
    match t
    case EatNutritious(p) =>
      "You've consumed " + IntText(p) + "% of your daily calories. Make sure to eat nutritious meals throughout the day to meet your goal!"
    case GreatProgress(p) =>
      "Great progress! You're at " + IntText(p) + "% of your calorie goal. Stay on track with balanced meals."
    case AlmostThere(p, meal) =>
      "Almost there! You've reached " + IntText(p) + "% of your goal. A light, healthy " + meal + " will complete your day perfectly."
    case GoalMet =>
      "Perfect! You've met your calorie goal. Stay hydrated and maintain this consistency!"
    case OverGoal(x) =>
      "You're " + IntText(x) + "% over your goal. No worries! Consider lighter meals tomorrow and stay active."
  }

  function GetProgressTips(consumed: real, caloriesGoal: real, goal: Goal): string
    requires caloriesGoal != 0.0
  {
    TipText(ProgressTip(consumed, caloriesGoal, goal))
  }

  /** Half of the goal is already the second band; 80% is the third. */
  lemma TipBandBoundaries(goal: Goal)
    ensures ProgressTip(1000.0, 2000.0, goal) == GreatProgress(50)
    ensures ProgressTip(1500.0, 2000.0, goal) == GreatProgress(75)
    ensures ProgressTip(1600.0, 2000.0, goal).AlmostThere?
    ensures ProgressTip(2000.0, 2000.0, goal) == GoalMet
    ensures ProgressTip(2200.0, 2000.0, goal) == OverGoal(10)
  {
    BmiCalculator.RoundUnique(50.0, 50);
    BmiCalculator.RoundUnique(75.0, 75);
    BmiCalculator.RoundUnique(10.0, 10);
  }

  /** `t` holds `name` somewhere inside it. */
  ghost predicate Mentions(t: string, name: string)
  {
    exists i :: OccursAt(t, name, i)
  }

  predicate OccursAt(t: string, name: string, i: int)
  {
    0 <= i <= |t| - |name| && t[i..i + |name|] == name
  }

  lemma MentionsBetween(pre: string, name: string, post: string)
    ensures Mentions(pre + name + post, name)
  {
    var t := pre + name + post;
    assert t[|pre|..|pre| + |name|] == name;
    assert OccursAt(t, name, |pre|);
  }


  /** The text before the name in motivation template k (0 to 7). */
  function MotivationPrefix(k: nat): string
    requires k < 8
  {
    if k == 1 then "You're doing amazing, "
    else if k == 3 then "Great work today, "
    else if k == 5 then "Stay strong, "
    else if k == 7 then "Believe in yourself, "
    else ""
  }

  /** The text after the name in motivation template k (0 to 7). */
  function MotivationSuffix(k: nat): string
    requires k < 8
  {
    if k == 0 then ", every healthy choice you make is a step towards a better you! Keep going! 💪"
    else if k == 1 then "! Consistency is the key to success. 🌟"
    else if k == 2 then ", remember: progress, not perfection. You've got this! 🎯"
    else if k == 3 then "! Your future self will thank you for these healthy habits. 🙌"
    else if k == 4 then ", nutrition is self-care. You're investing in your health every day! 💚"
    else if k == 5 then "! Small daily improvements lead to stunning long-term results. 🚀"
    else if k == 6 then ", your commitment to health is inspiring! Keep nourishing your body well. 🥗"
    else "! Every meal is an opportunity to fuel your goals. ⭐"
  }

  /** The eight motivation templates filled in with a user's name; every one
      of them names the user. */
  function Motivations(name: string): (ms: seq<string>)
    ensures |ms| == 8
    ensures forall k :: 0 <= k < 8 ==> ms[k] == MotivationPrefix(k) + name + MotivationSuffix(k)
    ensures forall k :: 0 <= k < 8 ==> Mentions(ms[k], name)
  {
    var ms := seq(8, k requires 0 <= k < 8 => MotivationPrefix(k) + name + MotivationSuffix(k));
    forall k | 0 <= k < 8
      ensures Mentions(ms[k], name)
    {
      MentionsBetween(MotivationPrefix(k), name, MotivationSuffix(k));
    }
    ms
  }

  /** One of the eight templates, chosen by the draw, naming the user. */
  function GetMotivation(profile: UserProfile, r: real): (m: string)
    requires IsDraw(r)
    ensures m in Motivations(profile.name)
    ensures Mentions(m, profile.name)
  {
    var ms := Motivations(profile.name);
    ms[PickIndex(r, |ms|)]
  }
}
