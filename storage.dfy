/** The app's persistent store: the user profile, one daily-progress record
    per calendar date, and the append-only weight history. The key-value
    storage becomes the fields of a `Store` object; a record read back is the
    record last saved under its key. */
module Storage {
  import opened Types

  /** The record saved under `date`, or None when nothing is stored there. */
  function Lookup(m: map<string, DailyProgress>, date: string): (r: Option<DailyProgress>)
    ensures r.Some? <==> date in m
    ensures r.Some? ==> r.value == m[date]
  {
    if date in m then Some(m[date]) else None
  }

  /** A record whose consumed calories are the sum of its logs. */
  predicate Balanced(p: DailyProgress)
  {
    p.caloriesConsumed == TotalCalories(p.foodLogs)
  }

  /** The record adding a log produces: an absent record counts as one with
      no logs, no calories, a goal of 0 and no weight, dated `date`; a present
      one keeps its date, goal and weight. */
  function WithFoodLog(existing: Option<DailyProgress>, date: string, log: FoodLog): (r: DailyProgress)
    ensures r.foodLogs == (if existing.Some? then existing.value.foodLogs else []) + [log]
    ensures r.caloriesConsumed == (if existing.Some? then existing.value.caloriesConsumed else 0) + log.calories
    ensures existing.None? ==> r.date == date && r.caloriesGoal == 0 && r.weight == None
    ensures existing.Some? ==> && r.date == existing.value.date
                               && r.caloriesGoal == existing.value.caloriesGoal
                               && r.weight == existing.value.weight
  {
    match existing
    case Some(progress) =>
      progress.(foodLogs := progress.foodLogs + [log],
                caloriesConsumed := progress.caloriesConsumed + log.calories)
    case None =>
      DailyProgress(date, log.calories, 0, None, [log])
  }

  /** Adding a log keeps the consumed calories equal to the sum of the logs. */
  lemma {:induction false} WithFoodLogKeepsBalance(existing: Option<DailyProgress>, date: string, log: FoodLog)
    requires existing.Some? ==> Balanced(existing.value)
    ensures Balanced(WithFoodLog(existing, date, log))
  {
    var before := if existing.Some? then existing.value.foodLogs else [];
    TotalCaloriesConcat(before, [log]);
    assert [log][..0] == [];
  }

  /** The record after adding `logs` one by one, in order. */
  function AfterLogs(existing: Option<DailyProgress>, date: string, logs: seq<FoodLog>): Option<DailyProgress>
  {
    if logs == [] then existing
    else Some(WithFoodLog(AfterLogs(existing, date, logs[..|logs| - 1]), date, logs[|logs| - 1]))
  }

  /** N adds to an absent date leave a record holding exactly those N logs in
      order, their calorie sum, a goal of 0 and that date. */
  lemma {:induction false} AfterLogsFromAbsent(date: string, logs: seq<FoodLog>)
    requires |logs| > 0
    ensures var r := AfterLogs(None, date, logs);
      && r.Some?
      && r.value.foodLogs == logs
      && |r.value.foodLogs| == |logs|
      && Balanced(r.value)
      && r.value.caloriesGoal == 0
      && r.value.date == date
  {
    var init := logs[..|logs| - 1];
    if init == [] {
      WithFoodLogKeepsBalance(None, date, logs[0]);
      assert [logs[0]] == logs;
    } else {
      AfterLogsFromAbsent(date, init);
      WithFoodLogKeepsBalance(AfterLogs(None, date, init), date, logs[|logs| - 1]);
      assert init + [logs[|logs| - 1]] == logs;
    }
  }

  /** Adds to an existing record keep its logs as a prefix, add the new logs'
      calories, and leave its date, goal and weight alone. */
  lemma {:induction false} AfterLogsExtends(p: DailyProgress, date: string, logs: seq<FoodLog>)
    ensures var r := AfterLogs(Some(p), date, logs);
      && r.Some?
      && r.value.foodLogs == p.foodLogs + logs
      && r.value.caloriesConsumed == p.caloriesConsumed + TotalCalories(logs)
      && r.value.date == p.date
      && r.value.caloriesGoal == p.caloriesGoal
      && r.value.weight == p.weight
  {
    if logs != [] {
      var init := logs[..|logs| - 1];
      AfterLogsExtends(p, date, init);
      assert p.foodLogs + init + [logs[|logs| - 1]] == p.foodLogs + logs;
    }
  }

  class Store {
    var profile: Option<UserProfile>
    var progress: map<string, DailyProgress>
    var weightHistory: seq<WeightSample>

    /** Every record is saved under its own date. */
    predicate Keyed()
      reads this
    {
      forall d :: d in progress ==> progress[d].date == d
    }

    /** Every record's consumed calories are the sum of its logs. */
    predicate AllBalanced()
      reads this
    {
      forall d :: d in progress ==> Balanced(progress[d])
    }

    /** A fresh store holds nothing. */
    constructor()
      ensures profile == None && progress == map[] && weightHistory == []
      ensures Keyed() && AllBalanced()
    {
      profile := None;
      progress := map[];
      weightHistory := [];
    }

    method SaveUserProfile(p: UserProfile)
      modifies this
      ensures profile == Some(p)
      ensures progress == old(progress) && weightHistory == old(weightHistory)
    {
      profile := Some(p);
    }

    /** The saved profile, or None when there is none. */
    method GetUserProfile() returns (r: Option<UserProfile>)
      ensures r == profile
    {
      r := profile;
    }

    /** Saves the record under its own date, replacing any record there. */
    method SaveDailyProgress(p: DailyProgress)
      modifies this
      ensures progress == old(progress)[p.date := p]
      ensures profile == old(profile) && weightHistory == old(weightHistory)
      ensures old(Keyed()) ==> Keyed()
      ensures old(AllBalanced()) && Balanced(p) ==> AllBalanced()
    {
      progress := progress[p.date := p];
    }

    /** The record saved under `date`, or None. */
    method GetDailyProgress(date: string) returns (r: Option<DailyProgress>)
      ensures r.Some? <==> date in progress
      ensures r.Some? ==> r.value == progress[date]
    {
      r := Lookup(progress, date);
    }

    /** Reads the record for `date`, adds the log to it (or creates it) and
      saves it back under the record's date. In a keyed store that is
      `date`, every other date's record is left as it was, and a balanced
      store stays balanced. */
    method AddFoodLog(date: string, log: FoodLog)
      modifies this
      ensures var r := WithFoodLog(Lookup(old(progress), date), date, log);
        progress == old(progress)[r.date := r]
      ensures profile == old(profile) && weightHistory == old(weightHistory)
      ensures old(Keyed()) ==> && Keyed()
                               && date in progress
                               && progress == old(progress)[date := progress[date]]
      ensures old(AllBalanced()) ==> AllBalanced()
    {
      var existing := GetDailyProgress(date);
      var updated := WithFoodLog(existing, date, log);
      if AllBalanced() {
        WithFoodLogKeepsBalance(existing, date, log);
      }
      SaveDailyProgress(updated);
    }

    /** Appends one sample for today at the end; nothing is deduplicated. */
    method SaveWeight(today: string, weight: real)
      modifies this
      ensures weightHistory == old(weightHistory) + [WeightSample(today, weight)]
      ensures profile == old(profile) && progress == old(progress)
    {
      var history := weightHistory;
      history := history + [WeightSample(today, weight)];
      weightHistory := history;
    }

    /** The whole history, oldest first; empty when nothing was saved. */
    method GetWeightHistory() returns (h: seq<WeightSample>)
      ensures h == weightHistory
    {
      h := weightHistory;
    }
  }
}
