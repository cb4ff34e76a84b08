/** The progress screen: the recent-weights window, the trend between the
    two newest weights, the BMI colour, and the weight update that writes a
    sample and the new profile weight to the store. */
module ProgressScreen {
  import opened Types
  import opened NumberText
  import BmiCalculator
  import Storage

  /** The displayed history: the last seven samples at most, newest first. */
  function HistoryWindow(history: seq<WeightSample>): (w: seq<WeightSample>)
  {
    Reverse(LastUpTo(history, 7))
  }

  /** The window holds min(7, n) samples, and its i-th entry is the i-th
      newest sample of the history. */
  lemma {:induction false} HistoryWindowNewestFirst(history: seq<WeightSample>)
    ensures |HistoryWindow(history)| == if |history| < 7 then |history| else 7
    ensures forall i :: 0 <= i < |HistoryWindow(history)| ==>
      HistoryWindow(history)[i] == history[|history| - 1 - i]
  {
    ReverseLength(LastUpTo(history, 7));
    forall i | 0 <= i < |HistoryWindow(history)|
      ensures HistoryWindow(history)[i] == history[|history| - 1 - i]
    {
      HistoryWindowAt(history, i);
    }
  }

  /** Entry i of the window is the i-th newest sample. */
  lemma {:induction false} HistoryWindowAt(history: seq<WeightSample>, i: nat)
    requires i < |history| && i < 7
    ensures i < |HistoryWindow(history)| && HistoryWindow(history)[i] == history[|history| - 1 - i]
  {
    var last := LastUpTo(history, 7);
    var k := |last| - 1 - i;
    assert last[k] == history[|history| - 1 - i];
    ReverseAt(last, i);
    assert HistoryWindow(history) == Reverse(last);
  }

  datatype Direction = Up | Down | Stable

  /** A trend: its direction, the size of the change in kilograms and the
      colour it is shown in. */
  datatype Trend = Trend(direction: Direction, magnitude: real, color: string)

  /** The trend of a newest-first window: the newest weight minus the one
      before it; none with fewer than two samples. */
  function WeightTrend(window: seq<WeightSample>): (t: Option<Trend>)
    ensures t.None? <==> |window| < 2
    ensures t.Some? ==> var diff := window[0].weight - window[1].weight;
      && t.value.magnitude >= 0.0
      && (t.value.magnitude == diff || t.value.magnitude == -diff)
      && (t.value.direction == Up <==> diff > 0.0)
      && (t.value.direction == Down <==> diff < 0.0)
      && (t.value.direction == Stable <==> diff == 0.0)
    ensures t.Some? ==> t.value.color == match t.value.direction
      case Up => "#e74c3c"
      case Down => "#27ae60"
      case Stable => "#95a5a6"
  {
    if |window| < 2 then None
    else
      var diff := window[0].weight - window[1].weight;
      if diff > 0.0 then Some(Trend(Up, diff, "#e74c3c"))
      else if diff < 0.0 then Some(Trend(Down, -diff, "#27ae60"))
      else Some(Trend(Stable, 0.0, "#95a5a6"))
  }

  /** Over the displayed window the trend compares the two newest samples of
      the whole history. */
  lemma TrendOfHistory(history: seq<WeightSample>)
    requires |history| >= 2
    ensures var t := WeightTrend(HistoryWindow(history));
      var diff := history[|history| - 1].weight - history[|history| - 2].weight;
      && t.Some?
      && (t.value.direction == Up <==> diff > 0.0)
      && (t.value.direction == Down <==> diff < 0.0)
      && (t.value.magnitude == diff || t.value.magnitude == -diff)
  {
    HistoryWindowNewestFirst(history);
  }

  /** The colour of a BMI, banded like the category. */
  function BmiColor(bmi: real): string
  {
    if bmi < 18.5 then "#3498db"
    else if bmi < 25.0 then "#27ae60"
    else if bmi < 30.0 then "#f39c12"
    else "#e74c3c"
  }

  /** One colour per category. */
  function CategoryColor(c: BmiCategory): string
  {
    match c
    case Underweight => "#3498db"
    case Normal => "#27ae60"
    case Overweight => "#f39c12"
    case Obese => "#e74c3c"
  }

  /** The colour uses the category's thresholds in the same order: it is
      exactly the colour of the BMI's category, and no two categories share
      a colour. */
  lemma BmiColorMatchesCategory(bmi: real, c1: BmiCategory, c2: BmiCategory)
    ensures BmiColor(bmi) == CategoryColor(BmiCalculator.BmiCategoryOf(bmi))
    ensures c1 != c2 ==> CategoryColor(c1) != CategoryColor(c2)
  {
    assert CategoryColor(Underweight)[1] == '3';
    assert CategoryColor(Normal)[1] == '2';
    assert CategoryColor(Overweight)[1] == 'f';
    assert CategoryColor(Obese)[1] == 'e';
  }

  /** The check before a weight update: refused when the text is empty, no
      profile is loaded, or the text does not read as a positive number. */
  function CheckWeightUpdate(text: string, profile: Option<UserProfile>): (r: Result<real>)
    ensures r.Ok? <==> text != [] && profile.Some? && ParseFloat(text).Some? && ParseFloat(text).value > 0.0
    ensures r.Ok? ==> r.value == ParseFloat(text).value && r.value > 0.0
    ensures r.Err? ==> r.message == "Please enter a valid weight"
  {
    if text == [] || profile.None? then Err("Please enter a valid weight")
    else
      var w := ParseFloat(text);
      if w.None? || w.value <= 0.0 then Err("Please enter a valid weight")
      else Ok(w.value)
  }

  /** Empty or blank text and a missing profile are refused; a positive
      whole number of kilograms is accepted as that number. */
  lemma WeightUpdateCases(text: string, p: Option<UserProfile>)
    ensures CheckWeightUpdate([], p).Err?
    ensures CheckWeightUpdate(text, None).Err?
    ensures IsBlank(text) ==> CheckWeightUpdate(text, p).Err?
    ensures && p.Some? && |text| > 0
            && (forall i :: 0 <= i < |text| ==> IsDigit(text[i]))
            && DigitsValue(text) > 0
            ==> CheckWeightUpdate(text, p) == Ok(DigitsValue(text) as real)
  {
    if IsBlank(text) {
      ParseOfBlank(text);
    }
    if |text| > 0 && forall i :: 0 <= i < |text| ==> IsDigit(text[i]) {
      ParseFloatOfDigits(text);
    }
  }

  class ProgressScreen {
    var profile: Option<UserProfile>
    var newWeight: string
    var weightHistory: seq<WeightSample>

    constructor()
      ensures profile == None && newWeight == "" && weightHistory == []
    {
      profile := None;
      newWeight := "";
      weightHistory := [];
    }

    /** Reloads the profile (kept when none is stored) and the window of the
        stored history. */
    method LoadData(store: Storage.Store)
      modifies this
      ensures profile == if store.profile.Some? then store.profile else old(profile)
      ensures weightHistory == HistoryWindow(store.weightHistory)
      ensures newWeight == old(newWeight)
    {
      var userProfile := store.GetUserProfile();
      if userProfile.Some? {
        profile := userProfile;
      }
      var history := store.GetWeightHistory();
      weightHistory := HistoryWindow(history);
    }

    method OnWeightTextChange(text: string)
      modifies this
      ensures newWeight == text
      ensures profile == old(profile) && weightHistory == old(weightHistory)
    {
      newWeight := text;
    }

    /** Checks the entered text; on acceptance appends one sample for today,
        saves the loaded profile with only its weight changed, clears the
        text and reloads. A refusal changes nothing. */
    method HandleUpdateWeight(store: Storage.Store, today: string) returns (r: Result<real>)
      modifies this, store
      ensures r == CheckWeightUpdate(old(newWeight), old(profile))
      ensures r.Err? ==> && profile == old(profile) && newWeight == old(newWeight)
                         && weightHistory == old(weightHistory)
                         && store.profile == old(store.profile)
                         && store.weightHistory == old(store.weightHistory)
      ensures r.Ok? ==> && store.weightHistory == old(store.weightHistory) + [WeightSample(today, r.value)]
                        && store.profile == Some(old(profile).value.(weight := r.value))
                        && profile == store.profile
                        && newWeight == ""
                        && weightHistory == HistoryWindow(store.weightHistory)
      ensures store.progress == old(store.progress)
    {
      r := CheckWeightUpdate(newWeight, profile);
      if r.Err? {
        return;
      }
      var weight := r.value;
      store.SaveWeight(today, weight);
      var updatedProfile := profile.value.(weight := weight);
      store.SaveUserProfile(updatedProfile);
      newWeight := "";
      LoadData(store);
    }
  }
}
