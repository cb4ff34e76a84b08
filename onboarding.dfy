/** The onboarding form: the profile being edited one field at a time, and
    the submit check that saves it and completes onboarding. */
module Onboarding {
  import opened Types
  import opened NumberText
  import BmiCalculator
  import Storage
  import AppNavigator

  /** The form's starting profile: empty name, zero age, height and weight. */
  function InitialProfile(): (p: UserProfile)
    ensures p.name == "" && p.age == 0 && p.height == 0.0 && p.weight == 0.0
    ensures p.gender == Male && p.activityLevel == Moderate
    ensures p.goal == Maintain && p.dietaryPreference == Vegetarian
  {
    UserProfile("", 0, 0.0, 0.0, Male, Moderate, Maintain, Vegetarian)
  }

  /** The submit check: a non-empty name and positive age, height and
      weight. */
  predicate CanSubmit(p: UserProfile)
  {
    p.name != "" && p.age > 0 && p.height > 0.0 && p.weight > 0.0
  }

  /** The unedited form is always refused, while a name of spaces alone
      passes the check. */
  lemma SubmitCheckCases(p: UserProfile, spaces: string)
    requires spaces != [] && IsBlank(spaces)
    requires p.age > 0 && p.height > 0.0 && p.weight > 0.0
    ensures !CanSubmit(InitialProfile())
    ensures CanSubmit(p.(name := spaces))
    ensures !CanSubmit(p.(name := ""))
  {
  }

  /** Any accepted profile can be analysed: its height is not zero and its
      BMI is positive. */
  lemma SubmittedProfileAnalyzable(p: UserProfile)
    requires CanSubmit(p)
    ensures p.height != 0.0
    ensures BmiCalculator.AnalyzeBmi(p).bmi > 0.0
  {
  }

  /** The age field: `parseInt(text) || 0`, so text that is not a number and
      the number 0 both give 0. */
  function AgeFromText(text: string): (age: int)
    ensures ParseInt(text).None? ==> age == 0
    ensures ParseInt(text).Some? ==> age == ParseInt(text).value
  {
    var parsed := ParseInt(text);
    if parsed.Some? && parsed.value != 0 then parsed.value else 0
  }

  /** An age typed back from its own text is that age. */
  lemma AgeFromTextRoundTrip(age: int)
    ensures AgeFromText(IntText(age)) == age
  {
    IntTextRoundTrip(age);
  }

  /** A decimal field (height or weight): the parsed number, or the previous
      value when the text is not a number. */
  function DecimalFieldValue(text: string, previous: real): (v: real)
    ensures ParseFloat(text).Some? ==> v == ParseFloat(text).value
    ensures ParseFloat(text).None? ==> v == previous
  {
    match ParseFloat(text)
    case Some(x) => x
    case None => previous
  }

  class OnboardingScreen {
    var profile: UserProfile
    var heightText: string
    var weightText: string

    constructor()
      ensures profile == InitialProfile() && heightText == "" && weightText == ""
    {
      profile := InitialProfile();
      heightText := "";
      weightText := "";
    }

    method OnNameChange(text: string)
      modifies this
      ensures profile == old(profile).(name := text)
      ensures heightText == old(heightText) && weightText == old(weightText)
    {
      profile := profile.(name := text);
    }

    method OnAgeChange(text: string)
      modifies this
      ensures profile == old(profile).(age := AgeFromText(text))
      ensures heightText == old(heightText) && weightText == old(weightText)
    {
      profile := profile.(age := AgeFromText(text));
    }

    /** The text is always kept; the height changes only when it reads as a
        number. */
    method OnHeightChange(text: string)
      modifies this
      ensures heightText == text
      ensures profile == old(profile).(height := DecimalFieldValue(text, old(profile).height))
      ensures weightText == old(weightText)
    {
      heightText := text;
      var numValue := ParseFloat(text);
      if numValue.Some? {
        profile := profile.(height := numValue.value);
      }
    }

    method OnWeightChange(text: string)
      modifies this
      ensures weightText == text
      ensures profile == old(profile).(weight := DecimalFieldValue(text, old(profile).weight))
      ensures heightText == old(heightText)
    {
      weightText := text;
      var numValue := ParseFloat(text);
      if numValue.Some? {
        profile := profile.(weight := numValue.value);
      }
    }

    method OnGenderChange(g: Gender)
      modifies this
      ensures profile == old(profile).(gender := g)
      ensures heightText == old(heightText) && weightText == old(weightText)
    {
      profile := profile.(gender := g);
    }

    method OnActivityChange(a: ActivityLevel)
      modifies this
      ensures profile == old(profile).(activityLevel := a)
      ensures heightText == old(heightText) && weightText == old(weightText)
    {
      profile := profile.(activityLevel := a);
    }

    method OnGoalChange(g: Goal)
      modifies this
      ensures profile == old(profile).(goal := g)
      ensures heightText == old(heightText) && weightText == old(weightText)
    {
      profile := profile.(goal := g);
    }

    method OnDietChange(d: DietaryPreference)
      modifies this
      ensures profile == old(profile).(dietaryPreference := d)
      ensures heightText == old(heightText) && weightText == old(weightText)
    {
      profile := profile.(dietaryPreference := d);
    }

    /** Refuses an invalid profile and changes nothing; otherwise saves it
        and completes onboarding. */
    method HandleSubmit(store: Storage.Store, nav: AppNavigator.Navigator) returns (r: Result<UserProfile>)
      modifies store, nav
      ensures r.Ok? <==> CanSubmit(profile)
      ensures r.Err? ==> && r.message == "Please fill in all fields with valid values"
                         && store.profile == old(store.profile)
                         && nav.isOnboarded == old(nav.isOnboarded)
      ensures r.Ok? ==> && r.value == profile
                        && store.profile == Some(profile)
                        && nav.isOnboarded == Some(true)
      ensures store.progress == old(store.progress) && store.weightHistory == old(store.weightHistory)
    {
      if profile.name == "" || profile.age <= 0 || profile.height <= 0.0 || profile.weight <= 0.0 {
        return Err("Please fill in all fields with valid values");
      }
      store.SaveUserProfile(profile);
      nav.OnComplete();
      r := Ok(profile);
    }
  }
}
