/** The start-up check: a saved profile means the user is onboarded, and a
    saved height below 100 is taken to be in metres and rewritten in
    centimetres. */
module AppNavigator {
  import opened Types
  import Storage

  /** The height migration of a saved profile. */
  function MigrateHeight(p: UserProfile): (q: UserProfile)
    ensures q == p.(height := q.height)
    ensures p.height < 100.0 ==> q.height == p.height * 100.0
    ensures p.height >= 100.0 ==> q == p
  {
    if p.height < 100.0 then p.(height := p.height * 100.0) else p
  }

  /** A height of at least one metre migrates to at least 100 cm, so the next
      launch leaves it alone. */
  lemma MigrationSettles(p: UserProfile)
    requires 1.0 <= p.height
    ensures MigrateHeight(p).height >= 100.0
    ensures MigrateHeight(MigrateHeight(p)) == MigrateHeight(p)
  {
  }

  /** A height below one metre (and above zero) is still below 100 after one
      migration and is multiplied again on the next launch. */
  lemma SmallHeightsMigrateTwice(p: UserProfile)
    requires 0.0 < p.height < 1.0
    ensures MigrateHeight(p).height < 100.0
    ensures MigrateHeight(MigrateHeight(p)).height == p.height * 10000.0
  {
  }

  class Navigator {
    /** None while the check has not finished. */
    var isOnboarded: Option<bool>

    constructor()
      ensures isOnboarded == None
    {
      isOnboarded := None;
    }

    /** Reads the profile, saves it back migrated when its height is below
        100, and records whether there was one. */
    method CheckOnboarding(store: Storage.Store)
      modifies this, store
      ensures isOnboarded == Some(old(store.profile).Some?)
      ensures old(store.profile).Some? ==> store.profile == Some(MigrateHeight(old(store.profile).value))
      ensures old(store.profile).None? ==> store.profile == None
      ensures store.progress == old(store.progress) && store.weightHistory == old(store.weightHistory)
    {
      var profile := store.GetUserProfile();
      if profile.Some? && profile.value.height < 100.0 {
        var updatedProfile := profile.value.(height := profile.value.height * 100.0);
        store.SaveUserProfile(updatedProfile);
      }
      isOnboarded := Some(profile.Some?);
    }

    /** The onboarding screen's completion callback. */
    method OnComplete()
      modifies this
      ensures isOnboarded == Some(true)
    {
      isOnboarded := Some(true);
    }
  }
}
