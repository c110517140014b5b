/** The profile store (`useProfileStore`): the signed-in user's profile, a
    loading flag, and whether the profile lookup has completed. */
module ProfileStore {
  import opened Wrappers
  import opened Interfaces

  datatype ProfileState = ProfileState(profile: Option<Profile>, isLoading: bool, hasChecked: bool)

  const Initial := ProfileState(None, false, false)

  function SetProfile(s: ProfileState, profile: Option<Profile>): (t: ProfileState)
    ensures t.profile == profile && t.isLoading == s.isLoading && t.hasChecked == s.hasChecked
  {
    s.(profile := profile)
  }

  function SetLoading(s: ProfileState, loading: bool): (t: ProfileState)
    ensures t.isLoading == loading && t.profile == s.profile && t.hasChecked == s.hasChecked
  {
    s.(isLoading := loading)
  }

  function SetHasChecked(s: ProfileState, checked: bool): (t: ProfileState)
    ensures t.hasChecked == checked && t.profile == s.profile && t.isLoading == s.isLoading
  {
    s.(hasChecked := checked)
  }

  /** `clearProfile`: unlike `setProfile(null)`, it also forgets that the
      lookup ran, so the next visit checks again. The loading flag stays. */
  function ClearProfile(s: ProfileState): (t: ProfileState)
    ensures t.profile.None? && !t.hasChecked && t.isLoading == s.isLoading
  {
    s.(profile := None, hasChecked := false)
  }

  /** Clearing a checked store differs from setting no profile exactly in
      `hasChecked`. */
  lemma ClearProfileVersusSetNone(s: ProfileState)
    ensures ClearProfile(s) == SetHasChecked(SetProfile(s, None), false)
    ensures s.hasChecked ==> ClearProfile(s) != SetProfile(s, None)
  {
  }

  /** Clearing the store from its initial flags gives the initial state. */
  lemma ClearProfileResets(s: ProfileState)
    requires !s.isLoading
    ensures ClearProfile(s) == Initial
  {
  }
}
