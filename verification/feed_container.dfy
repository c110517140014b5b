/** The home feed (`FeedContainer`): on mount it checks the session and looks
    up the user's profile, sending the visitor to the login page when either
    fails; it then renders a spinner, the onboarding form, or the feed with a
    header avatar; and it creates posts as the signed-in author.
 */
module FeedContainer {
  import opened Wrappers
  import opened Interfaces
  import Strings
  import Utils
  import ProfileStore

  const LoginPath := "/login"

  /** What `checkAuthAndProfile` leaves behind: the profile store, the
      user id it learned, and the navigation it asked for. */
  datatype CheckEffect = CheckEffect(store: ProfileStore.ProfileState, userId: Option<string>, redirect: Option<string>)

  /** `checkAuthAndProfile`. `session` stands for the session lookup (an
      error, reported or thrown, and a missing user both send the visitor to
      the login page); `lookup` for the profile lookup by user id, which
      yields no profile when there is no row and fails on any other error. */
  function CheckAuthAndProfile(s: ProfileStore.ProfileState, userId: Option<string>,
                               session: Result<Option<User>>,
                               lookup: string -> Result<Option<Profile>>): (e: CheckEffect)
    ensures !e.store.isLoading
    ensures e.redirect.Some? ==> e.redirect.value == LoginPath
    ensures e.redirect.None? <==> session.Ok? && session.value.Some? && lookup(session.value.value.id).Ok?
    ensures e.redirect.Some? ==> e.store.profile == s.profile && e.store.hasChecked == s.hasChecked
    ensures e.redirect.None? ==>
      e.store.hasChecked && e.store.profile == lookup(session.value.value.id).value
    ensures session.Ok? && session.value.Some? ==> e.userId == Some(session.value.value.id)
    ensures !(session.Ok? && session.value.Some?) ==> e.userId == userId
  {
    var loading := ProfileStore.SetLoading(s, true);
    if session.Err? || session.value.None? then
      CheckEffect(ProfileStore.SetLoading(loading, false), userId, Some(LoginPath))
    else
      var user := session.value.value;
      match lookup(user.id)
      case Err(_) => CheckEffect(ProfileStore.SetLoading(loading, false), Some(user.id), Some(LoginPath))
      case Ok(profile) =>
        var checked := ProfileStore.SetHasChecked(ProfileStore.SetProfile(loading, profile), true);
        CheckEffect(ProfileStore.SetLoading(checked, false), Some(user.id), None)
  }

  /** The header avatar: its image and its fallback initials (the user icon
      stands in when there are none). */
  datatype Header = Header(avatar: Option<string>, initials: Option<string>)

  datatype Screen =
    | Spinner
    | Onboarding
    | Feed(header: Header, currentUserId: Option<string>)

  function HeaderOf(profile: Profile): (h: Header)
    ensures h.initials.Some? <==> Utils.LeadingInitials(profile.name) != ""
    ensures h.initials.Some? ==> h.initials.value == Utils.LeadingInitials(profile.name)
    ensures h.avatar.Some? <==> profile.pfp_url.Some? && profile.pfp_url.value != ""
  {
    var initials := Utils.LeadingInitials(profile.name);
    Header(
      if profile.pfp_url.Some? && Strings.Truthy(profile.pfp_url.value) then profile.pfp_url else None,
      if Strings.Truthy(initials) then Some(initials) else None)
  }

  /** The screen: a spinner until the lookup has completed, the onboarding
      form for a user without a profile, otherwise the feed. */
  function Render(s: ProfileStore.ProfileState, userId: Option<string>): (v: Screen)
    ensures v.Spinner? <==> s.isLoading || !s.hasChecked
    ensures v.Onboarding? <==> !s.isLoading && s.hasChecked && s.profile.None?
    ensures v.Feed? ==> s.profile.Some? && v.header == HeaderOf(s.profile.value)
    ensures v.Feed? ==> (v.currentUserId.Some? <==> userId.Some? && userId.value != "")
  {
    if s.isLoading || !s.hasChecked then Spinner
    else if s.profile.None? then Onboarding
    else Feed(HeaderOf(s.profile.value), if userId.Some? && Strings.Truthy(userId.value) then userId else None)
  }

  /** A visitor sent to the login page never gets past the spinner. */
  lemma RedirectKeepsSpinner(userId: Option<string>, session: Result<Option<User>>,
                             lookup: string -> Result<Option<Profile>>)
    requires CheckAuthAndProfile(ProfileStore.Initial, userId, session, lookup).redirect.Some?
    ensures Render(CheckAuthAndProfile(ProfileStore.Initial, userId, session, lookup).store, userId) == Spinner
  {
  }

  /** A user with a session and a profile sees the feed as themselves. */
  lemma SignedInWithProfileSeesFeed(session: Result<Option<User>>, lookup: string -> Result<Option<Profile>>)
    requires session.Ok? && session.value.Some? && session.value.value.id != ""
    requires lookup(session.value.value.id).Ok? && lookup(session.value.value.id).value.Some?
    ensures var e := CheckAuthAndProfile(ProfileStore.Initial, None, session, lookup);
      Render(e.store, e.userId) == Feed(HeaderOf(lookup(session.value.value.id).value.value), Some(session.value.value.id))
  {
  }

  /** The arguments `handleCreatePost` passes to the posts store. */
  datatype CreateCall = CreateCall(userId: string, content: string, authorName: string, authorPfpUrl: Option<string>)

  /** `handleCreatePost`: nothing happens without a user id or a profile;
      otherwise the post is written as the profile's name and picture, an
      empty picture URL counting as none. */
  function HandleCreatePost(userId: Option<string>, profile: Option<Profile>, content: string): (c: Option<CreateCall>)
    ensures c.Some? <==> userId.Some? && userId.value != "" && profile.Some?
    ensures c.Some? ==>
      && c.value.userId == userId.value && c.value.content == content
      && c.value.authorName == profile.value.name
      && (c.value.authorPfpUrl.Some? <==> profile.value.pfp_url.Some? && profile.value.pfp_url.value != "")
      && (c.value.authorPfpUrl.Some? ==> c.value.authorPfpUrl == profile.value.pfp_url)
  {
    if userId.None? || !Strings.Truthy(userId.value) || profile.None? then None
    else
      var pfp := if profile.value.pfp_url.Some? && Strings.Truthy(profile.value.pfp_url.value) then profile.value.pfp_url else None;
      Some(CreateCall(userId.value, content, profile.value.name, pfp))
  }
}
