/** The persisted authentication store (`useAuthStore`): whether a user is
    signed in, which one, and whether the persisted copy has been read back;
    with sign-up, sign-in, sign-out and the session check.

    Each call to the auth service is a parameter holding its response; a
    response that reports an error and a call that throws are both `Err`.
 */
module AuthStore {
  import opened Wrappers
  import opened Interfaces

  datatype AuthState = AuthState(isLoggedIn: bool, user: Option<User>, hasHydrated: bool)

  const Initial := AuthState(false, None, false)

  const NoUserFromSignUp := Error("No user returned from signup")

  /** Signed in exactly when a user is held. */
  predicate Consistent(s: AuthState) {
    s.isLoggedIn <==> s.user.Some?
  }

  function LoggedOut(s: AuthState): (t: AuthState)
    ensures !t.isLoggedIn && t.user.None? && t.hasHydrated == s.hasHydrated
  {
    s.(isLoggedIn := false, user := None)
  }

  /** The sign-up request: the name travels as user metadata. */
  datatype SignUpRequest = SignUpRequest(email: string, password: string, name: string)

  function SignUpRequestOf(name: string, email: string, password: string): (r: SignUpRequest)
    ensures r.email == email && r.password == password && r.name == name
  {
    SignUpRequest(email, password, name)
  }

  /** `signUp`, given the service's response: the new user, or an error.
      The store itself is not changed: signing up does not sign in. */
  function SignUp(response: Result<Option<User>>): (r: Result<User>)
    ensures response.Err? ==> r == Err(response.error)
    ensures response.Ok? && response.value.None? ==> r == Err(NoUserFromSignUp)
    ensures r.Ok? <==> response.Ok? && response.value.Some?
    ensures r.Ok? ==> r.value == response.value.value
  {
    match response
    case Err(e) => Err(e)
    case Ok(None) => Err(NoUserFromSignUp)
    case Ok(Some(u)) => Ok(u)
  }

  /** `signIn`, given the service's response (whose user the service may
      leave empty): on success the store is signed in with that user; on
      error it is unchanged and the error is rethrown. */
  function SignIn(s: AuthState, response: Result<Option<User>>): (out: (AuthState, Outcome))
    ensures response.Err? ==> out == (s, Fail(response.error))
    ensures response.Ok? ==> out.1 == Pass && out.0 == s.(isLoggedIn := true, user := response.value)
  {
    match response
    case Err(e) => (s, Fail(e))
    case Ok(user) => (s.(isLoggedIn := true, user := user), Pass)
  }

  /** `logOut`: on success the store is signed out; on error unchanged, and
      the error is rethrown. */
  function LogOut(s: AuthState, response: Outcome): (out: (AuthState, Outcome))
    ensures out.1 == response
    ensures response.Pass? ==> out.0 == LoggedOut(s)
    ensures response.Fail? ==> out.0 == s
  {
    match response
    case Pass => (LoggedOut(s), Pass)
    case Fail(_) => (s, response)
  }

  /** `checkSession`, given the session lookup: signed in with the session's
      user if there is one, otherwise signed out; errors count as no
      session. The result says whether a user is signed in. */
  function CheckSession(s: AuthState, session: Result<Option<User>>): (out: (AuthState, bool))
    ensures out.1 <==> session.Ok? && session.value.Some?
    ensures out.1 ==> out.0.user == session.value
    ensures out.0.isLoggedIn == out.1
    ensures out.0.hasHydrated == s.hasHydrated
  {
    match session
    case Err(_) => (LoggedOut(s), false)
    case Ok(None) => (LoggedOut(s), false)
    case Ok(Some(u)) => (s.(isLoggedIn := true, user := Some(u)), true)
  }

  /** The session check restores consistency whatever the state before. */
  lemma CheckSessionConsistent(s: AuthState, session: Result<Option<User>>)
    ensures Consistent(CheckSession(s, session).0)
  {
  }

  /** Signing out and failed calls keep the store consistent; signing in
      does so when the service returns a user with its success. */
  lemma ActionsPreserveConsistency(s: AuthState, signIn: Result<Option<User>>, logOut: Outcome)
    requires Consistent(s)
    requires signIn.Ok? ==> signIn.value.Some?
    ensures Consistent(SignIn(s, signIn).0)
    ensures Consistent(LogOut(s, logOut).0)
  {
  }

  /** A sign-in success without a user leaves the store claiming a sign-in
      with no user. */
  lemma SignInWithoutUser(s: AuthState)
    ensures !Consistent(SignIn(s, Ok(None)).0)
  {
  }

  function SetHasHydrated(s: AuthState, value: bool): (t: AuthState)
    ensures t.hasHydrated == value && t.isLoggedIn == s.isLoggedIn && t.user == s.user
  {
    s.(hasHydrated := value)
  }

  /** What is written to local storage. */
  datatype Persisted = Persisted(isLoggedIn: bool, user: Option<User>, hasHydrated: bool)

  /** Reading the stored copy back, then marking the store hydrated and
      checking the session. When reading fails, nothing happens. */
  function Rehydrate(s: AuthState, stored: Result<Option<Persisted>>, session: Result<Option<User>>): (t: AuthState)
    ensures stored.Err? ==> t == s
    ensures stored.Ok? ==> t.hasHydrated && Consistent(t)
    ensures stored.Ok? ==> (t.isLoggedIn <==> session.Ok? && session.value.Some?)
  {
    match stored
    case Err(_) => s
    case Ok(p) =>
      var loaded := if p.Some? then AuthState(p.value.isLoggedIn, p.value.user, p.value.hasHydrated) else s;
      CheckSession(SetHasHydrated(loaded, true), session).0
  }
}
