/** The redirect hook (`useAuthRedirect`): once the auth store is hydrated it
    checks the session and sends a visitor who must be signed in to the
    login page, or a signed-in visitor who must be a guest to the given
    page (home by default).
 */
module AuthRedirect {
  import opened Wrappers
  import Strings

  const LoginPath := "/login"
  const HomePath := "/"

  /** The hook's options; the whole record may be omitted. */
  datatype Options = Options(requireAuth: Option<bool>, requireGuest: Option<bool>, redirectTo: Option<string>)

  function RequireAuth(options: Option<Options>): bool {
    options.Some? && options.value.requireAuth.GetOr(false)
  }

  function RequireGuest(options: Option<Options>): bool {
    options.Some? && options.value.requireGuest.GetOr(false)
  }

  /** `redirectTo || "/"`. */
  function GuestTarget(options: Option<Options>): (target: string)
    ensures target != ""
    ensures options.Some? && options.value.redirectTo.Some? && options.value.redirectTo.value != "" ==>
      target == options.value.redirectTo.value
    ensures !(options.Some? && options.value.redirectTo.Some? && options.value.redirectTo.value != "") ==>
      target == HomePath
  {
    if options.Some? && options.value.redirectTo.Some? && Strings.Truthy(options.value.redirectTo.value)
    then options.value.redirectTo.value
    else HomePath
  }

  /** What one run of `checkAndRedirect` does: the navigation, and the new
      value of `isChecking`. `check` is the session check's result or
      failure. */
  datatype Effect = Effect(redirect: Option<string>, isChecking: bool)

  function CheckAndRedirect(options: Option<Options>, hasHydrated: bool, isChecking: bool, check: Result<bool>): (e: Effect)
    ensures !hasHydrated ==> e == Effect(None, isChecking)
    ensures hasHydrated ==> !e.isChecking
    ensures hasHydrated && check.Ok? ==>
      e.redirect == if RequireAuth(options) && !check.value then Some(LoginPath)
                    else if RequireGuest(options) && check.value then Some(GuestTarget(options))
                    else None
    ensures hasHydrated && check.Err? ==>
      e.redirect == if RequireAuth(options) then Some(LoginPath) else None
  {
    if !hasHydrated then Effect(None, isChecking)
    else
      match check
      case Ok(isAuthenticated) =>
        if RequireAuth(options) && !isAuthenticated then Effect(Some(LoginPath), false)
        else if RequireGuest(options) && isAuthenticated then Effect(Some(GuestTarget(options)), false)
        else Effect(None, false)
      case Err(_) =>
        Effect(if RequireAuth(options) then Some(LoginPath) else None, false)
  }

  /** A protected page never lets an unauthenticated visitor stay, and a
      guest page never sends away one who is not signed in. */
  lemma RedirectsMatchIntent(options: Option<Options>, isChecking: bool, check: Result<bool>)
    ensures var e := CheckAndRedirect(options, true, isChecking, check);
      && (RequireAuth(options) && (check.Err? || !check.value) ==> e.redirect == Some(LoginPath))
      && (check.Ok? && !check.value ==> e.redirect.None? || e.redirect == Some(LoginPath))
      && (!RequireAuth(options) && !RequireGuest(options) ==> e.redirect.None?)
  {
  }

  /** Without options the hook never navigates. */
  lemma NoOptionsNoRedirect(hasHydrated: bool, isChecking: bool, check: Result<bool>)
    ensures CheckAndRedirect(None, hasHydrated, isChecking, check).redirect.None?
  {
  }
}
