/** The OAuth callback page (`AuthCallbackPage`): after a first wait it
    checks the session up to three times, one second apart, then shows
    success and goes home after half a second, or shows an error and goes to
    the login page after three seconds.

    The session checks are a parameter giving the outcome of each attempt;
    timers are recorded as the list of waits in milliseconds.
 */
module AuthCallback {
  import opened Wrappers

  const MaxRetries: nat := 3
  const InitialDelay: nat := 1000
  const RetryDelay: nat := 1000
  const SuccessDelay: nat := 500
  const ErrorDelay: nat := 3000
  const HomePath := "/"
  const LoginPath := "/login"

  datatype Attempt = Authenticated | NotAuthenticated | Threw

  datatype Status = Loading | Success | Failed

  /** The index of the first authenticated attempt among the first `n`. */
  function FirstSuccess(attempt: nat -> Attempt, n: nat): (k: Option<nat>)
    ensures k.Some? ==> k.value < n && attempt(k.value) == Authenticated
    ensures k.Some? ==> forall j :: 0 <= j < k.value ==> attempt(j) != Authenticated
    ensures k.None? ==> forall j :: 0 <= j < n ==> attempt(j) != Authenticated
  {
    if n == 0 then None
    else
      match FirstSuccess(attempt, n - 1)
      case Some(k) => Some(k)
      case None => if attempt(n - 1) == Authenticated then Some(n - 1) else None
  }

  /** `count` copies of `x`. */
  function Repeat(x: nat, count: nat): (r: seq<nat>)
    ensures |r| == count && forall i :: 0 <= i < count ==> r[i] == x
  {
    seq(count, _ => x)
  }

  /** `handleCallback`: the final status, where it navigates, how many
      session checks it made, and the waits in order. */
  method HandleCallback(attempt: nat -> Attempt)
    returns (status: Status, redirect: string, calls: nat, waits: seq<nat>)
    ensures status != Loading
    ensures status == Success <==> FirstSuccess(attempt, MaxRetries).Some?
    ensures status == Success ==> calls == FirstSuccess(attempt, MaxRetries).value + 1 && redirect == HomePath
    ensures status == Failed ==> calls == MaxRetries && redirect == LoginPath
    ensures 1 <= calls <= MaxRetries
    ensures waits == [InitialDelay] + Repeat(RetryDelay, calls - 1)
      + [if status == Success then SuccessDelay else ErrorDelay]
  {
    status := Loading;
    waits := [InitialDelay];
    var retries: nat := 0;
    while retries < MaxRetries
      invariant retries <= MaxRetries
      invariant forall j :: 0 <= j < retries ==> attempt(j) != Authenticated
      invariant waits == [InitialDelay] + Repeat(RetryDelay, if retries < MaxRetries then retries else MaxRetries - 1)
    {
      match attempt(retries)
      case Authenticated =>
        status := Success;
        calls := retries + 1;
        redirect := HomePath;
        waits := waits + [SuccessDelay];
        assert FirstSuccess(attempt, MaxRetries) == Some(retries);
        return;
      case _ =>
        retries := retries + 1;
        if retries < MaxRetries {
          waits := waits + [RetryDelay];
        }
    }
    status := Failed;
    calls := MaxRetries;
    redirect := LoginPath;
    waits := waits + [ErrorDelay];
  }
}
