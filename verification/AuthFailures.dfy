/** Failures of the session's requests: refusals, those that may pass, and the pause before the next try
    (client/src/stores/authStore.ts). */
module AuthFailures {
  import opened Option

  /** A failed request: its status when it was answered, the account code the answer carried, and its Retry-After in
      milliseconds from now when it had one that could be read. */
  datatype Failure = Failure(status: Option<int>, cancelled: bool, code: Option<string>, retryAfter: Option<real>)

  /** A failed refresh: `definitive` when its token is refused for good; `cause` is the request behind a passing one. */
  datatype RefreshError = RefreshError(definitive: bool, accountBlocked: Option<string>, cause: Option<Failure>)

  datatype Thrown = OfRequest(failure: Failure) | OfRefresh(error: RefreshError)

  const RETRY_DELAYS_MS: seq<int> := [2000, 5000, 10000, 20000, 30000]
  const MAX_RETRY_AFTER_MS := 60_000.0
  const RETRY_JITTER := 0.2

  predicate IsPassingFailure(f: Failure) {
    !f.cancelled && (f.status.None? || f.status.value == 408 || f.status.value == 429 || f.status.value >= 500)
  }

  predicate IsRefreshRefusal(f: Failure) {
    f.status == Some(401) || f.status == Some(403)
  }

  function BlockedCodeOf(f: Failure): Option<string> {
    if f.code == Some("ACCOUNT_CLOSED") || f.code == Some("USER_SUSPENDED") then f.code else None
  }

  function RefreshErrorFrom(f: Failure): RefreshError {
    if BlockedCodeOf(f).Some? then RefreshError(true, BlockedCodeOf(f), None)
    else if IsRefreshRefusal(f) then RefreshError(true, None, None)
    else RefreshError(false, None, Some(f))
  }

  /** No refresh token to be found: refused without asking. */
  const NO_REFRESH_TOKEN := RefreshError(true, None, None)

  function Min(a: real, b: real): real {
    if a <= b then a else b
  }

  function Max(a: real, b: real): real {
    if a >= b then a else b
  }

  function Round(x: real): int {
    (x + 0.5).Floor
  }

  /** The pause after `attempt` passing failures; `chance` is the random draw, from 0 up to 1. */
  function RetryWaitMs(f: Option<Failure>, attempt: nat, chance: real): real
    requires 0.0 <= chance < 1.0
  {
    if f.Some? && f.value.retryAfter.Some? then Min(Max(f.value.retryAfter.value, 1000.0), MAX_RETRY_AFTER_MS)
    else
      var wait := RETRY_DELAYS_MS[if attempt < |RETRY_DELAYS_MS| then attempt else |RETRY_DELAYS_MS| - 1];
      Round(wait as real * (1.0 - RETRY_JITTER + chance * 2.0 * RETRY_JITTER)) as real
  }

  /** A passing failure never ends a session, and a refusal is never waited out: no failure is both. */
  lemma RefusedIsNotPassing(f: Failure)
    requires IsPassingFailure(f) && BlockedCodeOf(f).None?
    ensures !RefreshErrorFrom(f).definitive && RefreshErrorFrom(f).cause == Some(f)
  {
  }

  /** What a failed refresh says. Its token is refused for good by a 401, a 403 or a closed or suspended account, whose
      code it then carries; any other failure is passed on, and is one to wait out if and only if the page did not call
      it off and it has no answer, or a 408, a 429 or a 5xx. */
  lemma FailedRefreshSays(f: Failure)
    ensures var error, blocked := RefreshErrorFrom(f), f.code in {Some("ACCOUNT_CLOSED"), Some("USER_SUSPENDED")};
            && (error.definitive <==> f.status == Some(401) || f.status == Some(403) || blocked)
            && error.accountBlocked == (if blocked then f.code else None)
            && (!error.definitive ==>
                  error.cause == Some(f)
                  && (IsPassingFailure(f) <==>
                        !f.cancelled && (f.status.None? || f.status == Some(408) || f.status == Some(429)
                                         || f.status.value >= 500)))
  {
  }

  /** Every wait is between one second and one minute; one the server asks for is kept to, and a fixed one runs with
      the draw from a fifth below its delay to a fifth above, to the millisecond. */
  lemma WaitsAreBounded(f: Option<Failure>, attempt: nat, chance: real)
    requires 0.0 <= chance < 1.0
    ensures 1000.0 <= RetryWaitMs(f, attempt, chance) <= 60_000.0
    ensures f.Some? && f.value.retryAfter.Some? && 1000.0 <= f.value.retryAfter.value <= 60_000.0 ==>
              RetryWaitMs(f, attempt, chance) == f.value.retryAfter.value
    ensures !(f.Some? && f.value.retryAfter.Some?) ==>
              var wait := RETRY_DELAYS_MS[if attempt < 5 then attempt else 4] as real;
              var drawn := wait * (0.8 + 0.4 * chance);
              drawn - 0.5 <= RetryWaitMs(f, attempt, chance) <= drawn + 0.5
  {
    if !(f.Some? && f.value.retryAfter.Some?) {
      var wait := RETRY_DELAYS_MS[if attempt < |RETRY_DELAYS_MS| then attempt else |RETRY_DELAYS_MS| - 1] as real;
      assert 2000.0 <= wait <= 30_000.0;
      var moved := wait * (1.0 - RETRY_JITTER + chance * 2.0 * RETRY_JITTER);
      assert moved == 0.8 * wait + 0.4 * (chance * wait);
      assert 0.0 <= chance * wait <= wait;
    }
  }
}
