/** The session store as it is written: fields changed in place, each method one step of AuthSession
    (client/src/stores/authStore.ts). */
module AuthStore {
  import opened Option
  import opened AuthFailures
  import opened AuthSession

  class Store {
    var accessToken: Option<Access>
    var refreshToken: Option<nat>
    var user: Option<User>
    var isAuthenticated: bool
    var isLoading: bool
    var isSessionChecked: bool
    var sessionRetrying: bool
    var signOutReason: Option<string>
    var storedTokens: Option<Pair>
    var authEpoch: nat
    var sessionReadsSent: nat
    var newestSessionInPlace: nat
    var checksStarted: nat
    var refreshPromise: Mutex
    ghost var accepted: seq<Accepted>
    ghost var endings: seq<Ending>

    ghost function State(): Tab
      reads this
    {
      Tab(accessToken, refreshToken, user, isAuthenticated, isLoading, isSessionChecked, sessionRetrying, signOutReason,
          storedTokens, authEpoch, sessionReadsSent, newestSessionInPlace, checksStarted, refreshPromise, accepted,
          endings)
    }

    constructor (stored: Option<Pair>)
      ensures State() == Tab(if stored.Some? then Some(stored.value.access) else None,
                             if stored.Some? then Some(stored.value.refresh) else None,
                             None, stored.Some?, true, false, false, None, stored, 0, 0, 0, 0, Free, [], [])
    {
      accessToken := if stored.Some? then Some(stored.value.access) else None;
      refreshToken := if stored.Some? then Some(stored.value.refresh) else None;
      user, isAuthenticated, isLoading, isSessionChecked := None, stored.Some?, true, false;
      sessionRetrying, signOutReason, storedTokens := false, None, stored;
      authEpoch, sessionReadsSent, newestSessionInPlace, checksStarted := 0, 0, 0, 0;
      refreshPromise, accepted, endings := Free, [], [];
    }

    method InstallTokens(pair: Pair)
      modifies this
      ensures State() == Installed(old(State()), pair)
    {
      storedTokens := Some(pair);
      authEpoch := authEpoch + 1;
      accessToken, refreshToken, isAuthenticated := Some(pair.access), Some(pair.refresh), true;
      signOutReason := None;
    }

    method AdoptStoredTokens() returns (adopted: bool)
      modifies this
      ensures State() == Adopted(old(State())) && adopted == old(storedTokens).Some?
    {
      if storedTokens.None? {
        return false;
      }
      authEpoch := authEpoch + 1;
      accessToken, refreshToken := Some(storedTokens.value.access), Some(storedTokens.value.refresh);
      isAuthenticated := true;
      return true;
    }

    method StopTheWait()
      modifies this
      ensures State() == StopWaiting(old(State()))
    {
      isLoading, isSessionChecked, sessionRetrying := false, true, false;
    }

    /** What every sign-out writes. */
    method Forget()
      modifies this
      ensures State() == LoggedOut(old(State()))
    {
      storedTokens := None;
      user, accessToken, refreshToken, isAuthenticated, isLoading := None, None, None, false, false;
    }

    method EndSession()
      modifies this
      ensures State() == EndSessionHere(old(State()))
    {
      Forget();
      sessionRetrying, isSessionChecked := false, true;
    }

    method EndBlocked(reason: string)
      modifies this
      ensures State() == EndBlockedSession(old(State()), reason)
    {
      Forget();
      isSessionChecked, signOutReason := true, Some(reason);
    }

    /** The owner of the tokens held; fresh tokens of the check's own member bring its epoch up to date. */
    method WhoseSession(check: Check) returns (verdict: Verdict, c: Check)
      ensures (verdict, c) == SessionNow(State(), check)
    {
      c := check;
      if accessToken.None? {
        return Gone, c;
      }
      if authEpoch == c.epochAtStart {
        return This, c;
      }
      if c.member.None? || accessToken.value.subject != c.member {
        return Another, c;
      }
      c := c.(epochAtStart := authEpoch, strayed := false);
      return This, c;
    }

    method Refuse(check: Check, blocked: Option<string>, ghost definitive: bool)
      modifies this
      ensures State() == Refused(old(State()), check, blocked, definitive)
    {
      var verdict, c := WhoseSession(check);
      if verdict == Another {
        StopTheWait();
        return;
      }
      ghost var ended := Ending(c, definitive, accessToken);
      if blocked.Some? {
        EndBlocked(blocked.value);
      } else {
        EndSession();
      }
      endings := endings + [ended];
    }

    /** Asks for a refresh, or joins the one on its way. */
    method RefreshAccessToken()
      modifies this
      ensures State() == RefreshAsked(old(State()))
    {
      if refreshPromise != Free {
        return;
      }
      var refresh := if storedTokens.Some? then Some(storedTokens.value.refresh) else refreshToken;
      if refresh.None? {
        // Thrown before the promise is stored: letting go of it comes first, and the rejected promise stays.
        refreshPromise := Stuck;
      } else {
        refreshPromise := Out(refresh.value, false);
      }
    }

    method RefreshLanded(answer: RefreshAnswer) returns (ended: Option<Option<RefreshError>>)
      requires refreshPromise.Out?
      modifies this
      ensures (State(), ended) == RefreshAnswered(old(State()), answer)
    {
      match answer
      case Issued(pair) =>
        InstallTokens(pair);
        refreshPromise := Free;
        ended := Some(None);
      case Refusal(failure) =>
        var newest := if storedTokens.Some? then Some(storedTokens.value.refresh) else None;
        if refreshPromise.second || failure.status != Some(401) || BlockedCodeOf(failure).Some? || newest.None?
           || newest.value == refreshPromise.token
        {
          refreshPromise := Free;
          ended := Some(Some(RefreshErrorFrom(failure)));
        } else {
          refreshPromise := Out(newest.value, true);
          ended := None;
        }
    }

    /** The head of the check's loop, up to its next await. */
    method GoRound(check: Check) returns (c: Check)
      modifies this
      ensures (State(), c) == LoopHead(old(State()), check)
    {
      if check.generation != checksStarted {
        return check.(stage := Done);
      }
      var verdict;
      verdict, c := WhoseSession(check);
      if verdict != This {
        StopTheWait();
        return c.(stage := Done);
      }
      if c.refreshNext {
        RefreshAccessToken();
        c := c.(stage := if refreshPromise == Stuck then Resuming(Some(NO_REFRESH_TOKEN)) else Refreshing);
      } else {
        sessionReadsSent := sessionReadsSent + 1;
        c := c.(stage := Reading(sessionReadsSent));
      }
    }

    method CheckSession() returns (c: Option<Check>)
      modifies this
      ensures (State(), c) == CheckStarted(old(State()))
    {
      checksStarted := checksStarted + 1;
      if accessToken.None? {
        isLoading, isAuthenticated, user, isSessionChecked, sessionRetrying := false, false, None, true, false;
        return None;
      }
      var started := Check(checksStarted, accessToken.value.subject, authEpoch, false, false, 0, Done, false);
      var check := GoRound(started);
      c := Some(check);
    }

    method MayPut(read: nat) returns (may: bool)
      modifies this`newestSessionInPlace
      ensures may == MayPutInPlace(old(State()), read)
      ensures newestSessionInPlace == if may then read else old(newestSessionInPlace)
    {
      if read < newestSessionInPlace {
        return false;
      }
      newestSessionInPlace := read;
      return true;
    }

    method SessionLanded(check: Check, read: nat, fetched: User) returns (c: Check)
      modifies this
      ensures (State(), c) == ReadLanded(old(State()), check, read, fetched)
    {
      if check.generation != checksStarted {
        return check.(stage := Done);
      }
      var verdict;
      verdict, c := WhoseSession(check);
      c := c.(stage := Done);
      if verdict != This {
        StopTheWait();
        return;
      }
      StopTheWait();
      isAuthenticated := true;
      var may := MayPut(read);
      if may {
        user := Some(fetched);
        accepted := accepted + [Accepted(read, fetched)];
      }
    }

    /** A failure that is no refusal: waited out, or given up on. */
    method WaitOrGiveUp(check: Check, failure: Option<Failure>) returns (c: Check)
      modifies this
      ensures (State(), c) == Passing(old(State()), check, failure)
    {
      if failure.Some? && !IsPassingFailure(failure.value) {
        StopTheWait();
        return check.(stage := Done);
      }
      var verdict;
      verdict, c := WhoseSession(check);
      if verdict != This || (user.Some? && check.passingFailures >= RETRIES_WITH_A_MEMBER) {
        StopTheWait();
        return c.(stage := Done);
      }
      if user.None? {
        sessionRetrying := true;
      }
      c := c.(passingFailures := c.passingFailures + 1, stage := Waiting);
    }

    method Failed(check: Check, thrown: Thrown) returns (c: Check)
      modifies this
      ensures (State(), c) == FailureCame(old(State()), check, thrown)
    {
      c := check.(stage := Done);
      if check.generation != checksStarted {
        return;
      }
      match thrown
      case OfRefresh(error) =>
        if error.definitive {
          Refuse(check, error.accountBlocked, true);
        } else {
          c := WaitOrGiveUp(check, error.cause);
        }
      case OfRequest(failure) =>
        if failure.status != Some(401) {
          c := WaitOrGiveUp(check, Some(failure));
        } else if check.refreshed {
          Refuse(check, None, false);
        } else {
          c := GoRound(check.(refreshNext := true));
        }
    }

    /** The refresh the check awaited has ended; the check goes on. */
    method AfterRefresh(check: Check) returns (c: Check)
      requires check.stage.Resuming?
      modifies this
      ensures (State(), c) == RefreshResumed(old(State()), check)
    {
      if check.stage.error.Some? {
        c := Failed(check, OfRefresh(check.stage.error.value));
      } else {
        var strayed := accessToken.Some? && accessToken.value.subject != check.member;
        c := GoRound(check.(refreshNext := false, refreshed := true, epochAtStart := authEpoch, strayed := strayed));
      }
    }

    /** The session read again for the member shown. */
    method RereadSession(read: nat, fetched: Option<User>)
      modifies this
      ensures State() == Reread(old(State()), read, fetched)
    {
      if fetched.None? || !isAuthenticated || user.None? || user.value.member != fetched.value.member {
        return;
      }
      var may := MayPut(read);
      if !may {
        return;
      }
      user := fetched;
      accepted := accepted + [Accepted(read, fetched.value)];
    }
  }
}
