/** What an answer puts in place, what a refresh's answer leads to, and that nobody is left waiting for a check that is
    over. */
module AuthAnswers {
  import opened Option
  import opened AuthFailures
  import opened AuthSession
  import opened AuthRuns
  import opened AuthEndings
  import opened AuthChecks

  // ── A session answer ──

  /** The tokens held are those the check goes by, or newer ones of its own member. */
  predicate IsItsSession(t: Tab, c: Check) {
    && t.access.Some?
    && (t.epoch == c.epochAtStart || (c.member.Some? && t.access.value.subject == c.member))
  }

  /** Nothing of who is signed in, and with what, has changed. */
  predicate SameTokens(t: Tab, after: Tab) {
    && after.access == t.access && after.refresh == t.refresh && after.stored == t.stored && after.epoch == t.epoch
    && after.endings == t.endings && after.mutex == t.mutex
  }

  /** The member an answer brings is shown if and only if the check is the newest, the session is still its own, and no
      newer read is in place. The newest check's answer ends the wait either way; an older check's changes nothing. */
  lemma AnswerIsPutInPlace(w: World, g: nat, user: User)
    requires Enabled(w, AnswerRead(g, Answered(user)))
    ensures var t, c, next := w.tab, w.checks[g], Next(w, AnswerRead(g, Answered(user)));
            var after := next.tab;
            && next.checks[g].stage == Done && SameTokens(t, after)
            && (c.generation != t.checksStarted ==> after == t)
            && (c.generation == t.checksStarted ==>
                  !after.loading && after.checked && !after.retrying
                  && after.signedIn == (t.signedIn || IsItsSession(t, c)))
            && if c.generation == t.checksStarted && IsItsSession(t, c) && c.stage.read >= t.newestInPlace then
                 && after.user == Some(user) && after.newestInPlace == c.stage.read
                 && after.accepted == t.accepted + [Accepted(c.stage.read, user)]
               else
                 after.user == t.user && after.newestInPlace == t.newestInPlace && after.accepted == t.accepted
  {
  }

  /** A re-read is shown if and only if it is of the member shown, signed in, and no newer read is in place; it changes
      nothing else. */
  lemma RereadIsPutInPlace(w: World, read: nat, session: Option<User>)
    requires Enabled(w, AnswerReread(read, session))
    ensures var t, after := w.tab, Next(w, AnswerReread(read, session)).tab;
            after == if session.Some? && t.signedIn && t.user.Some? && t.user.value.member == session.value.member
                        && read >= t.newestInPlace
                     then t.(user := session, newestInPlace := read,
                             accepted := t.accepted + [Accepted(read, session.value)])
                     else t
  {
  }

  // ── Over every run: nobody is left waiting ──

  /** The newest check is under way. */
  predicate IsChecking(w: World) {
    w.tab.checksStarted in w.checks && w.checks[w.tab.checksStarted].stage != Done
  }

  predicate OverOnce(t: Tab, c: Check) {
    c.stage == Done && c.generation == t.checksStarted ==> !t.loading && t.checked
  }

  lemma LoopHeadIsOverOnce(t: Tab, c: Check)
    ensures OverOnce(LoopHead(t, c).0, LoopHead(t, c).1)
    ensures LoopHead(t, c).0.checksStarted == t.checksStarted
    ensures LoopHead(t, c).0.loading ==> t.loading
    ensures t.checked ==> LoopHead(t, c).0.checked
  {
  }

  lemma RefusalIsOverOnce(t: Tab, c: Check, blocked: Option<string>, definitive: bool)
    ensures var after := Refused(t, c, blocked, definitive);
            !after.loading && after.checked && after.checksStarted == t.checksStarted
  {
  }

  lemma PassingIsOverOnce(t: Tab, c: Check, f: Option<Failure>)
    ensures var (after, c') := Passing(t, c, f);
            && (c'.stage == Done ==> !after.loading && after.checked) && after.checksStarted == t.checksStarted
            && (after.loading ==> t.loading) && (t.checked ==> after.checked)
  {
  }

  lemma FailureIsOverOnce(t: Tab, c: Check, thrown: Thrown)
    ensures OverOnce(FailureCame(t, c, thrown).0, FailureCame(t, c, thrown).1)
    ensures FailureCame(t, c, thrown).0.checksStarted == t.checksStarted
    ensures FailureCame(t, c, thrown).0.loading ==> t.loading
    ensures t.checked ==> FailureCame(t, c, thrown).0.checked
  {
    if c.generation == t.checksStarted {
      match thrown
      case OfRefresh(error) =>
        if error.definitive {
          RefusalIsOverOnce(t, c, error.accountBlocked, true);
        } else {
          PassingIsOverOnce(t, c, error.cause);
        }
      case OfRequest(failure) =>
        if failure.status != Some(401) {
          PassingIsOverOnce(t, c, Some(failure));
        } else if c.refreshed {
          RefusalIsOverOnce(t, c, None, false);
        } else {
          LoopHeadIsOverOnce(t, c.(refreshNext := true));
        }
    }
  }

  lemma OwnIsOverOnce(w: World, step: Step)
    requires IsOwn(step) && Enabled(w, step)
    ensures OverOnce(Own(w, step).0, Own(w, step).1)
    ensures Own(w, step).0.checksStarted == w.tab.checksStarted
    ensures Own(w, step).0.loading ==> w.tab.loading
    ensures w.tab.checked ==> Own(w, step).0.checked
  {
    var t, c := w.tab, w.checks[step.check];
    match step
    case AnswerRead(_, answer) =>
      if answer.Threw? {
        FailureIsOverOnce(t, c, answer.thrown);
      }
    case GoOn(_) =>
      match c.stage.error {
        case None =>
          LoopHeadIsOverOnce(t, c.(refreshNext := false, refreshed := true, epochAtStart := t.epoch,
                                   strayed := t.access.Some? && t.access.value.subject != c.member));
        case Some(error) => FailureIsOverOnce(t, c, OfRefresh(error));
      }
    case EndWait(_) => LoopHeadIsOverOnce(t, c);
  }

  /** Once a check has started, the tab waits only while the newest one is under way. */
  predicate WaitInv(w: World) {
    w.tab.checksStarted > 0 ==> IsChecking(w) || (!w.tab.loading && w.tab.checked)
  }

  lemma StartingWaits(w: World)
    ensures WaitInv(Starting(w))
  {
    if w.tab.access.Some? {
      var t := w.tab.(checksStarted := w.tab.checksStarted + 1);
      LoopHeadIsOverOnce(t, NewCheck(t));
      assert LoopHead(t, NewCheck(t)).1.generation == t.checksStarted by {
        SessionNowGeneration(t, NewCheck(t));
      }
    }
  }

  lemma SessionNowGeneration(t: Tab, c: Check)
    ensures SessionNow(t, c).1.generation == c.generation
  {
  }

  lemma StepWaits(w: World, step: Step)
    requires EndInv(w) && WaitInv(w) && Enabled(w, step)
    ensures WaitInv(Next(w, step))
  {
    if IsOwn(step) {
      OwnIsOverOnce(w, step);
      OwnKeeps(w, step);
    } else if step.StartCheck? {
      StartingWaits(w);
    } else if step.SignIn? {
      StartingWaits(w.(tab := Installed(w.tab, step.pair)));
    } else if step.Adopt? && w.tab.stored.Some? {
      StartingWaits(w.(tab := Adopted(w.tab)));
    }
  }

  lemma {:induction false} RunWaits(w: World, steps: seq<Step>)
    requires EndInv(w) && WaitInv(w) && IsRun(w, steps)
    ensures WaitInv(After(w, steps))
    decreases |steps|
  {
    if steps != [] {
      StepKeeps(w, steps[0]);
      StepWaits(w, steps[0]);
      RunWaits(Next(w, steps[0]), steps[1..]);
    }
  }

  /** Over every run, once a check has started: as long as the newest is not over it is under way, and when it is over,
      however it ended, the tab no longer loads and its session counts as checked. */
  lemma NobodyIsLeftLoading(w: World, steps: seq<Step>)
    requires Loads(w) && IsRun(w, steps) && After(w, steps).tab.checksStarted > 0
    ensures IsChecking(After(w, steps)) || (!After(w, steps).tab.loading && After(w, steps).tab.checked)
  {
    RunWaits(w, steps);
  }

  // ── The shared refresh ──

  lemma LoopHeadShares(t: Tab, c: Check)
    requires t.mutex.Out?
    ensures LoopHead(t, c).0.mutex == t.mutex
  {
  }

  lemma FailureShares(t: Tab, c: Check, thrown: Thrown)
    requires t.mutex.Out?
    ensures FailureCame(t, c, thrown).0.mutex == t.mutex
  {
    if c.generation == t.checksStarted {
      match thrown
      case OfRefresh(error) =>
        RefusedAsksNothing(t, c, error.accountBlocked, true);
        PassingAsksNothing(t, c, error.cause);
      case OfRequest(failure) =>
        RefusedAsksNothing(t, c, None, false);
        PassingAsksNothing(t, c, Some(failure));
        LoopHeadShares(t, c.(refreshNext := true));
    }
  }

  lemma OwnShares(w: World, step: Step)
    requires IsOwn(step) && Enabled(w, step) && w.tab.mutex.Out?
    ensures Own(w, step).0.mutex == w.tab.mutex
  {
    var t, c := w.tab, w.checks[step.check];
    match step
    case AnswerRead(_, answer) =>
      if answer.Threw? {
        FailureShares(t, c, answer.thrown);
      }
    case GoOn(_) =>
      match c.stage.error {
        case None =>
          LoopHeadShares(t, c.(refreshNext := false, refreshed := true, epochAtStart := t.epoch,
                               strayed := t.access.Some? && t.access.value.subject != c.member));
        case Some(error) => FailureShares(t, c, OfRefresh(error));
      }
    case EndWait(_) => LoopHeadShares(t, c);
  }

  /** While a refresh is out, no step but its own answer sends another one, or changes which token it was sent with. */
  lemma OneRefreshAtATime(w: World, step: Step)
    requires Enabled(w, step) && w.tab.mutex.Out? && !step.AnswerRefresh?
    ensures Next(w, step).tab.mutex == w.tab.mutex
  {
    if IsOwn(step) {
      OwnShares(w, step);
    }
  }

  /** What a refresh's answer leads to. New tokens are held, stored and signed in under a new epoch. A first 401, of no
      blocked account, is tried once more if storage holds another refresh token, with that one. Anything else is the
      end of it, leaves the tokens as they are, and tells every check that awaits it; the mutex is let go of in every
      end. */
  lemma RefreshAnswerLeadsTo(w: World, answer: RefreshAnswer)
    requires Enabled(w, AnswerRefresh(answer))
    ensures var t, next := w.tab, Next(w, AnswerRefresh(answer));
            var after := next.tab;
            && next.checks.Keys == w.checks.Keys && after.user == t.user
            && match answer
               case Issued(pair) =>
                 && after.access == Some(pair.access) && after.refresh == Some(pair.refresh)
                 && after.stored == Some(pair) && after.signedIn && after.epoch == t.epoch + 1 && after.mutex == Free
                 && (forall g :: g in w.checks && w.checks[g].stage == Refreshing ==>
                       next.checks[g].stage == Resuming(None))
               case Refusal(failure) =>
                 if !t.mutex.second && failure.status == Some(401)
                    && failure.code !in {Some("ACCOUNT_CLOSED"), Some("USER_SUSPENDED")}
                    && t.stored.Some? && t.stored.value.refresh != t.mutex.token
                 then after == t.(mutex := Out(t.stored.value.refresh, true)) && next.checks == w.checks
                 else
                   && after == t.(mutex := Free)
                   && (forall g :: g in w.checks && w.checks[g].stage == Refreshing ==>
                         && next.checks[g].stage.Resuming? && next.checks[g].stage.error.Some?
                         && (next.checks[g].stage.error.value.definitive
                             <==> failure.status in {Some(401), Some(403)}
                                  || failure.code in {Some("ACCOUNT_CLOSED"), Some("USER_SUSPENDED")}))
  {
  }

  /** A refused refresh ends the session of the newest check that awaited it, blocked or not, exactly when its tokens
      are refused for good and no other member has taken over. */
  lemma RefusedRefreshEndsTheSession(w: World, g: nat, failure: Failure)
    requires g in w.checks && w.checks[g].stage == Refreshing && w.checks[g].generation == w.tab.checksStarted
    requires Enabled(w, AnswerRefresh(Refusal(failure))) && IsItsSession(w.tab, w.checks[g])
    requires Next(w, AnswerRefresh(Refusal(failure))).tab.mutex == Free
    ensures var next := Next(w, AnswerRefresh(Refusal(failure)));
            && Enabled(next, GoOn(g))
            && var after := Next(next, GoOn(g)).tab;
               if failure.code in {Some("ACCOUNT_CLOSED"), Some("USER_SUSPENDED")} then
                 SignedOut(after) && after.reason == failure.code
               else if failure.status in {Some(401), Some(403)} then
                 SignedOut(after) && after.reason == w.tab.reason
               else
                 SameSession(w.tab, after)
  {
    var t, c, error := w.tab.(mutex := Free), w.checks[g].(stage := Resuming(Some(RefreshErrorFrom(failure)))),
                       RefreshErrorFrom(failure);
    HearsOfRefusal(w, g, failure);
    if error.definitive {
      RefusalSignsOut(t, c, error.accountBlocked);
    } else {
      PassingEndsNothing(t, c, error.cause);
    }
  }

  lemma HearsOfRefusal(w: World, g: nat, failure: Failure)
    requires g in w.checks && w.checks[g].stage == Refreshing && Enabled(w, AnswerRefresh(Refusal(failure)))
    requires Next(w, AnswerRefresh(Refusal(failure))).tab.mutex == Free
    ensures var next := Next(w, AnswerRefresh(Refusal(failure)));
            && next.tab == w.tab.(mutex := Free) && g in next.checks
            && next.checks[g] == w.checks[g].(stage := Resuming(Some(RefreshErrorFrom(failure))))
  {
  }

  lemma RefusalSignsOut(t: Tab, c: Check, blocked: Option<string>)
    requires IsItsSession(t, c)
    ensures var after := Refused(t, c, blocked, true);
            SignedOut(after) && after.reason == if blocked.Some? then blocked else t.reason
  {
  }

  // ── Signing in and out ──

  /** A sign-in holds and stores its tokens, and a check of its own reads the session; another tab's sign-in does so
      when it is adopted, and without tokens a check finds nobody signed in. */
  lemma SignInReadsItsSession(w: World, pair: Pair)
    ensures var next := Next(w, SignIn(pair));
            var g := w.tab.checksStarted + 1;
            && next.tab.access == Some(pair.access) && next.tab.refresh == Some(pair.refresh)
            && next.tab.stored == Some(pair) && next.tab.signedIn && next.tab.reason.None?
            && next.tab.checksStarted == g && next.tab.epoch == w.tab.epoch + 1
            && g in next.checks && next.checks[g].stage == Reading(w.tab.readsSent + 1)
            && IsItsSession(next.tab, next.checks[g])
    ensures w.tab.stored.Some? ==> Next(w, Adopt) == Next(w, SignIn(w.tab.stored.value)).(
                                                       tab := Next(w, SignIn(w.tab.stored.value)).tab.(
                                                         reason := w.tab.reason))
    ensures w.tab.access.None? ==>
              var found := Next(w, StartCheck).tab;
              found.user.None? && !found.signedIn && !found.loading && found.checked && !found.retrying
  {
  }

  /** A failure that is waited out shows at most that it is: the tab is as it was, retrying when it has no member. */
  lemma WaitingChangesNothing(t: Tab, c: Check, thrown: Thrown)
    requires FailureCame(t, c, thrown).1.stage == Waiting
    ensures FailureCame(t, c, thrown).0 == if t.user.None? then t.(retrying := true) else t
    ensures FailureCame(t, c, thrown).1.passingFailures == c.passingFailures + 1
  {
    WaitsExactlyWhenItMayPass(t, c, thrown);
  }

  /** Signing out leaves nothing in memory or storage; a tab that follows another's sign-out lets go of what it holds,
      and does so only if it was signed in. */
  lemma SigningOut(w: World)
    ensures SignedOut(Next(w, LogOut).tab) && !Next(w, LogOut).tab.loading
    ensures var after := Next(w, FollowOut).tab;
            if w.tab.signedIn then
              && after.access.None? && after.refresh.None? && after.user.None? && !after.signedIn && !after.loading
              && after.stored == w.tab.stored
            else after == w.tab
  {
  }
}
