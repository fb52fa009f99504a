/** Which sessions a check may end, that a superseded check writes nothing, and that the shared refresh is let go of. */
module AuthEndings {
  import opened Option
  import opened AuthFailures
  import opened AuthSession
  import opened AuthRuns

  // ── What every check keeps ──

  /** While a check's epoch is the tab's, the tokens held are its member's, or another's exactly when its own refresh
      strayed. */
  predicate CheckInv(t: Tab, c: Check) {
    && c.generation <= t.checksStarted
    && c.epochAtStart <= t.epoch
    && (c.epochAtStart == t.epoch && t.access.Some? ==> (t.access.value.subject != c.member <==> c.strayed))
    && (c.strayed ==> c.refreshed)
    && (c.refreshNext ==> !c.refreshed)
    && (c.stage == Refreshing ==> t.mutex.Out?)
  }

  predicate HeldAnothers(e: Ending) {
    e.held.Some? && e.held.value.subject != e.check.member
  }

  /** A session ends on a definitive refusal or on a 401 after the check's own refresh, and is another member's exactly
      when that refresh strayed. */
  predicate EndingOk(e: Ending) {
    && (e.definitive || e.check.refreshed)
    && (e.held.Some? ==> (HeldAnothers(e) <==> e.check.strayed))
    && (e.check.strayed ==> e.check.refreshed)
  }

  ghost predicate EndingsOk(endings: seq<Ending>) {
    forall i :: 0 <= i < |endings| ==> EndingOk(endings[i])
  }

  ghost predicate EndInv(w: World) {
    && EndingsOk(w.tab.endings)
    && (forall g :: g in w.checks ==> w.checks[g].generation == g && CheckInv(w.tab, w.checks[g]))
  }

  /** A change of the tab that other checks can live with. */
  predicate Tame(t: Tab, t': Tab) {
    && t.checksStarted <= t'.checksStarted && t.epoch <= t'.epoch
    && (t'.epoch == t.epoch ==> t'.access == t.access || t'.access.None?)
    && (t.mutex.Out? ==> t'.mutex.Out?)
  }

  /** A step of a check: the tab stays tame, and at most one session ends. */
  predicate CheckMoves(t: Tab, t': Tab) {
    && Tame(t, t') && t'.epoch == t.epoch && t'.checksStarted == t.checksStarted
    && (t'.access == t.access || t'.access.None?)
    && (t'.endings == t.endings || (|t'.endings| == |t.endings| + 1 && t'.endings[..|t.endings|] == t.endings
                                    && EndingOk(t'.endings[|t.endings|])))
  }

  lemma SessionNowKeeps(t: Tab, c: Check)
    requires CheckInv(t, c)
    ensures CheckInv(t, SessionNow(t, c).1)
    ensures c == SessionNow(t, c).1.(epochAtStart := c.epochAtStart, strayed := c.strayed)
  {
  }

  lemma StopWaitingMoves(t: Tab)
    ensures CheckMoves(t, StopWaiting(t)) && StopWaiting(t).mutex == t.mutex
  {
  }

  lemma RefreshAskedMoves(t: Tab)
    ensures CheckMoves(t, RefreshAsked(t)) && RefreshAsked(t).access == t.access
    ensures RefreshAsked(t).mutex.Out? || RefreshAsked(t).mutex == Stuck
  {
  }

  lemma LoopHeadKeeps(t: Tab, c: Check)
    requires CheckInv(t, c)
    ensures var (t', c') := LoopHead(t, c); CheckMoves(t, t') && CheckInv(t', c') && c'.generation == c.generation
  {
    SessionNowKeeps(t, c);
    StopWaitingMoves(t);
    RefreshAskedMoves(t);
  }

  lemma RefusedKeeps(t: Tab, c: Check, blocked: Option<string>, definitive: bool)
    requires CheckInv(t, c) && (definitive || c.refreshed)
    ensures CheckMoves(t, Refused(t, c, blocked, definitive))
  {
  }

  lemma PassingKeeps(t: Tab, c: Check, f: Option<Failure>)
    requires CheckInv(t, c)
    ensures var (t', c') := Passing(t, c, f); CheckMoves(t, t') && CheckInv(t', c') && c'.generation == c.generation
  {
  }

  lemma FailureKeeps(t: Tab, c: Check, thrown: Thrown)
    requires CheckInv(t, c)
    ensures var (t', c') := FailureCame(t, c, thrown);
      CheckMoves(t, t') && CheckInv(t', c') && c'.generation == c.generation
  {
    if c.generation == t.checksStarted {
      match thrown
      case OfRefresh(error) =>
        if error.definitive {
          RefusedKeeps(t, c, error.accountBlocked, true);
        } else {
          PassingKeeps(t, c, error.cause);
        }
      case OfRequest(failure) =>
        if failure.status != Some(401) {
          PassingKeeps(t, c, Some(failure));
        } else if c.refreshed {
          RefusedKeeps(t, c, None, false);
        } else {
          LoopHeadKeeps(t, c.(refreshNext := true));
        }
    }
  }

  lemma ReadLandedKeeps(t: Tab, c: Check, read: nat, user: User)
    requires CheckInv(t, c)
    ensures var (t', c') := ReadLanded(t, c, read, user);
      CheckMoves(t, t') && CheckInv(t', c') && c'.generation == c.generation
  {
    SessionNowKeeps(t, c);
    StopWaitingMoves(t);
  }

  lemma OwnKeeps(w: World, step: Step)
    requires IsOwn(step) && Enabled(w, step) && CheckInv(w.tab, w.checks[step.check])
    ensures CheckMoves(w.tab, Own(w, step).0) && CheckInv(Own(w, step).0, Own(w, step).1)
    ensures Own(w, step).1.generation == w.checks[step.check].generation
  {
    var t, c := w.tab, w.checks[step.check];
    match step
    case AnswerRead(_, answer) =>
      match answer {
        case Answered(user) => ReadLandedKeeps(t, c, c.stage.read, user);
        case Threw(thrown) => FailureKeeps(t, c, thrown);
      }
    case GoOn(_) =>
      match c.stage.error {
        case None =>
          LoopHeadKeeps(t, c.(refreshNext := false, refreshed := true, epochAtStart := t.epoch,
                              strayed := t.access.Some? && t.access.value.subject != c.member));
        case Some(error) => FailureKeeps(t, c, OfRefresh(error));
      }
    case EndWait(_) => LoopHeadKeeps(t, c);
  }

  /** The checks a step does not move live with what it did to the tab. */
  lemma TameKeeps(t: Tab, t': Tab, c: Check)
    requires CheckInv(t, c) && Tame(t, t')
    ensures CheckInv(t', c)
  {
  }

  lemma EndingsStayOk(t: Tab, t': Tab)
    requires EndingsOk(t.endings) && CheckMoves(t, t')
    ensures EndingsOk(t'.endings)
  {
    forall i | 0 <= i < |t'.endings| ensures EndingOk(t'.endings[i]) {
      assert i < |t.endings| ==> t'.endings[..|t.endings|][i] == t'.endings[i];
    }
  }

  lemma MovedKeeps(w: World, g: nat, t': Tab, c': Check)
    requires EndInv(w) && CheckMoves(w.tab, t') && CheckInv(t', c') && c'.generation == g
    ensures EndInv(w.(tab := t', checks := w.checks[g := c']))
  {
    EndingsStayOk(w.tab, t');
    forall h | h in w.checks ensures CheckInv(t', w.checks[h]) {
      TameKeeps(w.tab, t', w.checks[h]);
    }
  }

  /** A step that moves no check, and ends no session of a check. */
  lemma TameStepKeeps(w: World, w': World)
    requires EndInv(w) && Tame(w.tab, w'.tab) && w'.checks == w.checks && w'.tab.endings == w.tab.endings
    ensures EndInv(w')
  {
    forall g | g in w'.checks ensures CheckInv(w'.tab, w'.checks[g]) {
      TameKeeps(w.tab, w'.tab, w.checks[g]);
    }
  }

  lemma StartingKeeps(w: World)
    requires EndInv(w)
    ensures EndInv(Starting(w))
  {
    var w1 := w.(tab := w.tab.(checksStarted := w.tab.checksStarted + 1));
    TameStepKeeps(w, w1);
    var (t', c) := CheckStarted(w.tab);
    if c.Some? {
      NewCheckKeeps(w1.tab);
      MovedKeeps(w1, t'.checksStarted, t', c.value);
    } else {
      TameStepKeeps(w1, Starting(w));
    }
  }

  lemma NewCheckKeeps(t: Tab)
    requires t.access.Some?
    ensures var (t', c') := LoopHead(t, NewCheck(t));
      CheckMoves(t, t') && CheckInv(t', c') && c'.generation == t.checksStarted
  {
    LoopHeadKeeps(t, NewCheck(t));
  }

  lemma RefreshAnswerKeeps(w: World, step: Step)
    requires EndInv(w) && step.AnswerRefresh? && Enabled(w, step)
    ensures EndInv(Next(w, step))
  {
    var (t', ended) := RefreshAnswered(w.tab, step.refreshed);
    if ended.None? {
      TameStepKeeps(w, Next(w, step));
    } else {
      forall g | g in w.checks ensures CheckInv(t', Heard(w.checks[g], ended.value)) {
        HeardKeeps(w.tab, t', w.checks[g], ended.value);
      }
    }
  }

  lemma HeardKeeps(t: Tab, t': Tab, c: Check, ended: Option<RefreshError>)
    requires CheckInv(t, c) && Tame(t, t'.(mutex := t.mutex))
    ensures CheckInv(t', Heard(c, ended))
  {
  }

  lemma OtherStepKeeps(w: World, step: Step)
    requires EndInv(w) && Enabled(w, step) && !IsOwn(step)
    ensures EndInv(Next(w, step))
  {
    if step.StartCheck? {
      StartingKeeps(w);
    } else if step.SignIn? {
      TameStepKeeps(w, w.(tab := Installed(w.tab, step.pair)));
      StartingKeeps(w.(tab := Installed(w.tab, step.pair)));
    } else if step.Adopt? && w.tab.stored.Some? {
      TameStepKeeps(w, w.(tab := Adopted(w.tab)));
      StartingKeeps(w.(tab := Adopted(w.tab)));
    } else if step.AnswerRefresh? {
      RefreshAnswerKeeps(w, step);
    } else {
      TameStepKeeps(w, Next(w, step));
    }
  }

  lemma StepKeeps(w: World, step: Step)
    requires EndInv(w) && Enabled(w, step)
    ensures EndInv(Next(w, step))
  {
    if IsOwn(step) {
      OwnKeeps(w, step);
      MovedKeeps(w, step.check, Own(w, step).0, Own(w, step).1);
    } else {
      OtherStepKeeps(w, step);
    }
  }

  lemma {:induction false} RunKeeps(w: World, steps: seq<Step>)
    requires EndInv(w) && IsRun(w, steps)
    ensures EndInv(After(w, steps))
    decreases |steps|
  {
    if steps != [] {
      StepKeeps(w, steps[0]);
      RunKeeps(Next(w, steps[0]), steps[1..]);
    }
  }

  /** Over every run, a check ends a session only on a definitive refusal or on a 401 that follows its own refresh; and
      the tokens held are another member's if and only if its own refresh strayed and no tokens of its own member have
      been taken up since. */
  lemma SessionsEndOnlyOnRefusal(w: World, steps: seq<Step>)
    requires Loads(w) && IsRun(w, steps)
    ensures EndingsOk(After(w, steps).tab.endings)
  {
    RunKeeps(w, steps);
  }

  // ── Exactly when a failed answer ends the session, or is waited out ──

  predicate IsRefusal(c: Check, thrown: Thrown) {
    match thrown
    case OfRefresh(error) => error.definitive
    case OfRequest(failure) => failure.status == Some(401) && c.refreshed
  }

  predicate SignedOut(t: Tab) {
    t.access.None? && t.refresh.None? && t.stored.None? && t.user.None? && !t.signedIn
  }

  lemma EndsExactlyOnRefusal(t: Tab, c: Check, thrown: Thrown)
    ensures var t' := FailureCame(t, c, thrown).0;
      && (t'.endings != t.endings <==>
          c.generation == t.checksStarted && IsRefusal(c, thrown) && SessionNow(t, c).0 != Another)
      && (t'.endings != t.endings ==> SignedOut(t'))
      && (t'.endings == t.endings ==> t'.access == t.access && t'.refresh == t.refresh && t'.stored == t.stored
                                      && t'.user == t.user)
  {
    if c.generation == t.checksStarted {
      match thrown
      case OfRefresh(error) =>
        if error.definitive {
          RefusalEnds(t, c, error.accountBlocked, true);
        } else {
          PassingEndsNothing(t, c, error.cause);
        }
      case OfRequest(failure) =>
        if failure.status != Some(401) {
          PassingEndsNothing(t, c, Some(failure));
        } else if c.refreshed {
          RefusalEnds(t, c, None, false);
        } else {
          LoopHeadEndsNothing(t, c.(refreshNext := true));
        }
    }
  }

  predicate SameSession(t: Tab, t': Tab) {
    && t'.endings == t.endings && t'.access == t.access && t'.refresh == t.refresh && t'.stored == t.stored
    && t'.user == t.user
  }

  lemma RefusalEnds(t: Tab, c: Check, blocked: Option<string>, definitive: bool)
    ensures var t' := Refused(t, c, blocked, definitive);
      if SessionNow(t, c).0 == Another then SameSession(t, t') else SignedOut(t') && |t'.endings| == |t.endings| + 1
  {
  }

  lemma RefusalEndsWhoseTokensAreHeld(t: Tab, c: Check, blocked: Option<string>, definitive: bool)
    requires SessionNow(t, c).0 != Another
    ensures var t' := Refused(t, c, blocked, definitive);
      && |t'.endings| == |t.endings| + 1
      && t'.endings[|t.endings|].held == t.access && t'.endings[|t.endings|].check.member == c.member
  {
  }

  predicate EndsAnothers(t: Tab, t': Tab) {
    |t'.endings| > |t.endings| && HeldAnothers(t'.endings[|t.endings|])
  }

  /** A refusal heard by the newest check ends another member's session if and only if that member's tokens are in place
      and the check goes by their epoch, which is to say that its own refresh strayed. */
  lemma EndsAnothersExactlyWhenStrayed(t: Tab, c: Check, thrown: Thrown)
    requires CheckInv(t, c) && c.generation == t.checksStarted && IsRefusal(c, thrown)
    ensures EndsAnothers(t, FailureCame(t, c, thrown).0)
            <==> t.access.Some? && t.access.value.subject != c.member && t.epoch == c.epochAtStart
    ensures EndsAnothers(t, FailureCame(t, c, thrown).0) <==> c.strayed && t.access.Some? && t.epoch == c.epochAtStart
  {
    var blocked := if thrown.OfRefresh? then thrown.error.accountBlocked else None;
    RefusalEnds(t, c, blocked, thrown.OfRefresh?);
    if SessionNow(t, c).0 != Another {
      RefusalEndsWhoseTokensAreHeld(t, c, blocked, thrown.OfRefresh?);
    }
  }

  lemma PassingEndsNothing(t: Tab, c: Check, f: Option<Failure>)
    ensures SameSession(t, Passing(t, c, f).0)
  {
  }

  lemma LoopHeadEndsNothing(t: Tab, c: Check)
    ensures SameSession(t, LoopHead(t, c).0)
  {
  }

  /** A failure that may pass: the request's own, or the one behind a failed refresh. */
  predicate MayPass(thrown: Thrown) {
    match thrown
    case OfRefresh(error) => !error.definitive && (error.cause.Some? ==> IsPassingFailure(error.cause.value))
    case OfRequest(failure) => failure.status != Some(401) && IsPassingFailure(failure)
  }

  /** A failure is waited out exactly when it may pass, this is still the session, and no member in place has waited
      three times: with no member in place it is asked until an answer lands. */
  lemma WaitsExactlyWhenItMayPass(t: Tab, c: Check, thrown: Thrown)
    ensures FailureCame(t, c, thrown).1.stage == Waiting <==>
      && c.generation == t.checksStarted && MayPass(thrown) && SessionNow(t, c).0 == This
      && (t.user.None? || c.passingFailures < 3)
  {
    LoopHeadNeverWaits(t, c.(refreshNext := true));
  }

  lemma LoopHeadNeverWaits(t: Tab, c: Check)
    ensures LoopHead(t, c).1.stage != Waiting
  {
  }
}
