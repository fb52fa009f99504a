/** A check that was superseded writes nothing; one that was not comes to an end; and the shared refresh is let go
    of. */
module AuthChecks {
  import opened Option
  import opened AuthFailures
  import opened AuthSession
  import opened AuthRuns
  import opened AuthEndings

  // ── Superseded checks ──

  lemma CheckStartedCounts(t: Tab)
    ensures CheckStarted(t).0.checksStarted == t.checksStarted + 1
  {
    if t.access.Some? {
      var t1 := t.(checksStarted := t.checksStarted + 1);
      LoopHeadCounts(t1, NewCheck(t1));
    }
  }

  lemma LoopHeadCounts(t: Tab, c: Check)
    ensures LoopHead(t, c).0.checksStarted == t.checksStarted
  {
  }

  lemma StepKeepsCheck(w: World, step: Step, g: nat)
    requires EndInv(w) && Enabled(w, step) && g in w.checks
    ensures g in Next(w, step).checks && w.tab.checksStarted <= Next(w, step).tab.checksStarted
    ensures !(IsOwn(step) && step.check == g) ==>
              Next(w, step).checks[g] == w.checks[g] || Next(w, step).checks[g] == Heard(w.checks[g], EndedBy(w, step))
  {
    if IsOwn(step) {
      OwnKeeps(w, step);
    } else if step.SignIn? {
      CheckStartedCounts(Installed(w.tab, step.pair));
    } else if step.Adopt? && w.tab.stored.Some? {
      CheckStartedCounts(Adopted(w.tab));
    } else if step.StartCheck? {
      CheckStartedCounts(w.tab);
    }
  }

  /** How the refresh ended in this step, when it did. */
  function EndedBy(w: World, step: Step): Option<RefreshError> {
    if step.AnswerRefresh? && step.refreshed.Refusal? then Some(RefreshErrorFrom(step.refreshed.failure)) else None
  }

  lemma {:induction false} ChecksStay(w: World, steps: seq<Step>, g: nat)
    requires EndInv(w) && IsRun(w, steps) && g in w.checks
    ensures g in After(w, steps).checks && w.tab.checksStarted <= After(w, steps).tab.checksStarted
    decreases |steps|
  {
    if steps != [] {
      StepKeeps(w, steps[0]);
      StepKeepsCheck(w, steps[0], g);
      ChecksStay(Next(w, steps[0]), steps[1..], g);
    }
  }

  /** Once a newer check has started, an older one changes nothing, whenever its answers come: it is over at the next
      thing it hears. */
  lemma SupersededWritesNothing(start: World, before: seq<Step>, later: seq<Step>, step: Step)
    requires Loads(start) && IsRun(start, before) && IsRun(After(start, before), later)
    requires var w := After(start, before); IsOwn(step) && step.check in w.checks && step.check < w.tab.checksStarted
    requires Enabled(After(After(start, before), later), step)
    ensures var w := After(After(start, before), later);
      Next(w, step).tab == w.tab && Next(w, step).checks[step.check].stage == Done
  {
    RunKeeps(start, before);
    ChecksStay(After(start, before), later, step.check);
    RunKeeps(After(start, before), later);
    OldCheckWritesNothing(After(After(start, before), later), step);
  }

  lemma OldCheckWritesNothing(w: World, step: Step)
    requires EndInv(w) && IsOwn(step) && Enabled(w, step) && step.check < w.tab.checksStarted
    ensures Next(w, step).tab == w.tab && Next(w, step).checks[step.check].stage == Done
  {
  }

  // ── A check ends ──

  /** How many more things a check can hear before it is over, with a member in place. */
  function Rank(c: Check): nat {
    if c.stage == Done || c.passingFailures > 3 then 0
    else
      1 + 2 * (3 - c.passingFailures) + (if c.refreshed then 0 else if c.refreshNext then 1 else 2)
      + (if c.stage == Waiting then 1 else 0)
  }

  predicate Bounded(c: Check) {
    c.passingFailures <= 3 && (c.refreshNext ==> !c.refreshed) && (c.stage.Resuming? ==> c.refreshNext)
    && (c.stage == Refreshing ==> c.refreshNext) && (c.stage.Reading? ==> !c.refreshNext)
  }

  lemma LoopHeadRank(t: Tab, c: Check)
    requires Bounded(c.(stage := Waiting))
    ensures var c' := LoopHead(t, c).1; Bounded(c') && Rank(c') < Rank(c.(stage := Waiting))
  {
  }

  lemma PassingRank(t: Tab, c: Check, f: Option<Failure>)
    requires Bounded(c) && c.stage != Done && c.stage != Waiting && t.user.Some?
    ensures var c' := Passing(t, c, f).1; Bounded(c') && Rank(c') < Rank(c)
  {
  }

  lemma FailureRank(t: Tab, c: Check, thrown: Thrown)
    requires Bounded(c) && c.stage != Done && c.stage != Waiting && t.user.Some?
    requires thrown.OfRequest? ==> c.stage.Reading?
    ensures var c' := FailureCame(t, c, thrown).1; Bounded(c') && Rank(c') < Rank(c)
  {
    if c.generation == t.checksStarted {
      match thrown
      case OfRefresh(error) =>
        PassingRank(t, c, error.cause);
      case OfRequest(failure) =>
        PassingRank(t, c, Some(failure));
        if !c.refreshed {
          LoopHeadRank(t, c.(refreshNext := true));
        }
    }
  }

  lemma OwnRank(w: World, step: Step)
    requires IsOwn(step) && Enabled(w, step) && w.tab.user.Some? && Bounded(w.checks[step.check])
    ensures Bounded(Own(w, step).1) && Rank(Own(w, step).1) < Rank(w.checks[step.check])
  {
    var t, c := w.tab, w.checks[step.check];
    match step
    case AnswerRead(_, answer) =>
      if answer.Threw? {
        FailureRank(t, c, answer.thrown);
      }
    case GoOn(_) =>
      match c.stage.error {
        case None =>
          LoopHeadRank(t, c.(refreshNext := false, refreshed := true, epochAtStart := t.epoch,
                             strayed := t.access.Some? && t.access.value.subject != c.member));
        case Some(error) => FailureRank(t, c, OfRefresh(error));
      }
    case EndWait(_) => LoopHeadRank(t, c);
  }

  function OwnSteps(steps: seq<Step>, g: nat): nat {
    if steps == [] then 0
    else (if IsOwn(steps[0]) && steps[0].check == g then 1 else 0) + OwnSteps(steps[1..], g)
  }

  ghost predicate MemberStays(w: World, steps: seq<Step>)
    requires IsRun(w, steps)
    decreases |steps|
  {
    w.tab.user.Some? && (steps != [] ==> MemberStays(Next(w, steps[0]), steps[1..]))
  }

  lemma HeardRank(c: Check, ended: Option<RefreshError>)
    requires Bounded(c)
    ensures Bounded(Heard(c, ended)) && Rank(Heard(c, ended)) == Rank(c)
  {
  }

  lemma StepRank(w: World, step: Step, g: nat)
    requires EndInv(w) && Enabled(w, step) && w.tab.user.Some? && g in w.checks && Bounded(w.checks[g])
    ensures g in Next(w, step).checks && Bounded(Next(w, step).checks[g])
    ensures OwnSteps([step], g) + Rank(Next(w, step).checks[g]) <= Rank(w.checks[g])
  {
    assert [step][1..] == [];
    if IsOwn(step) && step.check == g {
      OwnRank(w, step);
    } else {
      StepKeepsCheck(w, step, g);
      HeardRank(w.checks[g], EndedBy(w, step));
    }
  }

  lemma {:induction false} RankBoundsSteps(w: World, steps: seq<Step>, g: nat)
    requires EndInv(w) && IsRun(w, steps) && MemberStays(w, steps) && g in w.checks && Bounded(w.checks[g])
    ensures g in After(w, steps).checks && Bounded(After(w, steps).checks[g])
    ensures OwnSteps(steps, g) + Rank(After(w, steps).checks[g]) <= Rank(w.checks[g])
    decreases |steps|
  {
    if steps != [] {
      StepKeeps(w, steps[0]);
      StepRank(w, steps[0], g);
      assert [steps[0]][1..] == [];
      RankBoundsSteps(Next(w, steps[0]), steps[1..], g);
    }
  }

  lemma NewCheckRank(t: Tab)
    requires t.access.Some?
    ensures Bounded(CheckStarted(t).1.value) && Rank(CheckStarted(t).1.value) <= 9
  {
    var t1 := t.(checksStarted := t.checksStarted + 1);
    LoopHeadRank(t1, NewCheck(t1));
  }

  /** With a member in place throughout, a check hears at most nine things, and waits at most three times, before it is
      over; until then there is always something it has yet to hear. */
  lemma ChecksEnd(start: World, before: seq<Step>, steps: seq<Step>)
    requires Loads(start) && IsRun(start, before)
    requires var w := After(start, before);
      w.tab.access.Some? && IsRun(Next(w, StartCheck), steps) && MemberStays(Next(w, StartCheck), steps)
    ensures var w := After(start, before);
      var g, after := w.tab.checksStarted + 1, After(Next(w, StartCheck), steps);
      && OwnSteps(steps, g) <= 9 && g in after.checks && after.checks[g].passingFailures <= 3
      && (after.checks[g].stage != Done ==> CanMove(after, g))
  {
    RunKeeps(start, before);
    StartedCheckEnds(After(start, before), steps);
  }

  lemma StartedCheckEnds(w: World, steps: seq<Step>)
    requires EndInv(w) && w.tab.access.Some? && IsRun(Next(w, StartCheck), steps)
    requires MemberStays(Next(w, StartCheck), steps)
    ensures var g, after := w.tab.checksStarted + 1, After(Next(w, StartCheck), steps);
      && OwnSteps(steps, g) <= 9 && g in after.checks && after.checks[g].passingFailures <= 3
      && (after.checks[g].stage != Done ==> CanMove(after, g))
  {
    NewCheckRank(w.tab);
    StepKeeps(w, StartCheck);
    var g, w1 := w.tab.checksStarted + 1, Next(w, StartCheck);
    CheckStartedCounts(w.tab);
    RankBoundsSteps(w1, steps, g);
    RunKeeps(w1, steps);
    if After(w1, steps).checks[g].stage != Done {
      StillMoves(After(w1, steps), g);
    }
  }

  /** What the check awaits can still come: the refresh's answer, or its own next step. */
  ghost predicate CanMove(w: World, g: nat) {
    exists step :: Enabled(w, step) && (step.AnswerRefresh? || (IsOwn(step) && step.check == g))
  }

  lemma StillMoves(w: World, g: nat)
    requires EndInv(w) && g in w.checks && w.checks[g].stage != Done
    ensures CanMove(w, g)
  {
    var failed := Failure(None, false, None, None);
    var step := match w.checks[g].stage
      case Reading(_) => AnswerRead(g, Threw(OfRequest(failed)))
      case Refreshing => AnswerRefresh(Refusal(failed))
      case Resuming(_) => GoOn(g)
      case _ => EndWait(g);
    assert Enabled(w, step);
  }

  // ── The shared refresh ──

  /** A refresh with a token to send makes at most two requests, and is let go of when it ends, whatever the answers;
      only asking with no token anywhere sticks. */
  lemma RefreshIsLetGo(t: Tab, first: RefreshAnswer, second: RefreshAnswer)
    requires t.mutex == Free
    ensures RefreshAsked(t).mutex == Stuck <==> RefreshTokenOf(t).None?
    ensures RefreshTokenOf(t).Some? ==>
              var (t1, ended) := RefreshAnswered(RefreshAsked(t), first);
              if ended.Some? then t1.mutex == Free
              else t1.mutex.Out? && RefreshAnswered(t1, second).1.Some? && RefreshAnswered(t1, second).0.mutex == Free
  {
  }

  /** A refresh that was asked for with no token to send is never let go of, whatever comes after. */
  lemma {:induction false} StuckStays(w: World, steps: seq<Step>)
    requires w.tab.mutex == Stuck && IsRun(w, steps)
    ensures After(w, steps).tab.mutex == Stuck
    decreases |steps|
  {
    if steps != [] {
      StepKeepsStuck(w, steps[0]);
      StuckStays(Next(w, steps[0]), steps[1..]);
    }
  }

  lemma StepKeepsStuck(w: World, step: Step)
    requires w.tab.mutex == Stuck && Enabled(w, step)
    ensures Next(w, step).tab.mutex == Stuck
  {
    if IsOwn(step) {
      OwnKeepsStuck(w, step);
    } else if step.SignIn? || step.Adopt? || step.StartCheck? {
      StartKeepsStuck(w.tab);
      StartKeepsStuck(Installed(w.tab, if step.SignIn? then step.pair else Pair(Access(0, None), 0)));
      StartKeepsStuck(Adopted(w.tab));
    }
  }

  lemma LoopHeadKeepsStuck(t: Tab, c: Check)
    requires t.mutex == Stuck
    ensures LoopHead(t, c).0.mutex == Stuck
  {
  }

  lemma StartKeepsStuck(t: Tab)
    requires t.mutex == Stuck
    ensures CheckStarted(t).0.mutex == Stuck
  {
    if t.access.Some? {
      var t1 := t.(checksStarted := t.checksStarted + 1);
      LoopHeadKeepsStuck(t1, NewCheck(t1));
    }
  }

  lemma FailureKeepsStuck(t: Tab, c: Check, thrown: Thrown)
    requires t.mutex == Stuck
    ensures FailureCame(t, c, thrown).0.mutex == Stuck
  {
    if c.generation == t.checksStarted {
      match thrown
      case OfRefresh(error) =>
        RefusedAsksNothing(t, c, error.accountBlocked, true);
        PassingAsksNothing(t, c, error.cause);
      case OfRequest(failure) =>
        RefusedAsksNothing(t, c, None, false);
        PassingAsksNothing(t, c, Some(failure));
        LoopHeadKeepsStuck(t, c.(refreshNext := true));
    }
  }

  lemma RefusedAsksNothing(t: Tab, c: Check, blocked: Option<string>, definitive: bool)
    ensures Refused(t, c, blocked, definitive).mutex == t.mutex
  {
  }

  lemma PassingAsksNothing(t: Tab, c: Check, f: Option<Failure>)
    ensures Passing(t, c, f).0.mutex == t.mutex
  {
  }

  lemma OwnKeepsStuck(w: World, step: Step)
    requires w.tab.mutex == Stuck && IsOwn(step) && Enabled(w, step)
    ensures Own(w, step).0.mutex == Stuck
  {
    var t, c := w.tab, w.checks[step.check];
    match step
    case AnswerRead(_, answer) =>
      if answer.Threw? {
        FailureKeepsStuck(t, c, answer.thrown);
      }
    case GoOn(_) =>
      if c.stage.error.Some? {
        FailureKeepsStuck(t, c, OfRefresh(c.stage.error.value));
      } else {
        LoopHeadKeepsStuck(t, c.(refreshNext := false, refreshed := true, epochAtStart := t.epoch,
                                 strayed := t.access.Some? && t.access.value.subject != c.member));
      }
    case EndWait(_) => LoopHeadKeepsStuck(t, c);
  }
}
