/** What every run of the background-effect queue keeps, however its callers, its executor and its watchdog
    interleave. */
module ApplyQueueRuns {
  import opened Option
  import opened ApplyQueue

  datatype Step =
    | Request(pref: Pref)
    | Prewarm
    | Lose
    | End(outcome: Outcome)
    | LateBuild
    | LateFailure

  predicate Enabled(q: Queue, step: Step) {
    match step
    case End(_) => q.operation.Some?
    case LateBuild => q.abandoned > 0
    case LateFailure => q.abandoned > 0
    case _ => true
  }

  function Next(q: Queue, step: Step): Queue
    requires Enabled(q, step)
  {
    match step
    case Request(pref) => Requested(q, pref)
    case Prewarm => Prewarmed(q)
    case Lose => PipelineLost(q)
    case End(outcome) => OperationEnded(q, outcome)
    // A build the watchdog gave up on finishes after all, or fails.
    case LateBuild => q.(pipeline := true, abandoned := q.abandoned - 1)
    case LateFailure => q.(abandoned := q.abandoned - 1)
  }

  ghost predicate IsRun(q: Queue, steps: seq<Step>)
    decreases |steps|
  {
    steps != [] ==> Enabled(q, steps[0]) && IsRun(Next(q, steps[0]), steps[1..])
  }

  function After(q: Queue, steps: seq<Step>): Queue
    requires IsRun(q, steps)
    decreases |steps|
  {
    if steps == [] then q else After(Next(q, steps[0]), steps[1..])
  }

  /** The one sense in which two preferences are the same is that they are equal. */
  lemma SamePrefIsEquality(a: Pref, b: Pref)
    ensures SamePref(a, b) <==> a == b
  {
  }

  // ── Settlement ──

  /** How often a request is among those waiting, and among those answered. */
  function TimesWaiting(waiters: seq<Waiter>, id: nat): nat {
    if waiters == [] then 0 else (if waiters[0].id == id then 1 else 0) + TimesWaiting(waiters[1..], id)
  }

  function TimesAnswered(answers: seq<Answered>, id: nat): nat {
    if answers == [] then 0 else (if answers[0].id == id then 1 else 0) + TimesAnswered(answers[1..], id)
  }

  /** Each request made is either waiting or answered, and only once. */
  ghost predicate EachOnce(q: Queue) {
    forall id: nat :: TimesWaiting(q.waiters, id) + TimesAnswered(q.answers, id) == if id < |q.wishes| then 1 else 0
  }

  /** An operation to this preference that the executor refused or the watchdog gave up on. */
  predicate IsFailureOf(ended: Ended, pref: Pref) {
    !ended.outcome.Resolves? && !ended.operation.Warming? && ended.operation.target == pref
  }

  predicate JustFailed(ended: Option<Ended>, pref: Pref) {
    ended.Some? && IsFailureOf(ended.value, pref)
  }

  /** An answer to what was asked, true of the moment it was given. */
  predicate Honest(a: Answered, wishes: seq<Pref>) {
    && a.id < |wishes| && wishes[a.id] == a.pref
    && (match a.answer
        case Applied => a.given.current == a.pref
        case Superseded => a.given.desired != a.pref && !JustFailed(a.given.ended, a.pref)
        case Failed => JustFailed(a.given.ended, a.pref))
  }

  ghost predicate TrueToWishes(q: Queue) {
    && (forall w :: w in q.waiters ==> w.id < |q.wishes| && q.wishes[w.id] == w.pref)
    && (forall a :: a in q.answers ==> Honest(a, q.wishes))
  }

  ghost predicate Inv(q: Queue) {
    && (q.running <==> q.operation.Some?)
    && (q.applying <==> q.operation.Some? && !q.operation.value.Warming?)
    && (!q.running ==> q.waiters == [] && q.desired == q.current)
    && EachOnce(q)
    && TrueToWishes(q)
    && (q.desired == LastWish(q.wishes) || q.failedSince)
  }

  lemma {:induction false} AnsweredConcat(a: seq<Answered>, b: seq<Answered>, id: nat)
    ensures TimesAnswered(a + b, id) == TimesAnswered(a, id) + TimesAnswered(b, id)
  {
    if a == [] {
      assert a + b == b;
    } else {
      AnsweredConcat(a[1..], b, id);
      assert (a + b)[1..] == a[1..] + b;
    }
  }

  lemma {:induction false} WaitingConcat(a: seq<Waiter>, b: seq<Waiter>, id: nat)
    ensures TimesWaiting(a + b, id) == TimesWaiting(a, id) + TimesWaiting(b, id)
  {
    if a == [] {
      assert a + b == b;
    } else {
      WaitingConcat(a[1..], b, id);
      assert (a + b)[1..] == a[1..] + b;
    }
  }

  /** Settling parts the waiters: each goes on waiting or is answered, never both, never neither. */
  lemma {:induction false} SettleParts(waiters: seq<Waiter>, landed: Pref, failed: bool, now: Moment, id: nat)
    ensures TimesWaiting(waiters, id)
            == TimesWaiting(StillWaiting(waiters, landed, now.desired), id)
               + TimesAnswered(AnswersGiven(waiters, landed, failed, now), id)
  {
    if waiters != [] {
      SettleParts(waiters[1..], landed, failed, now, id);
    }
  }

  /** Who waits for what just failed is about to be answered so, or wishes for it anew. */
  ghost predicate NoneElseFailed(waiters: seq<Waiter>, ended: Option<Ended>, landed: Pref, desired: Pref) {
    forall w :: w in waiters ==> w.pref == landed || w.pref == desired || !JustFailed(ended, w.pref)
  }

  lemma {:induction false} SettleIsHonest(waiters: seq<Waiter>, landed: Pref, failed: bool, now: Moment,
                                          wishes: seq<Pref>)
    requires if failed then JustFailed(now.ended, landed) else landed == now.current
    requires forall w :: w in waiters ==> w.id < |wishes| && wishes[w.id] == w.pref
    requires NoneElseFailed(waiters, now.ended, landed, now.desired)
    ensures forall a :: a in AnswersGiven(waiters, landed, failed, now) ==> Honest(a, wishes)
    ensures forall w :: w in StillWaiting(waiters, landed, now.desired) ==> w in waiters && w.pref != landed
  {
    if waiters != [] {
      SettleIsHonest(waiters[1..], landed, failed, now, wishes);
      SamePrefIsEquality(waiters[0].pref, landed);
      SamePrefIsEquality(waiters[0].pref, now.desired);
    }
  }

  lemma {:induction false} NobodyWaitsForLanded(waiters: seq<Waiter>, landed: Pref)
    ensures StillWaiting(waiters, landed, landed) == []
  {
    if waiters != [] {
      NobodyWaitsForLanded(waiters[1..], landed);
    }
  }

  lemma SettleKeeps(q: Queue, landed: Pref, failed: bool)
    requires EachOnce(q) && TrueToWishes(q)
    requires if failed then JustFailed(q.ended, landed) else landed == q.current
    requires NoneElseFailed(q.waiters, q.ended, landed, q.desired)
    ensures var s := Settled(q, landed, failed);
            && EachOnce(s) && TrueToWishes(s)
            && (forall w :: w in s.waiters ==> w in q.waiters && w.pref != landed)
            && (landed == q.desired ==> s.waiters == [])
  {
    var now := Moment(q.current, q.desired, q.ended);
    forall id: nat
      ensures TimesWaiting(Settled(q, landed, failed).waiters, id)
              + TimesAnswered(Settled(q, landed, failed).answers, id)
              == TimesWaiting(q.waiters, id) + TimesAnswered(q.answers, id)
    {
      SettleParts(q.waiters, landed, failed, now, id);
      AnsweredConcat(q.answers, AnswersGiven(q.waiters, landed, failed, now), id);
    }
    SettleIsHonest(q.waiters, landed, failed, now, q.wishes);
    NobodyWaitsForLanded(q.waiters, landed);
  }

  /** What the pump needs on its way round: everything but being at rest. */
  ghost predicate Midway(q: Queue) {
    && q.running && q.operation.None? && !q.applying
    && EachOnce(q)
    && TrueToWishes(q)
    && (q.desired == LastWish(q.wishes) || q.failedSince)
    && NoneElseFailed(q.waiters, q.ended, q.desired, q.desired)
  }

  lemma {:induction false} PumpingKeeps(q: Queue)
    requires Midway(q)
    ensures Inv(Pumping(q))
    decreases if SamePref(q.desired, q.current) then 0 else 1
  {
    SamePrefIsEquality(q.desired, q.current);
    if SamePref(q.desired, q.current) {
      SettleKeeps(q.(running := false), q.current, false);
    } else if q.desired.Disabled? && !q.pipeline {
      SettleKeeps(q.(current := q.desired), q.desired, false);
      PumpingKeeps(Settled(q.(current := q.desired), q.desired, false));
    }
  }

  function Asking(q: Queue, pref: Pref): Queue {
    q.(desired := pref, wishes := q.wishes + [pref], failedSince := false)
  }

  lemma AskedAndWaiting(q: Queue, pref: Pref)
    requires EachOnce(q)
    ensures EachOnce(Asking(q, pref).(waiters := q.waiters + [Waiter(|q.wishes|, pref)]))
  {
    forall id: nat
      ensures TimesWaiting(q.waiters + [Waiter(|q.wishes|, pref)], id)
              == TimesWaiting(q.waiters, id) + if id == |q.wishes| then 1 else 0
    {
      WaitingConcat(q.waiters, [Waiter(|q.wishes|, pref)], id);
    }
  }

  lemma AskedAndAnswered(q: Queue, pref: Pref, a: Answered)
    requires EachOnce(q) && a.id == |q.wishes|
    ensures EachOnce(Asking(q, pref).(answers := q.answers + [a]))
  {
    forall id: nat
      ensures TimesAnswered(q.answers + [a], id) == TimesAnswered(q.answers, id) + if id == |q.wishes| then 1 else 0
    {
      AnsweredConcat(q.answers, [a], id);
    }
  }

  lemma RequestKeeps(q: Queue, pref: Pref)
    requires Inv(q)
    ensures Inv(Requested(q, pref))
  {
    SamePrefIsEquality(pref, q.current);
    if SamePref(pref, q.current) && !q.running {
      AskedAndAnswered(q, pref, Answered(|q.wishes|, pref, Applied, Moment(q.current, pref, q.ended)));
    } else {
      AskedAndWaiting(q, pref);
      if !q.running {
        PumpingKeeps(Asking(q, pref).(waiters := q.waiters + [Waiter(|q.wishes|, pref)], running := true));
      }
    }
  }

  lemma ReconcileKeeps(q: Queue, outcome: Outcome)
    requires Inv(q) && q.operation.Some? && !q.operation.value.Warming?
    ensures Midway(Reconciled(q, outcome))
  {
    var target := q.operation.value.target;
    SamePrefIsEquality(q.desired, target);
    SamePrefIsEquality(target, LastWish(q.wishes));
    var ended := PipelineAfter(q, outcome).(applying := false);
    if outcome.Resolves? {
      SettleKeeps(ended.(current := target), target, false);
    } else {
      SettleKeeps(ended.(desired := if SamePref(q.desired, target) then q.current else q.desired,
                         failedSince := q.failedSince || SamePref(target, LastWish(q.wishes))), target, true);
    }
  }

  lemma LoseKeeps(q: Queue)
    requires Inv(q)
    ensures Inv(PipelineLost(q))
  {
    SamePrefIsEquality(q.desired, Disabled);
    if q.desired != Disabled && !q.running {
      PumpingKeeps(q.(pipeline := false, current := Disabled, running := true));
    }
  }

  lemma EndKeeps(q: Queue, outcome: Outcome)
    requires Inv(q) && q.operation.Some?
    ensures Inv(OperationEnded(q, outcome))
  {
    if q.operation.value.Warming? {
      PumpingKeeps(PipelineAfter(q, outcome).(running := true));
    } else {
      ReconcileKeeps(q, outcome);
      PumpingKeeps(Reconciled(q, outcome));
    }
  }

  lemma StepKeeps(q: Queue, step: Step)
    requires Inv(q) && Enabled(q, step)
    ensures Inv(Next(q, step))
  {
    match step
    case Request(pref) => RequestKeeps(q, pref);
    case Prewarm =>
    case Lose => LoseKeeps(q);
    case End(outcome) => EndKeeps(q, outcome);
    case LateBuild =>
    case LateFailure =>
  }

  lemma {:induction false} RunKeeps(q: Queue, steps: seq<Step>)
    requires Inv(q) && IsRun(q, steps)
    ensures Inv(After(q, steps))
    decreases |steps|
  {
    if steps != [] {
      StepKeeps(q, steps[0]);
      RunKeeps(Next(q, steps[0]), steps[1..]);
    }
  }

  /** In every run each request is answered at most once, and honestly; and when nothing is running every request has
      been answered, what is wished for is what is current, and that is the last preference asked for, unless an
      operation to it failed since. */
  lemma EveryRunSettles(steps: seq<Step>)
    requires IsRun(NEW_QUEUE, steps)
    ensures var q := After(NEW_QUEUE, steps);
            && EachOnce(q) && TrueToWishes(q)
            && (!q.running ==>
                  && (forall id: nat :: id < |q.wishes| ==> TimesAnswered(q.answers, id) == 1)
                  && q.desired == q.current
                  && (q.current == LastWish(q.wishes) || q.failedSince))
  {
    assert Inv(NEW_QUEUE);
    RunKeeps(NEW_QUEUE, steps);
  }

  // ── Bounded work ──

  /** How many operations, counting the one on its way, can still end before the queue is at rest. */
  function Work(q: Queue): nat {
    if !q.running || q.operation.None? then 0
    else if !q.operation.value.Warming? && q.operation.value.target == q.desired then 1
    else 2
  }

  lemma {:induction false} PumpingWork(q: Queue)
    requires q.running && q.operation.None?
    ensures Work(Pumping(q)) <= 1
    ensures SamePref(q.desired, q.current) ==> Work(Pumping(q)) == 0
    decreases if SamePref(q.desired, q.current) then 0 else 1
  {
    if !SamePref(q.desired, q.current) && q.desired.Disabled? && !q.pipeline {
      PumpingWork(Settled(q.(current := q.desired), q.desired, false));
    }
  }

  /** Each end of an operation leaves less to do: the pump cannot go round for ever. */
  lemma EndingDecreases(q: Queue, outcome: Outcome)
    requires Inv(q) && q.operation.Some?
    ensures Work(OperationEnded(q, outcome)) < Work(q)
  {
    if q.operation.value.Warming? {
      PumpingWork(PipelineAfter(q, outcome).(running := true));
    } else {
      SamePrefIsEquality(q.desired, q.operation.value.target);
      PumpingWork(Reconciled(q, outcome));
    }
  }

  predicate Quiet(steps: seq<Step>) {
    forall s :: s in steps ==> s.End? || s.LateBuild? || s.LateFailure?
  }

  function Ends(steps: seq<Step>): nat {
    if steps == [] then 0 else (if steps[0].End? then 1 else 0) + Ends(steps[1..])
  }

  lemma QuietStepWork(q: Queue, step: Step)
    requires Inv(q) && Enabled(q, step) && (step.End? || step.LateBuild? || step.LateFailure?)
    ensures Work(Next(q, step)) + (if step.End? then 1 else 0) <= Work(q)
  {
    if step.End? {
      EndingDecreases(q, step.outcome);
    }
  }

  lemma {:induction false} QuietWork(q: Queue, steps: seq<Step>)
    requires Inv(q) && IsRun(q, steps) && Quiet(steps)
    ensures Work(After(q, steps)) + Ends(steps) <= Work(q)
    decreases |steps|
  {
    if steps != [] {
      assert steps[0] in steps;
      StepKeeps(q, steps[0]);
      QuietStepWork(q, steps[0]);
      var next := Next(q, steps[0]);
      assert Quiet(steps[1..]);
      QuietWork(next, steps[1..]);
    }
  }

  /** Once nobody asks any more, however many asked before: the operation on its way ends, at most one further operation
      is started and ends, and the queue is at rest. */
  lemma QuietRunIsShort(busy: seq<Step>, quiet: seq<Step>)
    requires IsRun(NEW_QUEUE, busy) && IsRun(After(NEW_QUEUE, busy), quiet) && Quiet(quiet)
    ensures Ends(quiet) <= 2
    ensures Ends(quiet) == 2 ==> !After(After(NEW_QUEUE, busy), quiet).running
  {
    assert Inv(NEW_QUEUE);
    RunKeeps(NEW_QUEUE, busy);
    QuietWork(After(NEW_QUEUE, busy), quiet);
    RunKeeps(After(NEW_QUEUE, busy), quiet);
  }

  // ── One operation at a time ──

  /** Whether a step starts an operation: one is awaited after it that was not before. */
  predicate Starts(q: Queue, step: Step)
    requires Enabled(q, step)
  {
    var after := Next(q, step).operation;
    after.Some? && (step.End? || after != q.operation)
  }

  function StartsIn(q: Queue, steps: seq<Step>): nat
    requires IsRun(q, steps)
    decreases |steps|
  {
    if steps == [] then 0
    else (if Starts(q, steps[0]) then 1 else 0) + StartsIn(Next(q, steps[0]), steps[1..])
  }

  function Hung(steps: seq<Step>): nat {
    if steps == [] then 0 else (if steps[0] == End(Hangs) then 1 else 0) + Hung(steps[1..])
  }

  lemma {:induction false} StartsMatchEnds(q: Queue, steps: seq<Step>)
    requires Inv(q) && IsRun(q, steps)
    ensures (if q.operation.Some? then 1 else 0) + StartsIn(q, steps)
            == Ends(steps) + if After(q, steps).operation.Some? then 1 else 0
    ensures Hung(steps) <= Ends(steps)
    decreases |steps|
  {
    if steps != [] {
      StepKeeps(q, steps[0]);
      StartsMatchEnds(Next(q, steps[0]), steps[1..]);
    }
  }

  /** Over every run each operation is started only when the one before it was answered or given up on: no more are
      unanswered than the one awaited and those the watchdog gave up on. */
  lemma OneOperationAtATime(steps: seq<Step>)
    requires IsRun(NEW_QUEUE, steps)
    ensures StartsIn(NEW_QUEUE, steps) == Ends(steps) + if After(NEW_QUEUE, steps).operation.Some? then 1 else 0
    ensures StartsIn(NEW_QUEUE, steps) - (Ends(steps) - Hung(steps)) <= 1 + Hung(steps)
  {
    assert Inv(NEW_QUEUE);
    StartsMatchEnds(NEW_QUEUE, steps);
  }

  // ── Pipeline agreement ──

  /** What is shown as current is really attached. */
  predicate Agrees(q: Queue) {
    q.current.Disabled? || q.pipeline
  }

  /** The watchdog never fires on a switch, and the pipeline is not lost in the middle of one. */
  predicate Calm(q: Queue, step: Step)
    requires Enabled(q, step)
  {
    match step
    case End(outcome) => !(outcome.Hangs? && q.operation.value.Switching?)
    case Lose => !(q.operation.Some? && q.operation.value.Switching?)
    case _ => true
  }

  ghost predicate CalmRun(q: Queue, steps: seq<Step>)
    decreases |steps|
  {
    steps != [] ==> Enabled(q, steps[0]) && Calm(q, steps[0]) && CalmRun(Next(q, steps[0]), steps[1..])
  }

  predicate PipelineInv(q: Queue) {
    && Agrees(q)
    && (q.operation.Some? ==> if q.operation.value.Switching? then q.pipeline else q.current.Disabled?)
  }

  lemma PumpingAgrees(q: Queue)
    requires Agrees(q) && q.operation.None?
    ensures PipelineInv(Pumping(q))
  {
    SamePrefIsEquality(q.desired, q.current);
  }

  lemma CalmStepAgrees(q: Queue, step: Step)
    requires Inv(q) && PipelineInv(q) && Enabled(q, step) && Calm(q, step)
    ensures PipelineInv(Next(q, step))
  {
    match step
    case Request(pref) =>
      if !q.running {
        PumpingAgrees(Asking(q, pref).(waiters := q.waiters + [Waiter(|q.wishes|, pref)], running := true));
      }
    case Lose =>
      if !q.running {
        PumpingAgrees(q.(pipeline := false, current := Disabled, running := true));
      }
    case End(outcome) =>
      if q.operation.value.Warming? {
        PumpingAgrees(PipelineAfter(q, outcome).(running := true));
      } else {
        PumpingAgrees(Reconciled(q, outcome));
      }
    case _ =>
  }

  lemma {:induction false} CalmRunKeeps(q: Queue, steps: seq<Step>)
    requires Inv(q) && PipelineInv(q) && CalmRun(q, steps)
    ensures IsRun(q, steps) && PipelineInv(After(q, steps))
    decreases |steps|
  {
    if steps != [] {
      StepKeeps(q, steps[0]);
      CalmStepAgrees(q, steps[0]);
      CalmRunKeeps(Next(q, steps[0]), steps[1..]);
    }
  }

  /** In every calm run an effect shown as current has its pipeline, even if builds given up on finish late. */
  lemma CurrentHasItsPipeline(steps: seq<Step>)
    requires CalmRun(NEW_QUEUE, steps)
    ensures IsRun(NEW_QUEUE, steps) && Agrees(After(NEW_QUEUE, steps))
  {
    assert Inv(NEW_QUEUE);
    CalmRunKeeps(NEW_QUEUE, steps);
  }

  /** What a watchdog on a switch comes to: the pipeline is dropped, and the agreement with it, exactly unless
      nothing was shown or the member has meanwhile asked for no effect. */
  lemma WatchdogOnSwitch(q: Queue)
    requires Inv(q) && PipelineInv(q) && q.operation.Some? && q.operation.value.Switching?
    ensures Agrees(OperationEnded(q, Hangs))
            <==> q.current.Disabled? || (q.desired.Disabled? && !q.operation.value.target.Disabled?)
  {
    SamePrefIsEquality(q.desired, q.operation.value.target);
    PumpingLeaves(Reconciled(q, Hangs));
  }

  /** What losing the pipeline in the middle of a switch that then succeeds comes to. */
  lemma LossDuringSwitch(q: Queue)
    requires Inv(q) && q.operation.Some? && q.operation.value.Switching?
    ensures PipelineLost(q).operation == q.operation
    ensures Agrees(OperationEnded(PipelineLost(q), Resolves))
            <==> q.operation.value.target.Disabled? || q.desired.Disabled?
  {
    PumpingLeaves(Reconciled(PipelineLost(q), Resolves));
  }

  /** Where the pump leaves off: at its next operation, or with what is wished for current. */
  lemma PumpingLeaves(q: Queue)
    ensures var p := Pumping(q);
            && p.pipeline == q.pipeline
            && (if q.desired == q.current then p.current == q.current
                else if q.desired.Disabled? && !q.pipeline then p.current == Disabled
                else p.current == q.current)
  {
    SamePrefIsEquality(q.desired, q.current);
    if !SamePref(q.desired, q.current) && q.desired.Disabled? && !q.pipeline {
      var off := Settled(q.(current := q.desired), q.desired, false);
      SamePrefIsEquality(off.desired, off.current);
      assert Pumping(q) == Pumping(off);
    }
  }

  lemma {:induction false} OneMore(q: Queue, steps: seq<Step>, step: Step)
    requires IsRun(q, steps) && Enabled(After(q, steps), step)
    ensures IsRun(q, steps + [step]) && After(q, steps + [step]) == Next(After(q, steps), step)
    decreases |steps|
  {
    if steps == [] {
      assert [] + [step] == [step] && [step][1..] == [];
    } else {
      OneMore(Next(q, steps[0]), steps[1..], step);
      assert (steps + [step])[1..] == steps[1..] + [step];
    }
  }

  function Built(shown: Pref): Option<Ended> {
    Some(Ended(Building(shown), Resolves))
  }

  /** An effect is built and shown. */
  lemma FirstApply(shown: Pref)
    requires !shown.Disabled?
    ensures var q := Next(NEW_QUEUE, Request(shown));
            && q.operation == Some(Building(shown))
            && Next(q, End(Resolves))
               == Queue(shown, shown, false, false, [], None, true, 0, Built(shown), [shown], false,
                        [Answered(0, shown, Applied, Moment(shown, shown, Built(shown)))])
  {
    SamePrefIsEquality(shown, shown);
    SamePrefIsEquality(shown, Disabled);
    var w := Waiter(0, shown);
    var q := Next(NEW_QUEUE, Request(shown));
    assert q == Queue(Disabled, shown, true, true, [w], Some(Building(shown)), false, 0, None, [shown], false, []);
    SettleOne(w, shown, Moment(shown, shown, Built(shown)));
    var r := Reconciled(q, Resolves);
    assert r == Queue(shown, shown, false, true, [], None, true, 0, Built(shown), [shown], false,
                      [Answered(0, shown, Applied, Moment(shown, shown, Built(shown)))]);
  }

  lemma SettleOne(w: Waiter, landed: Pref, now: Moment)
    requires w.pref == landed
    ensures StillWaiting([w], landed, landed) == []
    ensures AnswersGiven([w], landed, false, now) == [Answered(w.id, w.pref, Applied, now)]
  {
    SamePrefIsEquality(landed, landed);
    assert [w][1..] == [];
  }

  /** Another effect is asked for, and the watchdog fires on the switch to it. */
  lemma SwitchHangs(q: Queue, wanted: Pref)
    requires Inv(q) && !q.running && q.pipeline && wanted != q.current
    ensures Enabled(Next(q, Request(wanted)), End(Hangs))
    ensures var hung := Next(Next(q, Request(wanted)), End(Hangs));
            !hung.running && hung.current == q.current && !hung.pipeline && hung.wishes == q.wishes + [wanted]
  {
    SamePrefIsEquality(wanted, q.current);
    SamePrefIsEquality(wanted, wanted);
    var switching := Next(q, Request(wanted));
    assert switching.operation == Some(Switching(wanted)) && switching.desired == wanted;
    SamePrefIsEquality(q.current, q.current);
  }

  /** A run that ends at rest with an effect shown and nothing attached; asked for again, it is answered as applied at
      once. */
  lemma AppliedWithoutPipeline(shown: Pref, wanted: Pref) returns (steps: seq<Step>)
    requires !shown.Disabled? && wanted != shown
    ensures IsRun(NEW_QUEUE, steps)
    ensures var q := After(NEW_QUEUE, steps);
            && !q.running && q.current == shown && !q.pipeline
            && q.answers != []
            && var last := q.answers[|q.answers| - 1];
               last.id == 2 && last.pref == shown && last.answer == Applied
  {
    FirstApply(shown);
    OneMore(NEW_QUEUE, [], Request(shown));
    steps := [] + [Request(shown)];
    OneMore(NEW_QUEUE, steps, End(Resolves));
    steps := steps + [End(Resolves)];
    RunKeeps(NEW_QUEUE, steps);
    SwitchHangs(After(NEW_QUEUE, steps), wanted);
    OneMore(NEW_QUEUE, steps, Request(wanted));
    steps := steps + [Request(wanted)];
    OneMore(NEW_QUEUE, steps, End(Hangs));
    steps := steps + [End(Hangs)];
    SamePrefIsEquality(shown, shown);
    OneMore(NEW_QUEUE, steps, Request(shown));
    steps := steps + [Request(shown)];
  }
}
