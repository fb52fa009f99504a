/** The background-effect queue: one pipeline operation at a time, the latest wish wins, every caller is answered
    (client/src/lib/bgEngineCore.ts). Each `await` is a boundary between two steps; the executor is free to answer late,
    to refuse, or never to answer. */
module ApplyQueue {
  import opened Option

  datatype Pref = Disabled | Blur | Image(url: string)

  predicate SameImage(a: Pref, b: Pref) {
    a.Image? && b.Image? && a.url == b.url
  }

  predicate SameMode(a: Pref, b: Pref) {
    (a.Disabled? && b.Disabled?) || (a.Blur? && b.Blur?) || (a.Image? && b.Image?)
  }

  predicate SamePref(a: Pref, b: Pref) {
    SameMode(a, b) && (!a.Image? || SameImage(a, b))
  }

  datatype Answer = Applied | Superseded | Failed

  datatype Waiter = Waiter(id: nat, pref: Pref)

  /** The operation the queue is waiting for. */
  datatype Operation = Building(target: Pref) | Switching(target: Pref) | Warming

  datatype Outcome = Resolves | Rejects | Hangs

  /** An operation that is over, and how the executor or the watchdog ended it. */
  datatype Ended = Ended(operation: Operation, outcome: Outcome)

  /** What an answer was given on: what the queue held, and the last operation to have ended. */
  datatype Moment = Moment(current: Pref, desired: Pref, ended: Option<Ended>)

  datatype Answered = Answered(id: nat, pref: Pref, answer: Answer, given: Moment)

  /** `pipeline`: the executor has a processor attached. `abandoned`: builds the watchdog gave up on that may yet
      finish. The last four fields are history: the last operation to end, the preference of every request made, whether
      an operation to the last of these has failed since, and every answer given. */
  datatype Queue = Queue(current: Pref, desired: Pref, applying: bool, running: bool, waiters: seq<Waiter>,
                         operation: Option<Operation>, pipeline: bool, abandoned: nat, ended: Option<Ended>,
                         wishes: seq<Pref>, failedSince: bool, answers: seq<Answered>)

  const NEW_QUEUE := Queue(Disabled, Disabled, false, false, [], None, false, 0, None, [], false, [])

  function LastWish(wishes: seq<Pref>): Pref {
    if wishes == [] then Disabled else wishes[|wishes| - 1]
  }

  // ── What each step does ──

  function StillWaiting(waiters: seq<Waiter>, landed: Pref, desired: Pref): seq<Waiter> {
    if waiters == [] then []
    else if !SamePref(waiters[0].pref, landed) && SamePref(waiters[0].pref, desired) then
      [waiters[0]] + StillWaiting(waiters[1..], landed, desired)
    else StillWaiting(waiters[1..], landed, desired)
  }

  function AnswersGiven(waiters: seq<Waiter>, landed: Pref, failed: bool, now: Moment): seq<Answered> {
    if waiters == [] then []
    else
      var w, rest := waiters[0], AnswersGiven(waiters[1..], landed, failed, now);
      if SamePref(w.pref, landed) then [Answered(w.id, w.pref, if failed then Failed else Applied, now)] + rest
      else if SamePref(w.pref, now.desired) then rest
      else [Answered(w.id, w.pref, Superseded, now)] + rest
  }

  lemma {:induction false} WaitingAppend(waiters: seq<Waiter>, w: Waiter, landed: Pref, desired: Pref)
    ensures StillWaiting(waiters + [w], landed, desired)
            == StillWaiting(waiters, landed, desired) + StillWaiting([w], landed, desired)
  {
    if waiters == [] {
      assert waiters + [w] == [w];
    } else {
      WaitingAppend(waiters[1..], w, landed, desired);
      assert (waiters + [w])[1..] == waiters[1..] + [w];
    }
  }

  lemma {:induction false} GivenAppend(waiters: seq<Waiter>, w: Waiter, landed: Pref, failed: bool, now: Moment)
    ensures AnswersGiven(waiters + [w], landed, failed, now)
            == AnswersGiven(waiters, landed, failed, now) + AnswersGiven([w], landed, failed, now)
  {
    if waiters == [] {
      assert waiters + [w] == [w];
    } else {
      GivenAppend(waiters[1..], w, landed, failed, now);
      assert (waiters + [w])[1..] == waiters[1..] + [w];
    }
  }

  function Settled(q: Queue, landed: Pref, failed: bool): Queue {
    q.(waiters := StillWaiting(q.waiters, landed, q.desired),
       answers := q.answers + AnswersGiven(q.waiters, landed, failed, Moment(q.current, q.desired, q.ended)))
  }

  /** The pump from the head of its loop to its next await, or to its end. */
  function Pumping(q: Queue): Queue
    decreases if SamePref(q.desired, q.current) then 0 else 1
  {
    if SamePref(q.desired, q.current) then Settled(q.(running := false), q.current, false)
    else if q.desired.Disabled? && !q.pipeline then Pumping(Settled(q.(current := q.desired), q.desired, false))
    else q.(applying := true, operation := Some(if q.pipeline then Switching(q.desired) else Building(q.desired)))
  }

  function Pumped(q: Queue): Queue {
    if q.running then q else Pumping(q.(running := true))
  }

  function Requested(q: Queue, pref: Pref): Queue {
    var asked := q.(desired := pref, wishes := q.wishes + [pref], failedSince := false);
    if SamePref(pref, q.current) && !q.running then
      asked.(answers := q.answers + [Answered(|q.wishes|, pref, Applied, Moment(q.current, pref, q.ended))])
    else Pumped(asked.(waiters := q.waiters + [Waiter(|q.wishes|, pref)]))
  }

  function Prewarmed(q: Queue): Queue {
    if q.running || q.pipeline then q else q.(running := true, operation := Some(Warming))
  }

  /** The shell disposed of the pipeline and says so. */
  function PipelineLost(q: Queue): Queue {
    var lost := q.(pipeline := false, current := Disabled);
    if SamePref(lost.desired, lost.current) then lost else Pumped(lost)
  }

  /** What an operation's end does: a build attaches the pipeline, the watchdog drops it. */
  function PipelineAfter(q: Queue, outcome: Outcome): Queue
    requires q.operation.Some?
  {
    var over := q.(operation := None, ended := Some(Ended(q.operation.value, outcome)));
    match outcome
    case Resolves => if q.operation.value.Switching? then over else over.(pipeline := true)
    case Rejects => over
    case Hangs =>
      over.(pipeline := false, abandoned := q.abandoned + if q.operation.value.Switching? then 0 else 1)
  }

  /** The pump reconciles with how its operation ended: what landed is current; what failed is no longer wished for,
      unless something newer already is. */
  function Reconciled(q: Queue, outcome: Outcome): Queue
    requires q.operation.Some? && !q.operation.value.Warming?
  {
    var target := q.operation.value.target;
    var ended := PipelineAfter(q, outcome).(applying := false);
    if outcome.Resolves? then Settled(ended.(current := target), target, false)
    else
      Settled(ended.(desired := if SamePref(q.desired, target) then q.current else q.desired,
                     failedSince := q.failedSince || SamePref(target, LastWish(q.wishes))), target, true)
  }

  function OperationEnded(q: Queue, outcome: Outcome): Queue
    requires q.operation.Some?
  {
    if q.operation.value.Warming? then Pumped(PipelineAfter(q, outcome).(running := false))
    else Pumping(Reconciled(q, outcome))
  }

  // ── The queue itself ──

  class Applier {
    var current: Pref
    var desired: Pref
    var applying: bool
    var running: bool
    var waiters: seq<Waiter>
    // The await the pump or the prewarm is at, and the executor behind it.
    var operation: Option<Operation>
    var pipeline: bool
    var abandoned: nat
    var ended: Option<Ended>
    var wishes: seq<Pref>
    ghost var failedSince: bool
    var answers: seq<Answered>

    ghost function State(): Queue
      reads this
    {
      Queue(current, desired, applying, running, waiters, operation, pipeline, abandoned, ended, wishes, failedSince,
            answers)
    }

    constructor ()
      ensures State() == NEW_QUEUE
    {
      current, desired, applying, running, waiters := Disabled, Disabled, false, false, [];
      operation, pipeline, abandoned, answers := None, false, 0, [];
      ended, wishes, failedSince := None, [], false;
    }

    method Settle(landed: Pref, failed: bool)
      modifies this`waiters, this`answers
      ensures waiters == StillWaiting(old(waiters), landed, desired)
      ensures answers == old(answers)
                         + AnswersGiven(old(waiters), landed, failed, Moment(current, desired, ended))
    {
      var rest: seq<Waiter> := [];
      var given: seq<Answered> := [];
      var all, now := waiters, Moment(current, desired, ended);
      for i := 0 to |all|
        invariant answers == old(answers)
        invariant rest == StillWaiting(all[..i], landed, desired)
        invariant given == AnswersGiven(all[..i], landed, failed, now)
      {
        var w := all[i];
        WaitingAppend(all[..i], w, landed, desired);
        GivenAppend(all[..i], w, landed, failed, now);
        assert all[..i + 1] == all[..i] + [w];
        if SamePref(w.pref, landed) {
          given := given + [Answered(w.id, w.pref, if failed then Failed else Applied, now)];
        } else if SamePref(w.pref, desired) {
          rest := rest + [w];
        } else {
          given := given + [Answered(w.id, w.pref, Superseded, now)];
        }
      }
      assert all[..|all|] == all;
      waiters := rest;
      answers := answers + given;
    }

    /** The pump's loop, up to an await or the end. */
    method PumpOn()
      requires running && operation.None?
      modifies this
      ensures State() == Pumping(old(State()))
    {
      while !SamePref(desired, current)
        invariant running && operation.None?
        invariant Pumping(State()) == Pumping(old(State()))
        decreases if SamePref(desired, current) then 0 else 1
      {
        var target := desired;
        if target.Disabled? && !pipeline {
          current := target;
          Settle(target, false);
          continue;
        }
        applying := true;
        operation := Some(if pipeline then Switching(target) else Building(target));
        return;
      }
      running := false;
      Settle(current, false);
    }

    method Pump()
      requires !running ==> operation.None?
      modifies this
      ensures State() == Pumped(old(State()))
    {
      if running {
        return;
      }
      running := true;
      PumpOn();
    }

    method Request(pref: Pref)
      requires !running ==> operation.None?
      modifies this
      ensures State() == Requested(old(State()), pref)
    {
      var id := |wishes|;
      wishes, failedSince := wishes + [pref], false;
      desired := pref;
      if SamePref(pref, current) && !running {
        answers := answers + [Answered(id, pref, Applied, Moment(current, desired, ended))];
        return;
      }
      waiters := waiters + [Waiter(id, pref)];
      Pump();
    }

    method NotePipelineLost()
      requires !running ==> operation.None?
      modifies this
      ensures State() == PipelineLost(old(State()))
    {
      pipeline := false;
      current := Disabled;
      if !SamePref(desired, current) {
        Pump();
      }
    }

    method Prewarm()
      modifies this
      ensures State() == Prewarmed(old(State()))
    {
      if running || pipeline {
        return;
      }
      running := true;
      operation := Some(Warming);
    }

    /** What the executor and the watchdog make of the operation waited for. */
    method OperationEnds(outcome: Outcome)
      requires operation.Some?
      modifies this`operation, this`pipeline, this`abandoned, this`ended
      ensures State() == PipelineAfter(old(State()), outcome)
    {
      ended := Some(Ended(operation.value, outcome));
      match outcome {
        case Resolves => pipeline := pipeline || !operation.value.Switching?;
        case Rejects =>
        case Hangs =>
          pipeline := false;
          abandoned := abandoned + if operation.value.Switching? then 0 else 1;
      }
      operation := None;
    }

    /** The prewarm goes on from its await. */
    method PrewarmResumes(outcome: Outcome)
      requires running && operation == Some(Warming)
      modifies this
      ensures State() == OperationEnded(old(State()), outcome)
    {
      OperationEnds(outcome);
      running := false;
      Pump();
    }

    method Reconcile(outcome: Outcome)
      requires operation.Some? && !operation.value.Warming?
      modifies this
      ensures State() == Reconciled(old(State()), outcome)
    {
      var target := operation.value.target;
      OperationEnds(outcome);
      if outcome.Resolves? {
        current := target;
        Settle(target, false);
      } else {
        failedSince := failedSince || SamePref(target, LastWish(wishes));
        if SamePref(desired, target) {
          desired := current;
        }
        Settle(target, true);
      }
      applying := false;
    }

    /** The pump goes on from its await. */
    method PumpResumes(outcome: Outcome)
      requires running && operation.Some? && !operation.value.Warming?
      modifies this
      ensures State() == OperationEnded(old(State()), outcome)
    {
      Reconcile(outcome);
      PumpOn();
    }
  }
}
