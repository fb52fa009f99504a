/** What the end of an operation answers each request that waited, and what a failure and a warm-up leave behind. */
module ApplyQueueAnswers {
  import opened Option
  import opened ApplyQueue
  import opened ApplyQueueRuns

  /** A request is given this answer after the first `n`. */
  ghost predicate IsGiven(answers: seq<Answered>, n: nat, w: Waiter, answer: Answer) {
    exists k :: n <= k < |answers| && IsAnswer(answers[k], w, answer)
  }

  predicate IsAnswer(a: Answered, w: Waiter, answer: Answer) {
    a.id == w.id && a.pref == w.pref && a.answer == answer
  }

  /** What is wished for once an operation ended: a failure takes its own wish back. */
  function WishAfter(q: Queue, outcome: Outcome): Pref
    requires q.operation.Some? && !q.operation.value.Warming?
  {
    if outcome != Resolves && q.desired == q.operation.value.target then q.current else q.desired
  }

  lemma GivenFirst(a: Answered, rest: seq<Answered>, w: Waiter, answer: Answer)
    requires IsAnswer(a, w, answer)
    ensures IsGiven([a] + rest, 0, w, answer)
  {
    assert ([a] + rest)[0] == a;
  }

  lemma GivenAmongRest(a: Answered, rest: seq<Answered>, w: Waiter, answer: Answer)
    requires IsGiven(rest, 0, w, answer)
    ensures IsGiven([a] + rest, 0, w, answer)
  {
    var k :| 0 <= k < |rest| && IsAnswer(rest[k], w, answer);
    assert ([a] + rest)[k + 1] == rest[k];
  }

  /** What settling answers one of the waiters, if it does. */
  function AnswerTo(w: Waiter, landed: Pref, failed: bool, desired: Pref): Option<Answer> {
    if w.pref == landed then Some(if failed then Failed else Applied)
    else if w.pref == desired then None
    else Some(Superseded)
  }

  lemma SettlingOne(w: Waiter, rest: seq<Waiter>, landed: Pref, failed: bool, now: Moment)
    ensures var answer, given := AnswerTo(w, landed, failed, now.desired), AnswersGiven(rest, landed, failed, now);
            && AnswersGiven([w] + rest, landed, failed, now)
               == (if answer.Some? then [Answered(w.id, w.pref, answer.value, now)] + given else given)
            && StillWaiting([w] + rest, landed, now.desired)
               == (if answer.Some? then [] else [w]) + StillWaiting(rest, landed, now.desired)
  {
    SamePrefIsEquality(w.pref, landed);
    SamePrefIsEquality(w.pref, now.desired);
    assert ([w] + rest)[1..] == rest;
  }

  lemma {:induction false} SettlingGives(waiters: seq<Waiter>, landed: Pref, failed: bool, now: Moment, w: Waiter)
    requires w in waiters
    ensures var answer := AnswerTo(w, landed, failed, now.desired);
            if answer.Some? then IsGiven(AnswersGiven(waiters, landed, failed, now), 0, w, answer.value)
            else w in StillWaiting(waiters, landed, now.desired)
  {
    var first, rest := waiters[0], waiters[1..];
    var answer, firstAnswer := AnswerTo(w, landed, failed, now.desired), AnswerTo(first, landed, failed, now.desired);
    var given := AnswersGiven(rest, landed, failed, now);
    assert waiters == [first] + rest;
    SettlingOne(first, rest, landed, failed, now);
    if w == first {
      if answer.Some? {
        GivenFirst(Answered(w.id, w.pref, answer.value, now), given, w, answer.value);
      }
    } else {
      SettlingGives(rest, landed, failed, now, w);
      if answer.Some? && firstAnswer.Some? {
        GivenAmongRest(Answered(first.id, first.pref, firstAnswer.value, now), given, w, answer.value);
      }
    }
  }

  lemma GivenLater(answers: seq<Answered>, more: seq<Answered>, w: Waiter, answer: Answer)
    requires IsGiven(more, 0, w, answer)
    ensures IsGiven(answers + more, |answers|, w, answer)
  {
    var k :| 0 <= k < |more| && IsAnswer(more[k], w, answer);
    assert (answers + more)[|answers| + k] == more[k];
  }

  lemma StaysGiven(answers: seq<Answered>, after: seq<Answered>, n: nat, w: Waiter, answer: Answer)
    requires IsGiven(answers, n, w, answer) && answers <= after
    ensures IsGiven(after, n, w, answer)
  {
    var k :| n <= k < |answers| && IsAnswer(answers[k], w, answer);
    assert after[k] == answers[k];
  }

  /** The pump takes back no answer, and who waits for what is wished for goes on waiting or is told it is applied. */
  lemma {:induction false} PumpingGives(q: Queue, w: Waiter)
    ensures q.answers <= Pumping(q).answers
    ensures w in q.waiters && w.pref == q.desired ==>
              w in Pumping(q).waiters || IsGiven(Pumping(q).answers, |q.answers|, w, Applied)
    decreases if SamePref(q.desired, q.current) then 0 else 1
  {
    SamePrefIsEquality(q.desired, q.current);
    var now := Moment(q.desired, q.desired, q.ended);
    if SamePref(q.desired, q.current) {
      if w in q.waiters && w.pref == q.desired {
        SettlingGives(q.waiters, q.current, false, now, w);
        GivenLater(q.answers, AnswersGiven(q.waiters, q.current, false, now), w, Applied);
      }
    } else if q.desired.Disabled? && !q.pipeline {
      var off := Settled(q.(current := q.desired), q.desired, false);
      PumpingGives(off, w);
      if w in q.waiters && w.pref == q.desired {
        SettlingGives(q.waiters, q.desired, false, now, w);
        GivenLater(q.answers, AnswersGiven(q.waiters, q.desired, false, now), w, Applied);
        StaysGiven(off.answers, Pumping(off).answers, |q.answers|, w, Applied);
      }
    }
  }

  function MomentAfter(q: Queue, outcome: Outcome): Moment
    requires q.operation.Some? && !q.operation.value.Warming?
  {
    Moment(if outcome == Resolves then q.operation.value.target else q.current, WishAfter(q, outcome),
           Some(Ended(q.operation.value, outcome)))
  }

  lemma ReconcilingLeaves(q: Queue, outcome: Outcome)
    requires q.operation.Some? && !q.operation.value.Warming?
    ensures var target, now, after := q.operation.value.target, MomentAfter(q, outcome), Reconciled(q, outcome);
            && after.desired == now.desired && after.current == now.current
            && after.operation.None? && !after.applying
            && after.answers == q.answers + AnswersGiven(q.waiters, target, outcome != Resolves, now)
            && after.waiters == StillWaiting(q.waiters, target, now.desired)
  {
    SamePrefIsEquality(q.desired, q.operation.value.target);
  }

  lemma ReconcilingGives(q: Queue, outcome: Outcome, w: Waiter)
    requires q.operation.Some? && !q.operation.value.Warming? && w in q.waiters
    ensures var after := Reconciled(q, outcome);
            var answer := AnswerTo(w, q.operation.value.target, outcome != Resolves, WishAfter(q, outcome));
            && q.answers <= after.answers && after.desired == WishAfter(q, outcome)
            && if answer.Some? then IsGiven(after.answers, |q.answers|, w, answer.value) else w in after.waiters
  {
    var target, now := q.operation.value.target, MomentAfter(q, outcome);
    var answer := AnswerTo(w, target, outcome != Resolves, now.desired);
    ReconcilingLeaves(q, outcome);
    SettlingGives(q.waiters, target, outcome != Resolves, now, w);
    if answer.Some? {
      GivenLater(q.answers, AnswersGiven(q.waiters, target, outcome != Resolves, now), w, answer.value);
    }
  }

  /** Over every run, when an operation ends each request that waits is dealt with by what it asked for. Asked for what
      the operation was to, it is told applied if the operation resolved, and failed if it was refused or given up on.
      Asked for neither that nor what is wished for now, it is told superseded. Asked for what is wished for now, it
      goes on waiting or is told applied. */
  lemma EndAnswersEach(steps: seq<Step>, outcome: Outcome, w: Waiter)
    requires IsRun(NEW_QUEUE, steps)
    requires var q := After(NEW_QUEUE, steps);
             q.operation.Some? && !q.operation.value.Warming? && w in q.waiters
    ensures var q := After(NEW_QUEUE, steps);
            var target, after := q.operation.value.target, Next(q, End(outcome));
            if w.pref == target then
              IsGiven(after.answers, |q.answers|, w, if outcome == Resolves then Applied else Failed)
            else if w.pref != WishAfter(q, outcome) then IsGiven(after.answers, |q.answers|, w, Superseded)
            else w in after.waiters || IsGiven(after.answers, |q.answers|, w, Applied)
  {
    var q := After(NEW_QUEUE, steps);
    var midway := Reconciled(q, outcome);
    var answer := AnswerTo(w, q.operation.value.target, outcome != Resolves, WishAfter(q, outcome));
    ReconcilingGives(q, outcome, w);
    PumpingGives(midway, w);
    if answer.Some? {
      StaysGiven(midway.answers, Pumping(midway).answers, |q.answers|, w, answer.value);
    } else if w !in Pumping(midway).waiters {
      GivenSince(Pumping(midway).answers, |q.answers|, |midway.answers|, w, Applied);
    }
  }

  lemma GivenSince(answers: seq<Answered>, n: nat, m: nat, w: Waiter, answer: Answer)
    requires IsGiven(answers, m, w, answer) && n <= m
    ensures IsGiven(answers, n, w, answer)
  {
    var k :| m <= k < |answers| && IsAnswer(answers[k], w, answer);
  }

  lemma PumpingRests(q: Queue)
    requires q.desired == q.current
    ensures Pumping(q) == Settled(q.(running := false), q.current, false)
  {
    SamePrefIsEquality(q.desired, q.current);
  }

  /** When nothing newer is wished for, the end of an operation is the queue's rest: with the target current if it
      resolved, and otherwise with what was current before, and wished for again. */
  lemma EndsAtRest(q: Queue, outcome: Outcome)
    requires q.operation.Some? && !q.operation.value.Warming? && q.operation.value.target == q.desired
    ensures var after := Next(q, End(outcome));
            && !after.running && !after.applying && after.operation.None?
            && after.current == (if outcome == Resolves then q.desired else q.current)
            && after.desired == after.current
  {
    ReconcilingLeaves(q, outcome);
    PumpingRests(Reconciled(q, outcome));
  }

  /** A warm-up spares the build: from any rest without a pipeline, after one that resolves a newly wished-for effect
      is a switch, where it would have been a build. */
  lemma PrewarmSparesTheBuild(steps: seq<Step>, wanted: Pref)
    requires IsRun(NEW_QUEUE, steps) && !wanted.Disabled?
    requires var q := After(NEW_QUEUE, steps); !q.running && !q.pipeline && wanted != q.current
    ensures var q := After(NEW_QUEUE, steps);
            && Next(q, Request(wanted)).operation == Some(Building(wanted))
            && Enabled(Next(q, Prewarm), End(Resolves))
            && var warm := Next(Next(q, Prewarm), End(Resolves));
               !warm.running && warm.pipeline && warm.current == q.current
               && Next(warm, Request(wanted)).operation == Some(Switching(wanted))
  {
    assert Inv(NEW_QUEUE);
    RunKeeps(NEW_QUEUE, steps);
    var q := After(NEW_QUEUE, steps);
    SamePrefIsEquality(wanted, q.current);
    SamePrefIsEquality(q.desired, q.current);
  }

  /** A pipeline lost at rest is built again for what is wished for, if that is an effect; lost while an operation is
      under way, it changes no wish and no operation. */
  lemma LossIsRepaired(steps: seq<Step>)
    requires IsRun(NEW_QUEUE, steps)
    ensures var q := After(NEW_QUEUE, steps);
            var lost := Next(q, Lose);
            && !lost.pipeline && lost.current == Disabled && lost.desired == q.desired && lost.wishes == q.wishes
            && lost.operation == (if q.running then q.operation
                                  else if q.desired.Disabled? then None
                                  else Some(Building(q.desired)))
  {
    assert Inv(NEW_QUEUE);
    RunKeeps(NEW_QUEUE, steps);
    SamePrefIsEquality(After(NEW_QUEUE, steps).desired, Disabled);
  }
}
