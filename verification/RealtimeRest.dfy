/** Rest can be reached: left to itself, a connected client comes to it. */
module RealtimeRest {
  import opened Option
  import opened ReplayStore
  import opened ReplayLog
  import opened EntitySync
  import opened RealtimeWorld
  import opened RealtimeLimits

  /** What the machine does of itself: time passes, what was sent is heard, reads are answered and land, the timer
      fires. */
  predicate IsOwn(step: Step) {
    step.Tick? || step.Hear? || step.Serve? || step.Land? || step.Timer?
  }

  predicate AllOwn(steps: seq<Step>) {
    forall i :: 0 <= i < |steps| ==> IsOwn(steps[i])
  }

  ghost predicate OwnRun(s: Setting, w: World, steps: seq<Step>, w': World) {
    Runs(s, w, steps, w') && AllOwn(steps) && Inv(s, w') && w'.link.Up?
  }

  lemma OneOwn(s: Setting, w: World, step: Step)
    requires s.Sound() && Inv(s, w) && w.link.Up? && Enabled(s, w, step) && IsOwn(step)
    ensures OwnRun(s, w, [step], Apply(s, w, step))
  {
    RunsOne(s, w, step);
    StepKeeps(s, w, step);
  }

  lemma OwnThen(s: Setting, w: World, a: seq<Step>, w1: World, b: seq<Step>, w2: World)
    requires OwnRun(s, w, a, w1) && OwnRun(s, w1, b, w2)
    ensures OwnRun(s, w, a + b, w2)
  {
    RunsThen(s, w, a, w1, b, w2);
  }

  lemma NoneOwn(s: Setting, w: World)
    requires Inv(s, w) && w.link.Up?
    ensures OwnRun(s, w, [], w)
  {
  }

  // ── What was sent is heard ──

  /** Both clocks move on together. */
  lemma Waits(s: Setting, w: World, ms: nat)
    requires s.Sound() && Inv(s, w) && w.link.Up?
    ensures Enabled(s, w, Tick(ms, ms))
    ensures OwnRun(s, w, [Tick(ms, ms)], w.(serverNow := w.serverNow + ms, clientNow := w.clientNow + ms))
  {
    OneOwn(s, w, Tick(ms, ms));
  }

  lemma HearsOne(s: Setting, w: World) returns (steps: seq<Step>, w': World)
    requires s.Sound() && Inv(s, w) && w.link.Up? && w.link.wire != []
    ensures OwnRun(s, w, steps, w') && w'.link.wire == w.link.wire[1..]
  {
    Waits(s, w, 1);
    var later := w.(serverNow := w.serverNow + 1, clientNow := w.clientNow + 1);
    OneOwn(s, later, Hear);
    w' := Apply(s, later, Hear);
    OwnThen(s, w, [Tick(1, 1)], later, [Hear], w');
    steps := [Tick(1, 1)] + [Hear];
  }

  lemma {:induction false} HearsAll(s: Setting, w: World) returns (steps: seq<Step>, w': World)
    requires s.Sound() && Inv(s, w) && w.link.Up?
    ensures OwnRun(s, w, steps, w') && w'.link.wire == []
    decreases |w.link.wire|
  {
    if w.link.wire == [] {
      NoneOwn(s, w);
      steps, w' := [], w;
    } else {
      var first, w1 := HearsOne(s, w);
      var rest, w2 := HearsAll(s, w1);
      OwnThen(s, w, first, w1, rest, w2);
      steps, w' := first + rest, w2;
    }
  }

  // ── The refresh that waits is sent ──

  lemma TimerFires(s: Setting, w: World) returns (steps: seq<Step>, w': World)
    requires s.Sound() && Inv(s, w) && w.link.Up? && w.link.wire == []
    ensures OwnRun(s, w, steps, w') && w'.link.wire == [] && w'.client.trailing.None?
  {
    if w.client.trailing.None? {
      NoneOwn(s, w);
      steps, w' := [], w;
    } else {
      var due := w.client.trailing.value;
      var ms: nat := if due > w.clientNow then due - w.clientNow else 0;
      Waits(s, w, ms);
      var later := w.(serverNow := w.serverNow + ms, clientNow := w.clientNow + ms);
      OneOwn(s, later, Timer);
      w' := Apply(s, later, Timer);
      OwnThen(s, w, [Tick(ms, ms)], later, [Timer], w');
      steps := [Tick(ms, ms)] + [Timer];
    }
  }

  // ── Reads land ──

  function Flying(w: World): set<QueryId> {
    set id | id in w.client.queries && w.client.queries[id].flight.Some?
  }

  /** How many more times a query is answered and lands. */
  function ReadsLeft(query: Query): nat {
    if query.flight.None? then 0 else if query.again then 2 else 1
  }

  ghost predicate OnlyChanges(w: World, w': World, id: QueryId) {
    && w'.link == w.link && w'.client.trailing == w.client.trailing
    && w'.client.queries.Keys == w.client.queries.Keys
    && forall other :: other in w.client.queries && other != id ==> w'.client.queries[other] == w.client.queries[other]
  }

  lemma IsAnswered(s: Setting, w: World, id: QueryId) returns (steps: seq<Step>, w': World)
    requires s.Sound() && Inv(s, w) && w.link.Up? && id in Flying(w)
    ensures OwnRun(s, w, steps, w') && OnlyChanges(w, w', id)
    ensures var query, query' := w.client.queries[id], w'.client.queries[id];
            query'.flight.Some? && query'.flight.value.served.Some? && query'.again == query.again
  {
    if w.client.queries[id].flight.value.served.Some? {
      NoneOwn(s, w);
      steps, w' := [], w;
    } else {
      OneOwn(s, w, Serve(id));
      steps, w' := [Serve(id)], Apply(s, w, Serve(id));
    }
  }

  lemma OnlyChangesThen(w: World, w1: World, w2: World, id: QueryId)
    requires OnlyChanges(w, w1, id) && OnlyChanges(w1, w2, id)
    ensures OnlyChanges(w, w2, id)
  {
  }

  lemma LandingLeavesLess(s: Setting, w: World, id: QueryId)
    requires Inv(s, w) && id in Flying(w) && w.client.queries[id].flight.value.served.Some?
    ensures Enabled(s, w, Land(id)) && OnlyChanges(w, Apply(s, w, Land(id)), id)
    ensures ReadsLeft(Apply(s, w, Land(id)).client.queries[id]) < ReadsLeft(w.client.queries[id])
  {
  }

  lemma LandsOnce(s: Setting, w: World, id: QueryId) returns (steps: seq<Step>, w': World)
    requires s.Sound() && Inv(s, w) && w.link.Up? && id in Flying(w)
    ensures OwnRun(s, w, steps, w') && OnlyChanges(w, w', id)
    ensures ReadsLeft(w'.client.queries[id]) < ReadsLeft(w.client.queries[id])
  {
    var first, w1 := IsAnswered(s, w, id);
    LandingLeavesLess(s, w1, id);
    OneOwn(s, w1, Land(id));
    w' := Apply(s, w1, Land(id));
    OnlyChangesThen(w, w1, w', id);
    OwnThen(s, w, first, w1, [Land(id)], w');
    steps := first + [Land(id)];
  }

  lemma {:induction false} LandsForGood(s: Setting, w: World, id: QueryId) returns (steps: seq<Step>, w': World)
    requires s.Sound() && Inv(s, w) && w.link.Up? && id in w.client.queries
    ensures OwnRun(s, w, steps, w') && OnlyChanges(w, w', id) && w'.client.queries[id].flight.None?
    decreases ReadsLeft(w.client.queries[id])
  {
    if w.client.queries[id].flight.None? {
      NoneOwn(s, w);
      steps, w' := [], w;
    } else {
      var first, w1 := LandsOnce(s, w, id);
      var rest, w2 := LandsForGood(s, w1, id);
      OnlyChangesThen(w, w1, w2, id);
      OwnThen(s, w, first, w1, rest, w2);
      steps, w' := first + rest, w2;
    }
  }

  lemma OneFewer(w: World, w': World, id: QueryId)
    requires OnlyChanges(w, w', id) && id in Flying(w) && w'.client.queries[id].flight.None?
    ensures Flying(w') == Flying(w) - {id} && |Flying(w')| < |Flying(w)|
  {
  }

  lemma {:induction false} AllLand(s: Setting, w: World) returns (steps: seq<Step>, w': World)
    requires s.Sound() && Inv(s, w) && w.link.Up?
    ensures OwnRun(s, w, steps, w') && w'.link == w.link && w'.client.trailing == w.client.trailing && Flying(w') == {}
    decreases |Flying(w)|
  {
    if Flying(w) == {} {
      NoneOwn(s, w);
      steps, w' := [], w;
    } else {
      var id :| id in Flying(w);
      var first, w1 := LandsForGood(s, w, id);
      OneFewer(w, w1, id);
      var rest, w2 := AllLand(s, w1);
      OwnThen(s, w, first, w1, rest, w2);
      steps, w' := first + rest, w2;
    }
  }

  /** From wherever a run has come to, connected: when nothing more is announced and the page does nothing, what the
      machine does of itself comes to rest, where every query is current or excused. */
  lemma RestIsReached(s: Setting, start: World, steps: seq<Step>) returns (more: seq<Step>)
    requires s.Sound() && Initial(s, start) && IsRun(s, start, steps) && After(s, start, steps).link.Up?
    ensures AllOwn(more) && IsRun(s, After(s, start, steps), more)
    ensures var end := After(s, After(s, start, steps), more);
            AtRest(end) && forall id :: id in end.client.queries ==> ComesTo(s, end.log, end.client.queries[id])
  {
    InitialInv(s, start);
    RunKeeps(s, start, steps);
    var w := After(s, start, steps);
    var hear, w1 := HearsAll(s, w);
    var fire, w2 := TimerFires(s, w1);
    var land, w3 := AllLand(s, w2);
    OwnThen(s, w, hear, w1, fire, w2);
    OwnThen(s, w, hear + fire, w2, land, w3);
    more := hear + fire + land;
    assert forall id :: id in w3.client.queries ==> id !in Flying(w3);
    forall id | id in w3.client.queries ensures ComesTo(s, w3.log, w3.client.queries[id]) {
      RestComesTo(s, w3, id);
    }
  }
}
