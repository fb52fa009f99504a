/** Where the freshness protocol stops: the trust margin is exact, and a hidden query can be overtaken. */
module RealtimeLimits {
  import opened Option
  import opened OrderedMap
  import opened ReplayStore
  import opened ReplayLog
  import opened Emit
  import opened EntitySync
  import opened RealtimeWorld

  /** A run that comes to rest with a shown query whose data misses a change: not failed, not marked. */
  ghost predicate StaysStale(s: Setting, w: World, steps: seq<Step>, id: QueryId) {
    && Initial(s, w)
    && IsRun(s, w, steps)
    && var end := After(s, w, steps);
       && AtRest(end)
       && id in end.client.queries
       && end.client.queries[id].shown && !end.client.queries[id].failed && !end.client.queries[id].invalidated
       && !Current(s, end.log, end.client.queries[id])
  }

  const QUERY := QueryId("q")
  const TAG := Tag("t")

  ghost predicate Runs(s: Setting, w: World, steps: seq<Step>, w': World) {
    IsRun(s, w, steps) && After(s, w, steps) == w'
  }

  lemma RunsOne(s: Setting, w: World, step: Step)
    requires w.store.recent.Valid() && Enabled(s, w, step)
    ensures Runs(s, w, [step], Apply(s, w, step))
  {
    assert [step][1..] == [];
  }

  lemma {:induction false} RunsThen(s: Setting, w: World, a: seq<Step>, w1: World, b: seq<Step>, w2: World)
    requires Runs(s, w, a, w1) && Runs(s, w1, b, w2)
    ensures Runs(s, w, a + b, w2)
    decreases |a|
  {
    if a == [] {
      assert a + b == b;
    } else {
      RunsThen(s, Apply(s, w, a[0]), a[1..], w1, b, w2);
      assert (a + b)[1..] == a[1..] + b;
    }
  }

  ghost predicate Steps(s: Setting, w: World, step: Step, w': World) {
    w.store.recent.Valid() && Enabled(s, w, step) && Apply(s, w, step) == w'
  }

  lemma TwoSteps(s: Setting, w: World, a: Step, w1: World, b: Step, w2: World)
    requires Steps(s, w, a, w1) && Steps(s, w1, b, w2)
    ensures Runs(s, w, [a] + [b], w2)
  {
    RunsOne(s, w, a);
    RunsOne(s, w1, b);
    RunsThen(s, w, [a], w1, [b], w2);
  }

  lemma ThreeSteps(s: Setting, w: World, a: Step, w1: World, b: Step, w2: World, c: Step, w3: World)
    requires Steps(s, w, a, w1) && Steps(s, w1, b, w2) && Steps(s, w2, c, w3)
    ensures Runs(s, w, [a] + ([b] + [c]), w3)
  {
    TwoSteps(s, w1, b, w2, c, w3);
    RunsOne(s, w, a);
    RunsThen(s, w, [a], w1, [b] + [c], w3);
  }

  lemma FourRuns(s: Setting, w: World, a: seq<Step>, w1: World, b: seq<Step>, w2: World, c: seq<Step>, w3: World,
                 d: seq<Step>, w4: World)
    requires Runs(s, w, a, w1) && Runs(s, w1, b, w2) && Runs(s, w2, c, w3) && Runs(s, w3, d, w4)
    ensures Runs(s, w, a + b + c + d, w4)
  {
    RunsThen(s, w, a, w1, b, w2);
    RunsThen(s, w, a + b, w2, c, w3);
    RunsThen(s, w, a + b + c, w3, d, w4);
  }

  function Held(shown: bool, invalidated: bool, flight: Option<Flight>, announced: nat, slip: Slip): Query {
    Query([TAG], shown, Some(0), invalidated, flight, false, false, announced, slip)
  }

  /** A minute after a change that the query's data misses, before the first connect. */
  function MinuteLater(s: Setting, since: int, slip: Slip): World {
    World(EMPTY_STORE, [Tell(s.me, 0, [TAG])], RECENT_ENTITIES_MS, RECENT_ENTITIES_MS + s.offset, Down,
          Client(map[QUERY := Held(true, false, None, 1, slip)], map[QUERY := since], None, None, 0, None))
  }

  /** Dated in the last half of that minute. */
  predicate InTheLastHalf(s: Setting, since: int) {
    s.offset + REPLAY_TRUST_MS <= since < s.offset + RECENT_ENTITIES_MS
  }

  lemma MinuteLaterConnects(s: Setting, since: int, slip: Slip)
    requires s.me.id != "" && InTheLastHalf(s, since)
    ensures var w := MinuteLater(s, since, slip);
            Enabled(s, w, Join)
            && Apply(s, w, Join) == w.(link := Up([Connect], 1, RECENT_ENTITIES_MS))
            && Enabled(s, Apply(s, w, Join), Hear)
  {
    var joined := Apply(s, MinuteLater(s, since, slip), Join);
    assert joined.link.wire == [Connect];
  }

  lemma MinuteLaterLeansTooFar(s: Setting, since: int, slip: Slip)
    requires s.me.id != "" && InTheLastHalf(s, since)
    ensures var w := MinuteLater(s, since, slip);
            var joined := w.(link := Up([Connect], 1, RECENT_ENTITIES_MS));
            && Enabled(s, joined, Hear)
            && var end := Apply(s, joined, Hear);
               end.link == Up([], 1, RECENT_ENTITIES_MS) && end.log == w.log && end.client.trailing.None?
               && end.client.queries == w.client.queries
  {
    MinuteLaterConnects(s, since, slip);
    var joined := MinuteLater(s, since, slip).(link := Up([Connect], 1, RECENT_ENTITIES_MS));
    assert MayHaveMissed(joined.client.(lastConnect := Some(joined.clientNow), connects := 1),
                         joined.clientNow - REPLAY_TRUST_MS) == {};
  }

  /** Connected, nothing more to be heard, and the query as it was: stale. */
  lemma MinuteLaterRests(s: Setting, since: int, slip: Slip) returns (end: World)
    requires s.me.id != "" && InTheLastHalf(s, since)
    ensures Runs(s, MinuteLater(s, since, slip), [Join] + [Hear], end)
    ensures AtRest(end) && end.client.queries == map[QUERY := Held(true, false, None, 1, slip)]
    ensures !Current(s, end.log, end.client.queries[QUERY])
  {
    MinuteLaterConnects(s, since, slip);
    MinuteLaterLeansTooFar(s, since, slip);
    var w := MinuteLater(s, since, slip);
    var joined := w.(link := Up([Connect], 1, RECENT_ENTITIES_MS));
    end := Apply(s, joined, Hear);
    RunsOne(s, w, Join);
    RunsOne(s, joined, Hear);
    RunsThen(s, w, [Join], joined, [Hear], end);
    assert TAG in w.client.queries[QUERY].tags && TAG in w.log[0].entities;
    assert Hits(s, w.log, 0, w.client.queries[QUERY]);
  }

  /** Were the clocks and the lag to need half the server's minute or more, the first connect would leave a stale read
      alone that the replay no longer names: the margin cannot be a millisecond smaller. */
  lemma TrustMarginIsExact(s: Setting) returns (w: World, steps: seq<Step>, id: QueryId)
    requires s.me.id != "" && s.wander + s.lag >= RECENT_ENTITIES_MS - REPLAY_TRUST_MS
    ensures StaysStale(s, w, steps, id)
    ensures After(s, w, steps).client.queries[id].slip.NoSlip?
  {
    var since := s.offset + REPLAY_TRUST_MS;
    w, id, steps := MinuteLater(s, since, NoSlip), QUERY, [Join] + [Hear];
    var end := MinuteLaterRests(s, since, NoSlip);
    assert TAG in w.client.queries[QUERY].tags && TAG in w.log[0].entities;
  }

  // ── A run that overtakes a hidden query ──

  /** The cached query dated a moment before the first connect, the socket still down. */
  function Before(s: Setting): World {
    World(EMPTY_STORE, [], 1, 1 + s.offset, Down,
          Client(map[QUERY := Held(true, false, None, 0, NoSlip)], map[QUERY := s.offset], None, None, 0, None))
  }

  /** Connected for the first time; one cached query. */
  function Online(s: Setting, store: Store, log: seq<Tell>, wire: seq<Message>, query: Query, start: int): World {
    World(store, log, 1, 1 + s.offset, Up(wire, 0, 1),
          Client(map[QUERY := query], map[QUERY := start], Some(1 + s.offset), Some(1 + s.offset), 1, None))
  }

  lemma ConnectsFirst(s: Setting)
    requires s.Sound()
    ensures Runs(s, Before(s), [Join] + [Hear],
                 Online(s, EMPTY_STORE, [], [], Held(true, false, None, 0, NoSlip), s.offset))
  {
    var w := Before(s);
    var joined := Apply(s, w, Join);
    assert joined.link.wire == [Connect];
    var heard := joined.client.(lastConnect := Some(1 + s.offset), connects := 1);
    assert MayHaveMissed(heard, 1 + s.offset - REPLAY_TRUST_MS) == {};
    var end := Apply(s, joined, Hear);
    assert end.client.queries == w.client.queries && end.client.starts == w.client.starts;
    RunsOne(s, w, Join);
    RunsOne(s, joined, Hear);
    RunsThen(s, w, [Join], joined, [Hear], end);
  }

  /** The query as it is while its re-read is sent, answered, and the page left. */
  function Reading(s: Setting, shown: bool, flight: Option<Flight>): World {
    Online(s, EMPTY_STORE, [], [], Held(shown, false, flight, 0, NoSlip), 1 + s.offset)
  }

  lemma StartsReading(s: Setting)
    ensures Steps(s, Online(s, EMPTY_STORE, [], [], Held(true, false, None, 0, NoSlip), s.offset), ReadStarts(QUERY),
                  Reading(s, true, Some(Flight(None))))
  {
  }

  lemma IsServed(s: Setting)
    ensures Steps(s, Reading(s, true, Some(Flight(None))), Serve(QUERY), Reading(s, true, Some(Flight(Some(0)))))
  {
  }

  lemma IsHidden(s: Setting)
    ensures Steps(s, Reading(s, true, Some(Flight(Some(0)))), Hide(QUERY), Reading(s, false, Some(Flight(Some(0)))))
  {
  }

  /** A re-read starts, the server answers it, and the page is left while the answer is on its way. */
  lemma ReadsAndHides(s: Setting)
    ensures Runs(s, Online(s, EMPTY_STORE, [], [], Held(true, false, None, 0, NoSlip), s.offset),
                 [ReadStarts(QUERY)] + ([Serve(QUERY)] + [Hide(QUERY)]), Reading(s, false, Some(Flight(Some(0)))))
  {
    StartsReading(s);
    IsServed(s);
    IsHidden(s);
    ThreeSteps(s, Online(s, EMPTY_STORE, [], [], Held(true, false, None, 0, NoSlip), s.offset),
               ReadStarts(QUERY), Reading(s, true, Some(Flight(None))),
               Serve(QUERY), Reading(s, true, Some(Flight(Some(0)))),
               Hide(QUERY), Reading(s, false, Some(Flight(Some(0)))));
  }

  /** Hidden, its re-read answered before the change: told of it, or having heard of it. */
  function Hidden(s: Setting, store: Store, wire: seq<Message>, flagged: bool): World {
    Online(s, store, [Tell(s.me, 1, [TAG])], wire,
           Held(false, flagged, Some(Flight(Some(0))), 1, if flagged then Overtaken else NoSlip), 1 + s.offset)
  }

  lemma TagsMeet()
    ensures Share([TAG], [TAG])
  {
    assert TAG in [TAG];
  }

  lemma EmitToMe(s: Setting, w: World, tag: Tag)
    requires s.me.id != "" && w.store.recent.Valid()
    ensures var told := Emitted(s, w, [s.me], [tag]);
            && told.log == w.log + [Tell(s.me, w.serverNow, [tag])]
            && told.client == AllAnnounced(w.client, s.me, told.log)
            && told.link == (if w.link.Up? then w.link.(wire := w.link.wire + [Live([tag])]) else w.link)
  {
    assert [s.me][1..] == [];
    assert RecipientsAfter([], [s.me]) == RecipientsAfter([s.me], []);
    assert TellsOf([s.me], [tag], w.serverNow) == [Tell(s.me, w.serverNow, [tag])] + TellsOf([], [tag], w.serverNow);
  }

  /** The change is announced while the query is hidden. */
  lemma TellsWhileHidden(s: Setting) returns (store: Store)
    requires s.Sound()
    ensures store.recent.Valid()
    ensures Steps(s, Reading(s, false, Some(Flight(Some(0)))), EmitStep([s.me], [TAG]),
                  Hidden(s, store, [Live([TAG])], false))
  {
    var w := Reading(s, false, Some(Flight(Some(0))));
    EmitToMe(s, w, TAG);
    store := Emitted(s, w, [s.me], [TAG]).store;
    var log := [Tell(s.me, 1, [TAG])];
    TagsMeet();
    assert Announced(s.me, [TAG], log, 1) == 1;
    assert AllAnnounced(w.client, s.me, log).queries == map[QUERY := w.client.queries[QUERY].(announced := 1)];
  }

  /** The change is heard: the hidden query is flagged. */
  lemma HearsWhileHidden(s: Setting, store: Store)
    requires store.recent.Valid()
    ensures Steps(s, Hidden(s, store, [Live([TAG])], false), Hear, Hidden(s, store, [], true))
  {
    var told := Hidden(s, store, [Live([TAG])], false);
    var query := told.client.queries[QUERY];
    TagsMeet();
    assert Touches(query, [TAG]);
    var flagged := ReadChanged(told.client, [TAG], 1 + s.offset);
    assert flagged.queries == map[QUERY := ToldOfChange(query)];
    assert SentByInvalidate(told.client.queries, TouchedBy(told.client.queries, [TAG]), true) == {};
    assert flagged.starts == told.client.starts;
    assert told.link.wire[1..] == [];
  }

  /** Landed, the flag is gone; shown or not, nothing reads it again. */
  function Left(s: Setting, store: Store, shown: bool): World {
    Online(s, store, [Tell(s.me, 1, [TAG])], [], Held(shown, false, None, 1, Overtaken), 1 + s.offset)
  }

  lemma OldAnswerLands(s: Setting, store: Store)
    requires store.recent.Valid()
    ensures Steps(s, Hidden(s, store, [], true), Land(QUERY), Left(s, store, false))
  {
  }

  lemma ShownAsItIs(s: Setting, store: Store)
    requires store.recent.Valid()
    ensures Steps(s, Left(s, store, false), Show(QUERY), Left(s, store, true))
  {
  }

  lemma LeftIsStale(s: Setting, store: Store)
    ensures AtRest(Left(s, store, true))
    ensures !Current(s, Left(s, store, true).log, Left(s, store, true).client.queries[QUERY])
  {
    TagsMeet();
    assert Hits(s, Left(s, store, true).log, 0, Left(s, store, true).client.queries[QUERY]);
  }

  // ── Exactly when a hidden query is overtaken ──

  /** What a change heard does to a query whose re-read the server has answered: one that is shown is sent again, and
      the flag of a hidden one is lost if and only if the answer is older than the last change to its tags. */
  lemma HearsOfChange(s: Setting, w: World, id: QueryId, n: nat)
    requires s.Sound() && Inv(s, w) && Enabled(s, w, Hear) && w.link.wire[0].Live? && id in w.client.queries
    requires var query := w.client.queries[id];
             Touches(query, w.link.wire[0].tags) && query.data.Some? && query.flight == Some(Flight(Some(n)))
    ensures var query, heard := w.client.queries[id], Apply(s, w, Hear).client.queries[id];
            && heard == ToldOfChange(query)
            && (query.shown ==> heard.flight == Some(Flight(None)))
            && (!query.shown ==> heard.flight == query.flight && heard.invalidated
                                 && heard.slip == if n < query.announced then Overtaken else NoSlip)
  {
    assert QueryTidy(w.client.queries[id]);
    assert id in TouchedBy(w.client.queries, w.link.wire[0].tags);
  }

  lemma LandsThenShows(s: Setting, w: World, id: QueryId, n: nat)
    requires s.Sound() && Inv(s, w) && id in w.client.queries
    requires var query := w.client.queries[id]; query.data.Some? && query.flight == Some(Flight(Some(n)))
    ensures Enabled(s, w, Land(id)) && Enabled(s, Apply(s, w, Land(id)), Show(id))
    ensures var query, end := w.client.queries[id], Apply(s, Apply(s, w, Land(id)), Show(id));
            && end.log == w.log
            && end.client.queries[id] == query.(data := Some(n), invalidated := false, flight := None, again := false,
                                                failed := false, shown := true)
  {
    assert QueryTidy(w.client.queries[id]);
  }

  /** A hidden query, a change to its tags the next to be heard, and its re-read on its way, answered at `n` announced
      changes. */
  predicate AboutToBeFlagged(w: World, id: QueryId, n: nat) {
    && w.link.Up? && w.link.wire != [] && w.link.wire[0].Live? && id in w.client.queries
    && var query := w.client.queries[id];
       !query.shown && Touches(query, w.link.wire[0].tags) && query.data.Some? && query.flight == Some(Flight(Some(n)))
  }

  lemma FlagIsLostFrom(s: Setting, w: World, id: QueryId, n: nat)
    requires s.Sound() && Inv(s, w) && AboutToBeFlagged(w, id, n)
    ensures Enabled(s, w, Hear)
    ensures var heard := Apply(s, w, Hear);
            && Inv(s, heard) && Enabled(s, heard, Land(id)) && Enabled(s, Apply(s, heard, Land(id)), Show(id))
            && var end := Apply(s, Apply(s, heard, Land(id)), Show(id));
               end.log == w.log && id in end.client.queries
               && end.client.queries[id] == w.client.queries[id].(
                    data := Some(n), invalidated := false, flight := None, again := false, failed := false,
                    shown := true, slip := if n < w.client.queries[id].announced then Overtaken else NoSlip)
  {
    HearsOfChange(s, w, id, n);
    StepKeeps(s, w, Hear);
    LandsThenShows(s, Apply(s, w, Hear), id, n);
  }

  lemma HoldsTheLast(s: Setting, w: World, query: Query, n: nat)
    requires query.announced == Announced(s.me, query.tags, w.log, |w.log|) && query.data == Some(n)
    ensures Current(s, w.log, query) <==> query.announced <= n
    ensures Current(s, w.log, query) <==> forall i :: n <= i < |w.log| ==> !Hits(s, w.log, i, query)
  {
    AnnouncedIs(s.me, query.tags, w.log, |w.log|);
    CurrentIs(s, w.log, query);
    if n < query.announced {
      assert Hits(s, w.log, query.announced - 1, query);
    }
  }

  /** From wherever a run has come to: when a change to a hidden query's tags is heard while a re-read answered at `n`
      announced changes is on its way, that read's landing clears the flag, and shown again the query reads nothing. It
      then holds the last change to its tags if and only if none of them was announced after the answer. */
  lemma HiddenFlagIsLost(s: Setting, start: World, steps: seq<Step>, id: QueryId, n: nat)
    requires s.Sound() && Initial(s, start) && IsRun(s, start, steps) && AboutToBeFlagged(After(s, start, steps), id, n)
    ensures var w, more := After(s, start, steps), [Hear] + ([Land(id)] + [Show(id)]);
            && IsRun(s, w, more)
            && var end := After(s, w, more);
               id in end.client.queries && end.log == w.log
               && var query := end.client.queries[id];
                  && query.shown && !query.invalidated && !query.failed && query.flight.None? && query.data == Some(n)
                  && (query.slip == Overtaken <==> n < w.client.queries[id].announced)
                  && (Current(s, end.log, query) <==> query.slip == NoSlip)
                  && (Current(s, end.log, query) <==> forall i :: n <= i < |w.log| ==> !Hits(s, w.log, i, query))
  {
    InitialInv(s, start);
    RunKeeps(s, start, steps);
    var w := After(s, start, steps);
    FlagIsLostFrom(s, w, id, n);
    var heard := Apply(s, w, Hear);
    var landed := Apply(s, heard, Land(id));
    var end := Apply(s, landed, Show(id));
    RunsOne(s, w, Hear);
    RunsOne(s, heard, Land(id));
    RunsOne(s, landed, Show(id));
    RunsThen(s, heard, [Land(id)], landed, [Show(id)], end);
    RunsThen(s, w, [Hear], heard, [Land(id)] + [Show(id)], end);
    HoldsTheLast(s, w, end.client.queries[id], n);
  }

  lemma BeforeIsInitial(s: Setting)
    requires s.Sound()
    ensures Initial(s, Before(s))
  {
  }

  /** And there is a run, from the first connect on, that ends so: a shown query stays stale. */
  lemma HiddenQueryCanBeOvertaken(s: Setting) returns (steps: seq<Step>)
    requires s.Sound()
    ensures StaysStale(s, Before(s), steps, QUERY)
    ensures After(s, Before(s), steps).client.queries[QUERY].slip == Overtaken
  {
    BeforeIsInitial(s);
    ConnectsFirst(s);
    ReadsAndHides(s);
    var store := TellsWhileHidden(s);
    HearsWhileHidden(s, store);
    OldAnswerLands(s, store);
    ShownAsItIs(s, store);
    LeftIsStale(s, store);
    steps := JoinedRuns(s, store);
  }

  /** The four stretches of that run, one after the other. */
  lemma JoinedRuns(s: Setting, store: Store) returns (steps: seq<Step>)
    requires Runs(s, Before(s), [Join] + [Hear],
                  Online(s, EMPTY_STORE, [], [], Held(true, false, None, 0, NoSlip), s.offset))
    requires Runs(s, Online(s, EMPTY_STORE, [], [], Held(true, false, None, 0, NoSlip), s.offset),
                  [ReadStarts(QUERY)] + ([Serve(QUERY)] + [Hide(QUERY)]), Reading(s, false, Some(Flight(Some(0)))))
    requires Steps(s, Reading(s, false, Some(Flight(Some(0)))), EmitStep([s.me], [TAG]),
                   Hidden(s, store, [Live([TAG])], false))
    requires Steps(s, Hidden(s, store, [Live([TAG])], false), Hear, Hidden(s, store, [], true))
    requires Steps(s, Hidden(s, store, [], true), Land(QUERY), Left(s, store, false))
    requires Steps(s, Left(s, store, false), Show(QUERY), Left(s, store, true))
    ensures Runs(s, Before(s), steps, Left(s, store, true))
  {
    var read := [ReadStarts(QUERY)] + ([Serve(QUERY)] + [Hide(QUERY)]);
    var tell, land := [EmitStep([s.me], [TAG])] + [Hear], [Land(QUERY)] + [Show(QUERY)];
    TwoSteps(s, Reading(s, false, Some(Flight(Some(0)))), EmitStep([s.me], [TAG]),
             Hidden(s, store, [Live([TAG])], false), Hear, Hidden(s, store, [], true));
    TwoSteps(s, Hidden(s, store, [], true), Land(QUERY), Left(s, store, false), Show(QUERY), Left(s, store, true));
    FourRuns(s, Before(s), [Join] + [Hear],
             Online(s, EMPTY_STORE, [], [], Held(true, false, None, 0, NoSlip), s.offset), read,
             Reading(s, false, Some(Flight(Some(0)))), tell, Hidden(s, store, [], true), land, Left(s, store, true));
    steps := [Join] + [Hear] + read + tell + land;
  }
}
