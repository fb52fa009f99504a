/** Data a page puts in the cache itself: exactly when the first connect sends such a query again, and when nothing
    does. */
module RealtimePages {
  import opened Option
  import opened ReplayStore
  import opened ReplayLog
  import opened Emit
  import opened EntitySync
  import opened RealtimeWorld
  import opened RealtimeLimits

  // ── The first connect ──

  /** A shown query that holds data and is doing nothing. */
  predicate IsIdle(query: Query) {
    query.shown && query.data.Some? && query.flight.None? && IsTagged(query)
  }

  predicate FirstConnectNext(w: World) {
    ConnectPending(w.link) && w.client.connects == 0
  }

  /** A change to the query's tags in the minute before the socket joined. */
  predicate ChangedLately(s: Setting, w: World, query: Query)
    requires w.link.Up?
  {
    exists i :: 0 <= i < |w.log| && IsChangedLately(s, w, query, i)
  }

  predicate IsChangedLately(s: Setting, w: World, query: Query, i: nat)
    requires w.link.Up? && i < |w.log|
  {
    i < w.link.joinedAt && Hits(s, w.log, i, query) && w.link.joinTime - w.log[i].at < RECENT_ENTITIES_MS
  }

  lemma ConnectLeansOnDates(s: Setting, w: World, id: QueryId)
    requires Inv(s, w) && FirstConnectNext(w) && Enabled(s, w, Hear) && id in w.client.queries
    requires IsIdle(w.client.queries[id])
    ensures var heard := Apply(s, w, Hear);
            && heard.link == w.link.(wire := w.link.wire[1..]) && heard.log == w.log
            && heard.client.lastConnect == Some(w.clientNow) && heard.client.trailing.None?
            && heard.client.connects == 1
            && id in heard.client.queries && id in heard.client.starts
            && if w.client.starts[id] < w.clientNow - REPLAY_TRUST_MS then
                 heard.client.queries[id].flight == Some(Flight(None)) && heard.client.starts[id] == w.clientNow
               else
                 heard.client.queries[id] == w.client.queries[id] && heard.client.starts[id] == w.client.starts[id]
  {
  }

  lemma ReplayReadsTheRest(s: Setting, w: World, id: QueryId)
    requires w.store.recent.Valid() && w.link.Up? && w.link.wire != [] && w.link.wire[0].Replay?
    requires w.client.connects > 0 && w.client.trailing.None? && w.client.lastConnect.Some?
    requires id in w.client.queries && id in w.client.starts
    ensures Enabled(s, w, Hear)
    ensures var query, heard := w.client.queries[id], Apply(s, w, Hear);
            && id in heard.client.queries && heard.log == w.log
            && heard.client.queries[id]
               == if Touches(query, w.link.wire[0].tags) && w.client.starts[id] < w.client.lastConnect.value
                  then ReadAgainOne(query) else query
  {
  }

  /** The replay behind a first connect names a query exactly when one of its tags changed in the minute before. */
  lemma ReplayNamesTheLate(s: Setting, w: World, query: Query)
    requires Inv(s, w) && FirstConnectNext(w)
    ensures |w.link.wire| > 1 && w.link.wire[1].Replay? && Touches(query, w.link.wire[1].tags)
            <==> ChangedLately(s, w, query)
  {
    if ChangedLately(s, w, query) {
      var i :| 0 <= i < |w.log| && IsChangedLately(s, w, query, i);
      var t :| t in query.tags && t in w.log[i].entities;
      assert ReplayBehindConnect(w.link, t);
    }
    if |w.link.wire| > 1 && w.link.wire[1].Replay? && Touches(query, w.link.wire[1].tags) {
      var t :| t in query.tags && t in w.link.wire[1].tags;
      assert ReplayBehindConnect(w.link, t);
      var i :| 0 <= i < |w.log| && i < w.link.joinedAt && IsLately(s.me, w.log[i], w.link.joinTime, t);
      assert IsChangedLately(s, w, query, i);
    }
  }

  /** The connect, and the replay behind it when there is one. */
  function FirstHears(w: World): seq<Step>
    requires w.link.Up?
  {
    if |w.link.wire| > 1 && w.link.wire[1].Replay? then [Hear] + [Hear] else [Hear]
  }

  predicate SentAgain(s: Setting, w: World, id: QueryId)
    requires w.link.Up? && id in w.client.queries && id in w.client.starts
  {
    w.client.starts[id] < w.clientNow - REPLAY_TRUST_MS || ChangedLately(s, w, w.client.queries[id])
  }

  lemma FirstHearsSend(s: Setting, w: World, id: QueryId) returns (end: World)
    requires s.Sound() && Inv(s, w) && FirstConnectNext(w) && Enabled(s, w, Hear) && id in w.client.queries
    requires IsIdle(w.client.queries[id])
    ensures Runs(s, w, FirstHears(w), end) && end.log == w.log && id in end.client.queries
    ensures if SentAgain(s, w, id) then end.client.queries[id].flight == Some(Flight(None))
            else end.client.queries[id] == w.client.queries[id]
  {
    ConnectLeansOnDates(s, w, id);
    ReplayNamesTheLate(s, w, w.client.queries[id]);
    StepKeeps(s, w, Hear);
    var heard := Apply(s, w, Hear);
    RunsOne(s, w, Hear);
    end := heard;
    if |w.link.wire| > 1 && w.link.wire[1].Replay? {
      assert heard.link.wire[0] == w.link.wire[1];
      ReplayReadsTheRest(s, heard, id);
      end := Apply(s, heard, Hear);
      RunsOne(s, heard, Hear);
      RunsThen(s, w, [Hear], heard, [Hear], end);
    }
  }

  /** From wherever a run has come to: the first connect, with the replay behind it, sends an idle query again if and
      only if its data is dated more than 30 s before the connect or one of its tags changed in the minute before the
      socket joined; otherwise the query is as it was. So data that misses a change stays so exactly when it is
      younger than that and none of its tags changed in that minute. */
  lemma FirstConnectSendsExactly(s: Setting, start: World, steps: seq<Step>, id: QueryId)
    requires s.Sound() && Initial(s, start) && IsRun(s, start, steps)
    requires var w := After(s, start, steps);
             && FirstConnectNext(w) && Enabled(s, w, Hear)
             && id in w.client.queries && id in w.client.starts && IsIdle(w.client.queries[id])
    ensures var w := After(s, start, steps);
            && IsRun(s, w, FirstHears(w))
            && var end := After(s, w, FirstHears(w));
               && id in end.client.queries && end.log == w.log
               && var query := end.client.queries[id];
                  && (query.flight == Some(Flight(None)) <==> SentAgain(s, w, id))
                  && (!SentAgain(s, w, id) ==> query == w.client.queries[id])
                  && (query.flight.None? && !Current(s, end.log, query)
                      <==> !SentAgain(s, w, id) && !Current(s, w.log, w.client.queries[id]))
  {
    InitialInv(s, start);
    RunKeeps(s, start, steps);
    var end := FirstHearsSend(s, After(s, start, steps), id);
  }

  // ── While connected ──

  /** Connected, nothing on the wire that touches these tags, and no refresh due. */
  ghost predicate IsQuiet(w: World, tags: seq<Tag>) {
    && w.link.Up? && w.client.trailing.None?
    && (forall k :: 0 <= k < |w.link.wire| ==> w.link.wire[k].Live? && !Share(tags, w.link.wire[k].tags))
  }

  /** A step by which the member is told of no change to these tags, the socket stays up, and the page leaves the query
      alone. */
  predicate LeavesAlone(s: Setting, tags: seq<Tag>, id: QueryId, step: Step) {
    match step
    case EmitStep(userIds, entities) => !(s.me in userIds && Share(tags, entities))
    case Drop => false
    case ReadStarts(other) => other != id
    case Show(other) => other != id
    case Hide(other) => other != id
    case Put(other, _) => other != id
    case Remove(other) => other != id
    case _ => true
  }

  ghost predicate AllLeaveAlone(s: Setting, tags: seq<Tag>, id: QueryId, steps: seq<Step>) {
    forall i :: 0 <= i < |steps| ==> LeavesAlone(s, tags, id, steps[i])
  }

  lemma {:induction false} AnnouncedSame(me: Member, tags: seq<Tag>, log: seq<Tell>, more: seq<Tell>, n: nat)
    requires n <= |more| && forall k :: 0 <= k < |more| ==> !(more[k].member == me && Share(tags, more[k].entities))
    ensures Announced(me, tags, log + more, |log| + n) == Announced(me, tags, log, |log|)
  {
    if n == 0 {
      AnnouncedPrefix(me, tags, log, more, |log|);
    } else {
      AnnouncedSame(me, tags, log, more, n - 1);
    }
  }

  ghost predicate StaysAs(w: World, id: QueryId, query: Query) {
    id in w.client.queries && w.client.queries[id] == query && IsQuiet(w, query.tags)
  }

  lemma TellsLeaveAlone(s: Setting, w: World, w': World, id: QueryId, query: Query, recipients: seq<Member>,
                        entities: seq<Tag>)
    requires AnnouncedTidy(s, w) && StaysAs(w, id, query) && Tells(s, w, w', recipients, entities)
    requires !(s.me in recipients && Share(query.tags, entities))
    ensures StaysAs(w', id, query)
  {
    var tells := TellsOf(recipients, entities, w.serverNow);
    TellsOfAre(recipients, entities, w.serverNow);
    AnnouncedSame(s.me, query.tags, w.log, tells, |tells|);
  }

  lemma EmitLeavesAlone(s: Setting, w: World, id: QueryId, query: Query, userIds: seq<Member>, entities: seq<Tag>)
    requires Inv(s, w) && StaysAs(w, id, query) && LeavesAlone(s, query.tags, id, EmitStep(userIds, entities))
    ensures StaysAs(Apply(s, w, EmitStep(userIds, entities)), id, query)
  {
    var recipients := Recipients(userIds);
    RecipientsAre([], userIds);
    if entities != [] && recipients != [] {
      TellsLeaveAlone(s, w, Apply(s, w, EmitStep(userIds, entities)), id, query, recipients, entities);
    }
  }

  lemma HearLeavesAlone(s: Setting, w: World, id: QueryId, query: Query)
    requires Inv(s, w) && StaysAs(w, id, query) && w.link.wire != []
    ensures Enabled(s, w, Hear) && StaysAs(Apply(s, w, Hear), id, query)
  {
    assert w.link.wire[0].Live? && !Touches(query, w.link.wire[0].tags);
    var tail := w.link.wire[1..];
    assert forall k :: 0 <= k < |tail| ==> tail[k] == w.link.wire[k + 1];
  }

  lemma StepLeavesAlone(s: Setting, w: World, id: QueryId, query: Query, step: Step)
    requires Inv(s, w) && Enabled(s, w, step) && StaysAs(w, id, query) && query.flight.None?
    requires LeavesAlone(s, query.tags, id, step)
    ensures StaysAs(Apply(s, w, step), id, query)
  {
    if step.EmitStep? {
      EmitLeavesAlone(s, w, id, query, step.userIds, step.entities);
    } else if step.Hear? {
      HearLeavesAlone(s, w, id, query);
    }
  }

  /** While the socket stays up, a query nobody reads and no change to whose tags is told stays what it is, over every
      run. */
  lemma {:induction false} NothingReadsIt(s: Setting, w: World, id: QueryId, query: Query, steps: seq<Step>)
    requires s.Sound() && Inv(s, w) && IsRun(s, w, steps) && StaysAs(w, id, query) && query.flight.None?
    requires AllLeaveAlone(s, query.tags, id, steps)
    ensures StaysAs(After(s, w, steps), id, query)
    decreases |steps|
  {
    if steps != [] {
      assert LeavesAlone(s, query.tags, id, steps[0]);
      StepLeavesAlone(s, w, id, query, steps[0]);
      StepKeeps(s, w, steps[0]);
      NothingReadsIt(s, Apply(s, w, steps[0]), id, query, steps[1..]);
    }
  }

  ghost predicate MissesNone(s: Setting, log: seq<Tell>, tags: seq<Tag>, held: nat) {
    forall i :: 0 <= i < |log| ==> !Missed(s, log, tags, held, i)
  }

  lemma PutInStays(s: Setting, w: World, id: QueryId, query: Query, held: nat, later: seq<Step>)
    requires s.Sound() && Inv(s, w) && IsRun(s, w, later) && StaysAs(w, id, query)
    requires query.flight.None? && query.data == Some(held) && AllLeaveAlone(s, query.tags, id, later)
    ensures var end := After(s, w, later);
            && id in end.client.queries && end.client.queries[id] == query
            && (Current(s, end.log, query) <==> MissesNone(s, w.log, query.tags, held))
  {
    NothingReadsIt(s, w, id, query, later);
    RunKeeps(s, w, later);
    var end := After(s, w, later);
    HoldsTheLast(s, w, query, held);
    HoldsTheLast(s, end, query, held);
    assert forall i :: 0 <= i < |w.log| ==>
             (Missed(s, w.log, query.tags, held, i) <==> held <= i && Hits(s, w.log, i, query));
  }

  /** From wherever a run has come to, connected and with nothing to be heard of these tags: data a page puts in,
      under whatever date, stays over every later run in which the page leaves it alone and no change to its tags is
      told; and it is current then if and only if it missed no change when it was put in. */
  lemma AddedDataIsNotRead(s: Setting, start: World, steps: seq<Step>, id: QueryId, tags: seq<Tag>, held: nat,
                           since: int, later: seq<Step>)
    requires s.Sound() && Initial(s, start) && IsRun(s, start, steps)
    requires var w := After(s, start, steps);
             && IsQuiet(w, tags) && IsRun(s, w, [Add(id, tags, true, Some(held), since)] + later)
             && AllLeaveAlone(s, tags, id, later)
    ensures var w := After(s, start, steps);
            var end := After(s, w, [Add(id, tags, true, Some(held), since)] + later);
            && id in end.client.queries
            && var query := end.client.queries[id];
               && query.shown && !query.failed && !query.invalidated && query.flight.None? && query.data == Some(held)
               && (Current(s, end.log, query) <==> MissesNone(s, w.log, tags, held))
  {
    InitialInv(s, start);
    RunKeeps(s, start, steps);
    var w, add := After(s, start, steps), Add(id, tags, true, Some(held), since);
    assert ([add] + later)[1..] == later;
    StepKeeps(s, w, add);
    PutInStays(s, Apply(s, w, add), id, Added(s, w, tags, true, Some(held), since), held, later);
  }

  /** And so is data it sets on an idle query, whatever flag the query had. */
  lemma SetDataIsNotRead(s: Setting, start: World, steps: seq<Step>, id: QueryId, held: nat, later: seq<Step>)
    requires s.Sound() && Initial(s, start) && IsRun(s, start, steps)
    requires var w := After(s, start, steps);
             && id in w.client.queries && IsQuiet(w, w.client.queries[id].tags)
             && IsRun(s, w, [Put(id, held)] + later) && AllLeaveAlone(s, w.client.queries[id].tags, id, later)
    ensures var w := After(s, start, steps);
            var end := After(s, w, [Put(id, held)] + later);
            && id in end.client.queries
            && var query := end.client.queries[id];
               && !query.failed && !query.invalidated && query.flight.None? && query.data == Some(held)
               && (Current(s, end.log, query) <==> MissesNone(s, w.log, w.client.queries[id].tags, held))
  {
    InitialInv(s, start);
    RunKeeps(s, start, steps);
    var w, put := After(s, start, steps), Put(id, held);
    assert ([put] + later)[1..] == later;
    StepKeeps(s, w, put);
    PutInStays(s, Apply(s, w, put), id, PutIn(s, w, w.client.queries[id], held, w.client.starts[id]), held, later);
  }

  // ── Runs that end so ──

  /** A minute after a change, before the first connect, nothing in the cache. */
  function NothingYet(s: Setting): World {
    World(EMPTY_STORE, [Tell(s.me, 0, [TAG])], RECENT_ENTITIES_MS, RECENT_ENTITIES_MS + s.offset, Down,
          Client(map[], map[], None, None, 0, None))
  }

  lemma NothingYetIsInitial(s: Setting)
    requires s.me.id != ""
    ensures Initial(s, NothingYet(s))
  {
  }

  lemma AddsLate(s: Setting, since: int)
    requires s.Sound() && InTheLastHalf(s, since)
    ensures Enabled(s, NothingYet(s), Add(QUERY, [TAG], true, Some(0), since))
    ensures Apply(s, NothingYet(s), Add(QUERY, [TAG], true, Some(0), since)) == MinuteLater(s, since, DatedLate)
  {
    var w := NothingYet(s);
    assert TAG in [TAG] && TAG in w.log[0].entities;
    assert Announced(s.me, [TAG], w.log, 1) == 1;
    assert IsDatedLate(s, w, [TAG], 0, since, 0);
    assert map[][QUERY := since] == map[QUERY := since];
  }

  /** Before the first connect: data that misses a change of a minute ago, put in under any date of the last half of
      that minute, stays stale through the connect. */
  lemma LateDataStaysStale(s: Setting, since: int) returns (steps: seq<Step>)
    requires s.Sound() && InTheLastHalf(s, since)
    ensures StaysStale(s, NothingYet(s), steps, QUERY)
    ensures After(s, NothingYet(s), steps).client.queries[QUERY].slip == DatedLate
  {
    NothingYetIsInitial(s);
    AddsLate(s, since);
    var add := Add(QUERY, [TAG], true, Some(0), since);
    RunsOne(s, NothingYet(s), add);
    var end := MinuteLaterRests(s, since, DatedLate);
    RunsThen(s, NothingYet(s), [add], MinuteLater(s, since, DatedLate), [Join] + [Hear], end);
    steps := [add] + ([Join] + [Hear]);
  }

  /** Connected, with nothing in the cache. */
  lemma ConnectsWithNothing(s: Setting) returns (w: World)
    requires s.me.id != ""
    ensures Runs(s, NothingYet(s), [Join] + [Hear], w) && w.store.recent.Valid()
    ensures w == NothingYet(s).(link := Up([], 1, RECENT_ENTITIES_MS), client := w.client)
    ensures w.client.queries == map[] && w.client.starts == map[] && w.client.trailing.None? && w.client.connects == 1
  {
    var joined := Apply(s, NothingYet(s), Join);
    assert joined.link.wire == [Connect];
    w := Apply(s, joined, Hear);
    assert w.client.queries == map[] && w.client.starts == map[];
    TwoSteps(s, NothingYet(s), Join, joined, Hear, w);
  }

  /** While connected: data that misses a change the socket is past stays stale, whatever its date. */
  lemma BehindDataStaysStale(s: Setting, since: int) returns (steps: seq<Step>)
    requires s.Sound() && since <= NothingYet(s).clientNow
    ensures StaysStale(s, NothingYet(s), steps, QUERY)
    ensures After(s, NothingYet(s), steps).client.queries[QUERY].slip == PutInBehind
  {
    NothingYetIsInitial(s);
    var w := ConnectsWithNothing(s);
    var add := Add(QUERY, [TAG], true, Some(0), since);
    TagsMeet();
    assert IsBehind(s, w, [TAG], 0, since, 0);
    var end := Apply(s, w, add);
    assert Hits(s, end.log, 0, end.client.queries[QUERY]);
    RunsOne(s, w, add);
    RunsThen(s, NothingYet(s), [Join] + [Hear], w, [add], end);
    steps := [Join] + [Hear] + [add];
  }
}
