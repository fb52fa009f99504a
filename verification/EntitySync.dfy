/** The client half of the freshness protocol: which cached reads a connect, a replay or a change sends again
    (client/src/realtime/invalidate-entities.ts). */
module EntitySync {
  import opened Option
  import opened ReplayStore

  /** The shortest time between two refreshes that connects bring about. */
  const CONNECT_RESYNC_WINDOW_MS := 5000
  /** A read this young when the first connect comes is left to the replay. */
  const REPLAY_TRUST_MS := 30_000

  // ── The query cache, as far as the protocol relies on it ──

  datatype QueryId = QueryId(hash: string)

  /** A read on its way. `served`: how many changes the server had announced when it answered, once it has. */
  datatype Flight = Flight(served: Option<nat>)

  /** The model's own note of how a query's data came to miss a change that nothing may read again for. `Overtaken`: the
      change was only flagged on a hidden query while a re-read the server had answered before it was on its way: that
      read's landing clears the flag. `PutInBehind`: a page put the data in itself when nothing still to be heard would
      name the change. `DatedLate`: a page put it in before the first connect, dated later than the change by more than
      the margin. */
  datatype Slip = NoSlip | Overtaken | PutInBehind | DatedLate

  /** `data`: the number of announced changes its data is known to hold. `announced`: how many changes had been
      announced, counting the last one to any of its tags. `again`: it is read again once the first read on its way
      lands. */
  datatype Query = Query(tags: seq<Tag>, shown: bool, data: Option<nat>, invalidated: bool, flight: Option<Flight>,
                         again: bool, failed: bool, announced: nat, slip: Slip)

  type Cache = map<QueryId, Query>

  predicate Share(tags: seq<Tag>, entities: seq<Tag>) {
    exists t :: t in tags && t in entities
  }

  predicate Touches(query: Query, entities: seq<Tag>) {
    Share(query.tags, entities)
  }

  predicate IsTagged(query: Query) {
    query.tags != []
  }

  predicate FirstReadOnItsWay(query: Query) {
    query.flight.Some? && query.data.None?
  }

  /** A new read: whatever the server has announced by the time it answers, it will hold. */
  function ReadStarted(query: Query): Query {
    query.(flight := Some(Flight(None)), again := false, failed := false, slip := NoSlip)
  }

  /** Whether an invalidate starts a read now: for a query in use that is idle, or whose re-read it may cancel. */
  predicate InvalidateSends(query: Query, cancelRefetch: bool) {
    query.shown && (query.flight.None? || (cancelRefetch && query.data.Some?))
  }

  /** A hidden query whose re-read was answered before the last change to its tags: the flag will not outlive that
      read. */
  predicate FlagIsLost(query: Query) {
    !query.shown && query.data.Some? && query.flight.Some? && query.flight.value.served.Some?
    && query.flight.value.served.value < query.announced
  }

  function Invalidated(query: Query, cancelRefetch: bool): Query {
    var flagged := query.(invalidated := true);
    if InvalidateSends(query, cancelRefetch) then ReadStarted(flagged)
    else if query.flight.None? then flagged.(slip := NoSlip)
    else if FlagIsLost(query) then flagged.(slip := Overtaken)
    else flagged
  }

  /** The read on its way lands: its data takes the place of what was held and clears the flag. One that was to be read
      again is. */
  function Landed(query: Query, held: nat): Query {
    var landed := query.(data := Some(held), invalidated := false, flight := None, again := false, failed := false);
    if query.again then Invalidated(landed, false) else landed
  }

  function Failed(query: Query): Query {
    var failed := query.(flight := None, again := false, failed := true, slip := NoSlip);
    if query.again then Invalidated(failed, false) else failed
  }

  // ── What each event does to the client ──

  datatype Client = Client(queries: Cache, starts: map<QueryId, int>, lastResync: Option<int>, lastConnect: Option<int>,
                           connects: nat, trailing: Option<int>)

  /** What entity:changed carries. */
  datatype EntityChange = EntityChange(entities: seq<Tag>, replayed: bool)

  function InvalidatedAll(cache: Cache, chosen: set<QueryId>, cancelRefetch: bool): Cache {
    map id | id in cache :: if id in chosen then Invalidated(cache[id], cancelRefetch) else cache[id]
  }

  function SentByInvalidate(cache: Cache, chosen: set<QueryId>, cancelRefetch: bool): set<QueryId> {
    set id | id in cache && id in chosen && InvalidateSends(cache[id], cancelRefetch)
  }

  function AgainWhenLanded(cache: Cache, chosen: set<QueryId>): Cache {
    map id | id in cache :: if id in chosen then cache[id].(again := true) else cache[id]
  }

  function NotedAt(starts: map<QueryId, int>, chosen: set<QueryId>, at: int): map<QueryId, int> {
    map id | id in starts.Keys + chosen :: if id in chosen then at else starts[id]
  }

  /** A change is heard: the query is invalidated, and marked for one more read when it has none to show yet. */
  function ToldOfChange(query: Query): Query {
    if FirstReadOnItsWay(query) then Invalidated(query, true).(again := true) else Invalidated(query, true)
  }

  function TouchedBy(cache: Cache, entities: seq<Tag>): set<QueryId> {
    set id | id in cache && Touches(cache[id], entities)
  }

  function ReadChanged(c: Client, entities: seq<Tag>, now: int): Client {
    var touched := TouchedBy(c.queries, entities);
    c.(queries := map id | id in c.queries :: if id in touched then ToldOfChange(c.queries[id]) else c.queries[id],
       starts := NotedAt(c.starts, SentByInvalidate(c.queries, touched, true), now))
  }

  function ReadAgainOne(query: Query): Query {
    if FirstReadOnItsWay(query) then query.(again := true) else Invalidated(query, true)
  }

  function ReadAgainAll(cache: Cache, chosen: set<QueryId>): Cache {
    map id | id in cache :: if id in chosen then ReadAgainOne(cache[id]) else cache[id]
  }

  function ReadAgain(c: Client, chosen: set<QueryId>, at: int): Client {
    c.(queries := ReadAgainAll(c.queries, chosen), starts := NotedAt(c.starts, chosen, at))
  }

  predicate StartedBefore(starts: map<QueryId, int>, id: QueryId, time: int) {
    id !in starts || starts[id] < time
  }

  function MayHaveMissed(c: Client, readsFrom: int): set<QueryId> {
    set id | id in c.queries && IsTagged(c.queries[id]) && StartedBefore(c.starts, id, readsFrom)
  }

  function NamedByReplay(c: Client, entities: seq<Tag>): set<QueryId> {
    set id | id in c.queries && Touches(c.queries[id], entities)
             && (c.lastConnect.Some? && StartedBefore(c.starts, id, c.lastConnect.value))
  }

  /** The cut-off: reads that started before it are sent again. */
  function ReadsFrom(c: Client): int
    requires c.lastConnect.Some?
  {
    if c.connects == 1 then c.lastConnect.value - REPLAY_TRUST_MS else c.lastConnect.value
  }

  function Resynced(c: Client, now: int): Client
    requires c.lastConnect.Some?
  {
    ReadAgain(c.(lastResync := Some(now)), MayHaveMissed(c, ReadsFrom(c)), now)
  }

  /** Whether a connect is answered at once: no refresh is waiting, and the last was a window ago or more. */
  predicate AnsweredAtOnce(c: Client, now: int) {
    c.trailing.None? && (c.lastResync.None? || now - c.lastResync.value >= CONNECT_RESYNC_WINDOW_MS)
  }

  function OnConnect(c: Client, now: int): Client {
    var heard := c.(lastConnect := Some(now), connects := c.connects + 1);
    if c.trailing.Some? then heard
    else if AnsweredAtOnce(c, now) then Resynced(heard, now)
    else heard.(trailing := Some(now + (CONNECT_RESYNC_WINDOW_MS - (now - c.lastResync.value))))
  }

  function OnTimer(c: Client, now: int): Client
    requires c.lastConnect.Some?
  {
    Resynced(c.(trailing := None), now)
  }

  function OnReplayed(c: Client, entities: seq<Tag>, now: int): Client {
    if c.trailing.Some? || entities == [] then c else ReadAgain(c, NamedByReplay(c, entities), now)
  }

  function OnChanged(c: Client, change: EntityChange, now: int): Client {
    if change.replayed && c.connects > 0 then OnReplayed(c, change.entities, now)
    else if change.entities == [] then c
    else ReadChanged(c, change.entities, now)
  }

  // ── The module's state and its listeners ──

  function Among(ids: seq<QueryId>): set<QueryId> {
    set id | id in ids
  }

  lemma AmongOneMore(ids: seq<QueryId>, i: nat)
    requires i < |ids|
    ensures Among(ids[..i + 1]) == Among(ids[..i]) + {ids[i]}
  {
    assert ids[..i + 1] == ids[..i] + [ids[i]];
  }

  lemma AgainForOneMore(cache: Cache, chosen: set<QueryId>, id: QueryId)
    requires id in cache
    ensures var before := AgainWhenLanded(cache, chosen);
            AgainWhenLanded(cache, chosen + {id}) == before[id := before[id].(again := true)]
  {
  }

  class QueryCache {
    var queries: Cache

    constructor (queries: Cache)
      ensures this.queries == queries
    {
      this.queries := queries;
    }

    method FindAll(wanted: (QueryId, Query) -> bool) returns (found: seq<QueryId>)
      ensures forall id :: id in found <==> id in queries && wanted(id, queries[id])
    {
      found := [];
      var left := queries.Keys;
      while left != {}
        invariant left <= queries.Keys
        invariant forall id :: id in found <==> id in queries && id !in left && wanted(id, queries[id])
        decreases left
      {
        var id :| id in left;
        if wanted(id, queries[id]) {
          found := found + [id];
        }
        left := left - {id};
      }
    }

    /** Invalidates the chosen queries and tells whose read started. */
    method Invalidate(chosen: set<QueryId>, cancelRefetch: bool) returns (started: set<QueryId>)
      modifies this
      ensures queries == InvalidatedAll(old(queries), chosen, cancelRefetch)
      ensures started == SentByInvalidate(old(queries), chosen, cancelRefetch)
    {
      started := SentByInvalidate(queries, chosen, cancelRefetch);
      queries := InvalidatedAll(queries, chosen, cancelRefetch);
    }

    /** Marks each of them to be sent once more as soon as its present read is over. */
    method AgainWhenTheyLand(chosen: seq<QueryId>)
      requires forall id :: id in chosen ==> id in queries
      modifies this
      ensures queries == AgainWhenLanded(old(queries), Among(chosen))
    {
      for i := 0 to |chosen|
        invariant queries == AgainWhenLanded(old(queries), Among(chosen[..i]))
      {
        AgainForOneMore(old(queries), Among(chosen[..i]), chosen[i]);
        AmongOneMore(chosen, i);
        queries := queries[chosen[i] := queries[chosen[i]].(again := true)];
      }
      assert chosen[..|chosen|] == chosen;
    }
  }

  lemma ReadAgainInTwoSteps(cache: Cache, chosen: set<QueryId>, firstReads: set<QueryId>)
    requires firstReads == set id | id in chosen && id in cache && FirstReadOnItsWay(cache[id])
    ensures AgainWhenLanded(InvalidatedAll(cache, chosen - firstReads, true), firstReads) == ReadAgainAll(cache, chosen)
    ensures SentByInvalidate(cache, chosen - firstReads, true) <= chosen
  {
  }

  lemma ChangeInTwoSteps(c: Client, entities: seq<Tag>, now: int, onTheirWay: set<QueryId>)
    requires onTheirWay ==
             set id | id in c.queries && Touches(c.queries[id], entities) && FirstReadOnItsWay(c.queries[id])
    ensures AgainWhenLanded(InvalidatedAll(c.queries, TouchedBy(c.queries, entities), true), onTheirWay)
            == ReadChanged(c, entities, now).queries
  {
  }

  class Subscription {
    const cache: QueryCache
    var starts: map<QueryId, int>
    var lastResync: Option<int>
    var lastConnect: Option<int>
    var connects: nat
    var trailing: Option<int>

    ghost function State(): Client
      reads this, cache
    {
      Client(cache.queries, starts, lastResync, lastConnect, connects, trailing)
    }

    /** `held`: since when each query in the cache holds its data (or now, for one that holds none). */
    constructor (cache: QueryCache, held: map<QueryId, int>)
      requires held.Keys == cache.queries.Keys
      ensures this.cache == cache
      ensures State() == Client(cache.queries, held, None, None, 0, None)
    {
      this.cache := cache;
      starts := held;
      lastResync, lastConnect, connects, trailing := None, None, 0, None;
    }

    method ReadAgainThese(queries: seq<QueryId>, at: int)
      requires forall id :: id in queries ==> id in cache.queries
      modifies this`starts, cache
      ensures cache.queries == ReadAgainAll(old(cache.queries), Among(queries))
      ensures starts == NotedAt(old(starts), Among(queries), at)
    {
      ghost var chosen := Among(queries);
      var firstReads := [];
      for i := 0 to |queries|
        invariant forall id :: id in firstReads <==> id in queries[..i] && FirstReadOnItsWay(cache.queries[id])
      {
        if FirstReadOnItsWay(cache.queries[queries[i]]) {
          firstReads := firstReads + [queries[i]];
        }
        assert forall id :: id in queries[..i + 1] <==> id in queries[..i] || id == queries[i];
      }
      NoteStarts(queries, at);
      var atOnce := set id | id in queries && id !in firstReads;
      assert queries[..|queries|] == queries;
      ReadAgainInTwoSteps(cache.queries, chosen, Among(firstReads));
      assert atOnce == chosen - Among(firstReads);
      var started := cache.Invalidate(atOnce, true);
      starts := NotedAt(starts, started, at);
      cache.AgainWhenTheyLand(firstReads);
    }

    method NoteStarts(queries: seq<QueryId>, at: int)
      modifies this`starts
      ensures starts == NotedAt(old(starts), Among(queries), at)
    {
      for i := 0 to |queries|
        invariant starts == NotedAt(old(starts), Among(queries[..i]), at)
      {
        AmongOneMore(queries, i);
        starts := starts[queries[i] := at];
      }
      assert queries[..|queries|] == queries;
    }

    method Changed(change: EntityChange, now: int)
      modifies this`starts, cache
      ensures State() == OnChanged(old(State()), change, now)
    {
      if change.replayed && connects > 0 {
        Replayed(change.entities, now);
        return;
      }
      if change.entities == [] {
        return;
      }
      var entities := change.entities;
      var onTheirWay := cache.FindAll((id, query: Query) => Touches(query, entities) && FirstReadOnItsWay(query));
      ChangeInTwoSteps(State(), entities, now, Among(onTheirWay));
      var started := cache.Invalidate(TouchedBy(cache.queries, entities), true);
      starts := NotedAt(starts, started, now);
      cache.AgainWhenTheyLand(onTheirWay);
    }

    method Replayed(entities: seq<Tag>, now: int)
      modifies this`starts, cache
      ensures State() == OnReplayed(old(State()), entities, now)
    {
      if trailing.Some? || entities == [] {
        return;
      }
      var from, connect := starts, lastConnect;
      var named := cache.FindAll((id, query: Query) =>
        Touches(query, entities) && connect.Some? && StartedBefore(from, id, connect.value));
      assert Among(named) == NamedByReplay(State(), entities);
      ReadAgainThese(named, now);
    }

    method Resync(now: int)
      requires lastConnect.Some?
      modifies this`starts, this`lastResync, cache
      ensures State() == Resynced(old(State()), now)
    {
      lastResync := Some(now);
      var readsFrom := if connects == 1 then lastConnect.value - REPLAY_TRUST_MS else lastConnect.value;
      var from := starts;
      var missed := cache.FindAll((id, query: Query) => IsTagged(query) && StartedBefore(from, id, readsFrom));
      ghost var before := State();
      assert Among(missed) == MayHaveMissed(before, readsFrom);
      ReadAgainThese(missed, now);
      assert State() == ReadAgain(before, Among(missed), now);
    }

    method Connected(now: int)
      modifies this, cache
      ensures State() == OnConnect(old(State()), now)
    {
      lastConnect := Some(now);
      connects := connects + 1;
      if trailing.Some? {
        return;
      }
      if lastResync.None? || now - lastResync.value >= CONNECT_RESYNC_WINDOW_MS {
        Resync(now);
        return;
      }
      trailing := Some(now + (CONNECT_RESYNC_WINDOW_MS - (now - lastResync.value)));
    }

    method TimerFired(now: int)
      requires lastConnect.Some?
      modifies this, cache
      ensures State() == OnTimer(old(State()), now)
    {
      trailing := None;
      Resync(now);
    }
  }
}
