/** A flapping socket cannot make the client storm: how connects, their refreshes and their replays fall together over
    every run of the subscription. */
module ConnectStorm {
  import opened Option
  import opened ReplayStore
  import opened EntitySync

  /** One refresh: when it was sent, which reads it chose (those started before `readsFrom`), and how many connects had
      been heard. */
  datatype Refresh = Refresh(at: int, readsFrom: int, connect: nat)

  /** `heard`: when each connect was. `refreshSent`, `replaySent`: which query the refresh and the replay of which
      connect sent again. */
  datatype History = History(client: Client, clock: int, refreshes: seq<Refresh>, heard: seq<int>,
                             refreshSent: set<(nat, QueryId)>, replaySent: set<(nat, QueryId)>)

  datatype Event =
    | Connects
    | Fires
    | Told(change: EntityChange)
    | CacheMoves(queries: Cache, starts: map<QueryId, int>)

  /** The rest of the page may read, add and drop queries as it likes: the start noted for one kept never runs back. */
  predicate MovesOn(c: Client, queries: Cache, starts: map<QueryId, int>, now: int) {
    && queries.Keys == starts.Keys
    && (forall id :: id in starts ==> starts[id] <= now)
    && (forall id :: id in starts && id in c.starts ==> c.starts[id] <= starts[id])
  }

  predicate CanHappen(h: History, event: Event, now: int) {
    && h.clock <= now
    && (match event
        case Connects => true
        case Fires => h.client.trailing.Some? && h.client.trailing.value <= now && h.client.lastConnect.Some?
        case Told(_) => true
        case CacheMoves(queries, starts) => MovesOn(h.client, queries, starts, now))
  }

  function SentFor(connect: nat, chosen: set<QueryId>): set<(nat, QueryId)> {
    set id | id in chosen :: (connect, id)
  }

  function StillCached(sent: set<(nat, QueryId)>, cached: set<QueryId>): set<(nat, QueryId)> {
    set p | p in sent && p.1 in cached
  }

  function Refreshed(h: History, asked: Client, now: int): History
    requires asked.lastConnect.Some?
  {
    h.(client := Resynced(asked, now), clock := now,
       refreshes := h.refreshes + [Refresh(now, ReadsFrom(asked), asked.connects)],
       refreshSent := h.refreshSent + SentFor(asked.connects, MayHaveMissed(asked, ReadsFrom(asked))))
  }

  function Next(h: History, event: Event, now: int): History
    requires CanHappen(h, event, now)
  {
    var c := h.client;
    match event
    case Connects =>
      var heard := h.(heard := h.heard + [now]);
      if AnsweredAtOnce(c, now) then Refreshed(heard, c.(lastConnect := Some(now), connects := c.connects + 1), now)
      else heard.(client := OnConnect(c, now), clock := now)
    case Fires => Refreshed(h, c.(trailing := None), now)
    case Told(change) =>
      h.(client := OnChanged(c, change, now), clock := now,
         replaySent := h.replaySent
                       + (if change.replayed && c.connects > 0 && c.trailing.None? && change.entities != []
                          then SentFor(c.connects, NamedByReplay(c, change.entities)) else {}))
    case CacheMoves(queries, starts) =>
      // A query dropped from the cache takes its history with it.
      h.(client := c.(queries := queries, starts := starts), clock := now,
         refreshSent := StillCached(h.refreshSent, c.starts.Keys * starts.Keys),
         replaySent := StillCached(h.replaySent, c.starts.Keys * starts.Keys))
  }

  /** The history follows the subscription: each event does to the client what its listener does. */
  lemma NextIsTheListener(h: History, event: Event, now: int)
    requires CanHappen(h, event, now) && !event.CacheMoves?
    ensures Next(h, event, now).client
            == match event
               case Connects => OnConnect(h.client, now)
               case Fires => OnTimer(h.client, now)
               case Told(change) => OnChanged(h.client, change, now)
               case CacheMoves(_, _) => h.client
  {
  }

  predicate IsStart(h: History) {
    && h == History(Client(h.client.queries, h.client.starts, None, None, 0, None), h.clock, [], [], {}, {})
    && h.client.queries.Keys == h.client.starts.Keys
    && (forall id :: id in h.client.starts ==> h.client.starts[id] <= h.clock)
  }

  // ── What always holds ──

  ghost predicate Spaced(h: History) {
    && (h.refreshes == [] <==> h.client.lastResync.None?)
    && (h.refreshes != [] ==> h.client.lastResync == Some(h.refreshes[|h.refreshes| - 1].at))
    && (forall i, j :: 0 <= i < j < |h.refreshes| ==> h.refreshes[j].at - h.refreshes[i].at >= CONNECT_RESYNC_WINDOW_MS)
    && (h.client.trailing.Some? ==>
          && h.client.lastResync.Some?
          && h.client.trailing.value == h.client.lastResync.value + CONNECT_RESYNC_WINDOW_MS)
  }

  ghost predicate Answered(h: History) {
    && |h.heard| == h.client.connects
    && (h.client.lastConnect.None? <==> h.heard == [])
    && (h.heard != [] ==> h.client.lastConnect == Some(h.heard[|h.heard| - 1]))
    && (forall i, j :: 0 <= i <= j < |h.heard| ==> h.heard[i] <= h.heard[j])
    && (forall i :: 0 <= i < |h.heard| ==> h.heard[i] <= h.clock)
    && (h.heard != [] && h.client.trailing.None? ==>
          && h.refreshes != []
          && var last := h.refreshes[|h.refreshes| - 1];
             last.connect == h.client.connects && last.readsFrom == ReadsFrom(h.client)
             && last.at >= h.client.lastConnect.value)
    && (|h.heard| <= 1 ==> h.client.trailing.None?)
    && (h.heard == [] ==> h.refreshes == [])
  }

  /** A refresh that reads again what started before this connect: only the very first connect is answered with less. */
  predicate Covers(refresh: Refresh, connect: nat, heardAt: int) {
    && refresh.connect >= connect && refresh.at >= heardAt
    && refresh.readsFrom >= if refresh.connect == 1 then heardAt - REPLAY_TRUST_MS else heardAt
  }

  /** The last refresh covers every connect heard before it was sent. */
  ghost predicate Covering(h: History) {
    h.refreshes != [] ==>
      var last := h.refreshes[|h.refreshes| - 1];
      last.connect <= |h.heard| && forall k :: 0 <= k < last.connect ==> Covers(last, k + 1, h.heard[k])
  }

  /** A query the refresh of the latest connect sent is noted as started since that connect; while a refresh waits, the
      latest connect's replay has sent nothing. */
  ghost predicate SentOnce(h: History) {
    && h.client.queries.Keys == h.client.starts.Keys
    && (forall id :: id in h.client.starts ==> h.client.starts[id] <= h.clock)
    && (forall p :: p in h.refreshSent || p in h.replaySent ==> p.0 <= h.client.connects)
    && (forall p :: p in h.refreshSent && p.0 == h.client.connects ==>
          p.1 in h.client.starts && h.client.lastConnect.Some? && h.client.starts[p.1] >= h.client.lastConnect.value)
    && (h.client.trailing.Some? ==> forall p :: p in h.replaySent ==> p.0 < h.client.connects)
    && h.refreshSent !! h.replaySent
  }

  ghost predicate StormInv(h: History) {
    Spaced(h) && Answered(h) && SentOnce(h) && Covering(h)
  }

  lemma SpacedKept(h: History, event: Event, now: int)
    requires StormInv(h) && CanHappen(h, event, now)
    ensures Spaced(Next(h, event, now))
  {
    var h' := Next(h, event, now);
    assert forall i :: 0 <= i < |h.refreshes| ==> h'.refreshes[i] == h.refreshes[i];
    assert h.refreshes != [] ==>
             forall i :: 0 <= i < |h.refreshes| ==> h.refreshes[i].at <= h.refreshes[|h.refreshes| - 1].at;
  }

  lemma AnsweredKept(h: History, event: Event, now: int)
    requires StormInv(h) && CanHappen(h, event, now)
    ensures Answered(Next(h, event, now))
  {
    var h' := Next(h, event, now);
    assert forall i :: 0 <= i < |h.heard| ==> h'.heard[i] == h.heard[i];
  }

  lemma CoveringKept(h: History, event: Event, now: int)
    requires StormInv(h) && CanHappen(h, event, now)
    ensures Covering(Next(h, event, now))
  {
    var h' := Next(h, event, now);
    assert forall i :: 0 <= i < |h.heard| ==> h'.heard[i] == h.heard[i] <= now;
  }

  /** Whatever happens, no start noted for a query kept runs back, and none is later than now. */
  lemma StartsRunOn(h: History, event: Event, now: int)
    requires StormInv(h) && CanHappen(h, event, now)
    ensures var c := Next(h, event, now).client;
            && c.queries.Keys == c.starts.Keys
            && (event.CacheMoves? || c.starts.Keys == h.client.starts.Keys)
            && (forall id :: id in c.starts && id in h.client.starts ==> h.client.starts[id] <= c.starts[id])
            && (forall id :: id in c.starts ==> c.starts[id] <= now)
  {
  }

  lemma ConnectSendsOnce(h: History, now: int)
    requires StormInv(h) && CanHappen(h, Connects, now)
    ensures SentOnce(Next(h, Connects, now))
  {
    StartsRunOn(h, Connects, now);
  }

  lemma TimerSendsOnce(h: History, now: int)
    requires StormInv(h) && CanHappen(h, Fires, now)
    ensures SentOnce(Next(h, Fires, now))
  {
    StartsRunOn(h, Fires, now);
  }

  lemma ToldSendsOnce(h: History, change: EntityChange, now: int)
    requires StormInv(h) && CanHappen(h, Told(change), now)
    ensures SentOnce(Next(h, Told(change), now))
  {
    StartsRunOn(h, Told(change), now);
  }

  lemma CacheMoveSendsOnce(h: History, queries: Cache, starts: map<QueryId, int>, now: int)
    requires StormInv(h) && CanHappen(h, CacheMoves(queries, starts), now)
    ensures SentOnce(Next(h, CacheMoves(queries, starts), now))
  {
  }

  lemma StormInvKept(h: History, event: Event, now: int)
    requires StormInv(h) && CanHappen(h, event, now)
    ensures StormInv(Next(h, event, now))
  {
    SpacedKept(h, event, now);
    AnsweredKept(h, event, now);
    CoveringKept(h, event, now);
    match event
    case Connects => ConnectSendsOnce(h, now);
    case Fires => TimerSendsOnce(h, now);
    case Told(change) => ToldSendsOnce(h, change, now);
    case CacheMoves(queries, starts) => CacheMoveSendsOnce(h, queries, starts, now);
  }

  // ── The main results, over every run ──

  ghost predicate Happens(h: History, events: seq<(Event, int)>)
    decreases |events|
  {
    events != [] ==> CanHappen(h, events[0].0, events[0].1) && Happens(Next(h, events[0].0, events[0].1), events[1..])
  }

  ghost function Ending(h: History, events: seq<(Event, int)>): History
    requires Happens(h, events)
    decreases |events|
  {
    if events == [] then h else Ending(Next(h, events[0].0, events[0].1), events[1..])
  }

  lemma {:induction false} RunKeepsStormInv(h: History, events: seq<(Event, int)>)
    requires StormInv(h) && Happens(h, events)
    ensures StormInv(Ending(h, events))
    decreases |events|
  {
    if events != [] {
      StormInvKept(h, events[0].0, events[0].1);
      RunKeepsStormInv(Next(h, events[0].0, events[0].1), events[1..]);
    }
  }

  /** However often the socket connects, two refreshes are never less than a window apart. */
  lemma RefreshesAreSpaced(h: History, events: seq<(Event, int)>)
    requires IsStart(h) && Happens(h, events)
    ensures var end := Ending(h, events);
            forall i, j :: 0 <= i < j < |end.refreshes| ==>
              end.refreshes[j].at - end.refreshes[i].at >= CONNECT_RESYNC_WINDOW_MS
  {
    RunKeepsStormInv(h, events);
  }

  /** Every connect is covered by the last refresh, however long ago it was answered and whatever came since, or it came
      after that refresh and the next one is due when the window it opened ends. */
  lemma EveryConnectIsCovered(h: History, events: seq<(Event, int)>, k: nat)
    requires IsStart(h) && Happens(h, events) && k < |Ending(h, events).heard|
    ensures var end := Ending(h, events);
            end.refreshes != []
            && var last := end.refreshes[|end.refreshes| - 1];
               || Covers(last, k + 1, end.heard[k])
               || (k + 1 > last.connect && end.client.trailing == Some(last.at + CONNECT_RESYNC_WINDOW_MS))
  {
    RunKeepsStormInv(h, events);
  }

  /** The refresh and the replay of one connect never both send the same read. */
  lemma NoReadSentTwiceForOneConnect(h: History, events: seq<(Event, int)>)
    requires IsStart(h) && Happens(h, events)
    ensures Ending(h, events).refreshSent !! Ending(h, events).replaySent
  {
    RunKeepsStormInv(h, events);
  }
}
