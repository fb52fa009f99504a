/** The whole freshness protocol as one machine: the server that announces changes and remembers them, the link that
    loses them, and the client that reads. */
module RealtimeWorld {
  import opened Option
  import opened OrderedMap
  import opened ReplayStore
  import opened ReplayLog
  import opened Emit
  import opened EntitySync

  /** `offset`, `wander`: the client's clock reads between the server's plus offset and wander more. `lag`: how much
      later than what it holds was read a query's data may be dated when it was not fetched under the subscription. */
  datatype Setting = Setting(me: Member, offset: int, wander: nat, lag: nat) {
    /** Half the server's minute is trusted; the other half is room for the clocks and a slow read. */
    predicate Sound() {
      me.id != "" && wander + lag < RECENT_ENTITIES_MS - REPLAY_TRUST_MS
    }
  }

  datatype Message = Connect | Replay(tags: seq<Tag>) | Live(tags: seq<Tag>)

  /** `wire`: what the server sent this socket and the client has not heard yet. `joinedAt`, `joinTime`: how many tells
      there had been, and the server's clock, when the socket joined its member's room. */
  datatype Link = Down | Up(wire: seq<Message>, joinedAt: nat, joinTime: int)

  datatype World = World(store: Store, log: seq<Tell>, serverNow: int, clientNow: int, link: Link, client: Client)

  datatype Step =
    | Tick(server: nat, client: nat)
    | EmitStep(userIds: seq<Member>, entities: seq<Tag>)
    | Join
    | Drop
    | Hear
    | Timer
    | ReadStarts(id: QueryId)
    | Serve(id: QueryId)
    | Land(id: QueryId)
    | Fail(id: QueryId)
    | Show(id: QueryId)
    | Hide(id: QueryId)
    | Add(id: QueryId, tags: seq<Tag>, shown: bool, data: Option<nat>, since: int)
    | Put(id: QueryId, held: nat)
    | Remove(id: QueryId)

  // ── The steps ──

  predicate InBand(s: Setting, serverNow: int, clientNow: int) {
    serverNow + s.offset <= clientNow <= serverNow + s.offset + s.wander
  }

  /** Nothing sent to the member in the last minute has been pushed out of the memory by its bounds. */
  ghost predicate WithinCaps(log: seq<Tell>, member: Member, now: int) {
    forall j :: 0 <= j < |log| && log[j].member == member && !Expired(log[j], now) ==>
      !Outnumbered(log, j) && !Squeezed(log, j)
  }

  predicate Hits(s: Setting, log: seq<Tell>, i: nat, query: Query)
    requires i < |log|
  {
    log[i].member == s.me && Touches(query, log[i].entities)
  }

  predicate ConnectPending(link: Link) {
    link.Up? && link.wire != [] && link.wire[0].Connect?
  }

  ghost predicate Enabled(s: Setting, w: World, step: Step) {
    var queries := w.client.queries;
    match step
    case Tick(server, client) => InBand(s, w.serverNow + server, w.clientNow + client)
    case EmitStep(_, _) => true
    case Join => w.link.Down? && (w.client.connects == 0 ==> WithinCaps(w.log, s.me, w.serverNow))
    case Drop => w.link.Up?
    case Hear =>
      && w.link.Up? && w.link.wire != []
      // No read starts in the same millisecond as a connect.
      && (w.link.wire[0].Connect? ==> forall id :: id in w.client.starts ==> w.client.starts[id] < w.clientNow)
    case Timer => w.client.trailing.Some? && w.client.trailing.value <= w.clientNow && w.client.lastConnect.Some?
    case ReadStarts(id) => id in queries && !FirstReadOnItsWay(queries[id])
    case Serve(id) => id in queries && queries[id].flight == Some(Flight(None))
    case Land(id) => id in queries && queries[id].flight.Some? && queries[id].flight.value.served.Some?
    case Fail(id) => id in queries && queries[id].flight.Some?
    case Show(id) => id in queries
    case Hide(id) => id in queries
    case Add(id, _, _, _, since) => id !in queries && since <= w.clientNow
    case Put(id, _) => id in queries && id in w.client.starts && queries[id].flight.None?
    case Remove(id) => id in queries
  }

  /** How many changes had been announced, counting the last of the first `n` that hits these tags. */
  function Announced(me: Member, tags: seq<Tag>, log: seq<Tell>, n: nat): nat
    requires n <= |log|
  {
    if n == 0 then 0
    else if log[n - 1].member == me && Share(tags, log[n - 1].entities) then n
    else Announced(me, tags, log, n - 1)
  }

  function AllAnnounced(c: Client, me: Member, log: seq<Tell>): Client {
    c.(queries := map id | id in c.queries ::
                    c.queries[id].(announced := Announced(me, c.queries[id].tags, log, |log|)))
  }

  predicate Missed(s: Setting, log: seq<Tell>, tags: seq<Tag>, held: nat, i: nat)
    requires i < |log|
  {
    held <= i && log[i].member == s.me && Share(tags, log[i].entities)
  }

  /** Something still to come will send a query of these tags, dated `since`, again on account of change `i`. */
  predicate WouldHear(w: World, tags: seq<Tag>, since: int, i: nat) {
    || w.link.Down?
    || (ConnectPending(w.link) && i < w.link.joinedAt)
    || (exists k :: 0 <= k < |w.link.wire| && w.link.wire[k].Live? && Share(tags, w.link.wire[k].tags))
    || (w.client.lastConnect.Some? && since < w.client.lastConnect.value
        && (w.client.trailing.Some?
            || (w.link.wire != [] && w.link.wire[0].Replay? && Share(tags, w.link.wire[0].tags))))
  }

  predicate IsBehind(s: Setting, w: World, tags: seq<Tag>, held: nat, since: int, i: nat)
    requires i < |w.log|
  {
    Missed(s, w.log, tags, held, i) && !WouldHear(w, tags, since, i)
  }

  predicate IsDatedLate(s: Setting, w: World, tags: seq<Tag>, held: nat, since: int, i: nat)
    requires i < |w.log|
  {
    Missed(s, w.log, tags, held, i) && w.client.connects == 0 && since > w.log[i].at + s.offset + s.wander + s.lag
  }

  /** The note of data a page puts in itself. */
  function SlipOf(s: Setting, w: World, tags: seq<Tag>, held: nat, since: int): Slip {
    if exists i :: 0 <= i < |w.log| && IsBehind(s, w, tags, held, since, i) then PutInBehind
    else if exists i :: 0 <= i < |w.log| && IsDatedLate(s, w, tags, held, since, i) then DatedLate
    else NoSlip
  }

  /** A query a page adds, with the data it puts in itself, if any. */
  function Added(s: Setting, w: World, tags: seq<Tag>, shown: bool, data: Option<nat>, since: int): Query {
    Query(tags, shown, data, false, None, false, false, Announced(s.me, tags, w.log, |w.log|),
          if data.Some? then SlipOf(s, w, tags, data.value, since) else NoSlip)
  }

  /** A page sets the data of an idle query: that clears its flags, as a landing does, and notes no start. */
  function PutIn(s: Setting, w: World, query: Query, held: nat, since: int): Query {
    query.(data := Some(held), invalidated := false, failed := false, slip := SlipOf(s, w, query.tags, held, since))
  }

  function Replied(w: World, me: Member): seq<Message> {
    var tags := RecentTags(w.store.recent, me, w.serverNow);
    if tags == [] then [] else [Replay(tags)]
  }

  function Emitted(s: Setting, w: World, userIds: seq<Member>, entities: seq<Tag>): World
    requires w.store.recent.Valid()
  {
    var recipients := Recipients(userIds);
    if entities == [] || recipients == [] then w
    else
      var log := w.log + TellsOf(recipients, entities, w.serverNow);
      w.(store := Remembered(w.store, recipients, entities, w.serverNow),
         log := log,
         client := AllAnnounced(w.client, s.me, log),
         link := if w.link.Up? && s.me in recipients then w.link.(wire := w.link.wire + [Live(entities)]) else w.link)
  }

  function Heard(c: Client, message: Message, now: int): Client {
    match message
    case Connect => OnConnect(c, now)
    case Replay(tags) => OnChanged(c, EntityChange(tags, true), now)
    case Live(tags) => OnChanged(c, EntityChange(tags, false), now)
  }

  /** One query changed; a read of it that starts is noted. */
  function WithQuery(c: Client, id: QueryId, query: Query, started: bool, now: int): Client {
    c.(queries := c.queries[id := query], starts := if started then c.starts[id := now] else c.starts)
  }

  function Shown(query: Query): Query {
    var shown := query.(shown := true);
    if query.flight.None? && (query.invalidated || query.data.None?) then ReadStarted(shown) else shown
  }

  function Apply(s: Setting, w: World, step: Step): World
    requires w.store.recent.Valid() && Enabled(s, w, step)
  {
    var c := w.client;
    match step
    case Tick(server, client) => w.(serverNow := w.serverNow + server, clientNow := w.clientNow + client)
    case EmitStep(userIds, entities) => Emitted(s, w, userIds, entities)
    case Join => w.(link := Up([Connect] + Replied(w, s.me), |w.log|, w.serverNow))
    case Drop => w.(link := Down)
    case Hear => w.(link := w.link.(wire := w.link.wire[1..]), client := Heard(c, w.link.wire[0], w.clientNow))
    case Timer => w.(client := OnTimer(c, w.clientNow))
    case ReadStarts(id) => w.(client := WithQuery(c, id, ReadStarted(c.queries[id]), true, w.clientNow))
    case Serve(id) =>
      w.(client := WithQuery(c, id, c.queries[id].(flight := Some(Flight(Some(|w.log|)))), false, w.clientNow))
    case Land(id) =>
      var landed := Landed(c.queries[id], c.queries[id].flight.value.served.value);
      w.(client := WithQuery(c, id, landed, landed.flight.Some?, w.clientNow))
    case Fail(id) =>
      var failed := Failed(c.queries[id]);
      w.(client := WithQuery(c, id, failed, failed.flight.Some?, w.clientNow))
    case Show(id) =>
      var shown := Shown(c.queries[id]);
      w.(client := WithQuery(c, id, shown, c.queries[id].flight.None? && shown.flight.Some?, w.clientNow))
    case Hide(id) => w.(client := WithQuery(c, id, c.queries[id].(shown := false), false, w.clientNow))
    case Add(id, tags, shown, data, since) =>
      w.(client := c.(queries := c.queries[id := Added(s, w, tags, shown, data, since)],
                      starts := c.starts[id := since]))
    case Put(id, held) =>
      w.(client := WithQuery(c, id, PutIn(s, w, c.queries[id], held, c.starts[id]), false, w.clientNow))
    case Remove(id) => w.(client := c.(queries := c.queries - {id}, starts := c.starts - {id}))
  }

  // ── What always holds ──

  /** Nothing more needs to be heard about change `i` for this query: what it holds has it, a read that will have it
      is on its way, or the query is marked to be read when next shown (or its last read failed). */
  predicate Fixed(query: Query, i: nat) {
    || !query.slip.NoSlip?
    || (match query.flight
        case Some(flight) => query.again || flight.served.None? || i < flight.served.value
        case None => query.data.None? || i < query.data.value || query.failed || query.invalidated)
  }

  /** Something still to happen will send the query again on account of change `i`. */
  ghost predicate ToHear(s: Setting, w: World, id: QueryId, i: nat)
    requires id in w.client.queries
  {
    var query := w.client.queries[id];
    || w.link.Down?
    || (ConnectPending(w.link) && i < w.link.joinedAt)
    || (exists k :: 0 <= k < |w.link.wire| && w.link.wire[k].Live? && Touches(query, w.link.wire[k].tags))
    || (w.client.lastConnect.Some? && StartedBefore(w.client.starts, id, w.client.lastConnect.value)
        && (w.client.trailing.Some? || ReplayNames(w.link, query)))
  }

  predicate ReplayNames(link: Link, query: Query) {
    link.Up? && link.wire != [] && link.wire[0].Replay? && Touches(query, link.wire[0].tags)
  }

  /** Each change to a tag of a query is held, on its way, marked, or still to be heard; and before the first connect
      a query that misses a change had its read noted no later than the change, give or take the clocks and the lag. */
  ghost predicate CoveredOne(s: Setting, w: World, id: QueryId, i: nat)
    requires id in w.client.queries && id in w.client.starts && i < |w.log|
  {
    Hits(s, w.log, i, w.client.queries[id]) && !Fixed(w.client.queries[id], i) ==>
      && ToHear(s, w, id, i)
      && (w.client.connects == 0 ==> w.client.starts[id] <= w.log[i].at + s.offset + s.wander + s.lag)
  }

  ghost predicate ClientTidy(w: World) {
    var c := w.client;
    && c.starts.Keys == c.queries.Keys
    && (forall id :: id in c.starts ==> c.starts[id] <= w.clientNow)
    && CountsTidy(c)
    && (forall id :: id in c.queries ==> QueryTidy(c.queries[id]))
  }

  predicate CountsTidy(c: Client) {
    && (c.connects == 0 <==> c.lastConnect.None?)
    && (c.connects == 0 <==> c.lastResync.None?)
    && (c.connects <= 1 ==> c.trailing.None?)
  }

  /** What the query holds, or is about to, is older than the last change to its tags. */
  predicate Misses(query: Query) {
    && query.data.Some?
    && (match query.flight
        case Some(flight) => flight.served.Some? && flight.served.value < query.announced
        case None => query.data.value < query.announced)
  }

  predicate QueryTidy(query: Query) {
    && (query.again ==> FirstReadOnItsWay(query))
    && (query.flight.None? && query.invalidated && query.shown ==> query.failed)
    && (!query.slip.NoSlip? ==> Misses(query))
  }

  ghost predicate LinkTidy(s: Setting, w: World) {
    w.link.Up? ==>
      var wire := w.link.wire;
      && w.link.joinedAt <= |w.log| && w.link.joinTime <= w.serverNow
      && (forall k :: 0 <= k < |wire| && wire[k].Connect? ==> k == 0)
      && (forall k :: 0 <= k < |wire| && wire[k].Replay? ==> k == 0 || (k == 1 && wire[0].Connect?))
      && (!ConnectPending(w.link) ==> w.client.connects > 0)
      && (ConnectPending(w.link) && w.client.connects == 0 ==> ReplayReady(s.me, w.log, w.link))
      && (ConnectPending(w.link) ==> ReplayTrue(s.me, w.log, w.link))
  }

  ghost predicate SentLately(me: Member, log: seq<Tell>, link: Link, tag: Tag) {
    link.Up? && exists i :: 0 <= i < |log| && i < link.joinedAt && IsLately(me, log[i], link.joinTime, tag)
  }

  predicate IsLately(me: Member, tell: Tell, joinTime: int, tag: Tag) {
    tell.member == me && tag in tell.entities && joinTime - tell.at < RECENT_ENTITIES_MS
  }

  /** What the replay behind a connect names was sent to the member in the minute before it joined. */
  ghost predicate ReplayTrue(me: Member, log: seq<Tell>, link: Link) {
    forall t :: ReplayBehindConnect(link, t) ==> SentLately(me, log, link, t)
  }

  predicate ReplayBehindConnect(link: Link, tag: Tag) {
    link.Up? && |link.wire| > 1 && link.wire[1].Replay? && tag in link.wire[1].tags
  }

  /** Behind a connect not heard yet stands the replay of everything sent to the member in the minute before it
      joined. */
  ghost predicate ReplayReady(me: Member, log: seq<Tell>, link: Link) {
    link.Up? ==>
      forall i, t | 0 <= i < link.joinedAt && i < |log| && log[i].member == me && t in log[i].entities
                    && link.joinTime - log[i].at < RECENT_ENTITIES_MS :: ReplayBehindConnect(link, t)
  }

  ghost predicate AnnouncedTidy(s: Setting, w: World) {
    forall id :: id in w.client.queries ==>
      w.client.queries[id].announced == Announced(s.me, w.client.queries[id].tags, w.log, |w.log|)
  }

  ghost predicate Inv(s: Setting, w: World) {
    && Refines(w.store, w.log, w.serverNow)
    && InBand(s, w.serverNow, w.clientNow)
    && ClientTidy(w)
    && LinkTidy(s, w)
    && AnnouncedTidy(s, w)
    && (forall id, i :: id in w.client.queries && 0 <= i < |w.log| ==> CoveredOne(s, w, id, i))
  }

  // ── Every step keeps it ──

  lemma TickKeeps(s: Setting, w: World, server: nat, client: nat)
    requires Inv(s, w) && Enabled(s, w, Tick(server, client))
    ensures Inv(s, Apply(s, w, Tick(server, client)))
  {
    var w' := Apply(s, w, Tick(server, client));
    RefinesLater(w.store, w.log, w.serverNow, w'.serverNow);
    forall id, i | id in w.client.queries && 0 <= i < |w.log|
      ensures CoveredOne(s, w', id, i)
    {
      assert CoveredOne(s, w, id, i);
    }
  }

  lemma {:induction false} TellsOfAre(members: seq<Member>, entities: seq<Tag>, at: int)
    ensures forall k :: 0 <= k < |TellsOf(members, entities, at)| ==>
              var tell := TellsOf(members, entities, at)[k];
              tell.at == at && tell.entities == entities && tell.member in members
  {
    if members != [] {
      TellsOfAre(members[1..], entities, at);
    }
  }

  lemma {:induction false} AnnouncedIs(me: Member, tags: seq<Tag>, log: seq<Tell>, n: nat)
    requires n <= |log|
    ensures forall i :: 0 <= i < n && log[i].member == me && Share(tags, log[i].entities) ==>
                          i < Announced(me, tags, log, n)
    ensures var last := Announced(me, tags, log, n);
            last <= n && (last > 0 ==> log[last - 1].member == me && Share(tags, log[last - 1].entities))
  {
    if n != 0 {
      AnnouncedIs(me, tags, log, n - 1);
    }
  }

  lemma {:induction false} AnnouncedPrefix(me: Member, tags: seq<Tag>, log: seq<Tell>, more: seq<Tell>, n: nat)
    requires n <= |log|
    ensures Announced(me, tags, log + more, n) == Announced(me, tags, log, n)
  {
    if n != 0 {
      AnnouncedPrefix(me, tags, log, more, n - 1);
    }
  }

  /** What has been announced stays announced. */
  lemma {:induction false} AnnouncedGrows(me: Member, tags: seq<Tag>, log: seq<Tell>, more: seq<Tell>, n: nat)
    requires n <= |more|
    ensures Announced(me, tags, log + more, |log| + n) >= Announced(me, tags, log, |log|)
  {
    if n == 0 {
      AnnouncedPrefix(me, tags, log, more, |log|);
    } else {
      AnnouncedGrows(me, tags, log, more, n - 1);
      AnnouncedIs(me, tags, log, |log|);
    }
  }

  lemma EmitKeeps(s: Setting, w: World, userIds: seq<Member>, entities: seq<Tag>)
    requires Inv(s, w)
    ensures Inv(s, Apply(s, w, EmitStep(userIds, entities)))
  {
    var w' := Apply(s, w, EmitStep(userIds, entities));
    var recipients := Recipients(userIds);
    if entities != [] && recipients != [] {
      var tells := TellsOf(recipients, entities, w.serverNow);
      RememberRefines(w.store, w.log, w.serverNow, recipients, entities, w.serverNow);
      TellsOfAre(recipients, entities, w.serverNow);
      forall id, i | id in w.client.queries && 0 <= i < |w'.log|
        ensures CoveredOne(s, w', id, i)
      {
        if i < |w.log| {
          EmitCoversOld(s, w, w', recipients, entities, id, i);
        } else {
          EmitCoversNew(s, w, w', recipients, entities, id, i);
        }
      }
      EmitKeepsLink(s, w, w', recipients, entities);
      EmitKeepsTidy(s, w, w', tells);
    }
  }

  lemma EmitKeepsTidy(s: Setting, w: World, w': World, tells: seq<Tell>)
    requires ClientTidy(w) && AnnouncedTidy(s, w)
    requires w'.log == w.log + tells && w'.client == AllAnnounced(w.client, s.me, w'.log) && w'.clientNow == w.clientNow
    ensures ClientTidy(w') && AnnouncedTidy(s, w')
  {
    forall id | id in w'.client.queries ensures QueryTidy(w'.client.queries[id]) {
      assert QueryTidy(w.client.queries[id]);
      AnnouncedGrows(s.me, w.client.queries[id].tags, w.log, tells, |tells|);
    }
  }

  lemma EmitKeepsLink(s: Setting, w: World, w': World, recipients: seq<Member>, entities: seq<Tag>)
    requires Inv(s, w) && Tells(s, w, w', recipients, entities)
    ensures LinkTidy(s, w')
  {
    if ConnectPending(w.link) {
      assert forall i :: 0 <= i < |w.log| ==> w'.log[i] == w.log[i];
      assert forall t :: ReplayBehindConnect(w'.link, t) <==> ReplayBehindConnect(w.link, t);
      forall t | ReplayBehindConnect(w'.link, t) ensures SentLately(s.me, w'.log, w'.link, t) {
        var i :| 0 <= i < |w.log| && i < w.link.joinedAt && IsLately(s.me, w.log[i], w.link.joinTime, t);
        assert IsLately(s.me, w'.log[i], w'.link.joinTime, t);
      }
    }
  }

  /** What telling these recipients makes of the world. */
  ghost predicate Tells(s: Setting, w: World, w': World, recipients: seq<Member>, entities: seq<Tag>) {
    w' == w.(store := w'.store, log := w.log + TellsOf(recipients, entities, w.serverNow),
             client := AllAnnounced(w.client, s.me, w.log + TellsOf(recipients, entities, w.serverNow)),
             link := if w.link.Up? && s.me in recipients
                     then w.link.(wire := w.link.wire + [Live(entities)]) else w.link)
  }

  /** An older change is covered as it was. */
  lemma EmitCoversOld(s: Setting, w: World, w': World, recipients: seq<Member>, entities: seq<Tag>, id: QueryId, i: nat)
    requires Inv(s, w) && id in w.client.queries && Tells(s, w, w', recipients, entities) && i < |w.log|
    ensures i < |w'.log| && CoveredOne(s, w', id, i)
  {
    assert w'.log[i] == w.log[i] && CoveredOne(s, w, id, i);
    if w.link.Up? {
      assert forall k :: 0 <= k < |w.link.wire| ==> w'.link.wire[k] == w.link.wire[k];
    }
  }

  /** A new change is on the wire, or the socket is down. */
  lemma EmitCoversNew(s: Setting, w: World, w': World, recipients: seq<Member>, entities: seq<Tag>, id: QueryId, i: nat)
    requires Inv(s, w) && id in w.client.queries && Tells(s, w, w', recipients, entities) && |w.log| <= i < |w'.log|
    ensures CoveredOne(s, w', id, i)
  {
    TellsOfAre(recipients, entities, w.serverNow);
    assert w'.log[i] == TellsOf(recipients, entities, w.serverNow)[i - |w.log|];
    if w.link.Up? && s.me in recipients {
      assert w'.link.wire[|w.link.wire|] == Live(entities);
    }
  }

  lemma JoinKeeps(s: Setting, w: World)
    requires s.Sound() && Inv(s, w) && Enabled(s, w, Join)
    ensures Inv(s, Apply(s, w, Join))
  {
    var w' := Apply(s, w, Join);
    forall id, i | id in w.client.queries && 0 <= i < |w.log|
      ensures CoveredOne(s, w', id, i)
    {
      assert CoveredOne(s, w, id, i);
    }
    forall t | ReplayBehindConnect(w'.link, t) ensures SentLately(s.me, w.log, w'.link, t) {
      var i := ReplaySound(w.store, w.log, w.serverNow, s.me, w.serverNow, t);
      assert IsLately(s.me, w.log[i], w.serverNow, t);
    }
    if w.client.connects == 0 {
      forall i, t | 0 <= i < |w.log| && w.log[i].member == s.me && t in w.log[i].entities
                    && w.serverNow - w.log[i].at < RECENT_ENTITIES_MS
        ensures ReplayBehindConnect(w'.link, t)
      {
        ReplayComplete(w.store, w.log, w.serverNow, s.me, w.serverNow, i, t);
      }
    }
  }

  lemma DropKeeps(s: Setting, w: World)
    requires Inv(s, w) && w.link.Up?
    ensures Inv(s, Apply(s, w, Drop))
  {
    var w' := Apply(s, w, Drop);
    forall id, i | id in w.client.queries && 0 <= i < |w.log|
      ensures CoveredOne(s, w', id, i)
    {
      assert CoveredOne(s, w, id, i);
    }
  }

  // ── Steps on one query ──

  lemma OneQueryKeeps(s: Setting, w: World, id: QueryId, query: Query, started: bool)
    requires Inv(s, w) && id in w.client.queries && QueryTidy(query)
    requires query.tags == w.client.queries[id].tags && query.announced == w.client.queries[id].announced
    requires forall i :: 0 <= i < |w.log| && (started || Fixed(w.client.queries[id], i)) ==> Fixed(query, i)
    ensures Inv(s, w.(client := WithQuery(w.client, id, query, started, w.clientNow)))
  {
    var w' := w.(client := WithQuery(w.client, id, query, started, w.clientNow));
    forall other, i | other in w'.client.queries && 0 <= i < |w.log|
      ensures CoveredOne(s, w', other, i)
    {
      assert CoveredOne(s, w, other, i);
    }
  }

  /** Data a page puts in is covered, or its note says otherwise. */
  lemma PutInIsCovered(s: Setting, w: World, tags: seq<Tag>, held: nat, since: int, i: nat)
    requires i < |w.log| && Missed(s, w.log, tags, held, i) && SlipOf(s, w, tags, held, since).NoSlip?
    ensures WouldHear(w, tags, since, i)
    ensures w.client.connects == 0 ==> since <= w.log[i].at + s.offset + s.wander + s.lag
  {
    assert !IsBehind(s, w, tags, held, since, i) && !IsDatedLate(s, w, tags, held, since, i);
  }

  lemma SlipMisses(s: Setting, w: World, tags: seq<Tag>, held: nat, since: int)
    requires !SlipOf(s, w, tags, held, since).NoSlip?
    ensures held < Announced(s.me, tags, w.log, |w.log|)
  {
    AnnouncedIs(s.me, tags, w.log, |w.log|);
  }

  lemma AddKeeps(s: Setting, w: World, id: QueryId, tags: seq<Tag>, shown: bool, data: Option<nat>, since: int)
    requires Inv(s, w) && Enabled(s, w, Add(id, tags, shown, data, since))
    ensures Inv(s, Apply(s, w, Add(id, tags, shown, data, since)))
  {
    var w' := Apply(s, w, Add(id, tags, shown, data, since));
    if data.Some? && !SlipOf(s, w, tags, data.value, since).NoSlip? {
      SlipMisses(s, w, tags, data.value, since);
    }
    forall other, i | other in w'.client.queries && 0 <= i < |w.log|
      ensures CoveredOne(s, w', other, i)
    {
      if other != id {
        assert CoveredOne(s, w, other, i);
      } else if data.Some? && Missed(s, w.log, tags, data.value, i) && w'.client.queries[id].slip.NoSlip? {
        PutInIsCovered(s, w, tags, data.value, since, i);
      }
    }
  }

  lemma PutKeeps(s: Setting, w: World, id: QueryId, held: nat)
    requires Inv(s, w) && Enabled(s, w, Put(id, held))
    ensures Inv(s, Apply(s, w, Put(id, held)))
  {
    var w' := Apply(s, w, Put(id, held));
    var query, since := w.client.queries[id], w.client.starts[id];
    if !SlipOf(s, w, query.tags, held, since).NoSlip? {
      SlipMisses(s, w, query.tags, held, since);
    }
    forall other, i | other in w'.client.queries && 0 <= i < |w.log|
      ensures CoveredOne(s, w', other, i)
    {
      if other != id {
        assert CoveredOne(s, w, other, i);
      } else if Missed(s, w.log, query.tags, held, i) && w'.client.queries[id].slip.NoSlip? {
        PutInIsCovered(s, w, query.tags, held, since, i);
      }
    }
  }

  lemma RemoveKeeps(s: Setting, w: World, id: QueryId)
    requires Inv(s, w) && id in w.client.queries
    ensures Inv(s, Apply(s, w, Remove(id)))
  {
    var w' := Apply(s, w, Remove(id));
    forall other, i | other in w'.client.queries && 0 <= i < |w.log|
      ensures CoveredOne(s, w', other, i)
    {
      assert CoveredOne(s, w, other, i);
    }
  }

  // ── Steps on every query ──

  ghost predicate Settled(query: Query) {
    forall i: nat :: i < query.announced ==> Fixed(query, i)
  }

  ghost predicate RereadOne(query: Query, query': Query) {
    query'.tags == query.tags && query'.announced == query.announced && QueryTidy(query') && Settled(query')
  }

  /** Whatever state a query is in, reading it again settles every change so far. */
  lemma ReadAgainFixes(query: Query)
    requires QueryTidy(query)
    ensures RereadOne(query, ReadAgainOne(query)) && RereadOne(query, ToldOfChange(query))
  {
  }

  /** What a refresh or a replay leaves: the chosen queries settled and dated now, the others as they were. */
  ghost predicate Reread(c: Client, c': Client, chosen: set<QueryId>, now: int) {
    && c'.queries.Keys == c.queries.Keys == c'.starts.Keys
    && (forall id :: id in c.queries && id in chosen ==>
          RereadOne(c.queries[id], c'.queries[id]) && c'.starts[id] <= now)
    && (forall id :: id in c.queries && id !in chosen ==>
          c'.queries[id] == c.queries[id] && id in c.starts && c'.starts[id] == c.starts[id])
  }

  lemma ReadAgainRereads(c: Client, chosen: set<QueryId>, now: int)
    requires chosen <= c.queries.Keys == c.starts.Keys && forall id :: id in c.queries ==> QueryTidy(c.queries[id])
    ensures Reread(c, ReadAgain(c, chosen, now), chosen, now)
  {
    forall id | id in c.queries
      ensures RereadOne(c.queries[id], ReadAgainOne(c.queries[id]))
    {
      ReadAgainFixes(c.queries[id]);
    }
  }

  lemma ReadChangedRereads(c: Client, entities: seq<Tag>, now: int)
    requires c.queries.Keys == c.starts.Keys && forall id :: id in c.queries ==> QueryTidy(c.queries[id])
    requires forall id :: id in c.starts ==> c.starts[id] <= now
    ensures Reread(c, ReadChanged(c, entities, now), TouchedBy(c.queries, entities), now)
  {
    forall id | id in c.queries
      ensures RereadOne(c.queries[id], ToldOfChange(c.queries[id]))
    {
      ReadAgainFixes(c.queries[id]);
    }
  }

  /** A query not reread still has what it waited for to hear. */
  ghost predicate StillToHear(s: Setting, w: World, w': World, id: QueryId)
    requires id in w.client.queries && id in w'.client.queries
  {
    forall i :: 0 <= i < |w.log| && Hits(s, w.log, i, w.client.queries[id]) && !Fixed(w.client.queries[id], i)
                && ToHear(s, w, id, i) ==>
      ToHear(s, w', id, i)
  }

  /** After a step that rereads `chosen`, everything is covered if what the others waited for is still to be heard. */
  lemma RereadKeeps(s: Setting, w: World, w': World, chosen: set<QueryId>)
    requires Inv(s, w) && w' == w.(link := w'.link, client := w'.client)
    requires Reread(w.client, w'.client, chosen, w.clientNow)
    requires LinkTidy(s, w') && CountsTidy(w'.client) && w'.client.connects >= w.client.connects
    requires forall id :: id in w.client.queries && id !in chosen ==> StillToHear(s, w, w', id)
    ensures Inv(s, w')
  {
    forall id, i | id in w'.client.queries && 0 <= i < |w'.log|
      ensures CoveredOne(s, w', id, i)
    {
      AnnouncedIs(s.me, w.client.queries[id].tags, w.log, |w.log|);
      assert CoveredOne(s, w, id, i);
    }
  }

  lemma TimerKeeps(s: Setting, w: World)
    requires Inv(s, w) && Enabled(s, w, Timer)
    ensures Inv(s, Apply(s, w, Timer))
  {
    var w' := Apply(s, w, Timer);
    var c := w.client.(trailing := None, lastResync := Some(w.clientNow));
    var chosen := MayHaveMissed(c, ReadsFrom(c));
    ReadAgainRereads(c, chosen, w.clientNow);
    RereadKeeps(s, w, w', chosen);
  }

  lemma LiveKeeps(s: Setting, w: World)
    requires Inv(s, w) && Enabled(s, w, Hear) && w.link.wire[0].Live?
    ensures Inv(s, Apply(s, w, Hear))
  {
    var w' := Apply(s, w, Hear);
    var tags := w.link.wire[0].tags;
    var chosen := TouchedBy(w.client.queries, tags);
    ReadChangedRereads(w.client, tags, w.clientNow);
    assert Reread(w.client, w'.client, chosen, w.clientNow);
    TailTidy(s, w, w');
    forall id | id in w.client.queries && id !in chosen
      ensures StillToHear(s, w, w', id)
    {
      MessageStillToHear(s, w, w', id);
    }
    RereadKeeps(s, w, w', chosen);
  }

  /** A live tag further down the wire is still there once the first message has been heard. */
  lemma WireTail(link: Link, tail: Link)
    requires link.Up? && link.wire != [] && tail == link.(wire := link.wire[1..])
    ensures forall k :: 1 <= k < |link.wire| ==> tail.wire[k - 1] == link.wire[k]
  {
  }

  /** A message that does not name the query leaves what it waits for further down the wire, or for the window's end. */
  lemma MessageStillToHear(s: Setting, w: World, w': World, id: QueryId)
    requires Inv(s, w) && w.link.Up? && w.link.wire != [] && !w.link.wire[0].Connect?
    requires w'.link == w.link.(wire := w.link.wire[1..]) && id in w.client.queries && id in w'.client.queries
    requires w'.client.queries[id] == w.client.queries[id]
    requires w'.client == w.client.(queries := w'.client.queries, starts := w'.client.starts)
    requires id in w'.client.starts && w'.client.starts[id] == w.client.starts[id]
    requires Touches(w.client.queries[id], w.link.wire[0].tags) ==>
               w.link.wire[0].Replay?
               && (w.client.trailing.Some? || !StartedBefore(w.client.starts, id, w.client.lastConnect.value))
    ensures StillToHear(s, w, w', id)
  {
    WireTail(w.link, w'.link);
  }

  lemma TailTidy(s: Setting, w: World, w': World)
    requires Inv(s, w) && w.link.Up? && w.link.wire != [] && w'.link == w.link.(wire := w.link.wire[1..])
    requires w'.log == w.log && w'.serverNow == w.serverNow && w'.client.connects > 0
    ensures LinkTidy(s, w')
  {
    assert forall k :: 0 <= k < |w'.link.wire| ==> w'.link.wire[k] == w.link.wire[k + 1];
  }

  lemma ReplayKeeps(s: Setting, w: World)
    requires Inv(s, w) && Enabled(s, w, Hear) && w.link.wire[0].Replay?
    ensures Inv(s, Apply(s, w, Hear))
  {
    var w' := Apply(s, w, Hear);
    var tags := w.link.wire[0].tags;
    var chosen := if w.client.trailing.Some? || tags == [] then {} else NamedByReplay(w.client, tags);
    ReadAgainRereads(w.client, chosen, w.clientNow);
    assert Reread(w.client, w'.client, chosen, w.clientNow);
    TailTidy(s, w, w');
    forall id | id in w.client.queries && id !in chosen
      ensures StillToHear(s, w, w', id)
    {
      MessageStillToHear(s, w, w', id);
    }
    RereadKeeps(s, w, w', chosen);
  }

  /** A young read the first connect leaves alone misses only changes of the last minute: the replay names them. */
  lemma FirstConnectLeans(s: Setting, w: World, id: QueryId, i: nat)
    requires s.Sound() && Inv(s, w) && Enabled(s, w, Hear) && w.link.wire[0].Connect? && w.client.connects == 0
    requires id in w.client.queries && i < w.link.joinedAt
    requires Hits(s, w.log, i, w.client.queries[id]) && !Fixed(w.client.queries[id], i)
    requires w.client.starts[id] >= w.clientNow - REPLAY_TRUST_MS
    ensures |w.link.wire| > 1 && w.link.wire[1].Replay? && Touches(w.client.queries[id], w.link.wire[1].tags)
  {
    assert CoveredOne(s, w, id, i);
    assert w.log[i].at > w.serverNow - RECENT_ENTITIES_MS;
    var t :| t in w.client.queries[id].tags && t in w.log[i].entities;
    assert ReplayBehindConnect(w.link, t);
  }

  /** A query the connect does not answer at once waits for the window's end, or for the replay behind the connect. */
  lemma ConnectStillToHear(s: Setting, w: World, id: QueryId)
    requires s.Sound() && Inv(s, w) && Enabled(s, w, Hear) && w.link.wire[0].Connect? && id in w.client.queries
    requires var w' := Apply(s, w, Hear);
             id in w'.client.queries && id in w'.client.starts && w'.client.starts[id] == w.client.starts[id]
    requires AnsweredAtOnce(w.client, w.clientNow) ==>
               w.client.connects == 0 && (IsTagged(w.client.queries[id]) ==>
                 w.client.starts[id] >= w.clientNow - REPLAY_TRUST_MS)
    ensures Apply(s, w, Hear).client.queries[id] == w.client.queries[id] ==>
              StillToHear(s, w, Apply(s, w, Hear), id)
  {
    var w' := Apply(s, w, Hear);
    WireTail(w.link, w'.link);
    forall i | 0 <= i < |w.log| && Hits(s, w.log, i, w.client.queries[id]) && !Fixed(w.client.queries[id], i)
               && ToHear(s, w, id, i) && w'.client.queries[id] == w.client.queries[id]
      ensures ToHear(s, w', id, i)
    {
      if AnsweredAtOnce(w.client, w.clientNow) && i < w.link.joinedAt {
        FirstConnectLeans(s, w, id, i);
      }
    }
  }

  lemma ConnectKeeps(s: Setting, w: World)
    requires s.Sound() && Inv(s, w) && Enabled(s, w, Hear) && w.link.wire[0].Connect?
    ensures Inv(s, Apply(s, w, Hear))
  {
    var w' := Apply(s, w, Hear);
    var c, now := w.client, w.clientNow;
    var heard := c.(lastConnect := Some(now), connects := c.connects + 1);
    var chosen := if AnsweredAtOnce(c, now) then MayHaveMissed(heard, ReadsFrom(heard)) else {};
    ReadAgainRereads(heard, chosen, now);
    assert Reread(c, w'.client, chosen, now);
    TailTidy(s, w, w');
    forall id | id in c.queries && id !in chosen
      ensures StillToHear(s, w, w', id)
    {
      if IsTagged(c.queries[id]) {
        ConnectStillToHear(s, w, id);
      }
    }
    RereadKeeps(s, w, w', chosen);
  }

  predicate IsRead(step: Step) {
    step.ReadStarts? || step.Serve? || step.Land? || step.Fail? || step.Show? || step.Hide?
  }

  /** What one query's own steps make of it, and whether they start a read. */
  function ReadStep(w: World, query: Query, step: Step): (Query, bool)
    requires IsRead(step) && (step.Land? ==> query.flight.Some? && query.flight.value.served.Some?)
  {
    match step
    case ReadStarts(_) => (ReadStarted(query), true)
    case Serve(_) => (query.(flight := Some(Flight(Some(|w.log|)))), false)
    case Land(_) =>
      var landed := Landed(query, query.flight.value.served.value);
      (landed, landed.flight.Some?)
    case Fail(_) => (Failed(query), Failed(query).flight.Some?)
    case Show(_) => (Shown(query), query.flight.None? && Shown(query).flight.Some?)
    case Hide(_) => (query.(shown := false), false)
  }

  lemma ReadKeeps(s: Setting, w: World, step: Step)
    requires Inv(s, w) && Enabled(s, w, step) && IsRead(step)
    ensures Inv(s, Apply(s, w, step))
  {
    var (query, started) := ReadStep(w, w.client.queries[step.id], step);
    OneQueryKeeps(s, w, step.id, query, started);
  }

  lemma StepKeeps(s: Setting, w: World, step: Step)
    requires s.Sound() && Inv(s, w) && Enabled(s, w, step)
    ensures Inv(s, Apply(s, w, step))
  {
    if IsRead(step) {
      ReadKeeps(s, w, step);
    } else if step.Tick? {
      TickKeeps(s, w, step.server, step.client);
    } else if step.EmitStep? {
      EmitKeeps(s, w, step.userIds, step.entities);
    } else if step.Join? {
      JoinKeeps(s, w);
    } else if step.Drop? {
      DropKeeps(s, w);
    } else if step.Hear? {
      HearKeeps(s, w);
    } else if step.Timer? {
      TimerKeeps(s, w);
    } else if step.Add? {
      AddKeeps(s, w, step.id, step.tags, step.shown, step.data, step.since);
    } else if step.Put? {
      PutKeeps(s, w, step.id, step.held);
    } else {
      RemoveKeeps(s, w, step.id);
    }
  }

  lemma HearKeeps(s: Setting, w: World)
    requires s.Sound() && Inv(s, w) && Enabled(s, w, Hear)
    ensures Inv(s, Apply(s, w, Hear))
  {
    match w.link.wire[0]
    case Connect => ConnectKeeps(s, w);
    case Replay(_) => ReplayKeeps(s, w);
    case Live(_) => LiveKeeps(s, w);
  }

  // ── The main result ──

  /** The subscription starts before the socket's first connect, over whatever the cache already holds. */
  ghost predicate Initial(s: Setting, w: World) {
    && Refines(w.store, w.log, w.serverNow)
    && InBand(s, w.serverNow, w.clientNow)
    && w.link.Down?
    && w.client == Client(w.client.queries, w.client.starts, None, None, 0, None)
    && w.client.starts.Keys == w.client.queries.Keys
    && (forall id :: id in w.client.starts ==> w.client.starts[id] <= w.clientNow)
    && (forall id :: id in w.client.queries ==> QueryTidy(w.client.queries[id]))
    && AnnouncedTidy(s, w)
    && (forall id, i :: id in w.client.queries && 0 <= i < |w.log|
                        && Hits(s, w.log, i, w.client.queries[id]) && !Fixed(w.client.queries[id], i) ==>
          w.client.starts[id] <= w.log[i].at + s.offset + s.wander + s.lag)
  }

  /** A run: each step is one the machine can take from where it is. */
  ghost predicate IsRun(s: Setting, w: World, steps: seq<Step>)
    decreases |steps|
  {
    steps != [] ==>
      w.store.recent.Valid() && Enabled(s, w, steps[0]) && IsRun(s, Apply(s, w, steps[0]), steps[1..])
  }

  ghost function After(s: Setting, w: World, steps: seq<Step>): World
    requires IsRun(s, w, steps)
    decreases |steps|
  {
    if steps == [] then w else After(s, Apply(s, w, steps[0]), steps[1..])
  }

  lemma {:induction false} RunKeeps(s: Setting, w: World, steps: seq<Step>)
    requires s.Sound() && Inv(s, w) && IsRun(s, w, steps)
    ensures Inv(s, After(s, w, steps))
    decreases |steps|
  {
    if steps != [] {
      StepKeeps(s, w, steps[0]);
      RunKeeps(s, Apply(s, w, steps[0]), steps[1..]);
    }
  }

  /** Connected and everything sent was heard, no read on its way, no refresh waiting for its window. */
  predicate AtRest(w: World) {
    && w.link.Up? && w.link.wire == []
    && w.client.trailing.None?
    && (forall id :: id in w.client.queries ==> w.client.queries[id].flight.None?)
  }

  /** The data held is no older than the last change to any of the query's tags. */
  ghost predicate Current(s: Setting, log: seq<Tell>, query: Query) {
    query.data.Some? ==>
      forall i, t :: 0 <= i < |log| && log[i].member == s.me && t in query.tags && t in log[i].entities ==>
        i < query.data.value
  }

  /** Tag by tag is change by change. */
  lemma CurrentIs(s: Setting, log: seq<Tell>, query: Query)
    ensures Current(s, log, query)
            <==> (query.data.Some? ==> forall i :: 0 <= i < |log| && Hits(s, log, i, query) ==> i < query.data.value)
  {
    forall i, t | 0 <= i < |log| && log[i].member == s.me && t in query.tags && t in log[i].entities
      ensures Hits(s, log, i, query)
    {
    }
  }

  lemma InitialInv(s: Setting, w: World)
    requires Initial(s, w)
    ensures Inv(s, w)
  {
  }

  /** What is left to say of a query at rest whose data misses a change. */
  predicate Excused(query: Query) {
    query.failed || (!query.shown && query.invalidated) || !query.slip.NoSlip?
  }

  lemma RestSettles(s: Setting, w: World, id: QueryId, i: nat)
    requires Inv(s, w) && AtRest(w) && id in w.client.queries && i < |w.log|
    requires Hits(s, w.log, i, w.client.queries[id])
    ensures var query := w.client.queries[id];
            query.data.None? || i < query.data.value || Excused(query)
  {
    assert CoveredOne(s, w, id, i);
    assert QueryTidy(w.client.queries[id]);
  }

  /** A query that slipped holds less than the last change to its tags. */
  lemma SlippedIsStale(s: Setting, w: World, id: QueryId)
    requires Inv(s, w) && AtRest(w) && id in w.client.queries && !w.client.queries[id].slip.NoSlip?
    ensures !Current(s, w.log, w.client.queries[id])
  {
    var query := w.client.queries[id];
    assert QueryTidy(query);
    AnnouncedIs(s.me, query.tags, w.log, |w.log|);
    assert Hits(s, w.log, query.announced - 1, query);
    CurrentIs(s, w.log, query);
  }

  /** What a run comes to, for one query: current, or excused; and of one that is shown and did not fail, exactly
      what its note says. */
  ghost predicate ComesTo(s: Setting, log: seq<Tell>, query: Query) {
    && (Current(s, log, query) || Excused(query))
    && (query.shown && !query.failed ==> (Current(s, log, query) <==> query.slip.NoSlip?))
    && (!query.slip.NoSlip? ==> !Current(s, log, query))
  }

  /** Nobody stays stale: over every run, at rest every query's data holds the last change to each of its tags, or
      the query's last read failed, or it is hidden and marked to be read when shown, or it slipped. A query that is
      shown and did not fail is current if and only if it did not slip, and none that slipped is current. */
  lemma NobodyStaysStale(s: Setting, w: World, steps: seq<Step>)
    requires s.Sound() && Initial(s, w) && IsRun(s, w, steps)
    ensures var end := After(s, w, steps);
            AtRest(end) ==> forall id :: id in end.client.queries ==> ComesTo(s, end.log, end.client.queries[id])
  {
    InitialInv(s, w);
    RunKeeps(s, w, steps);
    var end := After(s, w, steps);
    if AtRest(end) {
      forall id | id in end.client.queries ensures ComesTo(s, end.log, end.client.queries[id]) {
        RestComesTo(s, end, id);
      }
    }
  }

  lemma RestComesTo(s: Setting, w: World, id: QueryId)
    requires Inv(s, w) && AtRest(w) && id in w.client.queries
    ensures ComesTo(s, w.log, w.client.queries[id])
  {
    var query := w.client.queries[id];
    assert QueryTidy(query);
    CurrentIs(s, w.log, query);
    forall i | 0 <= i < |w.log| && Hits(s, w.log, i, query)
      ensures query.data.None? || i < query.data.value || Excused(query)
    {
      RestSettles(s, w, id, i);
    }
    if !query.slip.NoSlip? {
      SlippedIsStale(s, w, id);
    }
  }
}
