/** Tag by tag: which reads each thing the client hears sends again, and that a query in view ends current. */
module RealtimeTags {
  import opened Option
  import opened ReplayStore
  import opened ReplayLog
  import opened EntitySync
  import opened RealtimeWorld

  // ── What one query makes of what is heard ──

  ghost predicate InCommon(tags: seq<Tag>, entities: seq<Tag>) {
    exists t :: t in tags && t in entities
  }

  /** A query in view is sent again, unless it waits for its first answer, after which it will be; a hidden one is
      flagged. */
  predicate IsReread(query: Query, after: Query) {
    && after.tags == query.tags && after.shown == query.shown && after.data == query.data
    && if query.flight.Some? && query.data.None? then after.flight == query.flight && after.again
       else if query.shown then after.flight == Some(Flight(None))
       else after.flight == query.flight && after.invalidated
  }

  predicate LeftAlone(c: Client, after: Client, id: QueryId)
    requires id in c.queries && id in c.starts
  {
    id in after.queries && id in after.starts && after.queries[id] == c.queries[id] && after.starts[id] == c.starts[id]
  }

  /** A change heard, live or from a replay, reads a query again if and only if one of its tags is named and, for a
      replay after a connect, its read started before that connect and no refresh waits; any other query is left
      alone, and so is everything about the connects. */
  lemma ChangeReadsExactly(c: Client, change: EntityChange, now: int, id: QueryId)
    requires id in c.queries && id in c.starts
    ensures var after := OnChanged(c, change, now);
            && after == c.(queries := after.queries, starts := after.starts)
            && if InCommon(c.queries[id].tags, change.entities)
                  && (change.replayed && c.connects > 0 ==>
                        c.trailing.None? && c.lastConnect.Some? && c.starts[id] < c.lastConnect.value)
               then
                 && id in after.queries && id in after.starts && IsReread(c.queries[id], after.queries[id])
                 && (c.queries[id].shown && !(c.queries[id].flight.Some? && c.queries[id].data.None?) ==>
                       after.starts[id] == now)
               else LeftAlone(c, after, id)
  {
    if change.entities == [] {
      assert !InCommon(c.queries[id].tags, change.entities);
    }
  }

  /** A connect is answered at once if and only if no refresh waits and the last was 5 s ago or more. Answered, it reads
      a query again if and only if it has a tag and its read started before the connect, or 30 s before the first
      one; every other query is left alone. Not answered, it has a refresh waiting, for the window's end at the
      latest. */
  lemma ConnectReadsExactly(c: Client, now: int, id: QueryId)
    requires id in c.queries && id in c.starts
    ensures var after := OnConnect(c, now);
            var answered := c.trailing.None? && (c.lastResync.None? || now - c.lastResync.value >= 5000);
            && after.lastConnect == Some(now) && after.connects == c.connects + 1
            && (if answered then after.trailing.None? && after.lastResync == Some(now)
                else after.lastResync == c.lastResync
                     && after.trailing == if c.trailing.Some? then c.trailing else Some(c.lastResync.value + 5000))
            && if answered && c.queries[id].tags != []
                  && c.starts[id] < (if c.connects == 0 then now - 30_000 else now)
               then
                 && id in after.queries && id in after.starts && IsReread(c.queries[id], after.queries[id])
                 && after.starts[id] == now
               else LeftAlone(c, after, id)
  {
  }

  /** The waiting refresh answers every connect of its window: it reads a query again if and only if it has a tag and
      its read started before the latest of them. */
  lemma TimerReadsExactly(c: Client, now: int, id: QueryId)
    requires id in c.queries && id in c.starts && c.lastConnect.Some? && c.connects > 1
    ensures var after := OnTimer(c, now);
            && after == c.(queries := after.queries, starts := after.starts, trailing := None, lastResync := Some(now))
            && if c.queries[id].tags != [] && c.starts[id] < c.lastConnect.value then
                 && id in after.queries && id in after.starts && IsReread(c.queries[id], after.queries[id])
                 && after.starts[id] == now
               else LeftAlone(c, after, id)
  {
  }

  /** A read that ends. Landed, its answer is what the query holds; failed, the query keeps what it held and is
      marked so. If it was to be read again, a query in view is sent at once and a hidden one flagged; otherwise it
      is idle, and after a landing unflagged. */
  lemma ReadEnds(s: Setting, w: World, id: QueryId, step: Step)
    requires w.store.recent.Valid() && (step == Land(id) || step == Fail(id)) && Enabled(s, w, step)
    ensures var query, client := w.client.queries[id], Apply(s, w, step).client;
            && id in client.queries
            && var after := client.queries[id];
               && after.tags == query.tags && after.shown == query.shown
               && after.data == (if step.Land? then query.flight.value.served else query.data)
               && (if query.again && query.shown then
                     after.flight == Some(Flight(None)) && client.starts == w.client.starts[id := w.clientNow]
                   else
                     && after.flight.None? && after.failed == step.Fail? && (query.again ==> after.invalidated)
                     && (!query.again && step.Land? ==> !after.invalidated))
  {
  }

  /** Coming into view reads a query if and only if it is idle and flagged, or holds nothing. */
  lemma ShowingReadsExactly(s: Setting, w: World, id: QueryId)
    requires w.store.recent.Valid() && Enabled(s, w, Show(id))
    ensures var query, client := w.client.queries[id], Apply(s, w, Show(id)).client;
            && id in client.queries && client.queries[id].shown && client.queries[id].data == query.data
            && if query.flight.None? && (query.invalidated || query.data.None?)
               then
                 client.queries[id].flight == Some(Flight(None)) && client.starts == w.client.starts[id := w.clientNow]
               else client.queries[id] == query.(shown := true) && client.starts == w.client.starts
  {
  }

  // ── Queries in view ──

  /** A step in which no query is hidden, no read fails and the page puts no data in itself. */
  predicate IsPlain(step: Step) {
    match step
    case Hide(_) => false
    case Fail(_) => false
    case Put(_, _) => false
    case Add(_, _, shown, data, _) => shown && data.None?
    case _ => true
  }

  ghost predicate AllPlain(steps: seq<Step>) {
    forall i :: 0 <= i < |steps| ==> IsPlain(steps[i])
  }

  predicate InView(query: Query) {
    query.shown && !query.failed && query.slip.NoSlip?
  }

  ghost predicate AllInView(c: Client) {
    forall id :: id in c.queries ==> InView(c.queries[id])
  }

  lemma RereadStaysInView(query: Query)
    requires InView(query)
    ensures InView(ReadAgainOne(query)) && InView(ToldOfChange(query))
  {
  }

  lemma HeardStaysInView(c: Client, message: Message, now: int)
    requires AllInView(c)
    ensures AllInView(Heard(c, message, now))
  {
    forall id | id in c.queries ensures InView(ReadAgainOne(c.queries[id])) && InView(ToldOfChange(c.queries[id])) {
      RereadStaysInView(c.queries[id]);
    }
  }

  lemma TimerStaysInView(c: Client, now: int)
    requires AllInView(c) && c.lastConnect.Some?
    ensures AllInView(OnTimer(c, now))
  {
    forall id | id in c.queries ensures InView(ReadAgainOne(c.queries[id])) {
      RereadStaysInView(c.queries[id]);
    }
  }

  lemma OneStaysInView(w: World, query: Query, step: Step)
    requires InView(query) && IsRead(step) && IsPlain(step)
    requires step.Land? ==> query.flight.Some? && query.flight.value.served.Some?
    ensures InView(ReadStep(w, query, step).0)
  {
  }

  lemma PlainStepKeeps(s: Setting, w: World, step: Step)
    requires w.store.recent.Valid() && Enabled(s, w, step) && IsPlain(step) && AllInView(w.client)
    ensures AllInView(Apply(s, w, step).client)
  {
    if IsRead(step) {
      OneStaysInView(w, w.client.queries[step.id], step);
      assert Apply(s, w, step).client.queries
          == w.client.queries[step.id := ReadStep(w, w.client.queries[step.id], step).0];
    } else if step.Hear? {
      HeardStaysInView(w.client, w.link.wire[0], w.clientNow);
    } else if step.Timer? {
      TimerStaysInView(w.client, w.clientNow);
    } else {
      OtherStaysInView(s, w, step);
    }
  }

  lemma OtherStaysInView(s: Setting, w: World, step: Step)
    requires w.store.recent.Valid() && Enabled(s, w, step) && IsPlain(step) && AllInView(w.client)
    requires !IsRead(step) && !step.Hear? && !step.Timer?
    ensures AllInView(Apply(s, w, step).client)
  {
  }

  lemma {:induction false} PlainRunKeeps(s: Setting, w: World, steps: seq<Step>)
    requires IsRun(s, w, steps) && AllPlain(steps) && AllInView(w.client)
    ensures AllInView(After(s, w, steps).client)
    decreases |steps|
  {
    if steps != [] {
      assert IsPlain(steps[0]);
      PlainStepKeeps(s, w, steps[0]);
      PlainRunKeeps(s, Apply(s, w, steps[0]), steps[1..]);
    }
  }

  /** With every query in view, no read that fails and no data put in by a page, nothing is excused: over every run,
      whatever the socket loses and the clocks do, at rest whatever a query holds has the last change to each of its
      tags. */
  lemma QueriesInViewEndCurrent(s: Setting, w: World, steps: seq<Step>)
    requires s.Sound() && Initial(s, w) && IsRun(s, w, steps) && AllInView(w.client) && AllPlain(steps)
    ensures var end := After(s, w, steps);
            AtRest(end) ==>
              forall id, i, t :: id in end.client.queries && end.client.queries[id].data.Some?
                                 && 0 <= i < |end.log| && end.log[i].member == s.me
                                 && t in end.client.queries[id].tags && t in end.log[i].entities ==>
                i < end.client.queries[id].data.value
  {
    NobodyStaysStale(s, w, steps);
    PlainRunKeeps(s, w, steps);
  }
}
