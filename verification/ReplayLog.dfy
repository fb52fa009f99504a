/** The replay memory against a plain log of every send: what is remembered, and the only three ways a send is lost. */
module ReplayLog {
  import opened OrderedMap
  import opened ReplayStore

  /** One member told of some tags. A send to several members is one of these for each, in the order they were told. */
  datatype Tell = Tell(member: Member, at: int, entities: seq<Tag>)

  /** The sends to this member from the log's `from` on, oldest first. */
  function SendsFrom(log: seq<Tell>, from: nat, member: Member): (sends: seq<Sent>)
    requires from <= |log|
    decreases |log| - from
  {
    if from == |log| then []
    else if log[from].member == member then
      [Sent(log[from].at, log[from].entities)] + SendsFrom(log, from + 1, member)
    else SendsFrom(log, from + 1, member)
  }

  ghost predicate ClockOrdered(log: seq<Tell>, clock: int) {
    && (forall i, j :: 0 <= i < j < |log| ==> log[i].at <= log[j].at)
    && (forall i :: 0 <= i < |log| ==> log[i].at <= clock)
  }

  // ── The three ways a send stops being remembered ──

  ghost predicate Expired(tell: Tell, now: int) {
    now - tell.at >= RECENT_ENTITIES_MS
  }

  /** Two hundred newer sends to the same member, or more. */
  ghost predicate Outnumbered(log: seq<Tell>, j: nat)
    requires j < |log|
  {
    |SendsFrom(log, j, log[j].member)| > MAX_PER_USER
  }

  ghost function MembersTold(log: seq<Tell>, from: nat, to: nat): set<Member>
    requires from <= to <= |log|
  {
    set i | from <= i < to :: log[i].member
  }

  /** From the send at `a` until `b` the member is told nothing, and 10,000 others are. */
  ghost predicate SqueezedBetween(log: seq<Tell>, member: Member, a: nat, b: nat)
    requires a < b <= |log|
  {
    && log[a].member == member
    && member !in MembersTold(log, a + 1, b)
    && |MembersTold(log, a + 1, b)| >= MAX_MEMBERS
  }

  /** Ten thousand other members were told something in one stretch after it in which its own member was not. */
  ghost predicate Squeezed(log: seq<Tell>, j: nat)
    requires j < |log|
  {
    exists a: nat, b: nat :: j <= a < b <= |log| && SqueezedBetween(log, log[j].member, a, b)
  }

  ghost predicate Lost(log: seq<Tell>, j: nat, now: int)
    requires j < |log|
  {
    Expired(log[j], now) || Outnumbered(log, j) || Squeezed(log, j)
  }

  // ── What the store holds of the log ──

  /** The member's list is every send to it from `cut` on; those before are lost. */
  ghost predicate KeptFrom(list: seq<Sent>, log: seq<Tell>, member: Member, cut: nat, clock: int) {
    && cut <= |log|
    && 1 <= |list| <= MAX_PER_USER
    && list == SendsFrom(log, cut, member)
    && (forall j :: 0 <= j < cut && log[j].member == member ==> Lost(log, j, clock))
  }

  ghost predicate Keeps(list: seq<Sent>, log: seq<Tell>, member: Member, clock: int) {
    exists cut: nat :: KeptFrom(list, log, member, cut, clock)
  }

  /** Nothing of this member is held: all that was sent to it has expired or was squeezed out. */
  ghost predicate Forgotten(log: seq<Tell>, member: Member, clock: int) {
    forall j :: 0 <= j < |log| && log[j].member == member ==> Expired(log[j], clock) || Squeezed(log, j)
  }

  function LastTold(log: seq<Tell>, member: Member): (i: int)
    ensures -1 <= i < |log|
  {
    if log == [] then -1
    else if log[|log| - 1].member == member then |log| - 1
    else LastTold(log[..|log| - 1], member)
  }

  lemma {:induction false} LastToldIs(log: seq<Tell>, member: Member)
    ensures var i := LastTold(log, member);
            && (i >= 0 ==> log[i].member == member)
            && (forall k :: i < k < |log| ==> log[k].member != member)
  {
    if log != [] && log[|log| - 1].member != member {
      var front := log[..|log| - 1];
      LastToldIs(front, member);
      assert forall k :: 0 <= k < |front| ==> front[k] == log[k];
    }
  }

  ghost predicate OldestTellFirst(keys: seq<Member>, log: seq<Tell>) {
    forall i, j :: 0 <= i < j < |keys| ==> LastTold(log, keys[i]) < LastTold(log, keys[j])
  }

  ghost predicate Holds(recent: Recent, log: seq<Tell>, clock: int) {
    && recent.Valid()
    && (forall u :: u in recent.entries ==> Keeps(recent.entries[u], log, u, clock))
    && (forall u :: u !in recent.entries ==> Forgotten(log, u, clock))
    && OldestTellFirst(recent.keys, log)
  }

  /** The store as a view of the log. */
  ghost predicate Refines(store: Store, log: seq<Tell>, clock: int) {
    && ClockOrdered(log, clock)
    && Holds(store.recent, log, clock)
    && |store.recent.keys| <= MAX_MEMBERS
  }

  // ── Sends from a cut of the log ──

  lemma {:induction false} SendsFromAppend(log: seq<Tell>, more: seq<Tell>, from: nat, member: Member)
    requires from <= |log|
    ensures SendsFrom(log + more, from, member) == SendsFrom(log, from, member) + SendsFrom(log + more, |log|, member)
    decreases |log| - from
  {
    if from < |log| {
      assert (log + more)[from] == log[from];
      SendsFromAppend(log, more, from + 1, member);
    }
  }

  /** What leaving out the expired sends leaves is the sends from a later cut, and only expired ones lie between. */
  lemma {:induction false} FreshCut(log: seq<Tell>, member: Member, cut: nat, now: int) returns (later: nat)
    requires cut <= |log|
    ensures cut <= later <= |log|
    ensures SendsFrom(log, later, member) == Fresh(SendsFrom(log, cut, member), now)
    ensures forall j :: cut <= j < later && log[j].member == member ==> Expired(log[j], now)
    decreases |log| - cut
  {
    if Fresh(SendsFrom(log, cut, member), now) == SendsFrom(log, cut, member) {
      later := cut;
    } else {
      later := FreshCut(log, member, cut + 1, now);
    }
  }

  /** Keeping the newest `n` is the sends from a later cut, and each send between has more than `n` from it on. */
  lemma {:induction false} NewestCut(log: seq<Tell>, member: Member, cut: nat, n: nat) returns (later: nat)
    requires cut <= |log|
    ensures cut <= later <= |log|
    ensures SendsFrom(log, later, member) == Newest(SendsFrom(log, cut, member), n)
    ensures forall j :: cut <= j < later && log[j].member == member ==> |SendsFrom(log, j, member)| > n
    decreases |log| - cut
  {
    if |SendsFrom(log, cut, member)| <= n {
      later := cut;
    } else {
      later := NewestCut(log, member, cut + 1, n);
    }
  }

  // ── A lost send stays lost ──

  lemma MembersToldAgree(log: seq<Tell>, all: seq<Tell>, from: nat, to: nat)
    requires from <= to <= |log| && |log| <= |all| && forall i :: 0 <= i < |log| ==> all[i] == log[i]
    ensures MembersTold(all, from, to) == MembersTold(log, from, to)
  {
    assert MembersTold(all, from, to) == set i | from <= i < to :: all[i].member;
    forall u
      ensures u in MembersTold(all, from, to) <==> u in MembersTold(log, from, to)
    {
      if u in MembersTold(log, from, to) {
        var i :| from <= i < to && log[i].member == u;
        assert all[i].member == u;
      }
    }
  }

  lemma LostStays(log: seq<Tell>, more: seq<Tell>, j: nat, now: int, later: int)
    requires j < |log| && now <= later
    ensures Expired(log[j], now) ==> Expired(log[j], later)
    ensures Outnumbered(log, j) ==> Outnumbered(log + more, j)
    ensures Squeezed(log, j) ==> Squeezed(log + more, j)
  {
    var all := log + more;
    SendsFromAppend(log, more, j, log[j].member);
    if Squeezed(log, j) {
      var a: nat, b: nat :| j <= a < b <= |log| && SqueezedBetween(log, log[j].member, a, b);
      assert forall i :: 0 <= i < |log| ==> all[i] == log[i];
      MembersToldAgree(log, all, a + 1, b);
      assert SqueezedBetween(all, all[j].member, a, b);
    }
  }

  lemma KeepsLater(list: seq<Sent>, log: seq<Tell>, member: Member, clock: int, now: int)
    requires Keeps(list, log, member, clock) && clock <= now
    ensures Keeps(list, log, member, now)
  {
    var cut: nat :| KeptFrom(list, log, member, cut, clock);
    forall j | 0 <= j < cut && log[j].member == member
      ensures Lost(log, j, now)
    {
      LostStays(log, [], j, clock, now);
    }
    assert KeptFrom(list, log, member, cut, now);
  }

  lemma HoldsLater(recent: Recent, log: seq<Tell>, clock: int, now: int)
    requires Holds(recent, log, clock) && clock <= now
    ensures Holds(recent, log, now)
  {
    forall u | u in recent.entries
      ensures Keeps(recent.entries[u], log, u, now)
    {
      KeepsLater(recent.entries[u], log, u, clock, now);
    }
  }

  /** Time alone keeps the refinement. */
  lemma RefinesLater(store: Store, log: seq<Tell>, clock: int, now: int)
    requires Refines(store, log, clock) && clock <= now
    ensures Refines(store, log, now)
  {
    HoldsLater(store.recent, log, clock, now);
  }

  // ── Sweeping ──

  /** The fresh part of a kept list is kept; when nothing is fresh, everything sent to the member is expired. */
  lemma FreshKeeps(list: seq<Sent>, log: seq<Tell>, member: Member, now: int)
    requires ClockOrdered(log, now) && Keeps(list, log, member, now)
    ensures var kept := Fresh(list, now);
            if kept == [] then forall j :: 0 <= j < |log| && log[j].member == member ==> Expired(log[j], now)
            else Keeps(kept, log, member, now)
  {
    var cut: nat :| KeptFrom(list, log, member, cut, now);
    var later := FreshCut(log, member, cut, now);
    if Fresh(list, now) != [] {
      assert KeptFrom(Fresh(list, now), log, member, later, now);
    } else {
      NoSendsFrom(log, later, member);
      var k := SomeSendFrom(log, cut, member);
      assert Expired(log[k], now);
    }
  }

  lemma {:induction false} NoSendsFrom(log: seq<Tell>, from: nat, member: Member)
    requires from <= |log| && SendsFrom(log, from, member) == []
    ensures forall i :: from <= i < |log| ==> log[i].member != member
    decreases |log| - from
  {
    if from < |log| {
      NoSendsFrom(log, from + 1, member);
    }
  }

  lemma {:induction false} SomeSendFrom(log: seq<Tell>, from: nat, member: Member) returns (k: nat)
    requires from <= |log| && SendsFrom(log, from, member) != []
    ensures from <= k < |log| && log[k].member == member
    decreases |log| - from
  {
    k := from;
    if log[from].member != member {
      k := SomeSendFrom(log, from + 1, member);
    }
  }

  lemma {:induction false} WithoutKeepsTellOrder(keys: seq<Member>, key: Member, log: seq<Tell>)
    requires Distinct(keys) && OldestTellFirst(keys, log)
    ensures OldestTellFirst(Without(keys, key), log)
  {
    if keys != [] {
      var tail := keys[1..];
      assert forall i :: 0 <= i < |tail| ==> tail[i] == keys[i + 1];
      WithoutKeepsTellOrder(tail, key, log);
      WithoutKeepsDistinct(tail, key);
      assert forall u :: u in Without(tail, key) ==> LastTold(log, keys[0]) < LastTold(log, u);
    }
  }

  lemma SweepOneHolds(recent: Recent, member: Member, log: seq<Tell>, now: int)
    requires ClockOrdered(log, now) && Holds(recent, log, now) && member in recent.entries
    ensures Holds(SweepOne(recent, member, now), log, now)
  {
    FreshKeeps(recent.entries[member], log, member, now);
    WithoutKeepsTellOrder(recent.keys, member, log);
  }

  lemma {:induction false} SweepHolds(recent: Recent, members: seq<Member>, log: seq<Tell>, now: int)
    requires ClockOrdered(log, now) && Holds(recent, log, now)
    requires Distinct(members) && forall u :: u in members ==> u in recent.entries
    ensures Holds(SweptOf(recent, members, now), log, now)
    ensures |SweptOf(recent, members, now).keys| <= |recent.keys|
    decreases |members|
  {
    if members != [] {
      SweepOneHolds(recent, members[0], log, now);
      WithoutKeepsDistinct(recent.keys, members[0]);
      SweepHolds(SweepOne(recent, members[0], now), members[1..], log, now);
    }
  }

  // ── Telling one more member ──

  lemma ClockOrderedAppend(log: seq<Tell>, tell: Tell)
    requires ClockOrdered(log, tell.at)
    ensures ClockOrdered(log + [tell], tell.at)
  {
  }

  lemma LastToldAppend(log: seq<Tell>, tell: Tell, member: Member)
    ensures LastTold(log + [tell], member) == if tell.member == member then |log| else LastTold(log, member)
  {
    assert (log + [tell])[..|log|] == log;
  }

  /** The told member's new list: everything from some cut on, the new send last. */
  lemma TellKeeps(recent: Recent, tell: Tell, log: seq<Tell>)
    requires ClockOrdered(log, tell.at) && Holds(recent, log, tell.at)
    ensures Keeps(Newest(Fresh(Held(recent, tell.member), tell.at) + [Sent(tell.at, tell.entities)], MAX_PER_USER),
                  log + [tell], tell.member, tell.at)
  {
    var u, now, all := tell.member, tell.at, log + [tell];
    var before := HeldFrom(recent, u, log, now);
    SendsFromAppend(log, [tell], before, u);
    assert SendsFrom(all, |log|, u) == [Sent(now, tell.entities)];
    var later := NewestCut(all, u, before, MAX_PER_USER);
    forall j | 0 <= j < later && all[j].member == u
      ensures Lost(all, j, now)
    {
      if j < before {
        LostStays(log, [tell], j, now, now);
      }
    }
    assert KeptFrom(Newest(SendsFrom(all, before, u), MAX_PER_USER), all, u, later, now);
  }

  /** Whatever is held of the member, its fresh part is the sends from some cut on; those before are lost. */
  lemma HeldFrom(recent: Recent, member: Member, log: seq<Tell>, now: int) returns (cut: nat)
    requires Holds(recent, log, now)
    ensures cut <= |log| && SendsFrom(log, cut, member) == Fresh(Held(recent, member), now)
    ensures forall j :: 0 <= j < cut && log[j].member == member ==> Lost(log, j, now)
  {
    cut := |log|;
    if member in recent.entries {
      var from: nat :| KeptFrom(recent.entries[member], log, member, from, now);
      cut := FreshCut(log, member, from, now);
    } else {
      assert Forgotten(log, member, now);
    }
  }

  lemma OthersKeep(recent: Recent, tell: Tell, log: seq<Tell>, member: Member)
    requires ClockOrdered(log, tell.at) && Holds(recent, log, tell.at) && member != tell.member
    ensures member in recent.entries ==> Keeps(recent.entries[member], log + [tell], member, tell.at)
    ensures member !in recent.entries ==> Forgotten(log + [tell], member, tell.at)
  {
    var all := log + [tell];
    forall j | 0 <= j < |log|
      ensures Lost(log, j, tell.at) ==> Lost(all, j, tell.at)
      ensures Squeezed(log, j) ==> Squeezed(all, j)
    {
      LostStays(log, [tell], j, tell.at, tell.at);
    }
    if member in recent.entries {
      var cut: nat :| KeptFrom(recent.entries[member], log, member, cut, tell.at);
      SendsFromAppend(log, [tell], cut, member);
      assert KeptFrom(recent.entries[member], all, member, cut, tell.at);
    }
  }

  lemma TellOneOrder(recent: Recent, tell: Tell, log: seq<Tell>)
    requires recent.Valid() && OldestTellFirst(recent.keys, log)
    ensures OldestTellFirst(Without(recent.keys, tell.member) + [tell.member], log + [tell])
  {
    WithoutKeepsTellOrder(recent.keys, tell.member, log);
    WithoutKeepsDistinct(recent.keys, tell.member);
    var rest := Without(recent.keys, tell.member);
    var keys := rest + [tell.member];
    forall i, j | 0 <= i < j < |keys|
      ensures LastTold(log + [tell], keys[i]) < LastTold(log + [tell], keys[j])
    {
      assert rest[i] in rest;
      LastToldAppend(log, tell, keys[i]);
      LastToldAppend(log, tell, keys[j]);
      if j < |rest| {
        assert rest[j] in rest;
      }
    }
  }

  lemma TellOneHolds(recent: Recent, tell: Tell, log: seq<Tell>)
    requires ClockOrdered(log, tell.at) && Holds(recent, log, tell.at) && tell.member.id != ""
    ensures Holds(TellOne(recent, tell.member, Sent(tell.at, tell.entities)), log + [tell], tell.at)
  {
    var all := log + [tell];
    var told := TellOne(recent, tell.member, Sent(tell.at, tell.entities));
    TellKeeps(recent, tell, log);
    forall u | u != tell.member
      ensures u in told.entries ==> Keeps(told.entries[u], all, u, tell.at)
      ensures u !in told.entries ==> Forgotten(all, u, tell.at)
    {
      OthersKeep(recent, tell, log, u);
    }
    TellOneOrder(recent, tell, log);
  }

  /** One send to several members, as the log has it. An empty id is told nothing. */
  function TellsOf(members: seq<Member>, entities: seq<Tag>, at: int): seq<Tell> {
    if members == [] then []
    else if members[0].id == "" then TellsOf(members[1..], entities, at)
    else [Tell(members[0], at, entities)] + TellsOf(members[1..], entities, at)
  }

  lemma TellsOfFirst(members: seq<Member>, entities: seq<Tag>, at: int, log: seq<Tell>)
    requires members != [] && members[0].id != ""
    ensures log + TellsOf(members, entities, at)
            == (log + [Tell(members[0], at, entities)]) + TellsOf(members[1..], entities, at)
  {
  }

  lemma {:induction false} TellAllHolds(recent: Recent, members: seq<Member>, sent: Sent, log: seq<Tell>,
                                        all: seq<Tell>)
    requires ClockOrdered(log, sent.at) && Holds(recent, log, sent.at)
    requires all == log + TellsOf(members, sent.entities, sent.at)
    ensures ClockOrdered(all, sent.at) && Holds(TellAll(recent, members, sent), all, sent.at)
    decreases |members|
  {
    if members == [] {
      assert all == log;
    } else {
      var told, rest := TellOne(recent, members[0], sent), members[1..];
      assert TellAll(recent, members, sent) == TellAll(told, rest, sent);
      if members[0].id == "" {
        TellAllHolds(told, rest, sent, log, all);
      } else {
        var tell := Tell(members[0], sent.at, sent.entities);
        TellOneHolds(recent, tell, log);
        ClockOrderedAppend(log, tell);
        TellsOfFirst(members, sent.entities, sent.at, log);
        TellAllHolds(told, rest, sent, log + [tell], all);
      }
    }
  }

  // ── Forgetting the member told longest ago ──

  /** Ten thousand members after it in the order are ten thousand told since. */
  lemma OldestIsSqueezed(recent: Recent, log: seq<Tell>, clock: int)
    requires Holds(recent, log, clock) && |recent.keys| > MAX_MEMBERS
    ensures Forgotten(log, recent.keys[0], clock)
  {
    var u := recent.keys[0];
    var cut: nat :| KeptFrom(recent.entries[u], log, u, cut, clock);
    var k := SomeSendFrom(log, cut, u);
    var a := LastTold(log, u);
    LastToldIs(log, u);
    var others := set i | 1 <= i < |recent.keys| :: recent.keys[i];
    KeysAsSet(recent.keys);
    assert others <= MembersTold(log, a + 1, |log|) by {
      forall v | v in others
        ensures v in MembersTold(log, a + 1, |log|)
      {
        var i :| 1 <= i < |recent.keys| && v == recent.keys[i];
        LastToldIs(log, v);
      }
    }
    SubsetCardinality(others, MembersTold(log, a + 1, |log|));
    assert SqueezedBetween(log, u, a, |log|);
  }

  lemma {:induction false} KeysAsSet(keys: seq<Member>)
    requires Distinct(keys) && keys != []
    ensures |set i | 1 <= i < |keys| :: keys[i]| == |keys| - 1
    decreases |keys|
  {
    var others := set i | 1 <= i < |keys| :: keys[i];
    if |keys| == 1 {
      assert others == {};
    } else {
      var front := keys[..|keys| - 1];
      KeysAsSet(front);
      var fewer := set i | 1 <= i < |front| :: front[i];
      assert others == fewer + {keys[|keys| - 1]};
    }
  }

  lemma {:induction false} SubsetCardinality<T>(a: set<T>, b: set<T>)
    requires a <= b
    ensures |a| <= |b|
  {
    if a != {} {
      var x :| x in a;
      SubsetCardinality(a - {x}, b - {x});
    }
  }

  lemma {:induction false} BoundedHolds(recent: Recent, log: seq<Tell>, clock: int)
    requires Holds(recent, log, clock)
    ensures Holds(Bounded(recent), log, clock)
    decreases |recent.keys|
  {
    if |recent.keys| > MAX_MEMBERS {
      var oldest := recent.keys[0];
      OldestIsSqueezed(recent, log, clock);
      WithoutKeepsTellOrder(recent.keys, oldest, log);
      WithoutKeepsDistinct(recent.keys, oldest);
      BoundedHolds(recent.Delete(oldest), log, clock);
    }
  }

  // ── The main results ──

  lemma EmptyRefines(clock: int)
    ensures Refines(EMPTY_STORE, [], clock)
  {
  }

  /** Every call of rememberEntities keeps the store a view of the log, whatever it prunes, trims or evicts. */
  lemma RememberRefines(store: Store, log: seq<Tell>, clock: int, members: seq<Member>, entities: seq<Tag>, now: int)
    requires Refines(store, log, clock) && clock <= now
    ensures var all := if entities == [] then log else log + TellsOf(members, entities, now);
            Refines(Remembered(store, members, entities, now), all, now)
  {
    RefinesLater(store, log, clock, now);
    if entities != [] {
      SweepHolds(store.recent, store.recent.keys, log, now);
      var swept := Swept(store, now);
      var sent := Sent(now, entities);
      TellAllHolds(swept.recent, members, sent, log, log + TellsOf(members, entities, now));
      BoundedHolds(TellAll(swept.recent, members, sent), log + TellsOf(members, entities, now), now);
    }
  }

  datatype Call = Call(members: seq<Member>, entities: seq<Tag>, now: int)

  ghost predicate ClockRuns(calls: seq<Call>) {
    forall i, j :: 0 <= i <= j < |calls| ==> calls[i].now <= calls[j].now
  }

  /** The store after the first `n` calls. */
  function StoreAfter(calls: seq<Call>, n: nat): (store: Store)
    requires n <= |calls|
    ensures store.recent.Valid()
  {
    if n == 0 then EMPTY_STORE
    else Remembered(StoreAfter(calls, n - 1), calls[n - 1].members, calls[n - 1].entities, calls[n - 1].now)
  }

  /** Every send of the first `n` calls. */
  function LogAfter(calls: seq<Call>, n: nat): seq<Tell>
    requires n <= |calls|
  {
    if n == 0 then []
    else if calls[n - 1].entities == [] then LogAfter(calls, n - 1)
    else LogAfter(calls, n - 1) + TellsOf(calls[n - 1].members, calls[n - 1].entities, calls[n - 1].now)
  }

  /** Over every run of calls on a clock that never runs back, the store is a view of the log of all their sends. */
  lemma {:induction false} EveryRunRefines(calls: seq<Call>, n: nat)
    requires 0 < n <= |calls| && ClockRuns(calls)
    ensures Refines(StoreAfter(calls, n), LogAfter(calls, n), calls[n - 1].now)
  {
    var call, before := calls[n - 1], if n == 1 then calls[0].now else calls[n - 2].now;
    if n == 1 {
      assert StoreAfter(calls, 0) == EMPTY_STORE && LogAfter(calls, 0) == [];
      EmptyRefines(before);
    } else {
      EveryRunRefines(calls, n - 1);
    }
    RememberRefines(StoreAfter(calls, n - 1), LogAfter(calls, n - 1), before, call.members, call.entities, call.now);
  }

  /** The sends inside the last minute, wherever they stand. */
  function InWindow(list: seq<Sent>, now: int): seq<Sent> {
    if list == [] then []
    else if now - list[0].at < RECENT_ENTITIES_MS then [list[0]] + InWindow(list[1..], now)
    else InWindow(list[1..], now)
  }

  /** On a clock that never runs back, what follows the first fresh send is all fresh. */
  lemma {:induction false} FreshIsInWindow(log: seq<Tell>, clock: int, cut: nat, member: Member, now: int)
    requires ClockOrdered(log, clock) && cut <= |log|
    ensures Fresh(SendsFrom(log, cut, member), now) == InWindow(SendsFrom(log, cut, member), now)
    decreases |log| - cut
  {
    if cut < |log| {
      FreshIsInWindow(log, clock, cut + 1, member, now);
      if log[cut].member == member && !Expired(log[cut], now) {
        SendsAreTells(log, cut + 1, member);
        AllInWindow(SendsFrom(log, cut + 1, member), now);
      }
    }
  }

  ghost predicate IsTell(tell: Tell, member: Member, sent: Sent) {
    tell == Tell(member, sent.at, sent.entities)
  }

  lemma {:induction false} SendsAreTells(log: seq<Tell>, cut: nat, member: Member)
    requires cut <= |log|
    ensures forall s :: s in SendsFrom(log, cut, member) ==> exists j :: cut <= j < |log| && IsTell(log[j], member, s)
    ensures forall j :: cut <= j < |log| && log[j].member == member ==>
              Sent(log[j].at, log[j].entities) in SendsFrom(log, cut, member)
    decreases |log| - cut
  {
    if cut < |log| {
      SendsAreTells(log, cut + 1, member);
      if log[cut].member == member {
        assert IsTell(log[cut], member, Sent(log[cut].at, log[cut].entities));
      }
    }
  }

  lemma {:induction false} AllInWindow(list: seq<Sent>, now: int)
    requires forall s :: s in list ==> now - s.at < RECENT_ENTITIES_MS
    ensures InWindow(list, now) == list
  {
    if list != [] {
      AllInWindow(list[1..], now);
    }
  }

  /** Among the newest two hundred, the sends before the cut are all expired: counting them in changes nothing. */
  lemma {:induction false} NewestInWindow(log: seq<Tell>, member: Member, cut: nat, i: nat, now: int)
    requires i <= cut <= |log| && |SendsFrom(log, cut, member)| <= MAX_PER_USER
    requires forall j :: i <= j < cut && log[j].member == member ==> Expired(log[j], now) || Outnumbered(log, j)
    ensures InWindow(Newest(SendsFrom(log, i, member), MAX_PER_USER), now) == InWindow(SendsFrom(log, cut, member), now)
    decreases cut - i
  {
    if i < cut {
      NewestInWindow(log, member, cut, i + 1, now);
      var list, rest := SendsFrom(log, i, member), SendsFrom(log, i + 1, member);
      if |list| > MAX_PER_USER && log[i].member == member {
        assert Newest(list, MAX_PER_USER) == Newest(rest, MAX_PER_USER);
      }
    }
  }

  /** Unless sends to this member were squeezed out, the replay is exactly what the log says: the tags of the member's
      newest 200 sends that fall inside the last minute, each once, where it was last sent. */
  lemma ReplayIsTheLog(store: Store, log: seq<Tell>, clock: int, member: Member, now: int)
    requires Refines(store, log, clock) && clock <= now
    requires forall j :: 0 <= j < |log| && log[j].member == member && Squeezed(log, j) ==>
               Expired(log[j], now) || Outnumbered(log, j)
    ensures RecentTags(store.recent, member, now)
            == LastOccurrences(AllTags(InWindow(Newest(SendsFrom(log, 0, member), MAX_PER_USER), now)))
  {
    HoldsLater(store.recent, log, clock, now);
    var cut: nat := |log|;
    if member in store.recent.entries {
      cut :| KeptFrom(store.recent.entries[member], log, member, cut, now);
    } else {
      assert Forgotten(log, member, now);
    }
    FreshIsInWindow(log, clock, cut, member, now);
    NewestInWindow(log, member, cut, 0, now);
  }

  /** A send to the member that is not lost is replayed, whatever else was pruned, trimmed or squeezed out. */
  lemma ReplayComplete(store: Store, log: seq<Tell>, clock: int, member: Member, now: int, j: nat, tag: Tag)
    requires Refines(store, log, clock) && clock <= now
    requires j < |log| && log[j].member == member && tag in log[j].entities && !Lost(log, j, now)
    ensures tag in RecentTags(store.recent, member, now)
  {
    HoldsLater(store.recent, log, clock, now);
    var cut := HeldFrom(store.recent, member, log, now);
    SendsAreTells(log, cut, member);
    TagReplayed(Fresh(Held(store.recent, member), now), Sent(log[j].at, log[j].entities), tag);
  }

  lemma TagReplayed(list: seq<Sent>, sent: Sent, tag: Tag)
    requires sent in list && tag in sent.entities
    ensures tag in LastOccurrences(AllTags(list))
  {
    AllTagsMembers(list);
    LastOccurrencesMembers(AllTags(list));
  }

  /** Nothing is replayed that was not sent to the member within the last minute. */
  lemma ReplaySound(store: Store, log: seq<Tell>, clock: int, member: Member, now: int, tag: Tag) returns (j: nat)
    requires Refines(store, log, clock) && clock <= now
    requires tag in RecentTags(store.recent, member, now)
    ensures j < |log| && log[j].member == member && tag in log[j].entities && !Expired(log[j], now)
  {
    HoldsLater(store.recent, log, clock, now);
    var cut := HeldFrom(store.recent, member, log, now);
    var list := Fresh(Held(store.recent, member), now);
    AllTagsMembers(list);
    LastOccurrencesMembers(AllTags(list));
    var s :| s in list && tag in s.entities;
    SendsAreTells(log, cut, member);
    j :| cut <= j < |log| && IsTell(log[j], member, s);
    FreshIsInWindow(log, clock, cut, member, now);
    FreshHeldTwice(Held(store.recent, member), now);
    InWindowIs(list, now);
  }

  lemma {:induction false} FreshHeldTwice(list: seq<Sent>, now: int)
    ensures Fresh(Fresh(list, now), now) == Fresh(list, now)
  {
    if list != [] && now - list[0].at >= RECENT_ENTITIES_MS {
      FreshHeldTwice(list[1..], now);
    }
  }

  lemma {:induction false} InWindowIs(list: seq<Sent>, now: int)
    ensures forall s :: s in InWindow(list, now) ==> now - s.at < RECENT_ENTITIES_MS
  {
    if list != [] {
      InWindowIs(list[1..], now);
    }
  }

  lemma {:induction false} AllTagsMembers(list: seq<Sent>)
    ensures forall t :: t in AllTags(list) <==> exists s :: s in list && t in s.entities
  {
    if list != [] {
      AllTagsMembers(list[1..]);
      assert forall s :: s in list <==> s == list[0] || s in list[1..];
    }
  }

  lemma {:induction false} LastOccurrencesMembers(tags: seq<Tag>)
    ensures forall t :: t in LastOccurrences(tags) <==> t in tags
  {
    if tags != [] {
      LastOccurrencesMembers(tags[1..]);
      assert forall t :: t in tags <==> t == tags[0] || t in tags[1..];
    }
  }
}
