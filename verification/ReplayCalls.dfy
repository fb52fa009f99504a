/** What one call of rememberEntities leaves of each member's sends: who is swept, who is told, who is evicted. */
module ReplayCalls {
  import opened OrderedMap
  import opened ReplayStore

  /** What is left of a list when its expired sends are cut off, up to the first that has not expired. */
  ghost predicate IsCut(left: seq<Sent>, list: seq<Sent>, now: int) {
    exists k :: 0 <= k <= |list| && IsCutAt(left, list, k, now)
  }

  ghost predicate IsCutAt(left: seq<Sent>, list: seq<Sent>, k: nat, now: int)
    requires k <= |list|
  {
    && left == list[k..]
    && (forall i :: 0 <= i < k ==> now - list[i].at >= 60_000)
    && (k < |list| ==> now - list[k].at < 60_000)
  }

  ghost predicate AllExpired(list: seq<Sent>, now: int) {
    forall s :: s in list ==> now - s.at >= 60_000
  }

  lemma {:induction false} FreshIsCut(list: seq<Sent>, now: int)
    ensures IsCut(Fresh(list, now), list, now)
    ensures Fresh(list, now) == [] ==> AllExpired(list, now)
  {
    if list == [] || now - list[0].at < RECENT_ENTITIES_MS {
      assert IsCutAt(list, list, 0, now);
    } else {
      FreshIsCut(list[1..], now);
      var k :| 0 <= k <= |list[1..]| && IsCutAt(Fresh(list, now), list[1..], k, now);
      assert list[1..][k..] == list[k + 1..];
      assert forall i :: 1 <= i < |list| ==> list[i] == list[1..][i - 1];
      assert IsCutAt(Fresh(list, now), list, k + 1, now);
    }
  }

  // ── The three parts of a call ──

  /** What sweeping these members does to one member. */
  lemma {:induction false} SweptOfIs(recent: Recent, members: seq<Member>, now: int, u: Member)
    requires recent.Valid() && Distinct(members) && forall m :: m in members ==> m in recent.entries
    ensures var swept := SweptOf(recent, members, now);
            && |swept.keys| <= |recent.keys|
            && (u !in members ==> Held(swept, u) == Held(recent, u) && (u in swept.entries <==> u in recent.entries))
            && (u in members ==> Held(swept, u) == Fresh(Held(recent, u), now)
                                 && (u in swept.entries <==> Fresh(Held(recent, u), now) != []))
    decreases |members|
  {
    if members != [] {
      assert members == [members[0]] + members[1..];
      WithoutKeepsDistinct(recent.keys, members[0]);
      SweptOfIs(SweepOne(recent, members[0], now), members[1..], now, u);
    }
  }

  lemma {:induction false} OthersAreNotTold(recent: Recent, members: seq<Member>, sent: Sent, u: Member)
    requires recent.Valid() && (u !in members || u.id == "")
    ensures var told := TellAll(recent, members, sent);
            Held(told, u) == Held(recent, u) && (u in told.entries <==> u in recent.entries)
    decreases |members|
  {
    if members != [] {
      OthersAreNotTold(TellOne(recent, members[0], sent), members[1..], sent, u);
    }
  }

  /** A list that ends with this send, cut to 200; and if it is shorter, only expired sends were cut off. */
  predicate IsTold(list: seq<Sent>, sent: Sent) {
    0 < |list| <= 200 && list[|list| - 1] == sent && (|list| < 200 ==> sent.at - list[0].at < 60_000)
  }

  lemma ListIsTold(list: seq<Sent>, sent: Sent)
    ensures IsTold(Newest(Fresh(list, sent.at) + [sent], MAX_PER_USER), sent)
  {
    FreshIsCut(list, sent.at);
    var k :| 0 <= k <= |list| && IsCutAt(Fresh(list, sent.at), list, k, sent.at);
  }

  lemma TellOneTells(recent: Recent, member: Member, sent: Sent)
    requires recent.Valid() && member.id != ""
    ensures var told := TellOne(recent, member, sent);
            member in told.entries && IsTold(told.entries[member], sent)
  {
    ListIsTold(Held(recent, member), sent);
  }

  lemma {:induction false} EachIsTold(recent: Recent, members: seq<Member>, sent: Sent, u: Member)
    requires recent.Valid() && u.id != ""
    requires u in members || (u in recent.entries && IsTold(recent.entries[u], sent))
    ensures var told := TellAll(recent, members, sent); u in told.entries && IsTold(told.entries[u], sent)
    decreases |members|
  {
    if members != [] {
      if u == members[0] {
        TellOneTells(recent, u, sent);
      }
      EachIsTold(TellOne(recent, members[0], sent), members[1..], sent, u);
    }
  }

  /** Evicting changes no list, and stops at ten thousand members. */
  lemma {:induction false} BoundedIs(recent: Recent, u: Member)
    requires recent.Valid()
    ensures var bounded := Bounded(recent);
            && (if |recent.keys| > 10_000 then |bounded.keys| == 10_000 else bounded == recent)
            && (u in bounded.entries ==> u in recent.entries && bounded.entries[u] == recent.entries[u])
    decreases |recent.keys|
  {
    if |recent.keys| > MAX_MEMBERS {
      WithoutKeepsDistinct(recent.keys, recent.keys[0]);
      BoundedIs(recent.Delete(recent.keys[0]), u);
    }
  }

  // ── A whole call ──

  /** What a call makes of a member it does not tell: while the last sweep is less than a minute old, nothing; else its
      expired sends are cut off, and it is forgotten when that leaves none. Held members are evicted only to ten
      thousand. */
  ghost predicate LeavesUntold(before: Recent, after: Recent, u: Member, due: bool, now: int) {
    if u in after.entries then
      && u in before.entries
      && if due then IsCut(after.entries[u], before.entries[u], now) && after.entries[u] != []
         else after.entries[u] == before.entries[u]
    else u in before.entries ==> |after.keys| == 10_000 || (due && AllExpired(before.entries[u], now))
  }

  lemma SweptWhenDue(store: Store, now: int, u: Member)
    requires store.recent.Valid()
    ensures LeavesUntold(store.recent, Swept(store, now).recent, u, now - store.lastSweep >= 60_000, now)
    ensures now - store.lastSweep >= 60_000 && u in store.recent.entries && u !in Swept(store, now).recent.entries ==>
              AllExpired(store.recent.entries[u], now)
  {
    if now - store.lastSweep >= 60_000 {
      SweptOfIs(store.recent, store.recent.keys, now, u);
      FreshIsCut(Held(store.recent, u), now);
    }
  }

  /** Every call, for every member. When the last sweep is a minute old it sweeps everyone, and notes when: whoever is
      held then has a send of the last minute. When not, it leaves everyone it does not tell. Each member it tells
      ends with this send, at most 200 of them, and is held unless ten thousand others are; the empty id is nobody. */
  lemma CallLeaves(store: Store, members: seq<Member>, entities: seq<Tag>, now: int, u: Member)
    requires store.recent.Valid() && entities != []
    ensures var after, due := Remembered(store, members, entities, now), now - store.lastSweep >= 60_000;
            && after.lastSweep == (if due then now else store.lastSweep)
            && (if u in members && u.id != "" then
                  if u in after.recent.entries then IsTold(after.recent.entries[u], Sent(now, entities))
                  else |after.recent.keys| == 10_000
                else LeavesUntold(store.recent, after.recent, u, due, now))
            && (due && u in after.recent.entries ==> exists s :: s in after.recent.entries[u] && now - s.at < 60_000)
  {
    var swept, sent := Swept(store, now), Sent(now, entities);
    var told := TellAll(swept.recent, members, sent);
    SweptWhenDue(store, now, u);
    BoundedIs(told, u);
    if u in members && u.id != "" {
      EachIsTold(swept.recent, members, sent, u);
      assert u in Bounded(told).entries ==> sent in Bounded(told).entries[u];
    } else {
      OthersAreNotTold(swept.recent, members, sent, u);
      if u in Bounded(told).entries && now - store.lastSweep >= 60_000 {
        HasFresh(Bounded(told).entries[u], store.recent.entries[u], now);
      }
    }
  }

  lemma HasFresh(left: seq<Sent>, list: seq<Sent>, now: int)
    requires IsCut(left, list, now) && left != []
    ensures exists s :: s in left && now - s.at < 60_000
  {
    assert left[0] in left;
  }
}
