/** The store behind the replay a joining socket is sent (server/src/realtime/recent-entities.ts). */
module ReplayStore {
  import opened OrderedMap

  datatype Member = Member(id: string)
  datatype Tag = Tag(name: string)

  /** A send this old is no longer replayed. */
  const RECENT_ENTITIES_MS := 60_000
  /** A member's list is cut to its last so many sends. */
  const MAX_PER_USER := 200
  /** Beyond so many members, those with the oldest last send are evicted. */
  const MAX_MEMBERS := 10_000

  datatype Sent = Sent(at: int, entities: seq<Tag>)
  type Recent = OrderedMap<Member, seq<Sent>>

  datatype Store = Store(recent: Recent, lastSweep: int)

  const EMPTY_STORE := Store(Empty(), 0)

  /** From the first send inside the window on. */
  function Fresh(list: seq<Sent>, now: int): (kept: seq<Sent>)
    ensures |kept| <= |list|
  {
    if list == [] then [] else if now - list[0].at < RECENT_ENTITIES_MS then list else Fresh(list[1..], now)
  }

  function Newest(list: seq<Sent>, n: nat): (kept: seq<Sent>) {
    if |list| > n then list[|list| - n..] else list
  }

  function Held(recent: Recent, member: Member): seq<Sent> {
    if member in recent.entries then recent.entries[member] else []
  }

  // ── What each operation leaves ──

  function SweptOf(recent: Recent, members: seq<Member>, now: int): (swept: Recent)
    requires recent.Valid()
    ensures swept.Valid()
    decreases |members|
  {
    if members == [] then recent
    else SweptOf(SweepOne(recent, members[0], now), members[1..], now)
  }

  function SweepOne(recent: Recent, member: Member, now: int): (swept: Recent)
    requires recent.Valid()
    ensures swept.Valid()
  {
    var kept := Fresh(Held(recent, member), now);
    if kept == [] then recent.Delete(member) else recent.Put(member, kept)
  }

  function Swept(store: Store, now: int): (swept: Store)
    requires store.recent.Valid()
    ensures swept.recent.Valid()
  {
    if now - store.lastSweep < RECENT_ENTITIES_MS then store
    else Store(SweptOf(store.recent, store.recent.keys, now), now)
  }

  function TellOne(recent: Recent, member: Member, sent: Sent): (told: Recent)
    requires recent.Valid()
    ensures told.Valid()
  {
    if member.id == "" then recent
    else recent.Delete(member).Put(member, Newest(Fresh(Held(recent, member), sent.at) + [sent], MAX_PER_USER))
  }

  function TellAll(recent: Recent, members: seq<Member>, sent: Sent): (told: Recent)
    requires recent.Valid()
    ensures told.Valid()
    decreases |members|
  {
    if members == [] then recent else TellAll(TellOne(recent, members[0], sent), members[1..], sent)
  }

  function Bounded(recent: Recent): (bounded: Recent)
    requires recent.Valid()
    ensures bounded.Valid() && |bounded.keys| <= MAX_MEMBERS
    decreases |recent.keys|
  {
    if |recent.keys| <= MAX_MEMBERS then recent
    else
      WithoutKeepsDistinct(recent.keys, recent.keys[0]);
      Bounded(recent.Delete(recent.keys[0]))
  }

  function Remembered(store: Store, members: seq<Member>, entities: seq<Tag>, now: int): (after: Store)
    requires store.recent.Valid()
    ensures after.recent.Valid()
  {
    if entities == [] then store
    else
      var swept := Swept(store, now);
      swept.(recent := Bounded(TellAll(swept.recent, members, Sent(now, entities))))
  }

  function AllTags(list: seq<Sent>): (tags: seq<Tag>) {
    if list == [] then [] else list[0].entities + AllTags(list[1..])
  }

  /** Each tag once, where it stands last. */
  function LastOccurrences(tags: seq<Tag>): (once: seq<Tag>) {
    if tags == [] then []
    else if tags[0] in tags[1..] then LastOccurrences(tags[1..])
    else [tags[0]] + LastOccurrences(tags[1..])
  }

  function RecentTags(recent: Recent, member: Member, now: int): (tags: seq<Tag>) {
    LastOccurrences(AllTags(Fresh(Held(recent, member), now)))
  }

  /** Appending a tag moves it to the end: what a Map does when its key is deleted and put again. */
  lemma {:induction false} LastOccurrencesAppend(tags: seq<Tag>, tag: Tag)
    ensures LastOccurrences(tags + [tag]) == Without(LastOccurrences(tags), tag) + [tag]
  {
    if tags == [] {
      assert tags + [tag] == [tag];
    } else {
      var head, rest := tags[0], tags[1..];
      LastOccurrencesAppend(rest, tag);
      assert (tags + [tag])[1..] == rest + [tag];
      assert head in rest + [tag] <==> head in rest || head == tag;
      if head !in rest {
        WithoutCons(head, LastOccurrences(rest), tag);
      }
    }
  }

  // ── The module's state and its functions ──

  class Memory {
    var recent: Recent
    var lastSweep: int

    ghost predicate Valid()
      reads this
    {
      recent.Valid()
    }

    ghost function Contents(): Store
      reads this
    {
      Store(recent, lastSweep)
    }

    constructor ()
      ensures Valid() && Contents() == EMPTY_STORE
    {
      recent, lastSweep := Empty(), 0;
    }

    method Sweep(now: int)
      requires Valid()
      modifies this
      ensures Valid() && Contents() == Swept(old(Contents()), now)
    {
      if now - lastSweep < RECENT_ENTITIES_MS {
        return;
      }
      lastSweep := now;
      var members := recent.keys;
      for i := 0 to |members|
        invariant Valid() && lastSweep == now
        invariant SweptOf(recent, members[i..], now) == SweptOf(old(recent), members, now)
      {
        var kept := Fresh(Held(recent, members[i]), now);
        if kept == [] {
          recent := recent.Delete(members[i]);
        } else {
          recent := recent.Put(members[i], kept);
        }
        assert members[i..][1..] == members[i + 1..];
      }
    }

    method RememberEntities(members: seq<Member>, entities: seq<Tag>, now: int)
      requires Valid()
      modifies this
      ensures Valid() && Contents() == Remembered(old(Contents()), members, entities, now)
    {
      if entities == [] {
        return;
      }
      Sweep(now);
      Tell(members, Sent(now, entities));
      ForgetOldest();
    }

    method Tell(members: seq<Member>, sent: Sent)
      requires Valid()
      modifies this`recent
      ensures Valid() && recent == TellAll(old(recent), members, sent)
    {
      for i := 0 to |members|
        invariant Valid()
        invariant TellAll(recent, members[i..], sent) == TellAll(old(recent), members, sent)
      {
        assert members[i..][1..] == members[i + 1..];
        if members[i].id == "" {
          continue;
        }
        var list := Fresh(Held(recent, members[i]), sent.at);
        list := list + [sent];
        recent := recent.Delete(members[i]);
        recent := recent.Put(members[i], if |list| > MAX_PER_USER then list[|list| - MAX_PER_USER..] else list);
      }
    }

    method ForgetOldest()
      requires Valid()
      modifies this`recent
      ensures Valid() && recent == Bounded(old(recent))
    {
      while |recent.keys| > MAX_MEMBERS
        invariant Valid() && Bounded(recent) == Bounded(old(recent))
        decreases |recent.keys|
      {
        WithoutKeepsDistinct(recent.keys, recent.keys[0]);
        recent := recent.Delete(recent.keys[0]);
      }
    }

    method RecentEntities(member: Member, now: int) returns (tags: seq<Tag>)
      requires Valid()
      ensures tags == RecentTags(recent, member, now)
    {
      var list := Fresh(Held(recent, member), now);
      var order, n := Empty(), 0;
      for i := 0 to |list|
        invariant order.Valid()
        invariant order.keys == LastOccurrences(AllTags(list[..i]))
      {
        order, n := NoteLast(order, n, list[i].entities, AllTags(list[..i]));
        AllTagsAppend(list[..i], list[i]);
        assert list[..i] + [list[i]] == list[..i + 1];
      }
      assert list[..|list|] == list;
      tags := order.keys;
    }

    /** Notes each tag at the end of the order, after those `seen` before it. */
    static method NoteLast(from: OrderedMap<Tag, nat>, count: nat, tags: seq<Tag>, ghost seen: seq<Tag>)
      returns (order: OrderedMap<Tag, nat>, n: nat)
      requires from.Valid() && from.keys == LastOccurrences(seen)
      ensures order.Valid() && order.keys == LastOccurrences(seen + tags)
    {
      order, n := from, count;
      assert seen + tags[..0] == seen;
      for j := 0 to |tags|
        invariant order.Valid()
        invariant order.keys == LastOccurrences(seen + tags[..j])
      {
        LastOccurrencesAppend(seen + tags[..j], tags[j]);
        assert seen + tags[..j + 1] == (seen + tags[..j]) + [tags[j]];
        order := order.Delete(tags[j]);
        WithoutKeepsDistinct(order.keys, tags[j]);
        order := order.Put(tags[j], n);
        n := n + 1;
      }
      assert tags[..|tags|] == tags;
    }
  }

  lemma {:induction false} AllTagsAppend(list: seq<Sent>, sent: Sent)
    ensures AllTags(list + [sent]) == AllTags(list) + sent.entities
  {
    if list == [] {
      assert list + [sent] == [sent];
    } else {
      AllTagsAppend(list[1..], sent);
      assert (list + [sent])[1..] == list[1..] + [sent];
    }
  }
}
