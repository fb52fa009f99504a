/** Merging a history the server sends into the messages a live chat shows (client/src/hooks/chat-history.ts). */
module ChatHistory {
  import opened Option
  import opened OrderedMap
  import StringOrder

  datatype Id = Id(name: string)

  datatype Scope = Lobby | Room

  /** `at`: its timestamp in milliseconds, 0 for one that cannot be read. */
  datatype Message = Message(id: Id, at: int, scope: Scope, content: string)

  const LIVE_CHAT_CAP: nat := 200

  /** By time, and by id among messages of one time. */
  predicate Before(a: Message, b: Message) {
    a.at < b.at || (a.at == b.at && StringOrder.Less(a.id.name, b.id.name))
  }

  lemma BeforeIsTransitive(a: Message, b: Message, c: Message)
    requires Before(a, b) && Before(b, c)
    ensures Before(a, c)
  {
    if a.at == b.at == c.at {
      StringOrder.LessIsTransitive(a.id.name, b.id.name, c.id.name);
    }
  }

  lemma BeforeIsTotal(a: Message, b: Message)
    ensures a.id != b.id ==> Before(a, b) || Before(b, a)
    ensures !(Before(a, b) && Before(b, a))
    ensures a.id == b.id && a.at == b.at ==> !Before(a, b)
  {
    StringOrder.LessIsTotal(a.id.name, b.id.name);
  }

  // ── Every message once ──

  /** The last of the first `n` messages with that id. */
  function LastOf(messages: seq<Message>, n: nat, id: Id): Option<Message>
    requires n <= |messages|
  {
    if n == 0 then None
    else if messages[n - 1].id == id then Some(messages[n - 1])
    else LastOf(messages, n - 1, id)
  }

  /** The copy that stands: the last one with that id. */
  function LastWith(messages: seq<Message>, id: Id): Option<Message> {
    LastOf(messages, |messages|, id)
  }

  predicate Stands(messages: seq<Message>, m: Message) {
    LastWith(messages, m.id) == Some(m)
  }

  /** The Map after `set(m.id, m)` for each of the first `n` messages. */
  function PutFirst(messages: seq<Message>, n: nat): OrderedMap<Id, Message>
    requires n <= |messages|
  {
    if n == 0 then Empty() else PutFirst(messages, n - 1).Set(messages[n - 1].id, messages[n - 1])
  }

  lemma {:induction false} PutFirstValid(messages: seq<Message>, n: nat)
    requires n <= |messages|
    ensures PutFirst(messages, n).Valid()
  {
    if n != 0 {
      PutFirstValid(messages, n - 1);
      assert PutFirst(messages, n) == PutFirst(messages, n - 1).Put(messages[n - 1].id, messages[n - 1]);
    }
  }

  lemma {:induction false} PutFirstStands(messages: seq<Message>, n: nat, id: Id)
    requires n <= |messages|
    ensures id in PutFirst(messages, n).entries <==> LastOf(messages, n, id).Some?
    ensures id in PutFirst(messages, n).entries ==>
              LastOf(messages, n, id) == Some(PutFirst(messages, n).entries[id])
  {
    if n != 0 {
      PutFirstStands(messages, n - 1, id);
    }
  }

  lemma {:induction false} LastOfIsOne(messages: seq<Message>, n: nat, id: Id)
    requires n <= |messages|
    ensures var last := LastOf(messages, n, id);
      if last.Some? then last.value.id == id && last.value in messages
      else forall i :: 0 <= i < n ==> messages[i].id != id
  {
    if n != 0 {
      LastOfIsOne(messages, n - 1, id);
    }
  }

  lemma {:induction false} LastOfPrefix(a: seq<Message>, b: seq<Message>, n: nat, id: Id)
    requires n <= |a|
    ensures LastOf(a + b, n, id) == LastOf(a, n, id)
  {
    if n != 0 {
      LastOfPrefix(a, b, n - 1, id);
    }
  }

  lemma {:induction false} LastOfAppend(a: seq<Message>, b: seq<Message>, n: nat, id: Id)
    requires n <= |b|
    ensures LastOf(a + b, |a| + n, id) == if LastOf(b, n, id).Some? then LastOf(b, n, id) else LastWith(a, id)
  {
    if n == 0 {
      LastOfPrefix(a, b, |a|, id);
    } else {
      LastOfAppend(a, b, n - 1, id);
    }
  }

  /** A message the server sent takes the place of the panel's copy. */
  lemma LastWithAppend(a: seq<Message>, b: seq<Message>, id: Id)
    ensures LastWith(a + b, id) == if LastWith(b, id).Some? then LastWith(b, id) else LastWith(a, id)
  {
    LastOfAppend(a, b, |b|, id);
  }

  // ── Sorting ──

  ghost predicate Sorted(messages: seq<Message>) {
    forall i, j :: 0 <= i < j < |messages| ==> Before(messages[i], messages[j])
  }

  function Inserted(sorted: seq<Message>, m: Message): seq<Message> {
    if sorted == [] then [m]
    else if Before(m, sorted[0]) then [m] + sorted
    else [sorted[0]] + Inserted(sorted[1..], m)
  }

  /** Array.prototype.sort by the server's order. */
  function Sort(messages: seq<Message>): seq<Message> {
    if messages == [] then [] else Inserted(Sort(messages[..|messages| - 1]), messages[|messages| - 1])
  }

  ghost predicate DistinctIds(messages: seq<Message>) {
    forall i, j :: 0 <= i < j < |messages| ==> messages[i].id != messages[j].id
  }

  lemma {:induction false} InsertedHas(sorted: seq<Message>, m: Message)
    ensures |Inserted(sorted, m)| == |sorted| + 1
    ensures forall x :: x in Inserted(sorted, m) <==> x == m || x in sorted
  {
    if sorted != [] {
      InsertedHas(sorted[1..], m);
      assert sorted == [sorted[0]] + sorted[1..];
    }
  }

  lemma SortedCons(head: Message, rest: seq<Message>)
    requires Sorted(rest) && (forall x :: x in rest ==> Before(head, x))
    ensures Sorted([head] + rest)
  {
  }

  lemma {:induction false} InsertedIsSorted(sorted: seq<Message>, m: Message)
    requires Sorted(sorted) && (forall x :: x in sorted ==> x.id != m.id)
    ensures Sorted(Inserted(sorted, m))
  {
    if sorted != [] {
      var head, rest := sorted[0], sorted[1..];
      BeforeIsTotal(m, head);
      if Before(m, head) {
        forall x | x in sorted ensures Before(m, x) {
          if x != head {
            BeforeIsTransitive(m, head, x);
          }
        }
        SortedCons(m, sorted);
      } else {
        InsertedIsSorted(rest, m);
        InsertedHas(rest, m);
        SortedCons(head, Inserted(rest, m));
      }
    }
  }

  lemma {:induction false} SortSorts(messages: seq<Message>)
    requires DistinctIds(messages)
    ensures Sorted(Sort(messages)) && |Sort(messages)| == |messages|
    ensures forall x :: x in Sort(messages) <==> x in messages
  {
    if messages != [] {
      var init, last := messages[..|messages| - 1], messages[|messages| - 1];
      SortSorts(init);
      assert messages == init + [last];
      InsertedIsSorted(Sort(init), last);
      InsertedHas(Sort(init), last);
    }
  }

  // ── The merge ──

  function Values(byId: OrderedMap<Id, Message>): seq<Message>
    requires byId.Valid()
  {
    seq(|byId.keys|, i requires 0 <= i < |byId.keys| => byId.entries[byId.keys[i]])
  }

  function Newest(sorted: seq<Message>, cap: nat): seq<Message> {
    if |sorted| > cap then sorted[|sorted| - cap..] else sorted
  }

  /** What the panel shows once the server's messages are merged in. */
  function Merged(held: seq<Message>, incoming: seq<Message>, cap: nat): seq<Message> {
    if incoming == [] then held
    else
      PutFirstValid(held + incoming, |held + incoming|);
      Newest(Sort(Values(PutFirst(held + incoming, |held + incoming|))), cap)
  }

  /** A panel holds the newest messages when it is sorted, shows the copy that stands of each, and leaves out only
      what is older than everything it shows, and only when it is full. */
  ghost predicate HoldsNewest(messages: seq<Message>, cap: nat, panel: seq<Message>) {
    && Sorted(panel) && |panel| <= cap
    && (forall m :: m in panel ==> Stands(messages, m))
    && (forall m :: Stands(messages, m) && m !in panel ==> LeftOut(m, cap, panel))
  }

  ghost predicate LeftOut(m: Message, cap: nat, panel: seq<Message>) {
    |panel| == cap && forall x :: x in panel ==> Before(m, x)
  }

  lemma ValuesStand(messages: seq<Message>)
    ensures PutFirst(messages, |messages|).Valid()
    ensures var values := Values(PutFirst(messages, |messages|));
      DistinctIds(values) && forall m :: m in values <==> Stands(messages, m)
  {
    PutFirstValid(messages, |messages|);
    var byId := PutFirst(messages, |messages|);
    var values := Values(byId);
    forall i | 0 <= i < |values| ensures values[i].id == byId.keys[i] && Stands(messages, values[i]) {
      assert byId.keys[i] in byId.entries;
      PutFirstStands(messages, |messages|, byId.keys[i]);
      LastOfIsOne(messages, |messages|, byId.keys[i]);
    }
    forall m | Stands(messages, m) ensures m in values {
      PutFirstStands(messages, |messages|, m.id);
      var i :| 0 <= i < |byId.keys| && byId.keys[i] == m.id;
      assert values[i] == m;
    }
  }

  lemma NewestHolds(messages: seq<Message>, sorted: seq<Message>, cap: nat)
    requires Sorted(sorted) && (forall m :: m in sorted <==> Stands(messages, m))
    ensures HoldsNewest(messages, cap, Newest(sorted, cap))
  {
    var panel := Newest(sorted, cap);
    forall m | Stands(messages, m) && m !in panel ensures LeftOut(m, cap, panel) {
      assert m in sorted;
      var i :| 0 <= i < |sorted| && sorted[i] == m;
      forall j | |sorted| - cap <= j < |sorted| ensures |sorted| > cap ==> sorted[j] in panel {
        assert |sorted| > cap ==> panel[j - (|sorted| - cap)] == sorted[j];
      }
    }
  }

  /** The merge of a history holds the newest messages of both, the server's copy of each. */
  lemma MergeHoldsNewest(held: seq<Message>, incoming: seq<Message>, cap: nat)
    requires incoming != []
    ensures HoldsNewest(held + incoming, cap, Merged(held, incoming, cap))
  {
    ValuesStand(held + incoming);
    SortSorts(Values(PutFirst(held + incoming, |held + incoming|)));
    NewestHolds(held + incoming, Sort(Values(PutFirst(held + incoming, |held + incoming|))), cap);
  }

  /** No later message of these has this one's id. */
  ghost predicate IsLastCopy(messages: seq<Message>, i: nat)
    requires i < |messages|
  {
    forall j :: i < j < |messages| ==> messages[j].id != messages[i].id
  }

  lemma {:induction false} LastCopyIs(messages: seq<Message>, n: nat, i: nat)
    requires i < n <= |messages| && forall j :: i < j < n ==> messages[j].id != messages[i].id
    ensures LastOf(messages, n, messages[i].id) == Some(messages[i])
  {
    if i < n - 1 {
      LastCopyIs(messages, n - 1, i);
    }
  }

  lemma {:induction false} LastOfIsLastCopy(messages: seq<Message>, n: nat, id: Id) returns (i: nat)
    requires n <= |messages| && LastOf(messages, n, id).Some?
    ensures i < n && LastOf(messages, n, id) == Some(messages[i]) && messages[i].id == id
    ensures forall j :: i < j < n ==> messages[j].id != id
  {
    i := n - 1;
    if messages[n - 1].id != id {
      i := LastOfIsLastCopy(messages, n - 1, id);
    }
  }

  /** After the merge of a history the panel reads from the oldest time to the newest, by id at one time. It shows only
      last copies, of the panel's messages followed by the history's, and shows them all, except that a full panel
      leaves out some that are no newer than any it shows. */
  lemma MergeShowsTheNewest(held: seq<Message>, incoming: seq<Message>, cap: nat)
    requires incoming != []
    ensures var merged, all := Merged(held, incoming, cap), held + incoming;
      && |merged| <= cap
      && (forall i, j :: 0 <= i < j < |merged| ==>
            merged[i].at < merged[j].at
            || (merged[i].at == merged[j].at && StringOrder.Less(merged[i].id.name, merged[j].id.name)))
      && (forall m :: m in merged ==> exists i :: 0 <= i < |all| && IsLastCopy(all, i) && all[i] == m)
      && (forall i :: 0 <= i < |all| && IsLastCopy(all, i) && all[i] !in merged ==>
            |merged| == cap && forall m :: m in merged ==> all[i].at <= m.at)
  {
    var merged, all := Merged(held, incoming, cap), held + incoming;
    MergeHoldsNewest(held, incoming, cap);
    forall m | m in merged ensures exists i :: 0 <= i < |all| && IsLastCopy(all, i) && all[i] == m {
      var i := LastOfIsLastCopy(all, |all|, m.id);
      assert IsLastCopy(all, i);
    }
    forall i | 0 <= i < |all| && IsLastCopy(all, i) && all[i] !in merged
      ensures |merged| == cap && forall m :: m in merged ==> all[i].at <= m.at
    {
      LastCopyIs(all, |all|, i);
      assert LeftOut(all[i], cap, merged);
    }
  }

  /** The merge meets its promise if and only if the history holds a message, or the panel met it already: an empty
      history leaves the panel as it was. */
  lemma MergeHoldsNewestExactlyWhen(held: seq<Message>, incoming: seq<Message>, cap: nat)
    ensures HoldsNewest(held + incoming, cap, Merged(held, incoming, cap))
            <==> incoming != [] || HoldsNewest(held, cap, held)
  {
    if incoming == [] {
      assert held + incoming == held;
    } else {
      MergeHoldsNewest(held, incoming, cap);
    }
  }

  /** A panel whose messages stand the wrong way round, which an empty history leaves so. */
  lemma EmptyHistoryLeavesDisorder(cap: nat) returns (held: seq<Message>)
    ensures Merged(held, [], cap) == held && !Sorted(Merged(held, [], cap))
    ensures !HoldsNewest(held + [], cap, Merged(held, [], cap))
  {
    held := [Message(Id("b"), 1, Lobby, ""), Message(Id("a"), 0, Lobby, "")];
    assert !Before(held[0], held[1]);
  }

  /** A message of the history is shown as the server sent it; a held one as it was, when the history has none of it. */
  lemma MergePrefersTheServer(held: seq<Message>, incoming: seq<Message>, cap: nat, m: Message)
    requires incoming != [] && m in Merged(held, incoming, cap)
    ensures if LastWith(incoming, m.id).Some? then LastWith(incoming, m.id) == Some(m)
            else LastWith(held, m.id) == Some(m)
  {
    MergeHoldsNewest(held, incoming, cap);
    LastWithAppend(held, incoming, m.id);
  }

  /** `for (const m of messages) byId.set(m.id, m)`, where `all` has these messages from `start` on. */
  method SetEach(filled: OrderedMap<Id, Message>, messages: seq<Message>, ghost all: seq<Message>, ghost start: nat)
    returns (byId: OrderedMap<Id, Message>)
    requires start + |messages| <= |all| && (forall i :: 0 <= i < |messages| ==> all[start + i] == messages[i])
    requires filled == PutFirst(all, start)
    ensures byId == PutFirst(all, start + |messages|)
  {
    byId := filled;
    for i := 0 to |messages|
      invariant byId == PutFirst(all, start + i)
    {
      ghost var m := all[start + i];
      byId := byId.Set(messages[i].id, messages[i]);
    }
  }

  method ById(held: seq<Message>, incoming: seq<Message>) returns (byId: OrderedMap<Id, Message>)
    ensures byId == PutFirst(held + incoming, |held| + |incoming|)
  {
    ghost var all := held + incoming;
    byId := SetEach(Empty(), held, all, 0);
    byId := SetEach(byId, incoming, all, |held|);
  }

  method MergeChatHistory(held: seq<Message>, incoming: seq<Message>, cap: nat) returns (merged: seq<Message>)
    ensures merged == Merged(held, incoming, cap)
  {
    if |incoming| == 0 {
      return held;
    }
    var byId := ById(held, incoming);
    PutFirstValid(held + incoming, |held + incoming|);
    merged := Newest(Sort(Values(byId)), cap);
  }
}
