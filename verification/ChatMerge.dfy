/** The algebra of merging chat histories: what a panel holds does not depend on how often, or in which order, the
    server's histories reach it. */
module ChatMerge {
  import opened Option
  import opened ChatHistory

  // ── One panel holds the newest ──

  lemma {:induction false} SortedIsUnique(a: seq<Message>, b: seq<Message>)
    requires Sorted(a) && Sorted(b) && (forall m :: m in a <==> m in b)
    ensures a == b
  {
    assert a != [] ==> a[0] in b;
    assert b != [] ==> b[0] in a;
    if a != [] {
      FirstIsSame(a, b);
      forall m ensures m in a[1..] <==> m in b[1..] {
        NotInTail(a, m);
        NotInTail(b, m);
      }
      SortedIsUnique(a[1..], b[1..]);
      assert a == [a[0]] + a[1..] && b == [b[0]] + b[1..];
    }
  }

  lemma NotInTail(a: seq<Message>, m: Message)
    requires a != [] && Sorted(a)
    ensures m in a[1..] <==> m in a && m != a[0]
  {
    BeforeIsTotal(a[0], a[0]);
    assert a == [a[0]] + a[1..];
  }

  lemma FirstIsSame(a: seq<Message>, b: seq<Message>)
    requires a != [] && b != [] && Sorted(a) && Sorted(b) && (forall m :: m in a <==> m in b)
    ensures a[0] == b[0]
  {
    assert b[0] in a && a[0] in b;
    var i :| 0 <= i < |a| && a[i] == b[0];
    var j :| 0 <= j < |b| && b[j] == a[0];
    BeforeIsTotal(a[0], b[0]);
  }

  ghost function Elements(s: seq<Message>): set<Message> {
    set m | m in s
  }

  lemma {:induction false} SortedSizeTo(s: seq<Message>, n: nat)
    requires n <= |s| && Sorted(s)
    ensures |set i | 0 <= i < n :: s[i]| == n
  {
    var first := set i | 0 <= i < n :: s[i];
    if n != 0 {
      var fewer := set i | 0 <= i < n - 1 :: s[i];
      SortedSizeTo(s, n - 1);
      BeforeIsTotal(s[n - 1], s[n - 1]);
      assert s[n - 1] !in fewer;
      assert first == fewer + {s[n - 1]};
    }
  }

  lemma SortedSize(s: seq<Message>)
    requires Sorted(s)
    ensures |Elements(s)| == |s|
  {
    SortedSizeTo(s, |s|);
    assert Elements(s) == set i | 0 <= i < |s| :: s[i];
  }

  lemma SubsetsOfOneSize<T>(a: set<T>, b: set<T>)
    requires a <= b && |a| >= |b|
    ensures a == b
  {
    if x :| x in b && x !in a {
      SizeOfSubset(a, b - {x});
    }
  }

  lemma {:induction false} SizeOfSubset<T>(a: set<T>, b: set<T>)
    requires a <= b
    ensures |a| <= |b|
    decreases a
  {
    if x :| x in a {
      SizeOfSubset(a - {x}, b - {x});
    }
  }

  lemma HeldByBoth(messages: seq<Message>, cap: nat, p: seq<Message>, q: seq<Message>, m: Message)
    requires HoldsNewest(messages, cap, p) && HoldsNewest(messages, cap, q) && m in p
    ensures m in q
  {
    if m !in q {
      assert LeftOut(m, cap, q);
      SortedSize(p);
      SortedSize(q);
      if x :| x in q && x !in p {
        assert LeftOut(x, cap, p);
        BeforeIsTotal(m, x);
      } else {
        assert m in Elements(p) && Elements(q) <= Elements(p);
        SubsetsOfOneSize(Elements(q), Elements(p));
      }
    }
  }

  /** Of the messages there are, only one panel holds the newest. */
  lemma NewestIsUnique(messages: seq<Message>, cap: nat, p: seq<Message>, q: seq<Message>)
    requires HoldsNewest(messages, cap, p) && HoldsNewest(messages, cap, q)
    ensures p == q
  {
    forall m ensures m in p <==> m in q {
      if m in p {
        HeldByBoth(messages, cap, p, q, m);
      }
      if m in q {
        HeldByBoth(messages, cap, q, p, m);
      }
    }
    SortedIsUnique(p, q);
  }

  lemma {:induction false} PanelStands(panel: seq<Message>, m: Message)
    requires Sorted(panel) && (forall x, y :: x in panel && y in panel && x.id == y.id ==> x == y)
    ensures Stands(panel, m) <==> m in panel
  {
    LastOfIsOne(panel, |panel|, m.id);
  }

  lemma StandsIsOne(messages: seq<Message>, panel: seq<Message>, x: Message, y: Message)
    requires (forall m :: m in panel ==> Stands(messages, m)) && x in panel && y in panel && x.id == y.id
    ensures x == y
  {
  }

  lemma PanelStandsFor(messages: seq<Message>, cap: nat, panel: seq<Message>, m: Message)
    requires HoldsNewest(messages, cap, panel)
    ensures Stands(panel, m) <==> m in panel
  {
    forall x, y | x in panel && y in panel && x.id == y.id ensures x == y {
      StandsIsOne(messages, panel, x, y);
    }
    PanelStands(panel, m);
  }

  // ── Merging again ──

  /** The same history merged again changes nothing, whatever the panel held and whatever the cap. */
  lemma MergeIsIdempotent(held: seq<Message>, incoming: seq<Message>, cap: nat)
    ensures var once := Merged(held, incoming, cap); Merged(once, incoming, cap) == once
  {
    if incoming != [] {
      var once := Merged(held, incoming, cap);
      MergeHoldsNewest(held, incoming, cap);
      MergeHoldsNewest(once, incoming, cap);
      StillHolds(held, incoming, cap, once);
      NewestIsUnique(once + incoming, cap, once, Merged(once, incoming, cap));
    }
  }

  lemma StillHolds(held: seq<Message>, incoming: seq<Message>, cap: nat, once: seq<Message>)
    requires HoldsNewest(held + incoming, cap, once)
    ensures HoldsNewest(once + incoming, cap, once)
  {
    forall m | m in once ensures Stands(once + incoming, m) {
      LastWithAppend(once, incoming, m.id);
      LastWithAppend(held, incoming, m.id);
      PanelStandsFor(held + incoming, cap, once, m);
    }
    forall m | Stands(once + incoming, m) && m !in once ensures LeftOut(m, cap, once) {
      LastWithAppend(once, incoming, m.id);
      LastWithAppend(held, incoming, m.id);
      PanelStandsFor(held + incoming, cap, once, m);
    }
  }

  // ── Merging in any order ──

  /** A message was stored when it was stored: every copy of it says the same. */
  ghost predicate SameTimes(messages: seq<Message>) {
    forall x, y :: x in messages && y in messages && x.id == y.id ==> x.at == y.at
  }

  /** Two messages of one place in the server's order. */
  predicate SamePlace(x: Message, y: Message) {
    x.id == y.id && x.at == y.at
  }

  ghost predicate HasPlace(panel: seq<Message>, y: Message) {
    exists x :: x in panel && SamePlace(x, y)
  }

  /** What the panel left out cannot come back when more is merged in: it is older than every message then shown. */
  lemma StaysOut(messages: seq<Message>, more: seq<Message>, cap: nat, panel: seq<Message>, after: seq<Message>,
                 m: Message)
    requires HoldsNewest(messages, cap, panel) && HoldsNewest(panel + more, cap, after)
    requires SameTimes(messages + more) && LeftOut(m, cap, panel)
    ensures LeftOut(m, cap, after)
  {
    if y :| y in panel && !HasPlace(after, y) {
      CopyInPlace(messages, more, cap, panel, y);
      var y' := LastWith(panel + more, y.id).value;
      assert y' !in after;
      assert LeftOut(y', cap, after);
      forall x | x in after ensures Before(m, x) {
        BeforeIsTransitive(m, y', x);
      }
    } else {
      AllPlacesKept(messages, panel + more, cap, panel, after);
      forall x | x in after ensures Before(m, x) {
        assert HasPlace(panel, x);
      }
    }
  }

  /** The copy that stands after the merge is where the panel's was. */
  lemma CopyInPlace(messages: seq<Message>, more: seq<Message>, cap: nat, panel: seq<Message>, y: Message)
    requires HoldsNewest(messages, cap, panel) && SameTimes(messages + more) && y in panel
    ensures LastWith(panel + more, y.id).Some? && SamePlace(LastWith(panel + more, y.id).value, y)
    ensures Stands(panel + more, LastWith(panel + more, y.id).value)
  {
    LastWithAppend(panel, more, y.id);
    PanelStandsFor(messages, cap, panel, y);
    LastOfIsOne(messages, |messages|, y.id);
    LastOfIsOne(more, |more|, y.id);
    LastOfIsOne(panel + more, |panel + more|, y.id);
    assert y in messages + more;
  }

  ghost function Ids(s: seq<Message>): set<Id> {
    set m | m in s :: m.id
  }

  lemma {:induction false} IdsSize(s: seq<Message>)
    requires forall i, j :: 0 <= i < j < |s| ==> s[i].id != s[j].id
    ensures |Ids(s)| == |s|
  {
    if s != [] {
      IdsSize(s[1..]);
      assert s == [s[0]] + s[1..];
      assert Ids(s) == {s[0].id} + Ids(s[1..]);
      assert s[0].id !in Ids(s[1..]);
    }
  }

  lemma PanelIdsSize(messages: seq<Message>, cap: nat, panel: seq<Message>)
    requires HoldsNewest(messages, cap, panel)
    ensures |Ids(panel)| == |panel|
  {
    forall i, j | 0 <= i < j < |panel| ensures panel[i].id != panel[j].id {
      assert Before(panel[i], panel[j]);
      BeforeIsTotal(panel[i], panel[i]);
      assert panel[i] in panel && panel[j] in panel;
    }
    IdsSize(panel);
  }

  /** When a full panel's places are all still shown, nothing else is. */
  lemma AllPlacesKept(messages: seq<Message>, merged: seq<Message>, cap: nat, panel: seq<Message>, after: seq<Message>)
    requires HoldsNewest(messages, cap, panel) && HoldsNewest(merged, cap, after) && |panel| == cap
    requires forall y :: y in panel ==> HasPlace(after, y)
    ensures |after| == cap && forall x :: x in after ==> HasPlace(panel, x)
  {
    PanelIdsSize(messages, cap, panel);
    PanelIdsSize(merged, cap, after);
    forall id | id in Ids(panel) ensures id in Ids(after) {
      var y :| y in panel && y.id == id;
      assert HasPlace(after, y);
    }
    SizeOfSubset(Ids(panel), Ids(after));
    SubsetsOfOneSize(Ids(panel), Ids(after));
    forall x | x in after ensures HasPlace(panel, x) {
      assert x.id in Ids(after);
      var y :| y in panel && y.id == x.id;
      var x' :| x' in after && SamePlace(x', y);
      assert Stands(merged, x') && Stands(merged, x);
    }
  }

  /** Merging more into a panel holds the newest of everything there has been. */
  lemma MergeAbsorbs(messages: seq<Message>, more: seq<Message>, cap: nat, panel: seq<Message>, after: seq<Message>)
    requires HoldsNewest(messages, cap, panel) && HoldsNewest(panel + more, cap, after) && SameTimes(messages + more)
    ensures HoldsNewest(messages + more, cap, after)
  {
    forall m | m in after ensures Stands(messages + more, m) {
      LastWithAppend(panel, more, m.id);
      LastWithAppend(messages, more, m.id);
      PanelStandsFor(messages, cap, panel, m);
    }
    forall m | Stands(messages + more, m) && m !in after ensures LeftOut(m, cap, after) {
      LastWithAppend(panel, more, m.id);
      LastWithAppend(messages, more, m.id);
      PanelStandsFor(messages, cap, panel, m);
      if !Stands(panel + more, m) {
        StaysOut(messages, more, cap, panel, after, m);
      }
    }
  }

  /** The panel after the first `n` histories, each merged in turn. */
  function MergeAll(held: seq<Message>, histories: seq<seq<Message>>, n: nat, cap: nat): seq<Message>
    requires n <= |histories|
  {
    if n == 0 then held else Merged(MergeAll(held, histories, n - 1, cap), histories[n - 1], cap)
  }

  /** All the messages of the first `n` histories. */
  function Sent(histories: seq<seq<Message>>, n: nat): seq<Message>
    requires n <= |histories|
  {
    if n == 0 then [] else Sent(histories, n - 1) + histories[n - 1]
  }

  lemma SameTimesBefore(messages: seq<Message>, more: seq<Message>)
    requires SameTimes(messages + more)
    ensures SameTimes(messages)
  {
    forall x, y | x in messages && y in messages && x.id == y.id ensures x.at == y.at {
      assert x in messages + more && y in messages + more;
    }
  }

  /** One more history, merged into a panel that holds the newest so far. */
  lemma MergeOneMore(messages: seq<Message>, panel: seq<Message>, history: seq<Message>, cap: nat)
    requires history != [] && SameTimes(messages + history) && HoldsNewest(messages, cap, panel)
    ensures HoldsNewest(messages + history, cap, Merged(panel, history, cap))
  {
    MergeHoldsNewest(panel, history, cap);
    MergeAbsorbs(messages, history, cap, panel, Merged(panel, history, cap));
  }

  lemma Appending(a: seq<Message>, b: seq<Message>, c: seq<Message>)
    ensures a + (b + c) == a + b + c
  {
  }

  /** Histories that hold nothing leave the panel as it was. */
  lemma {:induction false} NothingSent(held: seq<Message>, histories: seq<seq<Message>>, n: nat, cap: nat)
    requires n <= |histories| && Sent(histories, n) == []
    ensures MergeAll(held, histories, n, cap) == held
  {
    if n != 0 {
      NothingSent(held, histories, n - 1, cap);
    }
  }

  lemma {:induction false} MergeAllHoldsNewest(held: seq<Message>, histories: seq<seq<Message>>, n: nat, cap: nat)
    requires n <= |histories| && Sent(histories, n) != [] && SameTimes(held + Sent(histories, n))
    ensures HoldsNewest(held + Sent(histories, n), cap, MergeAll(held, histories, n, cap))
    decreases n
  {
    var sent, last := Sent(histories, n - 1), histories[n - 1];
    Appending(held, sent, last);
    if sent == [] {
      NothingSent(held, histories, n - 1, cap);
      assert held + sent == held;
      MergeHoldsNewest(held, last, cap);
    } else {
      SameTimesBefore(held + sent, last);
      MergeAllHoldsNewest(held, histories, n - 1, cap);
      if last == [] {
        assert held + sent + last == held + sent;
      } else {
        MergeOneMore(held + sent, MergeAll(held, histories, n - 1, cap), last, cap);
      }
    }
  }

  /** The server's copies agree with each other. */
  ghost predicate CopiesAgree(messages: seq<Message>) {
    forall x, y :: x in messages && y in messages && x.id == y.id ==> x == y
  }

  lemma SameMessagesStand(held: seq<Message>, a: seq<Message>, b: seq<Message>, m: Message)
    requires CopiesAgree(a) && (forall x :: x in a <==> x in b)
    ensures Stands(held + a, m) <==> Stands(held + b, m)
  {
    LastWithAppend(held, a, m.id);
    LastWithAppend(held, b, m.id);
    LastOfIsOne(a, |a|, m.id);
    LastOfIsOne(b, |b|, m.id);
  }

  /** The same messages, sent in any histories, overlapping or not, some of them empty, and in any order, leave the
      same panel: with the cap too, and whatever copies the panel held, as long as each message has one time and the
      server's copies agree. */
  lemma HistoriesInAnyOrder(held: seq<Message>, a: seq<seq<Message>>, b: seq<seq<Message>>, cap: nat)
    requires var sent, others := Sent(a, |a|), Sent(b, |b|);
      sent != [] && (forall x :: x in sent <==> x in others) && CopiesAgree(sent) && SameTimes(held + sent)
    ensures MergeAll(held, a, |a|, cap) == MergeAll(held, b, |b|, cap)
  {
    var sent, others := Sent(a, |a|), Sent(b, |b|);
    forall x ensures x in held + sent <==> x in held + others {
    }
    assert sent[0] in sent && sent[0] in others;
    MergeAllHoldsNewest(held, a, |a|, cap);
    MergeAllHoldsNewest(held, b, |b|, cap);
    var panel := MergeAll(held, b, |b|, cap);
    SameMessagesHold(held, sent, others, cap, panel);
    NewestIsUnique(held + sent, cap, MergeAll(held, a, |a|, cap), panel);
  }

  lemma SameMessagesHold(held: seq<Message>, a: seq<Message>, b: seq<Message>, cap: nat, panel: seq<Message>)
    requires CopiesAgree(a) && (forall x :: x in a <==> x in b) && HoldsNewest(held + b, cap, panel)
    ensures HoldsNewest(held + a, cap, panel)
  {
    forall m ensures Stands(held + a, m) <==> Stands(held + b, m) {
      SameMessagesStand(held, a, b, m);
    }
  }
}
