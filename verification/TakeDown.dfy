/** Dropping the messages that were taken down (client/src/hooks/chat-history.ts, useSessionSocket.ts), against the
    pages a changing server chat answers (server/src/services/event-chat/event-chat.service.ts). */
module TakeDown {
  import opened Option
  import opened ChatHistory
  import opened ChatMerge
  import StringOrder

  // ── The panel's side ──

  /** What the chat pages said, and whether they hold the whole chat. */
  datatype Slice = Slice(messages: seq<Message>, complete: bool)

  function OldestOf(messages: seq<Message>, n: nat): Option<Message>
    requires n <= |messages|
  {
    if n == 0 then None
    else
      var oldest := OldestOf(messages, n - 1);
      if oldest.None? || Before(messages[n - 1], oldest.value) then Some(messages[n - 1]) else oldest
  }

  predicate RoomsReadable(page: Slice, viewerIsAdmin: bool) {
    !viewerIsAdmin || exists m :: m in page.messages && m.scope == Room
  }

  predicate OnPage(page: Slice, id: Id) {
    exists m :: m in page.messages && m.id == id
  }

  predicate Reaches(page: Slice, m: Message) {
    page.complete
    || (var oldest := OldestOf(page.messages, |page.messages|); oldest.Some? && !Before(m, oldest.value))
  }

  predicate CountsAsTakenDown(m: Message, page: Slice, heldBefore: set<Id>, viewerIsAdmin: bool) {
    m.id in heldBefore && !OnPage(page, m.id) && (m.scope != Room || RoomsReadable(page, viewerIsAdmin))
    && Reaches(page, m)
  }

  function Kept(held: seq<Message>, n: nat, page: Slice, heldBefore: set<Id>, viewerIsAdmin: bool): seq<Message>
    requires n <= |held|
  {
    if n == 0 then []
    else
      Kept(held, n - 1, page, heldBefore, viewerIsAdmin)
      + (if CountsAsTakenDown(held[n - 1], page, heldBefore, viewerIsAdmin) then [] else [held[n - 1]])
  }

  method WithoutTakenDown(held: seq<Message>, page: Slice, heldBefore: set<Id>, viewerIsAdmin: bool)
    returns (kept: seq<Message>)
    ensures kept == Kept(held, |held|, page, heldBefore, viewerIsAdmin)
  {
    var onPage := set m | m in page.messages :: m.id;
    var roomsReadable := !viewerIsAdmin || exists m :: m in page.messages && m.scope == Room;
    var oldest: Option<Message> := None;
    for i := 0 to |page.messages|
      invariant oldest == OldestOf(page.messages, i)
    {
      if oldest.None? || Before(page.messages[i], oldest.value) {
        oldest := Some(page.messages[i]);
      }
    }
    kept := [];
    for i := 0 to |held|
      invariant kept == Kept(held, i, page, heldBefore, viewerIsAdmin)
    {
      var m := held[i];
      var reaches := page.complete || (oldest.Some? && !Before(m, oldest.value));
      assert m.id in onPage <==> OnPage(page, m.id);
      var takenDown := m.id in heldBefore && m.id !in onPage && (m.scope != Room || roomsReadable) && reaches;
      if !takenDown {
        kept := kept + [m];
      }
    }
  }

  lemma {:induction false} KeptAre(held: seq<Message>, n: nat, page: Slice, heldBefore: set<Id>, admin: bool)
    requires n <= |held|
    ensures forall m :: m in Kept(held, n, page, heldBefore, admin) <==>
                          m in held[..n] && !CountsAsTakenDown(m, page, heldBefore, admin)
  {
    if n != 0 {
      KeptAre(held, n - 1, page, heldBefore, admin);
      assert held[..n] == held[..n - 1] + [held[n - 1]];
    }
  }

  /** What stays, stays in its order. */
  lemma {:induction false} KeptInOrder(held: seq<Message>, n: nat, page: Slice, heldBefore: set<Id>, admin: bool)
    requires n <= |held| && Sorted(held)
    ensures Sorted(Kept(held, n, page, heldBefore, admin))
  {
    if n != 0 {
      KeptInOrder(held, n - 1, page, heldBefore, admin);
      KeptAre(held, n - 1, page, heldBefore, admin);
      var before := Kept(held, n - 1, page, heldBefore, admin);
      forall i | 0 <= i < |before| ensures Before(before[i], held[n - 1]) {
        assert before[i] in held[..n - 1];
        var j :| 0 <= j < n - 1 && held[j] == before[i];
      }
    }
  }

  lemma {:induction false} OldestIsFirst(messages: seq<Message>, n: nat)
    requires n <= |messages|
    ensures var oldest := OldestOf(messages, n);
      if n == 0 then oldest.None?
      else oldest.Some? && oldest.value in messages && forall i :: 0 <= i < n ==> !Before(messages[i], oldest.value)
  {
    if n != 0 {
      OldestIsFirst(messages, n - 1);
      var oldest := OldestOf(messages, n - 1);
      forall i | 0 <= i < n ensures !Before(messages[i], OldestOf(messages, n).value) {
        BeforeIsTotal(messages[i], OldestOf(messages, n).value);
        if i < n - 1 && Before(messages[n - 1], oldest.value) && Before(messages[i], messages[n - 1]) {
          BeforeIsTransitive(messages[i], messages[n - 1], oldest.value);
        }
      }
    }
  }

  lemma OldestReaches(slice: Slice, m: Message)
    ensures Reaches(slice, m) <==> slice.complete || exists x :: x in slice.messages && !Before(m, x)
  {
    var messages := slice.messages;
    OldestIsFirst(messages, |messages|);
    var oldest := OldestOf(messages, |messages|);
    if x :| x in messages && !Before(m, x) {
      var i :| 0 <= i < |messages| && messages[i] == x;
      BeforeIsTotal(x, oldest.value);
      BeforeIsTotal(m, x);
      if Before(m, oldest.value) && Before(oldest.value, x) {
        BeforeIsTransitive(m, oldest.value, x);
      }
    }
  }

  /** Exactly which messages leave: held before the read, on no page, no older than some message of the pages unless
      these are the whole chat, and, of a room, only for a viewer who is no admin or whose pages show some room. */
  lemma LeavesExactlyWhen(held: seq<Message>, page: Slice, heldBefore: set<Id>, admin: bool, m: Message)
    requires m in held
    ensures m !in Kept(held, |held|, page, heldBefore, admin) <==>
      && m.id in heldBefore
      && (forall x :: x in page.messages ==> x.id != m.id)
      && (m.scope == Room && admin ==> exists x :: x in page.messages && x.scope == Room)
      && (page.complete
          || exists x :: x in page.messages
                         && (x.at < m.at || (x.at == m.at && !StringOrder.Less(m.id.name, x.id.name))))
  {
    KeptAre(held, |held|, page, heldBefore, admin);
    assert held[..|held|] == held;
    OldestReaches(page, m);
    forall x | x in page.messages
      ensures !Before(m, x) <==> x.at < m.at || (x.at == m.at && !StringOrder.Less(m.id.name, x.id.name))
    {
    }
  }

  // ── The server's side ──

  const PAGE: nat := 100

  /** What a viewer is listed of the messages not deleted. */
  predicate Listed(live: set<Message>, roomsShown: bool, before: Option<Message>, m: Message) {
    m in live && (m.scope == Lobby || roomsShown) && (before.Some? ==> Before(m, before.value))
  }

  /** A page: the newest messages listed before the cursor, oldest first; `more` when there are older ones. */
  ghost predicate IsPage(live: set<Message>, roomsShown: bool, before: Option<Message>, page: seq<Message>,
                         more: bool)
  {
    && Sorted(page) && |page| <= PAGE
    && (forall m :: m in page ==> Listed(live, roomsShown, before, m))
    && (forall m :: Listed(live, roomsShown, before, m) && m !in page ==> more && |page| == PAGE && Before(m, page[0]))
    && (more ==> |page| == PAGE)
  }

  /** The rows of the page's query: the newest listed before the cursor, newest first, one more than a page holds. */
  ghost predicate AreRows(live: set<Message>, roomsShown: bool, before: Option<Message>, rows: seq<Message>) {
    && |rows| <= PAGE + 1
    && (forall i, j :: 0 <= i < j < |rows| ==> Before(rows[j], rows[i]))
    && (forall m :: m in rows ==> Listed(live, roomsShown, before, m))
    && (forall m :: Listed(live, roomsShown, before, m) && m !in rows ==>
          |rows| == PAGE + 1 && Before(m, rows[PAGE]))
  }

  function Reverse(rows: seq<Message>): seq<Message> {
    seq(|rows|, i requires 0 <= i < |rows| => rows[|rows| - 1 - i])
  }

  /** One row too many tells that there is more; the page itself is turned to oldest first. */
  method ListEventChat(rows: seq<Message>, ghost live: set<Message>, ghost roomsShown: bool,
                       ghost before: Option<Message>)
    returns (page: seq<Message>, more: bool)
    requires AreRows(live, roomsShown, before, rows)
    ensures IsPage(live, roomsShown, before, page, more)
  {
    page := Reverse(if |rows| > PAGE then rows[..PAGE] else rows);
    more := |rows| > PAGE;
    assert forall i :: 0 <= i < |page| ==> page[i] == rows[|page| - 1 - i];
    forall m | Listed(live, roomsShown, before, m) && m !in page ensures more && Before(m, page[0]) {
      if m in rows {
        var i :| 0 <= i < |rows| && rows[i] == m;
        assert i < |page| ==> page[|page| - 1 - i] == m;
      } else {
        BeforeIsTransitive(m, rows[PAGE], rows[PAGE - 1]);
      }
    }
  }

  /** The two reads, of the chat as it is at each: the second from where the first ended. */
  ghost predicate ReadsChat(live1: set<Message>, live2: set<Message>, roomsShown: bool, first: seq<Message>,
                            more1: bool, second: seq<Message>, slice: Slice)
  {
    && IsPage(live1, roomsShown, None, first, more1)
    && if !more1 then slice == Slice(first, true) && second == []
       else exists more2 :: IsPage(live2, roomsShown, Some(first[0]), second, more2)
                            && slice == Slice(first + second, !more2)
  }

  /** A page's answer: its messages, and whether it has a cursor to the next. */
  datatype Answer = Answer(messages: seq<Message>, hasNext: bool)

  /** The panel's two reads, the second only when the first has a cursor. */
  method ReadPages(answers: seq<Answer>, ghost live1: set<Message>, ghost live2: set<Message>, ghost roomsShown: bool)
    returns (slice: Slice)
    requires |answers| == 2
    requires IsPage(live1, roomsShown, None, answers[0].messages, answers[0].hasNext)
    requires answers[0].hasNext ==>
               IsPage(live2, roomsShown, Some(answers[0].messages[0]), answers[1].messages, answers[1].hasNext)
    ensures var second := if answers[0].hasNext then answers[1].messages else [];
      ReadsChat(live1, live2, roomsShown, answers[0].messages, answers[0].hasNext, second, slice)
  {
    var messages: seq<Message> := [];
    var complete := false;
    for read := 0 to 2
      invariant messages == if read == 0 then [] else if read == 1 then answers[0].messages
                            else answers[0].messages + answers[1].messages
      invariant !complete && (read > 0 ==> answers[0].hasNext) && (read > 1 ==> answers[1].hasNext)
    {
      messages := messages + answers[read].messages;
      if !answers[read].hasNext {
        complete := true;
        break;
      }
    }
    slice := Slice(messages, complete);
  }

  /** A row of the server's is where, and of the scope, the panel's copy says. */
  ghost predicate RowsMatch(live: set<Message>, m: Message) {
    forall r :: r in live && r.id == m.id ==> r.at == m.at && r.scope == m.scope
  }

  ghost predicate Gone(live: set<Message>, id: Id) {
    forall r :: r in live ==> r.id != id
  }

  /** Which of the two reads looked where the message would be. */
  ghost predicate FirstLooked(first: seq<Message>, more1: bool, m: Message)
    requires more1 ==> first != []
  {
    !more1 || !Before(m, first[0])
  }

  lemma SamePlaceSameOrder(x: Message, y: Message, z: Message)
    requires SamePlace(x, y)
    ensures Before(x, z) <==> Before(y, z)
  {
  }

  lemma LookedAndMissed(live: set<Message>, roomsShown: bool, before: Option<Message>, page: seq<Message>, more: bool,
                        m: Message)
    requires IsPage(live, roomsShown, before, page, more) && RowsMatch(live, m)
    requires m.scope == Lobby || roomsShown
    requires before.Some? ==> Before(m, before.value)
    requires !more || !Before(m, page[0])
    requires forall x :: x in page ==> x.id != m.id
    ensures Gone(live, m.id)
  {
    forall r | r in live ensures r.id != m.id {
      if r.id == m.id {
        if before.Some? {
          SamePlaceSameOrder(r, m, before.value);
        }
        assert Listed(live, roomsShown, before, r);
        if more {
          SamePlaceSameOrder(r, m, page[0]);
        }
      }
    }
  }

  /** The loop's oldest message is the first of the second page, or of the only one. */
  lemma OldestOfPages(first: seq<Message>, second: seq<Message>, before: Message)
    requires Sorted(first) && Sorted(second) && first != [] && before == first[0]
    requires forall x :: x in second ==> Before(x, before)
    ensures OldestOf(first + second, |first + second|) == Some((if second == [] then first else second)[0])
  {
    var all, oldest := first + second, (if second == [] then first else second)[0];
    forall x | x in all ensures x == oldest || Before(oldest, x) {
      if x in first && second != [] && x != first[0] {
        assert oldest in second;
        BeforeIsTransitive(oldest, first[0], x);
      }
    }
    OldestIsFirst(all, |all|);
    var found := OldestOf(all, |all|).value;
    assert oldest in all;
    BeforeIsTotal(oldest, found);
  }

  /** Whatever leaves the panel was on it before the read, and was no longer listed when the page it belongs on was
      read, whatever was sent or taken down between the two reads. */
  lemma OnlyTheGoneLeave(live1: set<Message>, live2: set<Message>, roomsShown: bool, first: seq<Message>, more1: bool,
                         second: seq<Message>, slice: Slice, held: seq<Message>, heldBefore: set<Id>, admin: bool,
                         m: Message)
    requires ReadsChat(live1, live2, roomsShown, first, more1, second, slice)
    requires RowsMatch(live1, m) && RowsMatch(live2, m) && (!admin ==> roomsShown)
    requires m in held && m !in Kept(held, |held|, slice, heldBefore, admin)
    ensures m.id in heldBefore
    ensures if FirstLooked(first, more1, m) then Gone(live1, m.id) else Gone(live2, m.id)
  {
    KeptAre(held, |held|, slice, heldBefore, admin);
    assert held[..|held|] == held;
    assert CountsAsTakenDown(m, slice, heldBefore, admin);
    assert forall x :: x in first || x in second ==> x in slice.messages;
    if m.scope == Room {
      RoomsAreShown(live1, live2, roomsShown, first, more1, second, slice, admin);
    }
    if FirstLooked(first, more1, m) {
      LookedAndMissed(live1, roomsShown, None, first, more1, m);
    } else {
      var more2 :| IsPage(live2, roomsShown, Some(first[0]), second, more2) && slice == Slice(first + second, !more2);
      OldestOfPages(first, second, first[0]);
      LookedAndMissed(live2, roomsShown, Some(first[0]), second, more2, m);
    }
  }

  lemma RoomsAreShown(live1: set<Message>, live2: set<Message>, roomsShown: bool, first: seq<Message>, more1: bool,
                      second: seq<Message>, slice: Slice, admin: bool)
    requires ReadsChat(live1, live2, roomsShown, first, more1, second, slice)
    requires RoomsReadable(slice, admin) && (!admin ==> roomsShown)
    ensures roomsShown
  {
    if admin {
      var m :| m in slice.messages && m.scope == Room;
      assert m in first || m in second;
    }
  }

  /** A message deleted before either read stays in exactly one case: the pages end before the whole chat does, and they
      hold only newer messages. */
  lemma TheGoneStayOnlyBehindThePages(live1: set<Message>, live2: set<Message>, roomsShown: bool, first: seq<Message>,
                                      more1: bool, second: seq<Message>, slice: Slice, held: seq<Message>,
                                      heldBefore: set<Id>, admin: bool, m: Message)
    requires ReadsChat(live1, live2, roomsShown, first, more1, second, slice)
    requires Gone(live1, m.id) && Gone(live2, m.id)
    requires m in held && m.id in heldBefore && (m.scope == Lobby || RoomsReadable(slice, admin))
    ensures m in Kept(held, |held|, slice, heldBefore, admin)
            <==> !slice.complete && forall x :: x in slice.messages ==> Before(m, x)
  {
    KeptAre(held, |held|, slice, heldBefore, admin);
    assert held[..|held|] == held;
    forall x | x in slice.messages ensures x.id != m.id {
      assert x in first || x in second;
    }
    OldestReaches(slice, m);
  }

  /** A message keeps its row: whenever it is listed, it is where it was. */
  ghost predicate OneRowEach(rows: set<Message>) {
    forall r, x :: r in rows && x in rows && r.id == x.id ==> SamePlace(r, x)
  }

  /** The two pages list no message twice. */
  lemma PagesDiffer(live1: set<Message>, live2: set<Message>, roomsShown: bool, first: seq<Message>,
                    second: seq<Message>, more2: bool)
    requires OneRowEach(live1 + live2) && first != []
    requires IsPage(live1, roomsShown, None, first, true) && IsPage(live2, roomsShown, Some(first[0]), second, more2)
    ensures forall i, j :: 0 <= i < j < |first + second| ==> (first + second)[i].id != (first + second)[j].id
  {
    var all, rows := first + second, live1 + live2;
    forall i | 0 <= i < |all|
      ensures all[i] in rows && (i >= |first| ==> Before(all[i], first[0]))
    {
      assert all[i] == (if i < |first| then first[i] else second[i - |first|]);
      if i < |first| {
        assert Listed(live1, roomsShown, None, first[i]);
      } else {
        assert Listed(live2, roomsShown, Some(first[0]), second[i - |first|]);
      }
    }
    forall i, j | 0 <= i < j < |all| ensures all[i].id != all[j].id {
      assert all[i] in rows && all[j] in rows;
      BeforeIsTotal(all[i], all[j]);
      BeforeIsTotal(all[j], all[i]);
      if i < |first| <= j {
        if i > 0 {
          BeforeIsTransitive(all[j], first[0], all[i]);
        }
      } else {
        assert Before(all[i], all[j]);
      }
    }
  }

  /** Two pages of a hundred reach behind a panel of two hundred: when the panel has every message they list,
      whatever of it was deleted before the reads, and may be judged, leaves. */
  lemma TwoPagesReachThePanel(live1: set<Message>, live2: set<Message>, roomsShown: bool, first: seq<Message>,
                              more1: bool, second: seq<Message>, slice: Slice, held: seq<Message>, heldBefore: set<Id>,
                              admin: bool, m: Message)
    requires ReadsChat(live1, live2, roomsShown, first, more1, second, slice)
    requires Gone(live1, m.id) && Gone(live2, m.id)
    requires m in held && m.id in heldBefore && (m.scope == Lobby || RoomsReadable(slice, admin))
    requires OneRowEach(live1 + live2) && |held| <= LIVE_CHAT_CAP && Ids(first + second) <= Ids(held)
    ensures m !in Kept(held, |held|, slice, heldBefore, admin)
  {
    TheGoneStayOnlyBehindThePages(live1, live2, roomsShown, first, more1, second, slice, held, heldBefore, admin, m);
    if !slice.complete {
      var more2 :| IsPage(live2, roomsShown, Some(first[0]), second, more2) && slice == Slice(first + second, !more2);
      PagesDiffer(live1, live2, roomsShown, first, second, more2);
      IdsSize(first + second);
      forall id | id in Ids(first + second) ensures id != m.id {
        var x :| x in first + second && x.id == id;
        assert x in first || x in second;
      }
      assert Ids(first + second) + {m.id} <= Ids(held);
      SizeOfSubset(Ids(first + second) + {m.id}, Ids(held));
      IdsAtMost(held);
    }
  }

  lemma {:induction false} IdsAtMost(s: seq<Message>)
    ensures |Ids(s)| <= |s|
  {
    if s != [] {
      IdsAtMost(s[1..]);
      assert s == [s[0]] + s[1..];
      assert Ids(s) == {s[0].id} + Ids(s[1..]);
    }
  }
}
