/** The vote by which a member's open tabs settle on the one that sounds (client/src/lib/message-chime-policy.ts,
    client/src/hooks/useMessageChime.ts). */
module Chime {
  import opened Option
  import StringOrder

  datatype Tab = Tab(name: string)

  /** What a tab says of a message: must not sound here, and whether it can be seen. */
  datatype Vote = Vote(tab: Tab, quiet: bool, visible: bool)

  datatype History = History(alreadyPlayed: bool, lastPlayedAt: Option<int>, now: int)

  const CHIME_COOLDOWN_MS := 2000

  // ── The rule ──

  /** The sort's order: tabs that can be seen before the others, each kind by id. */
  predicate Ahead(a: Vote, b: Vote) {
    if a.visible != b.visible then a.visible else StringOrder.Less(a.tab.name, b.tab.name)
  }

  /** The one ahead of the first `n` votes. */
  function Best(votes: seq<Vote>, n: nat): Vote
    requires 0 < n <= |votes|
  {
    if n == 1 then votes[0]
    else if Ahead(votes[n - 1], Best(votes, n - 1)) then votes[n - 1]
    else Best(votes, n - 1)
  }

  /** The first of the sorted votes. */
  function Winner(votes: seq<Vote>): Vote
    requires votes != []
  {
    Best(votes, |votes|)
  }

  predicate HistoryAllows(h: History) {
    !h.alreadyPlayed && (h.lastPlayedAt.Some? ==> h.now - h.lastPlayedAt.value >= CHIME_COOLDOWN_MS)
  }

  predicate SomeQuiet(votes: seq<Vote>) {
    exists v :: v in votes && v.quiet
  }

  predicate PlaysHere(votes: seq<Vote>, self: Tab, h: History) {
    HistoryAllows(h) && votes != [] && !SomeQuiet(votes) && Winner(votes).tab == self
  }

  lemma AheadIsAnOrder(a: Vote, b: Vote, c: Vote)
    ensures a.tab != b.tab ==> Ahead(a, b) || Ahead(b, a)
    ensures !(Ahead(a, b) && Ahead(b, a))
    ensures Ahead(a, b) && Ahead(b, c) ==> Ahead(a, c)
  {
    StringOrder.LessIsTotal(a.tab.name, b.tab.name);
    if Ahead(a, b) && Ahead(b, c) && a.visible == b.visible == c.visible {
      StringOrder.LessIsTransitive(a.tab.name, b.tab.name, c.tab.name);
    }
  }

  lemma {:induction false} BestIsAhead(votes: seq<Vote>, n: nat)
    requires 0 < n <= |votes|
    ensures Best(votes, n) in votes && forall i :: 0 <= i < n ==> !Ahead(votes[i], Best(votes, n))
  {
    AheadIsAnOrder(votes[n - 1], votes[n - 1], votes[n - 1]);
    if n > 1 {
      BestIsAhead(votes, n - 1);
      forall i | 0 <= i < n - 1 ensures !Ahead(votes[i], Best(votes, n)) {
        StaysBehind(votes[i], Best(votes, n - 1), votes[n - 1]);
      }
    }
  }

  lemma StaysBehind(v: Vote, best: Vote, next: Vote)
    requires !Ahead(v, best)
    ensures !Ahead(v, if Ahead(next, best) then next else best)
  {
    AheadIsAnOrder(v, next, best);
  }

  lemma WinnerIsAhead(votes: seq<Vote>)
    requires votes != []
    ensures Winner(votes) in votes && forall v :: v in votes ==> !Ahead(v, Winner(votes))
  {
    BestIsAhead(votes, |votes|);
  }

  /** Each tab says its word once. */
  ghost predicate OneWordEach(votes: seq<Vote>) {
    forall v, w :: v in votes && w in votes && v.tab == w.tab ==> v == w
  }

  /** The winner does not depend on the order the votes came in. */
  lemma WinnerInAnyOrder(a: seq<Vote>, b: seq<Vote>)
    requires a != [] && b != [] && OneWordEach(a) && (forall v :: v in a <==> v in b)
    ensures Winner(a) == Winner(b)
  {
    WinnerIsAhead(a);
    WinnerIsAhead(b);
    AheadIsAnOrder(Winner(a), Winner(b), Winner(a));
  }

  // ── A tab ──

  predicate Heard(votes: seq<Vote>, tab: Tab) {
    exists v :: v in votes && v.tab == tab
  }

  /** The first word of each tab is the one that counts. */
  function Remembered(votes: seq<Vote>, vote: Vote): seq<Vote> {
    if Heard(votes, vote.tab) then votes else votes + [vote]
  }

  datatype MessageId = MessageId(name: string)

  /** What a tab remembers of the chimes: for which messages one has sounded, here or in another tab, and when the last
      did. */
  datatype Memory = Memory(played: set<MessageId>, lastPlayedAt: Option<int>)

  function Latest(last: Option<int>, at: int): int {
    var before := if last.Some? then last.value else 0;
    if before >= at then before else at
  }

  /** Another tab has played. */
  function ToldOf(m: Memory, id: MessageId, at: int): Memory {
    Memory(m.played + {id}, Some(Latest(m.lastPlayedAt, at)))
  }

  /** Whether this tab plays, by these votes. A ring is not held back by a chime a moment before. */
  predicate PlaysNow(m: Memory, self: Tab, votes: seq<Vote>, id: MessageId, ring: bool, now: int) {
    PlaysHere(votes, self, History(id in m.played, if ring then None else m.lastPlayedAt, now))
  }

  function Decided(m: Memory, self: Tab, votes: seq<Vote>, id: MessageId, ring: bool, now: int): Memory {
    if PlaysNow(m, self, votes, id, ring, now) then Memory(m.played + {id}, Some(now)) else m
  }

  class ChimeTab {
    const tabId: Tab
    var votes: map<MessageId, seq<Vote>>
    var played: set<MessageId>
    var lastPlayedAt: Option<int>

    constructor (tabId: Tab)
      ensures this.tabId == tabId && votes == map[] && played == {} && lastPlayedAt == None
    {
      this.tabId := tabId;
      votes, played, lastPlayedAt := map[], {}, None;
    }

    function VotesOn(id: MessageId): seq<Vote>
      reads this`votes
    {
      if id in votes then votes[id] else []
    }

    method Remember(id: MessageId, vote: Vote)
      modifies this`votes
      ensures votes == old(votes)[id := Remembered(old(VotesOn(id)), vote)]
    {
      var list := if id in votes then votes[id] else [];
      if !exists v :: v in list && v.tab == vote.tab {
        list := list + [vote];
      }
      votes := votes[id := list];
    }

    /** Another tab says it has played. */
    method HeardPlayed(id: MessageId, at: int)
      modifies this`played, this`lastPlayedAt
      ensures Memory(played, lastPlayedAt) == ToldOf(old(Memory(played, lastPlayedAt)), id, at)
    {
      played := played + {id};
      var last := if lastPlayedAt.Some? then lastPlayedAt.value else 0;
      lastPlayedAt := Some(if last >= at then last else at);
    }

    /** The vote window is over: true when this tab plays. */
    method Decide(id: MessageId, own: Vote, ring: bool, now: int) returns (plays: bool)
      modifies this`played, this`lastPlayedAt
      ensures var said := if id in votes then votes[id] else [own];
        && plays == PlaysNow(old(Memory(played, lastPlayedAt)), tabId, said, id, ring, now)
        && Memory(played, lastPlayedAt) == Decided(old(Memory(played, lastPlayedAt)), tabId, said, id, ring, now)
    {
      var history := History(id in played, if ring then None else lastPlayedAt, now);
      plays := PlaysHere(if id in votes then votes[id] else [own], tabId, history);
      if plays {
        played := played + {id};
        lastPlayedAt := Some(now);
      }
    }
  }

  // ── One message, every tab ──

  /** The words said, what each tab has heard of them in the order it came, and the tabs that have decided and
      played. */
  datatype World = World(tabs: set<Tab>, said: map<Tab, Vote>, heard: map<Tab, seq<Vote>>, decided: set<Tab>,
                         playing: set<Tab>)

  datatype Step =
    | Say(tab: Tab, quiet: bool, visible: bool)
    | Hear(tab: Tab, from: Tab)
    | Choose(tab: Tab, history: History)

  /** Every open tab's word has reached this one. */
  predicate HasHeardAll(w: World, tab: Tab)
    requires tab in w.heard
  {
    forall other :: other in w.tabs ==> Heard(w.heard[tab], other)
  }

  /** A tab decides once, after it has heard every tab. */
  predicate Enabled(w: World, step: Step) {
    && step.tab in w.tabs && step.tab in w.heard
    && match step
       case Say(tab, _, _) => tab !in w.said
       case Hear(_, from) => from in w.said
       case Choose(tab, _) => tab !in w.decided && HasHeardAll(w, tab)
  }

  function Next(w: World, step: Step): World
    requires Enabled(w, step)
  {
    match step
    case Say(tab, quiet, visible) =>
      var vote := Vote(tab, quiet, visible);
      w.(said := w.said[tab := vote], heard := w.heard[tab := Remembered(w.heard[tab], vote)])
    case Hear(tab, from) => w.(heard := w.heard[tab := Remembered(w.heard[tab], w.said[from])])
    case Choose(tab, history) =>
      w.(decided := w.decided + {tab},
         playing := if PlaysHere(w.heard[tab], tab, history) then w.playing + {tab} else w.playing)
  }

  ghost predicate IsRun(w: World, steps: seq<Step>)
    decreases |steps|
  {
    steps != [] ==> Enabled(w, steps[0]) && IsRun(Next(w, steps[0]), steps[1..])
  }

  function After(w: World, steps: seq<Step>): World
    requires IsRun(w, steps)
    decreases |steps|
  {
    if steps == [] then w else After(Next(w, steps[0]), steps[1..])
  }

  predicate WasSaid(w: World, v: Vote) {
    v.tab in w.tabs && v.tab in w.said && w.said[v.tab] == v
  }

  /** The tab that every tab picks, of the words said. */
  ghost predicate IsPicked(w: World, tab: Tab) {
    && tab in w.said && w.tabs <= w.said.Keys
    && forall other :: other in w.tabs ==> !w.said[other].quiet && !Ahead(w.said[other], w.said[tab])
  }

  ghost predicate Inv(w: World) {
    && (forall tab :: tab in w.said ==> tab in w.tabs && w.said[tab].tab == tab)
    && (forall tab, v :: tab in w.heard && v in w.heard[tab] ==> WasSaid(w, v))
    && (forall tab :: tab in w.playing ==> tab in w.tabs && IsPicked(w, tab))
  }

  /** A tab that plays, having heard every word, is the one every tab picks. */
  lemma PlaysOnlyWhenPicked(w: World, tab: Tab, h: History)
    requires Inv(w) && tab in w.tabs && tab in w.heard && HasHeardAll(w, tab)
    ensures PlaysHere(w.heard[tab], tab, h) <==> HistoryAllows(h) && IsPicked(w, tab)
  {
    var votes := w.heard[tab];
    assert Heard(votes, tab);
    WinnerIsAhead(votes);
    forall other | other in w.tabs ensures other in w.said && w.said[other] in votes {
      var v :| v in votes && v.tab == other;
      assert WasSaid(w, v);
    }
    assert WasSaid(w, Winner(votes));
    if HistoryAllows(h) && IsPicked(w, tab) {
      forall v | v in votes ensures !v.quiet {
        assert WasSaid(w, v);
      }
      AheadIsAnOrder(w.said[tab], Winner(votes), Winner(votes));
    }
    if PlaysHere(votes, tab, h) {
      forall other | other in w.tabs ensures !w.said[other].quiet && !Ahead(w.said[other], w.said[tab]) {
        assert w.said[other] in votes;
      }
    }
  }

  lemma StepKeeps(w: World, step: Step)
    requires Inv(w) && Enabled(w, step)
    ensures Inv(Next(w, step)) && Next(w, step).tabs == w.tabs
  {
    var w' := Next(w, step);
    if step.Choose? {
      PlaysOnlyWhenPicked(w, step.tab, step.history);
    }
    forall tab, v | tab in w'.heard && v in w'.heard[tab] ensures WasSaid(w', v) {
      if v in w.heard[tab] {
        assert WasSaid(w, v);
      }
    }
    forall tab | tab in w'.playing ensures tab in w'.tabs && IsPicked(w', tab) {
      if tab in w.playing {
        assert IsPicked(w, tab);
      }
    }
  }

  lemma {:induction false} RunKeeps(w: World, steps: seq<Step>)
    requires Inv(w) && IsRun(w, steps)
    ensures Inv(After(w, steps)) && After(w, steps).tabs == w.tabs
    decreases |steps|
  {
    if steps != [] {
      StepKeeps(w, steps[0]);
      RunKeeps(Next(w, steps[0]), steps[1..]);
    }
  }

  function Silent(tabs: set<Tab>): World {
    World(tabs, map[], map tab | tab in tabs :: [], {}, {})
  }

  lemma OnePicked(w: World, a: Tab, b: Tab)
    requires Inv(w) && a in w.tabs && b in w.tabs && IsPicked(w, a) && IsPicked(w, b)
    ensures a == b
  {
    AheadIsAnOrder(w.said[a], w.said[b], w.said[a]);
  }

  /** Whatever order the words arrive in, and whenever the tabs decide once they have heard them all, at most one tab
      plays the message. */
  lemma AtMostOnePlays(tabs: set<Tab>, steps: seq<Step>)
    requires IsRun(Silent(tabs), steps)
    ensures forall a, b :: a in After(Silent(tabs), steps).playing && b in After(Silent(tabs), steps).playing ==> a == b
  {
    RunKeeps(Silent(tabs), steps);
    var w := After(Silent(tabs), steps);
    forall a, b | a in w.playing && b in w.playing ensures a == b {
      OnePicked(w, a, b);
    }
  }

  lemma {:induction false} SomeoneIsAhead(w: World, among: set<Tab>) returns (best: Tab)
    requires Inv(w) && among != {} && among <= w.said.Keys
    ensures best in among && forall other :: other in among ==> !Ahead(w.said[other], w.said[best])
    decreases |among|
  {
    var tab :| tab in among;
    if among == {tab} {
      AheadIsAnOrder(w.said[tab], w.said[tab], w.said[tab]);
      best := tab;
    } else {
      var rest := SomeoneIsAhead(w, among - {tab});
      best := if Ahead(w.said[tab], w.said[rest]) then tab else rest;
      AheadIsAnOrder(w.said[tab], w.said[tab], w.said[tab]);
      forall other | other in among ensures !Ahead(w.said[other], w.said[best]) {
        if other != tab {
          StaysBehind(w.said[other], w.said[rest], w.said[tab]);
        }
      }
    }
  }

  /** When every tab has said its word and none is quiet, one tab is picked, and it plays when it decides if its history
      allows. */
  lemma ThePickedOnePlays(tabs: set<Tab>, steps: seq<Step>, h: History) returns (picked: Tab)
    requires IsRun(Silent(tabs), steps) && tabs != {}
    requires var w := After(Silent(tabs), steps);
      tabs <= w.said.Keys && (forall tab :: tab in tabs ==> !w.said[tab].quiet) && HistoryAllows(h)
    ensures picked in tabs
    ensures var w := After(Silent(tabs), steps);
      forall tab :: tab in tabs && Enabled(w, Choose(tab, h)) ==>
        (tab in Next(w, Choose(tab, h)).playing <==> tab == picked || tab in w.playing)
  {
    RunKeeps(Silent(tabs), steps);
    var w := After(Silent(tabs), steps);
    picked := SomeoneIsAhead(w, tabs);
    forall tab | tab in tabs && Enabled(w, Choose(tab, h))
      ensures tab in Next(w, Choose(tab, h)).playing <==> tab == picked || tab in w.playing
    {
      PlaysOnlyWhenPicked(w, tab, h);
      if IsPicked(w, tab) {
        OnePicked(w, tab, picked);
      }
    }
  }
}
