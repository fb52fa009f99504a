/** When a tab sounds: which of the votes wins, and never twice for a message or in quick succession. */
module ChimeSounds {
  import opened Option
  import opened Chime
  import StringOrder

  /** A tab that can be seen wins over every one that cannot, and among tabs of one kind the first by id. */
  predicate WinsOver(v: Vote, other: Vote) {
    (v.visible && !other.visible)
    || (v.visible == other.visible && (v.tab == other.tab || StringOrder.Less(v.tab.name, other.tab.name)))
  }

  /** A tab sounds if and only if the message has not sounded yet, the last chime is 2 s ago or more or this is a
      ring, no tab that spoke is quiet, and its own vote wins over every other. */
  lemma PlaysExactlyWhen(m: Memory, self: Tab, votes: seq<Vote>, id: MessageId, ring: bool, now: int)
    requires OneWordEach(votes)
    ensures PlaysNow(m, self, votes, id, ring, now) <==>
      && id !in m.played
      && (ring || m.lastPlayedAt.None? || now - m.lastPlayedAt.value >= 2000)
      && (forall v :: v in votes ==> !v.quiet)
      && exists v :: v in votes && v.tab == self && forall other :: other in votes ==> WinsOver(v, other)
  {
    if votes != [] {
      var winner := Winner(votes);
      WinnerIsAhead(votes);
      forall other | other in votes ensures WinsOver(winner, other) {
        StringOrder.LessIsTotal(winner.tab.name, other.tab.name);
      }
      if v :| v in votes && v.tab == self && forall other :: other in votes ==> WinsOver(v, other) {
        StringOrder.LessIsTotal(winner.tab.name, v.tab.name);
      }
    }
  }

  /** A tab's first word stands whatever it says later, and every tab that speaks has one. */
  lemma FirstWordStands(votes: seq<Vote>, vote: Vote)
    ensures var after := Remembered(votes, vote);
      && votes <= after && (OneWordEach(votes) ==> OneWordEach(after))
      && (exists v :: v in after && v.tab == vote.tab)
      && ((forall v :: v in votes ==> v.tab != vote.tab) ==> vote in after)
  {
    if !Heard(votes, vote.tab) {
      assert (votes + [vote])[|votes|] == vote;
    }
  }

  // ── One tab over time ──

  /** A chime of this tab (`here`), or one another tab has told it of. */
  datatype Sound = Sound(id: MessageId, at: int, ring: bool, here: bool)

  datatype Event =
    | VoteEnds(id: MessageId, votes: seq<Vote>, ring: bool, now: int)
    | IsTold(id: MessageId, at: int, now: int)

  datatype Life = Life(memory: Memory, clock: int, sounds: seq<Sound>)

  /** The clock does not run back, and no chime told of is yet to come. */
  predicate CanHappen(life: Life, event: Event) {
    life.clock <= event.now && (event.IsTold? ==> event.at <= event.now)
  }

  function Next(life: Life, self: Tab, event: Event): Life {
    match event
    case VoteEnds(id, votes, ring, now) =>
      Life(Decided(life.memory, self, votes, id, ring, now), now,
           if PlaysNow(life.memory, self, votes, id, ring, now) then life.sounds + [Sound(id, now, ring, true)]
           else life.sounds)
    case IsTold(id, at, now) =>
      Life(ToldOf(life.memory, id, at), now, life.sounds + [Sound(id, at, false, false)])
  }

  ghost predicate IsRun(life: Life, self: Tab, events: seq<Event>)
    decreases |events|
  {
    events != [] ==> CanHappen(life, events[0]) && IsRun(Next(life, self, events[0]), self, events[1..])
  }

  function After(life: Life, self: Tab, events: seq<Event>): Life
    requires IsRun(life, self, events)
    decreases |events|
  {
    if events == [] then life else After(Next(life, self, events[0]), self, events[1..])
  }

  /** A chime here is of a message that had not sounded, and unless it rings 2 s or more after every one before. */
  ghost predicate KeepsApart(sounds: seq<Sound>) {
    forall i, j :: 0 <= i < j < |sounds| && sounds[j].here ==>
      sounds[i].id != sounds[j].id && (!sounds[j].ring ==> sounds[j].at - sounds[i].at >= 2000)
  }

  ghost predicate Inv(life: Life) {
    && KeepsApart(life.sounds)
    && (forall i :: 0 <= i < |life.sounds| ==>
          && life.sounds[i].id in life.memory.played
          && life.sounds[i].at <= life.clock
          && life.memory.lastPlayedAt.Some? && life.sounds[i].at <= life.memory.lastPlayedAt.value)
  }

  lemma StepKeeps(life: Life, self: Tab, event: Event)
    requires Inv(life) && CanHappen(life, event)
    ensures Inv(Next(life, self, event))
  {
    var sounds := Next(life, self, event).sounds;
    assert forall i :: 0 <= i < |life.sounds| ==> sounds[i] == life.sounds[i];
  }

  lemma {:induction false} RunKeeps(life: Life, self: Tab, events: seq<Event>)
    requires Inv(life) && IsRun(life, self, events)
    ensures Inv(After(life, self, events))
    decreases |events|
  {
    if events != [] {
      StepKeeps(life, self, events[0]);
      RunKeeps(Next(life, self, events[0]), self, events[1..]);
    }
  }

  /** Over every run of votes and of chimes told of, a tab never sounds for a message that has sounded, here or as told,
      and a chime that is no ring never within 2 s of an earlier one. */
  lemma NeverTwiceNorTooSoon(self: Tab, clock: int, events: seq<Event>)
    requires IsRun(Life(Memory({}, None), clock, []), self, events)
    ensures KeepsApart(After(Life(Memory({}, None), clock, []), self, events).sounds)
  {
    RunKeeps(Life(Memory({}, None), clock, []), self, events);
  }
}
