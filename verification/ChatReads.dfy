/** Reading the live chat again after a tag (client/src/hooks/useSessionSocket.ts): reads do not overlap, and tags heard
    during one lead to one more. */
module ChatReads {

  datatype Reads = Reads(running: bool, again: bool)

  /** `flying`: the reads on their way. `unread`: a tag has come since the last one began. */
  datatype World = World(turn: Reads, disposed: bool, flying: nat, unread: bool)

  datatype Step = Tagged | ReadEnds | Dispose

  class ChatRead {
    var running: bool
    var again: bool

    /** True when a read begins now. */
    method ReconcileChat() returns (begins: bool)
      modifies this
      ensures Reads(running, again) == Asked(old(Reads(running, again))) && begins == !old(running)
    {
      if running {
        again := true;
        return false;
      }
      running, again := true, false;
      return true;
    }

    /** The end of a turn of the loop: true when it goes round again. */
    method ReadEnded(disposed: bool) returns (begins: bool)
      modifies this
      ensures Reads(running, again) == Ended(old(Reads(running, again)), disposed)
      ensures begins == (!disposed && old(again))
    {
      if !disposed && again {
        again := false;
        return true;
      }
      running := false;
      return false;
    }
  }

  function Asked(r: Reads): Reads {
    if r.running then r.(again := true) else Reads(true, false)
  }

  function Ended(r: Reads, disposed: bool): Reads {
    if !disposed && r.again then r.(again := false) else r.(running := false)
  }

  predicate Enabled(w: World, step: Step) {
    match step
    case Tagged => !w.disposed
    case ReadEnds => w.flying > 0
    case Dispose => true
  }

  function Next(w: World, step: Step): World
    requires Enabled(w, step)
  {
    match step
    case Tagged =>
      if w.turn.running then w.(turn := Asked(w.turn), unread := true)
      else w.(turn := Asked(w.turn), flying := w.flying + 1, unread := false)
    case ReadEnds =>
      if !w.disposed && w.turn.again then w.(turn := Ended(w.turn, w.disposed), unread := false)
      else w.(turn := Ended(w.turn, w.disposed), flying := w.flying - 1)
    case Dispose => w.(disposed := true)
  }

  ghost predicate IsRun(w: World, steps: seq<Step>)
    decreases |steps|
  {
    steps != [] ==> Enabled(w, steps[0]) && IsRun(Next(w, steps[0]), steps[1..])
  }

  function After(w: World, steps: seq<Step>): World
    requires IsRun(w, steps)
    decreases |steps|
  {
    if steps == [] then w else After(Next(w, steps[0]), steps[1..])
  }

  predicate Inv(w: World) {
    && w.flying == (if w.turn.running then 1 else 0)
    && (!w.disposed && w.unread ==> w.turn.running && w.turn.again)
  }

  lemma {:induction false} RunKeeps(w: World, steps: seq<Step>)
    requires Inv(w) && IsRun(w, steps)
    ensures Inv(After(w, steps))
    decreases |steps|
  {
    if steps != [] {
      RunKeeps(Next(w, steps[0]), steps[1..]);
    }
  }

  /** Over every run, reads never overlap; while the panel is there a tag no read has begun after is read again when the
      one on its way ends; and once it is gone that read is the last. */
  lemma NoTagIsMissed(steps: seq<Step>)
    requires IsRun(World(Reads(false, false), false, 0, false), steps)
    ensures var w := After(World(Reads(false, false), false, 0, false), steps);
      && w.flying <= 1
      && (!w.disposed && w.unread ==>
            w.flying == 1 && Next(w, ReadEnds).flying == 1 && !Next(w, ReadEnds).unread)
      && (w.flying > 0 && (w.disposed || !w.turn.again) ==>
            Next(w, ReadEnds).flying == 0 && !Next(w, ReadEnds).turn.running)
  {
    RunKeeps(World(Reads(false, false), false, 0, false), steps);
  }
}
