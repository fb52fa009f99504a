/** The roster's coalesced refetch (client/src/hooks/useSessionSocket.ts): one fetch in flight, starts spaced by the
    window, and always one that starts after the last change. */
module RosterFetch {
  import opened Option

  const ROSTER_FETCH_WINDOW_MS := 3000

  /** `timer`: when the pending timer is due. */
  datatype Roster = Roster(timer: Option<int>, inFlight: bool, pending: bool, lastFetchAt: int)

  /** The wait before a fetch, moved by a random draw from 0 up to 1; a timer waits whole milliseconds. */
  function Delay(lastFetchAt: int, now: int, chance: real): int
    requires 0.0 <= chance < 1.0
  {
    var elapsed := now - lastFetchAt;
    if elapsed >= ROSTER_FETCH_WINDOW_MS then (chance * 300.0).Floor
    else ROSTER_FETCH_WINDOW_MS - elapsed + (chance * 1000.0).Floor
  }

  function Scheduled(r: Roster, now: int, chance: real): Roster
    requires 0.0 <= chance < 1.0
  {
    if r.timer.Some? then r else r.(timer := Some(now + Delay(r.lastFetchAt, now, chance)))
  }

  function Fired(r: Roster, now: int): Roster {
    var r' := r.(timer := None);
    if r.inFlight then r'.(pending := true) else r'.(inFlight := true, lastFetchAt := now)
  }

  function Ended(r: Roster, now: int, chance: real): Roster
    requires 0.0 <= chance < 1.0
  {
    var r' := r.(inFlight := false);
    if r.pending then Scheduled(r'.(pending := false), now, chance) else r'
  }

  class Fetcher {
    var rosterTimer: Option<int>
    var rosterFetchInFlight: bool
    var rosterPending: bool
    var lastRosterFetchAt: int

    function State(): Roster
      reads this
    {
      Roster(rosterTimer, rosterFetchInFlight, rosterPending, lastRosterFetchAt)
    }

    constructor ()
      ensures State() == Roster(None, false, false, 0)
    {
      rosterTimer, rosterFetchInFlight, rosterPending, lastRosterFetchAt := None, false, false, 0;
    }

    method ScheduleRosterFetch(now: int, chance: real)
      requires 0.0 <= chance < 1.0
      modifies this`rosterTimer
      ensures State() == Scheduled(old(State()), now, chance)
    {
      if rosterTimer.Some? {
        return;
      }
      var elapsed := now - lastRosterFetchAt;
      var delay := if elapsed >= ROSTER_FETCH_WINDOW_MS then (chance * 300.0).Floor
                   else (ROSTER_FETCH_WINDOW_MS - elapsed) + (chance * 1000.0).Floor;
      rosterTimer := Some(now + delay);
    }

    /** The timer's callback: true when it starts a fetch. */
    method TimerFired(now: int) returns (started: bool)
      modifies this
      ensures State() == Fired(old(State()), now) && started == !old(rosterFetchInFlight)
    {
      rosterTimer := None;
      if rosterFetchInFlight {
        rosterPending := true;
        return false;
      }
      rosterFetchInFlight := true;
      lastRosterFetchAt := now;
      return true;
    }

    method FetchEnded(now: int, chance: real)
      requires 0.0 <= chance < 1.0
      modifies this
      ensures State() == Ended(old(State()), now, chance)
    {
      rosterFetchInFlight := false;
      if rosterPending {
        rosterPending := false;
        ScheduleRosterFetch(now, chance);
      }
    }
  }

  // ── Runs ──

  datatype Step =
    | RosterChanged(now: int, chance: real)
    | TimerFires(now: int)
    | FetchEnds(now: int, chance: real)

  /** The rest is history: when fetches started, how many are on their way, and whether the roster has changed since the
      last one started. */
  datatype World = World(roster: Roster, clock: int, starts: seq<int>, flying: nat, unseen: bool)

  predicate Enabled(w: World, step: Step) {
    && w.clock <= step.now
    && match step
       case RosterChanged(_, chance) => 0.0 <= chance < 1.0
       case TimerFires(now) => w.roster.timer.Some? && w.roster.timer.value <= now
       case FetchEnds(_, chance) => w.flying > 0 && 0.0 <= chance < 1.0
  }

  function Next(w: World, step: Step): World
    requires Enabled(w, step)
  {
    match step
    case RosterChanged(now, chance) =>
      w.(roster := Scheduled(w.roster, now, chance), clock := now, unseen := true)
    case TimerFires(now) =>
      if w.roster.inFlight then w.(roster := Fired(w.roster, now), clock := now)
      else World(Fired(w.roster, now), now, w.starts + [now], w.flying + 1, false)
    case FetchEnds(now, chance) =>
      w.(roster := Ended(w.roster, now, chance), clock := now, flying := w.flying - 1)
  }

  ghost predicate IsRun(w: World, steps: seq<Step>)
    decreases |steps|
  {
    steps != [] ==> Enabled(w, steps[0]) && IsRun(Next(w, steps[0]), steps[1..])
  }

  function After(w: World, steps: seq<Step>): World
    requires IsRun(w, steps)
    decreases |steps|
  {
    if steps == [] then w else After(Next(w, steps[0]), steps[1..])
  }

  ghost predicate Spaced(starts: seq<int>) {
    forall i :: 0 < i < |starts| ==> starts[i] - starts[i - 1] >= ROSTER_FETCH_WINDOW_MS
  }

  /** A change no fetch has seen has a timer pending, or a fetch in flight that will set one when it ends. */
  predicate WillBeSeen(w: World) {
    w.unseen ==> w.roster.timer.Some? || (w.roster.inFlight && w.roster.pending)
  }

  ghost predicate Inv(w: World) {
    && Spaced(w.starts) && WillBeSeen(w)
    && w.flying == (if w.roster.inFlight then 1 else 0)
    && (w.roster.pending ==> w.roster.inFlight)
    && w.roster.lastFetchAt <= w.clock
    && (if w.starts == [] then !w.roster.inFlight else w.roster.lastFetchAt == w.starts[|w.starts| - 1])
    && (w.roster.timer.Some? ==> w.roster.timer.value >= w.roster.lastFetchAt + ROSTER_FETCH_WINDOW_MS)
  }

  /** A fetch starts within 300 ms when the window is over, and within a second of its end when it is not: a timer waits
      less than four seconds, and never fires inside the window. */
  lemma DelayIsBounded(lastFetchAt: int, now: int, chance: real)
    requires 0.0 <= chance < 1.0 && lastFetchAt <= now
    ensures var ends, fires := lastFetchAt + 3000, now + Delay(lastFetchAt, now, chance);
      && ends <= fires && now <= fires < now + 4000
      && (if now >= ends then fires < now + 300 else fires < ends + 1000)
  {
    assert 0 <= (chance * 300.0).Floor < 300;
    assert 0 <= (chance * 1000.0).Floor < 1000;
  }

  /** However many changes come, none puts a pending timer off: only its firing takes it away. A change with no timer
      pending sets one, and so does the end of a fetch during which the timer fired. */
  lemma TimerIsNotPutOff(w: World, step: Step)
    requires Inv(w) && Enabled(w, step)
    ensures var after := Next(w, step).roster.timer;
      && (w.roster.timer.Some? ==> after == if step.TimerFires? then None else w.roster.timer)
      && (w.roster.timer.None? && (step.RosterChanged? || (step.FetchEnds? && w.roster.pending)) ==>
            after.Some? && step.now <= after.value < step.now + 4000)
      && (w.roster.timer.None? && step.FetchEnds? && !w.roster.pending ==> after.None?)
  {
    if step.RosterChanged? || step.FetchEnds? {
      DelayIsBounded(w.roster.lastFetchAt, step.now, step.chance);
    }
  }

  lemma StepKeeps(w: World, step: Step)
    requires Inv(w) && Enabled(w, step)
    ensures Inv(Next(w, step))
  {
    match step
    case RosterChanged(now, chance) => DelayIsBounded(w.roster.lastFetchAt, now, chance);
    case TimerFires(now) =>
    case FetchEnds(now, chance) => DelayIsBounded(w.roster.lastFetchAt, now, chance);
  }

  lemma {:induction false} RunKeeps(w: World, steps: seq<Step>)
    requires Inv(w) && IsRun(w, steps)
    ensures Inv(After(w, steps))
    decreases |steps|
  {
    if steps != [] {
      StepKeeps(w, steps[0]);
      RunKeeps(Next(w, steps[0]), steps[1..]);
    }
  }

  const LOADED := Roster(None, false, false, 0)

  /** Over every run: fetch starts are a window apart, at most one is on its way, and a change since the last start
      always has a timer pending, or a fetch in flight that sets one; so at rest no change is unseen. */
  lemma NoChangeIsMissed(clock: nat, steps: seq<Step>)
    requires IsRun(World(LOADED, clock, [], 0, false), steps)
    ensures var w := After(World(LOADED, clock, [], 0, false), steps);
      Spaced(w.starts) && w.flying <= 1 && WillBeSeen(w) && (w.roster.timer.None? && !w.roster.inFlight ==> !w.unseen)
  {
    RunKeeps(World(LOADED, clock, [], 0, false), steps);
  }

  predicate OnlyOwnSteps(steps: seq<Step>) {
    forall i :: 0 <= i < |steps| ==> !steps[i].RosterChanged?
  }

  /** Left alone, the end of the fetch in flight and the timer are all it takes for the last change to be fetched. */
  lemma SeenWithinTwoSteps(w: World, now: int, chance: real) returns (steps: seq<Step>)
    requires Inv(w) && w.unseen && w.clock <= now && 0.0 <= chance < 1.0
    ensures IsRun(w, steps) && |steps| <= 2 && OnlyOwnSteps(steps) && !After(w, steps).unseen
  {
    if w.roster.inFlight {
      var ended := FetchEnds(now, chance);
      StepKeeps(w, ended);
      steps := SeenOnceIdle(Next(w, ended));
      assert ([ended] + steps)[1..] == steps;
      steps := [ended] + steps;
    } else {
      steps := SeenOnceIdle(w);
    }
  }

  lemma SeenOnceIdle(w: World) returns (steps: seq<Step>)
    requires Inv(w) && w.unseen && !w.roster.inFlight
    ensures IsRun(w, steps) && |steps| == 1 && OnlyOwnSteps(steps) && !After(w, steps).unseen
  {
    var due := w.roster.timer.value;
    var fires := TimerFires(if due > w.clock then due else w.clock);
    steps := [fires];
    assert steps[1..] == [];
    assert IsRun(Next(w, fires), []);
  }
}
