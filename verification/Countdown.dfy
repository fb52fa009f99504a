/** The live countdown (client/src/stores/sessionStore.ts, client/src/hooks/useSessionSocket.ts): seconds left until the
    server's end time, by this device's clock corrected with the server's. All times are in milliseconds. */
module Countdown {
  import opened Option

  datatype Timer = Timer(endsAt: Option<int>, seconds: int, offset: int, hasOffset: bool, paused: bool, stamp: int)

  /** Math.ceil of a number of milliseconds, in seconds. */
  function CeilSeconds(ms: int): int {
    -((-ms) / 1000)
  }

  function Remaining(endsAt: int, now: int, offset: int): int {
    var left := CeilSeconds(endsAt - (now + offset));
    if left > 0 then left else 0
  }

  function EndsAtSet(t: Timer, endsAt: Option<int>, now: int): Timer {
    match endsAt
    case None => t.(endsAt := None)
    case Some(at) => t.(endsAt := Some(at), seconds := Remaining(at, now, t.offset))
  }

  function Ticked(t: Timer, now: int): Timer {
    if t.endsAt.None? || t.paused then t else t.(seconds := Remaining(t.endsAt.value, now, t.offset))
  }

  function OffsetLearned(t: Timer, serverNow: Option<int>, now: int): Timer {
    match serverNow
    case None => t
    case Some(at) => t.(offset := at - now, hasOffset := true)
  }

  /** A timer:sync, once it is not to be ignored: `secondsRemaining` is None when it is not a number. */
  datatype Sync = Sync(serverNow: Option<int>, endsAt: Option<int>, secondsRemaining: Option<int>, paused: Option<bool>)

  function Synced(t: Timer, sync: Sync, now: int): Timer {
    if sync.paused == Some(true) then
      t.(paused := true, endsAt := None,
         seconds := if sync.secondsRemaining.Some? then sync.secondsRemaining.value else t.seconds)
    else
      var t1 := OffsetLearned(if sync.paused == Some(false) then t.(paused := false) else t, sync.serverNow, now);
      if t1.hasOffset && sync.endsAt.Some? then EndsAtSet(t1, sync.endsAt, now)
      else if sync.secondsRemaining.Some? then
        EndsAtSet(t1, Some(now + t1.offset + sync.secondsRemaining.value * 1000), now)
      else if sync.endsAt.Some? then EndsAtSet(t1, sync.endsAt, now)
      else t1
  }

  /** session:round_started. */
  datatype Round = Round(serverNow: Option<int>, endsAt: Option<int>, durationSeconds: Option<int>)

  function RoundStarted(t: Timer, round: Round, now: int): Timer {
    var t1 := OffsetLearned(t.(paused := false), round.serverNow, now);
    var endsAt :=
      if t1.hasOffset && round.endsAt.Some? then round.endsAt.value
      else if round.durationSeconds.Some? then now + t1.offset + round.durationSeconds.value * 1000
      else if round.endsAt.Some? then round.endsAt.value
      else now + t1.offset;
    EndsAtSet(t1, Some(endsAt), now)
  }

  /** The timer's part of the session state read over HTTP. */
  datatype Snapshot = Snapshot(serverNow: Option<int>, endsAt: Option<int>, pausedLeft: Option<int>, paused: bool)

  function StateApplied(t: Timer, s: Snapshot, now: int): Timer {
    if s.serverNow.Some? && s.serverNow.value < t.stamp then t
    else
      var t1 := OffsetLearned(t, s.serverNow, now);
      t1.(endsAt := s.endsAt, paused := s.paused, stamp := if s.serverNow.Some? then s.serverNow.value else t.stamp,
          seconds := if s.endsAt.Some? then Remaining(s.endsAt.value, now, t1.offset)
                     else if s.pausedLeft.Some? then Remaining(s.pausedLeft.value, 0, 0)
                     else 0)
  }

  class SessionTimer {
    var timerEndsAt: Option<int>
    var timerSeconds: int
    var clockOffset: int
    var hasClockOffset: bool
    var isPaused: bool
    var fullStateStamp: int

    function State(): Timer
      reads this
    {
      Timer(timerEndsAt, timerSeconds, clockOffset, hasClockOffset, isPaused, fullStateStamp)
    }

    method SetTimerEndsAt(endsAt: Option<int>, now: int)
      modifies this`timerEndsAt, this`timerSeconds
      ensures State() == EndsAtSet(old(State()), endsAt, now)
    {
      timerEndsAt := endsAt;
      if endsAt.Some? {
        timerSeconds := Remaining(endsAt.value, now, clockOffset);
      }
    }

    method SetClockOffset(offset: int)
      modifies this`clockOffset, this`hasClockOffset
      ensures clockOffset == offset && hasClockOffset
    {
      clockOffset, hasClockOffset := offset, true;
    }

    method TickTimer(now: int)
      modifies this`timerSeconds
      ensures State() == Ticked(old(State()), now)
    {
      if timerEndsAt.None? || isPaused {
        return;
      }
      var remaining := Remaining(timerEndsAt.value, now, clockOffset);
      if remaining != timerSeconds {
        timerSeconds := remaining;
      }
    }

    method OnTimerSync(sync: Sync, now: int)
      modifies this
      ensures State() == Synced(old(State()), sync, now)
    {
      if sync.paused == Some(true) {
        isPaused := true;
        SetTimerEndsAt(None, now);
        if sync.secondsRemaining.Some? {
          timerSeconds := sync.secondsRemaining.value;
        }
        return;
      }
      if sync.paused == Some(false) {
        isPaused := false;
      }
      if sync.serverNow.Some? {
        SetClockOffset(sync.serverNow.value - now);
      }
      var trustAbsolute := (sync.serverNow.Some? || hasClockOffset) && sync.endsAt.Some?;
      if trustAbsolute {
        SetTimerEndsAt(sync.endsAt, now);
      } else if sync.secondsRemaining.Some? {
        SetTimerEndsAt(Some(now + clockOffset + sync.secondsRemaining.value * 1000), now);
      } else if sync.endsAt.Some? {
        SetTimerEndsAt(sync.endsAt, now);
      }
    }

    method OnRoundStarted(round: Round, now: int)
      modifies this
      ensures State() == RoundStarted(old(State()), round, now)
    {
      isPaused := false;
      if round.serverNow.Some? {
        SetClockOffset(round.serverNow.value - now);
      }
      var trustAbsolute := (round.serverNow.Some? || hasClockOffset) && round.endsAt.Some?;
      var endsAtMs :=
        if trustAbsolute then round.endsAt.value
        else if round.durationSeconds.Some? then now + clockOffset + round.durationSeconds.value * 1000
        else if round.endsAt.Some? then round.endsAt.value
        else now + clockOffset;
      timerSeconds := Remaining(endsAtMs, now, clockOffset);
      SetTimerEndsAt(Some(endsAtMs), now);
    }

    /** A state older than the one applied last is dropped whole. */
    method ApplyFullState(snapshot: Snapshot, now: int)
      modifies this
      ensures State() == StateApplied(old(State()), snapshot, now)
    {
      if snapshot.serverNow.Some? && snapshot.serverNow.value < fullStateStamp {
        return;
      }
      if snapshot.serverNow.Some? {
        SetClockOffset(snapshot.serverNow.value - now);
        fullStateStamp := snapshot.serverNow.value;
      }
      timerEndsAt, isPaused := snapshot.endsAt, snapshot.paused;
      if snapshot.endsAt.Some? {
        timerSeconds := Remaining(snapshot.endsAt.value, now, clockOffset);
      } else if snapshot.pausedLeft.Some? {
        timerSeconds := Remaining(snapshot.pausedLeft.value, 0, 0);
      } else {
        timerSeconds := 0;
      }
    }
  }

  // ── Clients whose clocks differ ──

  /** A client whose clock is `skew` ahead. `delay`: how long the message its offset was learned from took to arrive. */
  datatype Client = Client(timer: Timer, skew: int, delay: nat)

  /** What happens at a client, at true time `at`; a message was sent at `sent`, and says so when `stamped`. */
  datatype Step =
    | Tick(at: int)
    | SyncCame(at: int, sent: int, stamped: bool, sync: Sync)
    | RoundCame(at: int, sent: int, stamped: bool, round: Round)
    | StateCame(at: int, sent: int, stamped: bool, snapshot: Snapshot)

  function Stamp(sent: int, stamped: bool): Option<int> {
    if stamped then Some(sent) else None
  }

  /** A message arrives no sooner than it was sent, stamped with the server's time then, if at all. */
  predicate Enabled(step: Step) {
    match step
    case Tick(_) => true
    case SyncCame(at, sent, stamped, sync) => sent <= at && sync.serverNow == Stamp(sent, stamped)
    case RoundCame(at, sent, stamped, round) => sent <= at && round.serverNow == Stamp(sent, stamped)
    case StateCame(at, sent, stamped, snapshot) => sent <= at && snapshot.serverNow == Stamp(sent, stamped)
  }

  function Handled(t: Timer, step: Step, now: int): Timer {
    match step
    case Tick(_) => Ticked(t, now)
    case SyncCame(_, _, _, sync) => Synced(t, sync, now)
    case RoundCame(_, _, _, round) => RoundStarted(t, round, now)
    case StateCame(_, _, _, snapshot) => StateApplied(t, snapshot, now)
  }

  /** Whether this message's stamp is what the offset is learned from. */
  predicate Teaches(t: Timer, step: Step) {
    match step
    case Tick(_) => false
    case SyncCame(_, _, stamped, sync) => stamped && sync.paused != Some(true)
    case RoundCame(_, _, stamped, _) => stamped
    case StateCame(_, sent, stamped, _) => stamped && sent >= t.stamp
  }

  function Next(c: Client, step: Step): Client
    requires Enabled(step)
  {
    Client(Handled(c.timer, step, step.at + c.skew), c.skew,
           if Teaches(c.timer, step) then step.at - step.sent else c.delay)
  }

  ghost predicate IsRun(steps: seq<Step>) {
    forall i :: 0 <= i < |steps| ==> Enabled(steps[i])
  }

  function After(c: Client, steps: seq<Step>): Client
    requires IsRun(steps)
    decreases |steps|
  {
    if steps == [] then c else After(Next(c, steps[0]), steps[1..])
  }

  /** What an offset is worth: it takes the skew away, and leaves the client behind by the message's delay. */
  predicate OffsetIsTrue(c: Client) {
    if c.timer.hasOffset then c.timer.offset == -c.skew - c.delay else c.timer.offset == 0
  }

  lemma StepKeepsOffset(c: Client, step: Step)
    requires OffsetIsTrue(c) && Enabled(step)
    ensures OffsetIsTrue(Next(c, step)) && Next(c, step).skew == c.skew
  {
  }

  lemma {:induction false} RunKeepsOffset(c: Client, steps: seq<Step>)
    requires OffsetIsTrue(c) && IsRun(steps)
    ensures OffsetIsTrue(After(c, steps)) && After(c, steps).skew == c.skew
    decreases |steps|
  {
    if steps != [] {
      StepKeepsOffset(c, steps[0]);
      RunKeepsOffset(Next(c, steps[0]), steps[1..]);
    }
  }

  /** A client before it has heard anything. */
  function Loaded(skew: int): Client {
    Client(Timer(None, 0, 0, false, false, 0), skew, 0)
  }

  /** The seconds truly left at `at`. */
  function TrueSeconds(endsAt: int, at: int): int {
    var left := CeilSeconds(endsAt - at);
    if left > 0 then left else 0
  }

  function Apart(a: int, b: int): nat {
    if a > b then a - b else b - a
  }

  lemma CeilDifference(a: int, b: int)
    requires a >= b
    ensures 0 <= CeilSeconds(a) - CeilSeconds(b) <= CeilSeconds(a - b)
  {
  }

  /** Counting to the server's end time, with an offset learned from any message, on any clock: a client shows the
      seconds truly left, late by no more than that message's delay, and never fewer. */
  lemma ShownSeconds(skew: int, steps: seq<Step>, endsAt: int, at: int)
    requires IsRun(steps)
    requires var t := After(Loaded(skew), steps).timer; t.hasOffset && t.endsAt == Some(endsAt) && !t.paused
    ensures var c := After(Loaded(skew), steps);
      var shown := Next(c, Tick(at)).timer.seconds;
      && shown == TrueSeconds(endsAt + c.delay, at)
      && TrueSeconds(endsAt, at) <= shown <= TrueSeconds(endsAt, at) + CeilSeconds(c.delay)
  {
    RunKeepsOffset(Loaded(skew), steps);
    var c := After(Loaded(skew), steps);
    CeilDifference(endsAt + c.delay - at, endsAt - at);
  }

  /** Two clients that count to one end time, at one moment, differ by no more than their messages' delays do,
      rounded up to a second, whatever their clocks say. */
  lemma ClocksDoNotMatter(skew1: int, steps1: seq<Step>, skew2: int, steps2: seq<Step>, endsAt: int, at: int)
    requires IsRun(steps1) && IsRun(steps2)
    requires var t := After(Loaded(skew1), steps1).timer; t.hasOffset && t.endsAt == Some(endsAt) && !t.paused
    requires var t := After(Loaded(skew2), steps2).timer; t.hasOffset && t.endsAt == Some(endsAt) && !t.paused
    ensures var c1, c2 := After(Loaded(skew1), steps1), After(Loaded(skew2), steps2);
      Apart(Next(c1, Tick(at)).timer.seconds, Next(c2, Tick(at)).timer.seconds)
      <= CeilSeconds(Apart(c1.delay, c2.delay))
  {
    ShownSeconds(skew1, steps1, endsAt, at);
    ShownSeconds(skew2, steps2, endsAt, at);
    SecondsApart(endsAt, After(Loaded(skew1), steps1).delay, After(Loaded(skew2), steps2).delay, at);
  }

  lemma SecondsApart(endsAt: int, d1: nat, d2: nat, at: int)
    ensures Apart(TrueSeconds(endsAt + d1, at), TrueSeconds(endsAt + d2, at)) <= CeilSeconds(Apart(d1, d2))
  {
    if d1 >= d2 {
      CeilDifference(endsAt + d1 - at, endsAt + d2 - at);
    } else {
      CeilDifference(endsAt + d2 - at, endsAt + d1 - at);
    }
  }

  predicate UsesRelative(t: Timer, sync: Sync) {
    sync.paused != Some(true) && sync.secondsRemaining.Some?
    && !((sync.serverNow.Some? || t.hasOffset) && sync.endsAt.Some?)
  }

  /** Without an end time to trust, a sync shows exactly the server's seconds whatever the offset, and counts down from
      them by the client's own clock. */
  lemma RelativeIsExact(t: Timer, sync: Sync, now: int, elapsed: nat)
    requires UsesRelative(t, sync) && sync.secondsRemaining.value >= 0
    ensures var t' := Synced(t, sync, now);
      && t'.seconds == sync.secondsRemaining.value
      && (!t'.paused ==> Ticked(t', now + elapsed).seconds == TrueSeconds(sync.secondsRemaining.value * 1000, elapsed))
  {
  }
}
