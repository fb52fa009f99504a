/** What a member sees after each message of the countdown: the seconds to the end time it brings, or a frozen
    number. */
module CountdownShown {
  import opened Option
  import opened Countdown

  /** Whole seconds, rounded up: the fewest that are not over before the end. */
  lemma SecondsAreRoundedUp(endsAt: int, at: int)
    ensures var left := TrueSeconds(endsAt, at);
      left >= 0 && at + 1000 * left >= endsAt && (left > 0 ==> at + 1000 * (left - 1) < endsAt)
  {
  }

  /** At each moment `c` shows the seconds left to `endsAt`, late by its message's delay, never fewer. */
  ghost predicate ShowsSecondsTo(c: Client, endsAt: int) {
    forall at :: ShownAt(c, at) == TrueSeconds(endsAt + c.delay, at)
                 && TrueSeconds(endsAt, at) <= ShownAt(c, at) <= TrueSeconds(endsAt, at) + CeilSeconds(c.delay)
  }

  function ShownAt(c: Client, at: int): int {
    Next(c, Tick(at)).timer.seconds
  }

  lemma CountsTo(c: Client, endsAt: int)
    requires OffsetIsTrue(c) && c.timer.hasOffset && c.timer.endsAt == Some(endsAt) && !c.timer.paused
    ensures ShowsSecondsTo(c, endsAt)
  {
    forall at
      ensures ShownAt(c, at) == TrueSeconds(endsAt + c.delay, at)
      ensures TrueSeconds(endsAt, at) <= ShownAt(c, at) <= TrueSeconds(endsAt, at) + CeilSeconds(c.delay)
    {
      CeilDifference(endsAt + c.delay - at, endsAt - at);
    }
  }

  /** After any run, a sync that does not pause and brings an end time, stamped or heard after a stamped message,
      makes a client that is not paused count to that time; its delay is the sync's own when it is stamped. */
  lemma SyncSetsTheEnd(skew: int, steps: seq<Step>, at: int, sent: int, stamped: bool, sync: Sync)
    requires IsRun(steps) && Enabled(SyncCame(at, sent, stamped, sync)) && sync.endsAt.Some?
    requires var t := After(Loaded(skew), steps).timer;
      && (stamped || t.hasOffset)
      && (sync.paused == Some(false) || (sync.paused.None? && !t.paused))
    ensures var before := After(Loaded(skew), steps);
      var c := Next(before, SyncCame(at, sent, stamped, sync));
      && c.timer.endsAt == sync.endsAt && c.delay == (if stamped then at - sent else before.delay)
      && c.timer.seconds == ShownAt(c, at) && ShowsSecondsTo(c, sync.endsAt.value)
  {
    RunKeepsOffset(Loaded(skew), steps);
    var before := After(Loaded(skew), steps);
    StepKeepsOffset(before, SyncCame(at, sent, stamped, sync));
    CountsTo(Next(before, SyncCame(at, sent, stamped, sync)), sync.endsAt.value);
  }

  /** With no offset known, a sync that brings an end time and no seconds counts to it by this device's clock, and one
      that brings neither leaves the countdown as it is. */
  lemma SyncWithoutOffset(t: Timer, sync: Sync, now: int)
    requires !t.hasOffset && t.offset == 0 && sync.serverNow.None? && sync.paused != Some(true)
    requires sync.secondsRemaining.None?
    ensures Synced(t, sync, now)
         == t.(paused := t.paused && sync.paused.None?,
               endsAt := if sync.endsAt.Some? then sync.endsAt else t.endsAt,
               seconds := if sync.endsAt.Some? then TrueSeconds(sync.endsAt.value, now) else t.seconds)
  {
    if sync.endsAt.Some? {
      assert Remaining(sync.endsAt.value, now, 0) == TrueSeconds(sync.endsAt.value, now);
    }
    assert sync.paused.Some? ==> !sync.paused.value;
  }

  /** After any run, a new round whose end time can be trusted is counted down to at once, paused before or not; one
      that brings only its length shows all of it, whatever the clocks say, and one that brings neither shows none. */
  lemma RoundSetsTheEnd(skew: int, steps: seq<Step>, at: int, sent: int, stamped: bool, round: Round)
    requires IsRun(steps) && Enabled(RoundCame(at, sent, stamped, round))
    ensures var before := After(Loaded(skew), steps);
      var c := Next(before, RoundCame(at, sent, stamped, round));
      && !c.timer.paused && c.timer.seconds == ShownAt(c, at)
      && ((stamped || before.timer.hasOffset) && round.endsAt.Some? ==>
            c.timer.endsAt == round.endsAt && c.delay == (if stamped then at - sent else before.delay)
            && ShowsSecondsTo(c, round.endsAt.value))
      && (!((stamped || before.timer.hasOffset) && round.endsAt.Some?) && round.durationSeconds.Some?
          && round.durationSeconds.value >= 0 ==>
            forall elapsed: nat ::
              ShownAt(c, at + elapsed) == TrueSeconds(round.durationSeconds.value * 1000, elapsed))
      && (!((stamped || before.timer.hasOffset) && round.endsAt.Some?) && round.durationSeconds.None? ==>
            if round.endsAt.Some? then c.timer.endsAt == round.endsAt else c.timer.seconds == 0)
  {
    RunKeepsOffset(Loaded(skew), steps);
    var before := After(Loaded(skew), steps);
    var c := Next(before, RoundCame(at, sent, stamped, round));
    StepKeepsOffset(before, RoundCame(at, sent, stamped, round));
    if (stamped || before.timer.hasOffset) && round.endsAt.Some? {
      CountsTo(c, round.endsAt.value);
    }
  }

  /** After any run, a stamped state read over HTTP that is no older than the last one applied makes the client count to
      its end time, or shows what a paused round has left; an older one changes nothing. */
  lemma StateSetsTheEnd(skew: int, steps: seq<Step>, at: int, sent: int, s: Snapshot)
    requires IsRun(steps) && Enabled(StateCame(at, sent, true, s))
    ensures var before := After(Loaded(skew), steps);
      var c := Next(before, StateCame(at, sent, true, s));
      if sent < before.timer.stamp then c == before
      else
        && c.timer.paused == s.paused && c.timer.stamp == sent && c.timer.endsAt == s.endsAt && c.delay == at - sent
        && (s.endsAt.Some? ==> c.timer.seconds == TrueSeconds(s.endsAt.value + c.delay, at))
        && (s.endsAt.Some? && !s.paused ==> ShowsSecondsTo(c, s.endsAt.value))
        && (s.endsAt.None? ==> forall later ::
              ShownAt(c, later) == if s.pausedLeft.Some? then TrueSeconds(s.pausedLeft.value, 0) else 0)
  {
    RunKeepsOffset(Loaded(skew), steps);
    var before := After(Loaded(skew), steps);
    var step := StateCame(at, sent, true, s);
    StepKeepsOffset(before, step);
    if sent >= before.timer.stamp && s.endsAt.Some? && !s.paused {
      CountsTo(Next(before, step), s.endsAt.value);
    }
  }

  ghost predicate OnlyTicks(steps: seq<Step>) {
    forall i :: 0 <= i < |steps| ==> steps[i].Tick?
  }

  lemma {:induction false} TicksLeavePaused(c: Client, ticks: seq<Step>)
    requires OnlyTicks(ticks) && IsRun(ticks) && (c.timer.paused || c.timer.endsAt.None?)
    ensures After(c, ticks) == c
    decreases |ticks|
  {
    if ticks != [] {
      assert ticks[0].Tick?;
      assert Next(c, ticks[0]) == c;
      TicksLeavePaused(c, ticks[1..]);
    }
  }

  /** A sync that pauses shows the server's seconds, or when it brings none the ones that stood, and however long it is
      ticked they stay. */
  lemma PauseFreezes(c: Client, at: int, sent: int, stamped: bool, sync: Sync, ticks: seq<Step>)
    requires Enabled(SyncCame(at, sent, stamped, sync)) && sync.paused == Some(true) && OnlyTicks(ticks) && IsRun(ticks)
    ensures var paused := After(Next(c, SyncCame(at, sent, stamped, sync)), ticks).timer;
      && paused.paused && paused.endsAt.None?
      && paused.seconds == if sync.secondsRemaining.Some? then sync.secondsRemaining.value else c.timer.seconds
  {
    TicksLeavePaused(Next(c, SyncCame(at, sent, stamped, sync)), ticks);
  }
}
