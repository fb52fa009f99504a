/** What the frame watch does, told from the frames alone. */
module FrameLadder {
  import opened FrameHealth

  datatype Event = Event(frame: nat, action: Action)

  /** `since`: how many frames had been seen when the window was last reset; `fired`: the handlers called, each with its
      frame's number. */
  datatype History = History(monitor: Monitor, since: nat, fired: seq<Event>)

  function Noted(h: History, m: Monitor, action: Action, frame: nat): History {
    History(m, if action == Reduce then frame else h.since,
            if action == Ok then h.fired else h.fired + [Event(frame, action)])
  }

  function Stepped(h: History, limits: Limits, ms: real, frame: nat): History {
    var (monitor, action) := Watched(h.monitor, limits, ms);
    Noted(h, monitor, action, frame)
  }

  /** The watch after the first `n` frames. */
  function Seen(limits: Limits, startReduced: bool, frames: seq<real>, n: nat): History
    requires n <= |frames|
  {
    if n == 0 then History(Monitor([], startReduced, false, 0, 0), 0, [])
    else Stepped(Seen(limits, startReduced, frames, n - 1), limits, frames[n - 1], n)
  }

  /** Frame `i` is judged by the window: warm-up is over, and it is not catastrophic. */
  predicate IsCounted(limits: Limits, frames: seq<real>, since: nat, i: nat)
    requires i < |frames|
  {
    i >= BG_WARMUP_FRAMES && i >= since && frames[i] < limits.watchdogMs
  }

  /** Which of the frames judged from `since` to `n` were over the budget. */
  function Counted(limits: Limits, frames: seq<real>, since: nat, n: nat): seq<bool>
    requires n <= |frames|
  {
    if n == 0 then []
    else
      Counted(limits, frames, since, n - 1)
      + if IsCounted(limits, frames, since, n - 1) then [frames[n - 1] > limits.budgetMs] else []
  }

  predicate IsCatastrophic(limits: Limits, frames: seq<real>, i: int)
    requires i < |frames|
  {
    i >= BG_WARMUP_FRAMES && frames[i] >= limits.watchdogMs
  }

  /** How many of the frames judged, from this one on, were over the budget. */
  function SlowFrom(judged: seq<bool>, from: nat): nat
    requires from <= |judged|
    decreases |judged| - from
  {
    if from == |judged| then 0 else (if judged[from] then 1 else 0) + SlowFrom(judged, from + 1)
  }

  /** The last 45 frames judged, when there are as many, hold 14 or more over the budget. */
  predicate Breaches(judged: seq<bool>) {
    |judged| >= 45 && SlowFrom(judged, |judged| - 45) >= 14
  }

  /** What the next frame must lead to, by the frames so far. */
  function Expected(limits: Limits, frames: seq<real>, n: nat, since: nat, reduced: bool): Action
    requires n < |frames|
  {
    if IsCatastrophic(limits, frames, n) then
      if IsCatastrophic(limits, frames, n - 1) then Disable else Ok
    else if IsCounted(limits, frames, since, n) && Breaches(Counted(limits, frames, since, n + 1)) then
      if reduced then Disable else Reduce
    else Ok
  }

  // ── The window is the history ──

  lemma RatioNeedsFourteen(window: seq<bool>)
    requires |window| == BG_HEALTH_WINDOW
    ensures Over(window) as real / |window| as real <= BG_BREACH_RATIO <==> Over(window) < 14
  {
    var over := Over(window);
    assert over as real / 45.0 <= 0.3 <==> over as real <= 13.5;
  }

  lemma {:induction false} OverCons(x: bool, s: seq<bool>)
    ensures Over([x] + s) == Over(s) + if x then 1 else 0
  {
    var all := [x] + s;
    if s == [] {
      assert all[..0] == [];
    } else {
      OverCons(x, s[..|s| - 1]);
      assert all[..|all| - 1] == [x] + s[..|s| - 1];
    }
  }

  lemma {:induction false} OverIsSlowFrom(s: seq<bool>, from: nat)
    requires from <= |s|
    ensures Over(s[from..]) == SlowFrom(s, from)
    decreases |s| - from
  {
    if from < |s| {
      OverIsSlowFrom(s, from + 1);
      OverCons(s[from], s[from + 1..]);
      assert s[from..] == [s[from]] + s[from + 1..];
    }
  }

  /** A window that breaches is the last 45 frames judged with 14 or more over the budget. */
  lemma WindowBreaches(judged: seq<bool>)
    requires |judged| >= BG_HEALTH_WINDOW
    ensures Breaches(judged) <==> Over(Last(judged, BG_HEALTH_WINDOW)) >= 14
  {
    OverIsSlowFrom(judged, |judged| - BG_HEALTH_WINDOW);
    assert judged[0..] == judged;
  }

  lemma LastMore(s: seq<bool>, x: bool, n: nat)
    requires n > 0
    ensures Last(Last(s, n) + [x], n) == Last(s + [x], n)
    ensures |Last(s, n) + [x]| >= n <==> |s + [x]| >= n
  {
  }

  lemma {:induction false} CountedAtMost(limits: Limits, frames: seq<real>, since: nat, n: nat)
    requires n <= |frames|
    ensures var from := if since > BG_WARMUP_FRAMES then since else BG_WARMUP_FRAMES;
      |Counted(limits, frames, since, n)| <= if n > from then n - from else 0
  {
    if n != 0 {
      CountedAtMost(limits, frames, since, n - 1);
    }
  }

  /** The handlers called so far: the step down, when there was one. */
  function StepDown(since: nat): seq<Event> {
    if since > 0 then [Event(since, Reduce)] else []
  }

  predicate Inv(limits: Limits, startReduced: bool, frames: seq<real>, n: nat, h: History)
    requires n <= |frames|
  {
    var m, down := h.monitor, StepDown(h.since);
    && h.since <= n && m.reduced == (startReduced || h.since > 0) && (h.since > 0 ==> !startReduced && h.since >= 65)
    && if m.finished then |h.fired| == |down| + 1 && h.fired == down + [Event(h.fired[|down|].frame, Disable)]
       else
         && h.fired == down && m.total == n
         && m.breaches == Last(Counted(limits, frames, h.since, n), BG_HEALTH_WINDOW)
         && m.catastrophic == (if IsCatastrophic(limits, frames, n - 1) then 1 else 0)
  }

  /** The next frame leads to what the frames so far say it must. */
  lemma ActsAsExpected(limits: Limits, startReduced: bool, frames: seq<real>, n: nat, h: History)
    requires n < |frames| && Inv(limits, startReduced, frames, n, h) && !h.monitor.finished
    ensures Watched(h.monitor, limits, frames[n]).1 == Expected(limits, frames, n, h.since, h.monitor.reduced)
  {
    var m, judged := h.monitor, Counted(limits, frames, h.since, n);
    if n >= BG_WARMUP_FRAMES && frames[n] < limits.watchdogMs {
      var flag := frames[n] > limits.budgetMs;
      LastMore(judged, flag, BG_HEALTH_WINDOW);
      assert Counted(limits, frames, h.since, n + 1) == judged + [flag];
      if |judged + [flag]| >= BG_HEALTH_WINDOW {
        RatioNeedsFourteen(Last(judged + [flag], BG_HEALTH_WINDOW));
        WindowBreaches(judged + [flag]);
      }
    }
  }

  /** The next frame cannot act before the ladder has had its frames. */
  lemma NothingTooEarly(limits: Limits, startReduced: bool, frames: seq<real>, n: nat, h: History)
    requires n < |frames| && Inv(limits, startReduced, frames, n, h) && !h.monitor.finished
    ensures match Watched(h.monitor, limits, frames[n]).1
            case Ok => true
            case Reduce => n + 1 >= 65 && !startReduced && h.since == 0
            case Disable =>
              n + 1 >= if IsCatastrophic(limits, frames, n) then 22 else if startReduced then 65 else 110
  {
    ActsAsExpected(limits, startReduced, frames, n, h);
    CountedAtMost(limits, frames, h.since, n + 1);
  }

  lemma CountedNoneYet(limits: Limits, frames: seq<real>, n: nat)
    requires n <= |frames|
    ensures Counted(limits, frames, n, n) == []
  {
    CountedAtMost(limits, frames, n, n);
  }

  /** A monitor after a frame that acts on nothing, on the window, or on a catastrophe. */
  predicate Moved(limits: Limits, frames: seq<real>, n: nat, h: History, m: Monitor, action: Action)
    requires n < |frames|
  {
    && m.finished == (action == Disable) && m.total == n + 1 && m.reduced == (h.monitor.reduced || action == Reduce)
    && (action != Disable ==> m.catastrophic == if IsCatastrophic(limits, frames, n) then 1 else 0)
    && (action == Reduce ==> m.breaches == [])
    && (action == Ok ==> m.breaches == Last(Counted(limits, frames, h.since, n + 1), BG_HEALTH_WINDOW))
  }

  lemma MonitorMoves(limits: Limits, startReduced: bool, frames: seq<real>, n: nat, h: History)
    requires n < |frames| && Inv(limits, startReduced, frames, n, h) && !h.monitor.finished
    ensures var (m, action) := Watched(h.monitor, limits, frames[n]); Moved(limits, frames, n, h, m, action)
  {
    var judged := Counted(limits, frames, h.since, n);
    if IsCounted(limits, frames, h.since, n) {
      LastMore(judged, frames[n] > limits.budgetMs, BG_HEALTH_WINDOW);
    } else {
      assert Counted(limits, frames, h.since, n + 1) == judged;
    }
  }

  lemma MovedKeeps(limits: Limits, startReduced: bool, frames: seq<real>, n: nat, h: History, m: Monitor,
                   action: Action)
    requires n < |frames| && Inv(limits, startReduced, frames, n, h) && !h.monitor.finished
    requires Moved(limits, frames, n, h, m, action)
    requires action == Reduce ==> n + 1 >= 65 && !startReduced && h.since == 0
    ensures Inv(limits, startReduced, frames, n + 1, Noted(h, m, action, n + 1))
  {
    CountedNoneYet(limits, frames, n + 1);
  }

  lemma StepKeeps(limits: Limits, startReduced: bool, frames: seq<real>, n: nat, h: History)
    requires n < |frames| && Inv(limits, startReduced, frames, n, h)
    ensures Inv(limits, startReduced, frames, n + 1, Stepped(h, limits, frames[n], n + 1))
  {
    if !h.monitor.finished {
      MonitorMoves(limits, startReduced, frames, n, h);
      NothingTooEarly(limits, startReduced, frames, n, h);
      var (m, action) := Watched(h.monitor, limits, frames[n]);
      MovedKeeps(limits, startReduced, frames, n, h, m, action);
    }
  }

  /** The incremental window is the history's: up to 45 of the last judged frames since the step down. Each handler is
      called at most once, the step down first, and nothing after the effect is off. */
  lemma {:induction false} WatchFollowsHistory(limits: Limits, startReduced: bool, frames: seq<real>, n: nat)
    requires n <= |frames|
    ensures Inv(limits, startReduced, frames, n, Seen(limits, startReduced, frames, n))
  {
    if n != 0 {
      WatchFollowsHistory(limits, startReduced, frames, n - 1);
      StepKeeps(limits, startReduced, frames, n - 1, Seen(limits, startReduced, frames, n - 1));
    }
  }

  /** At every frame, the watch acts exactly when the frames say so: off at the second catastrophic frame in a row;
      stepped down, or off when it was already, when 14 of the last 45 frames judged were over the budget. */
  lemma ActsExactlyWhenItMust(limits: Limits, startReduced: bool, frames: seq<real>, n: nat)
    requires n < |frames|
    ensures var h := Seen(limits, startReduced, frames, n);
      Watched(h.monitor, limits, frames[n]).1
      == if h.monitor.finished then Ok else Expected(limits, frames, n, h.since, startReduced || h.since > 0)
  {
    WatchFollowsHistory(limits, startReduced, frames, n);
    if !Seen(limits, startReduced, frames, n).monitor.finished {
      ActsAsExpected(limits, startReduced, frames, n, Seen(limits, startReduced, frames, n));
    }
  }

  /** No step down before frame 65, no turning off by the ladder before frame 110 (65 when it started stepped down), and
      none by catastrophic frames before frame 22. */
  lemma ActsNoEarlier(limits: Limits, startReduced: bool, frames: seq<real>, n: nat)
    requires n < |frames|
    ensures var h := Seen(limits, startReduced, frames, n);
      match Watched(h.monitor, limits, frames[n]).1
      case Ok => true
      case Reduce => n + 1 >= 65 && !startReduced && h.since == 0
      case Disable => n + 1 >= if IsCatastrophic(limits, frames, n) then 22 else if startReduced then 65 else 110
  {
    WatchFollowsHistory(limits, startReduced, frames, n);
    if !Seen(limits, startReduced, frames, n).monitor.finished {
      NothingTooEarly(limits, startReduced, frames, n, Seen(limits, startReduced, frames, n));
    }
  }

  // ── A device that is always slow ──

  ghost predicate AlwaysSlow(limits: Limits, frames: seq<real>) {
    forall i :: 0 <= i < |frames| ==> limits.budgetMs < frames[i] < limits.watchdogMs
  }

  predicate AllTrue(s: seq<bool>) {
    forall i :: 0 <= i < |s| ==> s[i]
  }

  lemma {:induction false} CountedAllSlow(limits: Limits, frames: seq<real>, since: nat, n: nat)
    requires n <= |frames| && AlwaysSlow(limits, frames)
    ensures var from := if since > BG_WARMUP_FRAMES then since else BG_WARMUP_FRAMES;
      |Counted(limits, frames, since, n)| == (if n > from then n - from else 0)
    ensures AllTrue(Counted(limits, frames, since, n))
  {
    if n != 0 {
      CountedAllSlow(limits, frames, since, n - 1);
    }
  }

  lemma {:induction false} OverAll(s: seq<bool>)
    requires AllTrue(s)
    ensures Over(s) == |s|
  {
    if s != [] {
      OverAll(s[..|s| - 1]);
    }
  }

  function SlowEvents(n: nat): seq<Event> {
    if n < 65 then [] else if n < 110 then [Event(65, Reduce)] else [Event(65, Reduce), Event(110, Disable)]
  }

  lemma SlowState(limits: Limits, frames: seq<real>, n: nat, h: History)
    requires n <= |frames| && Inv(limits, false, frames, n, h) && h.fired == SlowEvents(n)
    ensures h.monitor.finished <==> n >= 110
    ensures !h.monitor.finished ==> h.since == if n >= 65 then 65 else 0
  {
    var down := StepDown(h.since);
    if h.monitor.finished {
      assert h.fired[|down|].action == Disable;
    } else {
      assert h.fired == down;
    }
  }

  lemma SlowExpected(limits: Limits, frames: seq<real>, n: nat)
    requires n < |frames| && AlwaysSlow(limits, frames) && n < 110
    ensures Expected(limits, frames, n, if n >= 65 then 65 else 0, n >= 65)
         == if n + 1 == 65 then Reduce else if n + 1 == 110 then Disable else Ok
  {
    var judged := Counted(limits, frames, if n >= 65 then 65 else 0, n + 1);
    CountedAllSlow(limits, frames, if n >= 65 then 65 else 0, n + 1);
    OverAll(Last(judged, BG_HEALTH_WINDOW));
    if |judged| >= BG_HEALTH_WINDOW {
      WindowBreaches(judged);
    }
  }

  function SlowAction(frame: nat): Action {
    if frame == 65 then Reduce else if frame == 110 then Disable else Ok
  }

  lemma SlowActs(limits: Limits, frames: seq<real>, n: nat)
    requires n < |frames| && AlwaysSlow(limits, frames)
    requires Seen(limits, false, frames, n).fired == SlowEvents(n)
    ensures Watched(Seen(limits, false, frames, n).monitor, limits, frames[n]).1 == SlowAction(n + 1)
  {
    WatchFollowsHistory(limits, false, frames, n);
    SlowState(limits, frames, n, Seen(limits, false, frames, n));
    ActsExactlyWhenItMust(limits, false, frames, n);
    if n < 110 {
      SlowExpected(limits, frames, n);
    }
  }

  lemma SlowNoted(h: History, m: Monitor, n: nat)
    requires h.fired == SlowEvents(n)
    ensures Noted(h, m, SlowAction(n + 1), n + 1).fired == SlowEvents(n + 1)
  {
  }

  /** On a device whose every frame is over the budget, and none catastrophic, the effect steps down at frame 65 and
      is off at frame 110: the ladder's bounds are met. */
  lemma {:induction false} AlwaysSlowStepsDownThenOff(limits: Limits, frames: seq<real>, n: nat)
    requires n <= |frames| && AlwaysSlow(limits, frames)
    ensures Seen(limits, false, frames, n).fired == SlowEvents(n)
  {
    if n != 0 {
      AlwaysSlowStepsDownThenOff(limits, frames, n - 1);
      SlowActs(limits, frames, n - 1);
      var h := Seen(limits, false, frames, n - 1);
      SlowNoted(h, Watched(h.monitor, limits, frames[n - 1]).0, n - 1);
    }
  }
}
