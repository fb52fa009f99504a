/** The background effect's frame watch (client/src/lib/bgFrameHealth.ts): slow frames step the effect down once, then
    turn it off; two catastrophic frames in a row turn it off at once. */
module FrameHealth {

  const BG_HEALTH_WINDOW := 45
  const BG_BREACH_RATIO := 0.3
  const BG_WARMUP_FRAMES := 20

  /** What the device is judged by, in milliseconds a frame. */
  datatype Limits = Limits(budgetMs: real, watchdogMs: real)

  datatype Action = Ok | Reduce | Disable

  datatype Monitor = Monitor(breaches: seq<bool>, reduced: bool, finished: bool, total: nat, catastrophic: nat)

  function Over(breaches: seq<bool>): nat {
    if breaches == [] then 0
    else Over(breaches[..|breaches| - 1]) + if breaches[|breaches| - 1] then 1 else 0
  }

  function EvaluateFrameHealth(breachRatio: real, reduced: bool): Action {
    if breachRatio <= BG_BREACH_RATIO then Ok else if !reduced then Reduce else Disable
  }

  function Last(s: seq<bool>, n: nat): seq<bool> {
    if |s| > n then s[|s| - n..] else s
  }

  /** The window judged: acts when it breaches. */
  function Judged(m: Monitor): (Monitor, Action)
    requires |m.breaches| > 0
  {
    match EvaluateFrameHealth(Over(m.breaches) as real / |m.breaches| as real, m.reduced)
    case Ok => (m, Ok)
    case Reduce => (m.(reduced := true, breaches := []), Reduce)
    case Disable => (m.(finished := true), Disable)
  }

  /** One frame, and the handler it calls. */
  function Watched(m: Monitor, limits: Limits, ms: real): (Monitor, Action) {
    if m.finished then (m, Ok)
    else if m.total < BG_WARMUP_FRAMES then (m.(total := m.total + 1), Ok)
    else if ms >= limits.watchdogMs then
      (m.(total := m.total + 1, catastrophic := m.catastrophic + 1, finished := m.catastrophic >= 1),
       if m.catastrophic >= 1 then Disable else Ok)
    else
      var breaches := m.breaches + [ms > limits.budgetMs];
      var m' := m.(total := m.total + 1, catastrophic := 0, breaches := Last(breaches, BG_HEALTH_WINDOW));
      if |breaches| < BG_HEALTH_WINDOW then (m', Ok) else Judged(m')
  }

  class FrameMonitor {
    const limits: Limits
    var breaches: seq<bool>
    var reduced: bool
    var finished: bool
    var total: nat
    var catastrophic: nat

    function State(): Monitor
      reads this
    {
      Monitor(breaches, reduced, finished, total, catastrophic)
    }

    constructor (limits: Limits, startReduced: bool)
      ensures State() == Monitor([], startReduced, false, 0, 0) && this.limits == limits
    {
      this.limits := limits;
      breaches, reduced, finished, total, catastrophic := [], startReduced, false, 0, 0;
    }

    method OnFrameProcessed(ms: real) returns (fired: Action)
      modifies this
      ensures (State(), fired) == Watched(old(State()), limits, ms)
    {
      if finished {
        return Ok;
      }
      total := total + 1;
      if total <= BG_WARMUP_FRAMES {
        return Ok;
      }
      if ms >= limits.watchdogMs {
        catastrophic := catastrophic + 1;
        if catastrophic >= 2 {
          finished := true;
          return Disable;
        }
        return Ok;
      }
      catastrophic := 0;
      breaches := breaches + [ms > limits.budgetMs];
      if |breaches| < BG_HEALTH_WINDOW {
        return Ok;
      }
      Shift();
      fired := EvaluateFrameHealth(Over(breaches) as real / |breaches| as real, reduced);
      if fired == Reduce {
        reduced := true;
        breaches := [];
      } else if fired == Disable {
        finished := true;
      }
    }

    /** Drops the oldest until the window's length is left. */
    method Shift()
      requires |breaches| >= BG_HEALTH_WINDOW
      modifies this`breaches
      ensures breaches == Last(old(breaches), BG_HEALTH_WINDOW)
    {
      ghost var all := breaches;
      while |breaches| > BG_HEALTH_WINDOW
        invariant BG_HEALTH_WINDOW <= |breaches| <= |all| && breaches == all[|all| - |breaches|..]
      {
        breaches := breaches[1..];
      }
    }
  }
}
