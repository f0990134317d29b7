/**
  The KPA decider: rate clamps, the stable/panic automaton and the scale-down delay.

  float64 is modelled by real and the rates and the target are taken to be positive, so no
  division by zero occurs.  Instants are positive; 0 is the zero time, "not panicking".
  Observed values come from the metric collector and are arguments here.
*/
module Kpa {
  import opened Wrappers

  type Rate = r: real | 0.0 < r witness 1.0

  datatype Config = Config(
    target: Rate, upRate: Rate, downRate: Rate, stableWindow: int, panicThreshold: real, hasDelay: bool)

  datatype Observation = Observation(stable: real, panic: real, instant: int)

  /** One call of Reconcile.  In the delay window, others is the largest value that is still
      inside besides the one being recorded. */
  datatype Call = Call(now: Instant, ready: nat, seen: Observation, others: int)

  datatype Decider = Decider(panicTime: int, maxPanicPods: int, desiredScale: int)

  const Idle := Decider(0, 0, 0)

  const MaxInt32 := 0x7fff_ffff
  const MinInt32 := -0x8000_0000

  function Ceil(x: real): int {
    -((-x).Floor)
  }

  function Int32(x: int): int {
    (x + 0x8000_0000) % 0x1_0000_0000 - 0x8000_0000
  }

  function Clamp(x: int, low: int, up: int): int {
    Min(Max(x, low), up)
  }

  // ----- what one call computes

  predicate Kick(a: Call) {
    a.ready == 0 && a.seen.instant > 0
  }

  function Upper(c: Config, a: Call): int {
    var up := Ceil(c.upRate * Max(1, a.ready) as real);
    if Kick(a) then Max(up, 1) else up
  }

  function Lower(c: Config, a: Call): int {
    var low := (Max(1, a.ready) as real / c.downRate).Floor;
    if Kick(a) then Max(low, 1) else low
  }

  function Wanted(c: Config, value: real): int {
    Ceil(value / c.target)
  }

  function StableCount(c: Config, a: Call): int {
    Clamp(Wanted(c, a.seen.stable), Lower(c, a), Upper(c, a))
  }

  function PanicCount(c: Config, a: Call): int {
    Clamp(Wanted(c, a.seen.panic), Lower(c, a), Upper(c, a))
  }

  predicate OverThreshold(c: Config, a: Call) {
    Wanted(c, a.seen.panic) as real / Max(1, a.ready) as real >= c.panicThreshold
  }

  function PanicTime(c: Config, d: Decider, a: Call): int {
    if OverThreshold(c, a) then a.now
    else if d.panicTime + c.stableWindow < a.now then 0
    else d.panicTime
  }

  function MaxPanicPods(c: Config, d: Decider, a: Call): int {
    if PanicTime(c, d, a) != 0 then Max(d.maxPanicPods, Max(StableCount(c, a), PanicCount(c, a)))
    else if d.panicTime != 0 then 0
    else d.maxPanicPods
  }

  /** The decision before the delay window. */
  function PreDelay(c: Config, d: Decider, a: Call): int {
    if PanicTime(c, d, a) != 0 then MaxPanicPods(c, d, a) else StableCount(c, a)
  }

  function Decision(c: Config, d: Decider, a: Call): int {
    var pre := PreDelay(c, d, a);
    if c.hasDelay then Max(Int32(pre), a.others) else pre
  }

  function Reconciled(c: Config, d: Decider, a: Call): Decider {
    Decider(PanicTime(c, d, a), MaxPanicPods(c, d, a), Int32(Decision(c, d, a)))
  }

  class KPADecider {
    const config: Config
    var panicTime: int
    var maxPanicPods: int
    var desiredScale: int

    function Now(): Decider
      reads this
    {
      Decider(panicTime, maxPanicPods, desiredScale)
    }

    constructor (c: Config)
      ensures config == c && Now() == Idle
    {
      config := c;
      panicTime, maxPanicPods, desiredScale := 0, 0, 0;
    }

    method Desired() returns (desired: int)
      ensures desired == desiredScale
    {
      desired := desiredScale;
    }

    method Reconcile(a: Call) returns (desired: int)
      modifies this
      ensures Now() == Reconciled(config, old(Now()), a)
      ensures desired == Decision(config, old(Now()), a)
    {
      var c := config;
      var isScalingFromZero := a.ready == 0;
      var currentReady := Max(1, a.ready);
      var up := Ceil(c.upRate * currentReady as real);
      var low := (currentReady as real / c.downRate).Floor;
      if isScalingFromZero && a.seen.instant > 0 {
        up := Max(up, 1);
        low := Max(low, 1);
      }
      assert up == Upper(c, a) && low == Lower(c, a);
      var dspc := Ceil(a.seen.stable / c.target);
      var dppc := Ceil(a.seen.panic / c.target);
      var desiredStablePodCount := Min(Max(dspc, low), up);
      var desiredPanicPodCount := Min(Max(dppc, low), up);

      assert desiredStablePodCount == StableCount(c, a) && desiredPanicPodCount == PanicCount(c, a);

      var isOverPanicThreshold := dppc as real / currentReady as real >= c.panicThreshold;
      if panicTime == 0 && isOverPanicThreshold {
        panicTime := a.now;
      } else if isOverPanicThreshold {
        panicTime := a.now;
      } else if panicTime != 0 && !isOverPanicThreshold && panicTime + c.stableWindow < a.now {
        panicTime := 0;
        maxPanicPods := 0;
      }
      assert panicTime == PanicTime(c, old(Now()), a);

      desired := desiredStablePodCount;
      if panicTime != 0 {
        if desired < desiredPanicPodCount {
          desired := desiredPanicPodCount;
        }
        if desired > maxPanicPods {
          maxPanicPods := desired;
        }
        desired := maxPanicPods;
      }
      assert desired == PreDelay(c, old(Now()), a);

      if c.hasDelay {
        var delayedPodCount := Max(Int32(desired), a.others);
        if delayedPodCount != desired {
          desired := delayedPodCount;
        }
      }
      desiredScale := Int32(desired);
    }
  }
}
