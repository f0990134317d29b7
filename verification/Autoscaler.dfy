/** One scale pass, and why it never refuses a cold start. */
module Autoscaler {
  import opened Wrappers
  import opened Kpa
  import opened KpaRuns
  import Stats
  import Gateway
  import GatewayFlow

  function CountReady(pods: seq<bool>): nat {
    if pods == [] then 0 else CountReady(pods[..|pods| - 1]) + if pods[|pods| - 1] then 1 else 0
  }

  /** The positions of the ready pods in a list. */
  function ReadyOnes(pods: seq<bool>): set<nat> {
    set i: nat | i < |pods| && pods[i]
  }

  lemma {:induction false} CountMeaning(pods: seq<bool>)
    ensures CountReady(pods) == |ReadyOnes(pods)|
    decreases |pods|
  {
    if pods != [] {
      var n := |pods| - 1;
      CountMeaning(pods[..n]);
      assert ReadyOnes(pods) == if pods[n] then ReadyOnes(pods[..n]) + {n} else ReadyOnes(pods[..n]);
    }
  }

  /** The scale pass of one key.  pods are the listed pods' ready conditions; None stands for a
      failed Get or List, after which nothing is decided.  The answer is what Scale is asked for. */
  method ScalePass(decider: KPADecider, stats: Stats.RequestStats, pods: Option<seq<bool>>,
                   now: Instant, stable: real, panic: real, others: int) returns (asked: Option<int>)
    modifies decider
    ensures pods.None? ==> asked == None && decider.Now() == old(decider.Now())
    ensures pods.Some? ==>
      var call := Call(now, |ReadyOnes(pods.value)|, Observation(stable, panic, old(stats.concurrency)), others);
      && asked == Some(Decision(decider.config, old(decider.Now()), call))
      && decider.Now() == Reconciled(decider.config, old(decider.Now()), call)
  {
    if pods.None? {
      return None;
    }
    var nReady := 0;
    for i := 0 to |pods.value|
      invariant nReady == CountReady(pods.value[..i])
    {
      assert pods.value[..i + 1][..i] == pods.value[..i];
      if pods.value[i] {
        nReady := nReady + 1;
      }
    }
    assert pods.value[..|pods.value|] == pods.value;
    CountMeaning(pods.value);
    var desired := decider.Reconcile(Call(now, nReady, Observation(stable, panic, stats.concurrency), others));
    return Some(desired);
  }

  lemma KickedCountsPositive(c: Config, a: Call)
    requires Kick(a)
    ensures 1 <= StableCount(c, a) <= Upper(c, a) && 1 <= PanicCount(c, a) <= Upper(c, a)
  {
  }

  lemma CountsBelowUpper(c: Config, a: Call)
    ensures Larger(c, a) <= Upper(c, a)
  {
  }

  /** A kicked call is served: at least one replica, through clamp, panic and delay. */
  lemma {:induction false} KickServed(c: Config, calls: seq<Call>, i: nat)
    requires i < |calls| && Kick(calls[i])
    requires c.hasDelay ==> forall m | 0 <= m <= i :: Upper(c, calls[m]) <= MaxInt32
    ensures Decision(c, After(c, calls, i), calls[i]) >= 1
  {
    KickedCountsPositive(c, calls[i]);
    EpisodeMaximum(c, calls, i + 1);
    var pre := Pre(c, calls, i);
    assert pre >= 1;
    if c.hasDelay {
      if Panicking(c, calls, i + 1) {
        var m :| EpisodeStart(c, calls, i + 1) <= m < i + 1 && Larger(c, calls[m]) == After(c, calls, i + 1).maxPanicPods;
        CountsBelowUpper(c, calls[m]);
      }
      FitsInt32(pre);
    }
  }

  lemma FitsInt32(x: int)
    requires 0 <= x <= MaxInt32
    ensures Int32(x) == x
  {
  }

  /** No cold-start refusal: a pass that lists no ready pod and reads the metric while a relayed
      request is unanswered asks for at least one replica.  With a delay window, decisions pass
      through 32 bits, so the upper bounds must fit in them. */
  lemma {:induction false} NoColdStartRefusal(target: string, run: seq<Gateway.Label>, r: Gateway.Request,
                                              c: Config, calls: seq<Call>, i: nat, pods: seq<bool>)
    requires Gateway.Legal(Gateway.Init(target), run) && i < |calls|
    requires calls[i].ready == |ReadyOnes(pods)| && forall j | 0 <= j < |pods| :: !pods[j]
    requires var s := Gateway.Exec(Gateway.Init(target), run);
      GatewayFlow.Pending(s, r) > 0 && calls[i].seen.instant == s.stats.concurrency
    requires c.hasDelay ==> forall m | 0 <= m <= i :: Upper(c, calls[m]) <= MaxInt32
    ensures Decision(c, After(c, calls, i), calls[i]) >= 1
  {
    assert ReadyOnes(pods) == {};
    GatewayFlow.MetricIsOutstanding(target, run);
    GatewayFlow.PendingIsOutstanding(Gateway.Exec(Gateway.Init(target), run), r);
    KickServed(c, calls, i);
  }

  // ----- exactly when cold starts are served

  ghost predicate ReadyUpTo(calls: seq<Call>, most: nat) {
    forall i | 0 <= i < |calls| :: calls[i].ready <= most
  }

  /** Every cold start is served in every run in which at most so many pods are ready. */
  ghost predicate ServesAll(c: Config, most: nat) {
    forall calls, i | 0 <= i < |calls| && ReadyUpTo(calls, most) && Kick(calls[i]) ::
      Decision(c, After(c, calls, i), calls[i]) >= 1
  }

  /** The largest upper bound of a call with at most so many ready pods. */
  function Highest(c: Config, most: nat): int {
    Ceil(c.upRate * Max(1, most) as real)
  }

  lemma LargerProduct(u: real, x: real, y: real)
    requires u > 0.0 && x <= y
    ensures u * x <= u * y
  {
    assert u * y - u * x == u * (y - x);
  }

  lemma UpperBelow(c: Config, a: Call, most: nat)
    requires a.ready <= most && Highest(c, most) >= 1
    ensures Upper(c, a) <= Highest(c, most)
  {
    LargerProduct(c.upRate, Max(1, a.ready) as real, Max(1, most) as real);
  }

  lemma {:induction false} FittingServesAll(c: Config, most: nat)
    requires c.hasDelay ==> Highest(c, most) <= MaxInt32
    ensures ServesAll(c, most)
  {
    assert c.upRate * Max(1, most) as real > 0.0;
    forall calls, i | 0 <= i < |calls| && ReadyUpTo(calls, most) && Kick(calls[i])
      ensures Decision(c, After(c, calls, i), calls[i]) >= 1
    {
      forall m | 0 <= m <= i ensures Upper(c, calls[m]) <= Highest(c, most) {
        UpperBelow(c, calls[m], most);
      }
      KickServed(c, calls, i);
    }
  }

  /** The least count of ready pods whose upper bound does not fit. */
  lemma {:induction false} LeastOver(c: Config, most: nat) returns (r: nat)
    requires Highest(c, most) > MaxInt32 && Ceil(c.upRate) <= MaxInt32
    ensures 1 < r <= most && Highest(c, r) > MaxInt32 && Highest(c, r - 1) <= MaxInt32
    decreases most
  {
    assert c.upRate * 1.0 == c.upRate;
    if Highest(c, most - 1) > MaxInt32 {
      r := LeastOver(c, most - 1);
    } else {
      r := most;
    }
  }

  lemma CeilAdds(x: real, y: real)
    ensures Ceil(x + y) <= Ceil(x) + Ceil(y)
  {
  }

  /** It exceeds 32 bits by less than their range, so it wraps to a negative count. */
  lemma LeastWraps(c: Config, r: nat)
    requires r > 1 && Ceil(c.upRate) <= MaxInt32 < Highest(c, r) && Highest(c, r - 1) <= MaxInt32
    ensures Int32(Highest(c, r)) < 0
  {
    assert c.upRate * r as real == c.upRate * (r - 1) as real + c.upRate;
    CeilAdds(c.upRate * (r - 1) as real, c.upRate);
    assert Highest(c, r) <= 2 * MaxInt32;
  }

  /** A panic load of so many pods on so many ready ones. */
  function Burst(c: Config, ready: nat, pods: nat): Call {
    Call(1, ready, Observation(0.0, pods as real * c.target, 0), -MaxInt32 - 1)
  }

  /** A request while no pod is ready, the window averages are 0 and the delay window holds the
      burst's decision. */
  function Cold(others: int): Call {
    Call(1, 0, Observation(0.0, 0.0, 1), others)
  }

  lemma Cancels(x: real, y: real)
    requires y != 0.0
    ensures x * y / y == x
  {
  }

  lemma CeilWhole(n: int)
    ensures Ceil(n as real) == n
  {
    assert (-n) as real == -(n as real);
  }

  lemma BurstWanted(c: Config, ready: nat, pods: nat)
    ensures Wanted(c, Burst(c, ready, pods).seen.panic) == pods
  {
    var p, value := pods as real, Burst(c, ready, pods).seen.panic;
    assert value == p * c.target;
    Cancels(p, c.target);
    assert value / c.target == p;
    CeilWhole(pods);
    assert Ceil(p) == pods;
    assert Wanted(c, value) == Ceil(p);
  }

  /** With enough load, the burst starts a panic at the upper bound. */
  lemma BurstPanics(c: Config, ready: nat, pods: nat)
    requires ready >= 1 && pods >= Upper(c, Burst(c, ready, pods)) && pods as real >= c.panicThreshold * ready as real
    ensures Reconciled(c, Idle, Burst(c, ready, pods)).panicTime == 1
    ensures Reconciled(c, Idle, Burst(c, ready, pods)).maxPanicPods == Upper(c, Burst(c, ready, pods))
  {
    var a := Burst(c, ready, pods);
    BurstWanted(c, ready, pods);
    EnoughForPanic(c.panicThreshold, ready as real, pods as real);
    ClampsAtLeastZero(c, a);
    assert OverThreshold(c, a);
  }

  lemma EnoughForPanic(threshold: real, ready: real, wanted: real)
    requires ready > 0.0 && threshold * ready <= wanted
    ensures wanted / ready >= threshold
  {
    assert wanted / ready * ready == wanted;
  }

  lemma ColdCounts(c: Config, others: int)
    requires c.downRate >= 1.0
    ensures StableCount(c, Cold(others)) == PanicCount(c, Cold(others)) == 1
  {
    RatesAtZero(c, Cold(others));
    assert 0.0 / c.target == 0.0;
  }

  /** A cold start in a panic whose maximum wraps is refused. */
  lemma ColdRefused(c: Config, d: Decider)
    requires c.hasDelay && c.downRate >= 1.0 && c.stableWindow >= 0 && d.panicTime == 1 && d.maxPanicPods >= 1
    requires Int32(d.maxPanicPods) < 0
    ensures Decision(c, d, Cold(Int32(d.maxPanicPods))) < 1
  {
    var a := Cold(Int32(d.maxPanicPods));
    ColdCounts(c, Int32(d.maxPanicPods));
    assert PanicTime(c, d, a) == 1;
    assert PreDelay(c, d, a) == d.maxPanicPods;
  }

  /** When every rate fits but some upper bound does not: a burst on the least such count of ready
      pods, and then a cold start that asks for no replica. */
  lemma {:induction false} BurstRefused(c: Config, most: nat) returns (calls: seq<Call>)
    requires c.hasDelay && c.downRate >= 1.0 && c.stableWindow >= 0
    requires Highest(c, most) > MaxInt32 && Ceil(c.upRate) <= MaxInt32
    ensures |calls| == 2 && ReadyUpTo(calls, most) && Kick(calls[1]) && Decision(c, After(c, calls, 1), calls[1]) < 1
  {
    var r := LeastOver(c, most);
    LeastWraps(c, r);
    var up := Highest(c, r);
    var pods := Max(up, Ceil(c.panicThreshold * r as real));
    var a := Burst(c, r, pods);
    assert Upper(c, a) == up;
    BurstPanics(c, r, pods);
    ColdRefused(c, Reconciled(c, Idle, a));
    calls := [a, Cold(Int32(up))];
    assert After(c, calls, 0) == Idle;
    assert After(c, calls, 1) == Reconciled(c, Idle, a);
  }

  /** When even the scale-up rate does not fit: a single cold start. */
  lemma {:induction false} FirstRefused(c: Config, most: nat) returns (calls: seq<Call>)
    requires c.hasDelay && c.downRate >= 1.0 && Ceil(c.upRate) > MaxInt32
    ensures |calls| == 1 && ReadyUpTo(calls, most) && Kick(calls[0]) && Decision(c, After(c, calls, 0), calls[0]) < 1
  {
    var a := ColdStartWraps(c);
    calls := [a];
    assert After(c, calls, 0) == Idle;
  }

  /** When every cold start is served: over all runs with at most so many ready pods, if and only
      if there is no delay window or the largest upper bound fits in 32 bits. */
  lemma {:induction false} ColdStartExact(c: Config, most: nat)
    requires c.downRate >= 1.0 && c.stableWindow >= 0
    ensures ServesAll(c, most) <==> (c.hasDelay ==> Highest(c, most) <= MaxInt32)
  {
    if !(c.hasDelay ==> Highest(c, most) <= MaxInt32) {
      if Ceil(c.upRate) <= MaxInt32 {
        var calls := BurstRefused(c, most);
        assert Decision(c, After(c, calls, 1), calls[1]) < 1;
      } else {
        var calls := FirstRefused(c, most);
        assert Decision(c, After(c, calls, 0), calls[0]) < 1;
      }
    } else {
      FittingServesAll(c, most);
    }
  }

  /** For a decider that has just been made, whatever its panic threshold, the bound is exact
      with the scale-up rate alone. */
  lemma FreshColdStartExact(c: Config)
    requires c.downRate >= 1.0
    ensures (forall a | Kick(a) :: Decision(c, Idle, a) >= 1) <==> (c.hasDelay ==> Ceil(c.upRate) <= MaxInt32)
  {
    if c.hasDelay && Ceil(c.upRate) > MaxInt32 {
      var a := ColdStartWraps(c);
    } else {
      forall a | Kick(a) ensures Decision(c, Idle, a) >= 1 {
        KickedCountsPositive(c, a);
        assert Upper(c, a) == Max(Ceil(c.upRate), 1);
      }
    }
  }

  /** A fresh decider, whose delay window holds no other value, refuses a load of 2^31 pods. */
  lemma ColdStartWraps(c: Config) returns (a: Call)
    requires c.downRate >= 1.0 && c.hasDelay && Ceil(c.upRate) > MaxInt32
    ensures Kick(a) && a.others == -MaxInt32 - 1 && Decision(c, Idle, a) < 1
  {
    var load := 2147483648.0 * c.target;
    a := Call(1, 0, Observation(load, 0.0, 1), -MaxInt32 - 1);
    assert load / c.target == 2147483648.0;
    assert Wanted(c, a.seen.stable) == MaxInt32 + 1 && Wanted(c, a.seen.panic) == 0;
    RatesAtZero(c, a);
    assert PreDelay(c, Idle, a) == MaxInt32 + 1;
    assert Int32(MaxInt32 + 1) == -MaxInt32 - 1;
  }

  lemma RatesAtZero(c: Config, a: Call)
    requires c.downRate >= 1.0 && Kick(a)
    ensures Lower(c, a) == 1 && Upper(c, a) == Max(Ceil(c.upRate), 1)
  {
    ShrinkingQuotient(1.0, c.downRate);
    assert c.upRate * 1.0 == c.upRate;
  }
}
