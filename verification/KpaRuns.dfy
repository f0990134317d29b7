/** Properties of the KPA decider over whole sequences of calls. */
module KpaRuns {
  import opened Wrappers
  import opened Kpa

  /** The decider after the first n calls. */
  function After(c: Config, calls: seq<Call>, n: nat): Decider
    requires n <= |calls|
  {
    if n == 0 then Idle else Reconciled(c, After(c, calls, n - 1), calls[n - 1])
  }

  predicate Panicking(c: Config, calls: seq<Call>, n: nat)
    requires n <= |calls|
  {
    After(c, calls, n).panicTime != 0
  }

  /** The decision of call i before the delay window. */
  function Pre(c: Config, calls: seq<Call>, i: nat): int
    requires i < |calls|
  {
    PreDelay(c, After(c, calls, i), calls[i])
  }

  // ----- the automaton and the history of over-threshold calls

  ghost predicate InTimeOrder(calls: seq<Call>) {
    forall i, j | 0 <= i < j < |calls| :: calls[i].now <= calls[j].now
  }

  /** Time of the latest over-threshold call among the first n; 0 if there is none. */
  function LatestOver(c: Config, calls: seq<Call>, n: nat): int
    requires n <= |calls|
  {
    if n == 0 then 0
    else if OverThreshold(c, calls[n - 1]) then calls[n - 1].now
    else LatestOver(c, calls, n - 1)
  }

  lemma {:induction false} LatestIsPast(c: Config, calls: seq<Call>, n: nat)
    requires 0 < n <= |calls| && InTimeOrder(calls)
    ensures 0 <= LatestOver(c, calls, n) <= calls[n - 1].now
  {
    if n > 1 && !OverThreshold(c, calls[n - 1]) {
      LatestIsPast(c, calls, n - 1);
    }
  }

  /** The panic automaton refines the history: the decider panics after a call exactly if the
      latest over-threshold call is at most the stable window ago, and panicTime is its time. */
  lemma {:induction false} PanicIsRecentOverload(c: Config, calls: seq<Call>, n: nat)
    requires 0 < n <= |calls| && InTimeOrder(calls) && c.stableWindow >= 0
    ensures var t := LatestOver(c, calls, n);
      After(c, calls, n).panicTime == if t != 0 && t + c.stableWindow >= calls[n - 1].now then t else 0
  {
    LatestIsPast(c, calls, n);
    if n > 1 {
      PanicIsRecentOverload(c, calls, n - 1);
      LatestIsPast(c, calls, n - 1);
      assert calls[n - 2].now <= calls[n - 1].now;
    }
  }

  // ----- panic episodes

  /** The number of calls before the episode that call n - 1 belongs to. */
  function EpisodeStart(c: Config, calls: seq<Call>, n: nat): (b: nat)
    requires n <= |calls|
    ensures b <= n
  {
    if n == 0 || !Panicking(c, calls, n) then n else EpisodeStart(c, calls, n - 1)
  }

  function Larger(c: Config, a: Call): int {
    Max(StableCount(c, a), PanicCount(c, a))
  }

  lemma ClampsAtLeastZero(c: Config, a: Call)
    ensures 0 <= Lower(c, a) && 1 <= Upper(c, a) && 0 <= StableCount(c, a) && 0 <= PanicCount(c, a)
  {
    var r := Max(1, a.ready) as real;
    PositiveProduct(c.upRate, r);
    PositiveQuotient(r, c.downRate);
  }

  lemma PositiveProduct(x: real, y: real)
    requires x > 0.0 && y > 0.0
    ensures x * y > 0.0
  {
  }

  lemma PositiveQuotient(x: real, y: real)
    requires x > 0.0 && y > 0.0
    ensures x / y > 0.0
  {
    var q := x / y;
    assert q * y == x;
  }

  /** maxPanicPods is the maximum of all stable and panic counts of the current episode, and 0
      outside of any episode. */
  lemma {:induction false} EpisodeMaximum(c: Config, calls: seq<Call>, n: nat)
    requires n <= |calls|
    ensures !Panicking(c, calls, n) ==> After(c, calls, n).maxPanicPods == 0
    ensures forall i | EpisodeStart(c, calls, n) <= i < n :: Larger(c, calls[i]) <= After(c, calls, n).maxPanicPods
    ensures Panicking(c, calls, n) ==>
      exists i | EpisodeStart(c, calls, n) <= i < n :: Larger(c, calls[i]) == After(c, calls, n).maxPanicPods
  {
    if n > 0 {
      EpisodeMaximum(c, calls, n - 1);
      ClampsAtLeastZero(c, calls[n - 1]);
      var d, a := After(c, calls, n - 1), calls[n - 1];
      if Panicking(c, calls, n) {
        assert After(c, calls, n).maxPanicPods == Max(d.maxPanicPods, Larger(c, a));
        if d.maxPanicPods <= Larger(c, a) {
          assert Larger(c, calls[n - 1]) == After(c, calls, n).maxPanicPods;
        } else {
          assert Panicking(c, calls, n - 1);
        }
      }
    }
  }

  /** Within an episode, decisions before the delay never fall. */
  lemma {:induction false} NoFallInEpisode(c: Config, calls: seq<Call>, i: nat, j: nat)
    requires i <= j < |calls| && EpisodeStart(c, calls, j + 1) <= i
    ensures Pre(c, calls, i) <= Pre(c, calls, j)
    ensures forall m | i < m <= j + 1 :: Panicking(c, calls, m)
    decreases j
  {
    if i < j {
      NoFallInEpisode(c, calls, i, j - 1);
    }
  }

  // ----- bounds of the decisions

  lemma CeilAbove(x: real, n: int)
    ensures x >= n as real ==> Ceil(x) >= n
    ensures x > n as real ==> Ceil(x) > n
  {
    var f := (-x).Floor;
    assert f as real <= -x < f as real + 1.0;
  }

  lemma FloorBelow(x: real, n: int)
    ensures x <= n as real ==> x.Floor <= n
    ensures x < n as real ==> x.Floor < n
  {
    assert x.Floor as real <= x < x.Floor as real + 1.0;
  }

  lemma RatesAround(c: Config, a: Call)
    requires c.upRate >= 1.0 && c.downRate >= 1.0
    ensures 0 <= Lower(c, a) <= Max(1, a.ready) <= Upper(c, a)
  {
    RoundedUp(Max(1, a.ready), c.upRate);
    RoundedDown(Max(1, a.ready), c.downRate);
  }

  /** Rounding a grown count up. */
  lemma RoundedUp(n: nat, u: real)
    requires n >= 1 && u >= 1.0
    ensures Ceil(u * n as real) >= n && (u > 1.0 ==> Ceil(u * n as real) > n)
  {
    GrowingProduct(u, n as real);
    CeilAbove(u * n as real, n);
  }

  /** Rounding a shrunk count down. */
  lemma RoundedDown(n: nat, d: real)
    requires n >= 1 && d >= 1.0
    ensures 0 <= (n as real / d).Floor <= n && (d > 1.0 ==> (n as real / d).Floor < n)
  {
    ShrinkingQuotient(n as real, d);
    PositiveQuotient(n as real, d);
    FloorBelow(n as real / d, n);
  }

  lemma GrowingProduct(u: real, r: real)
    requires u >= 1.0 && r > 0.0
    ensures u * r >= r && (u > 1.0 ==> u * r > r)
  {
    assert u * r - r == (u - 1.0) * r;
  }

  lemma ShrinkingQuotient(r: real, d: real)
    requires d >= 1.0 && r > 0.0
    ensures r / d <= r && (d > 1.0 ==> r / d < r)
  {
    var q := r / d;
    PositiveQuotient(r, d);
    assert q * d == r;
    assert r - q == q * (d - 1.0);
    if d > 1.0 {
      PositiveProduct(q, d - 1.0);
    }
  }

  /** With rates of at least 1, a stable decision lies in the current clamp interval, and a
      panic decision between the current lower bound and any bound on the episode's upper ones. */
  lemma {:induction false} DecisionBounds(c: Config, calls: seq<Call>, i: nat, most: int)
    requires i < |calls| && c.upRate >= 1.0 && c.downRate >= 1.0
    requires forall m | EpisodeStart(c, calls, i + 1) <= m <= i :: Upper(c, calls[m]) <= most
    ensures Lower(c, calls[i]) <= Pre(c, calls, i)
    ensures if Panicking(c, calls, i + 1) then Pre(c, calls, i) <= most else Pre(c, calls, i) <= Upper(c, calls[i])
  {
    EpisodeMaximum(c, calls, i + 1);
    RatesAround(c, calls[i]);
    if Panicking(c, calls, i + 1) {
      var m :| EpisodeStart(c, calls, i + 1) <= m < i + 1 && Larger(c, calls[m]) == After(c, calls, i + 1).maxPanicPods;
      assert Larger(c, calls[m]) <= Upper(c, calls[m]);
    }
  }

  // ----- the closed loop

  /** Without a delay window and in stable mode throughout, each decision is the next ready count. */
  ghost predicate StableLoop(c: Config, calls: seq<Call>) {
    && !c.hasDelay && c.upRate > 1.0 && c.downRate > 1.0
    && (forall n | 0 <= n <= |calls| :: !Panicking(c, calls, n))
    && (forall i | 0 < i < |calls| :: calls[i].ready == Decision(c, After(c, calls, i - 1), calls[i - 1]))
  }

  ghost predicate Demand(c: Config, calls: seq<Call>, demand: int) {
    forall i | 0 <= i < |calls| :: Wanted(c, calls[i].seen.stable) == demand
  }

  function Distance(a: int, b: int): nat {
    if a < b then b - a else a - b
  }

  lemma StrictlyAround(c: Config, a: Call)
    requires c.upRate > 1.0 && c.downRate > 1.0
    ensures Upper(c, a) > Max(1, a.ready)
    ensures 0 <= Lower(c, a) && (Lower(c, a) < Max(1, a.ready) || (Kick(a) && Lower(c, a) == 1))
  {
    RoundedUp(Max(1, a.ready), c.upRate);
    RoundedDown(Max(1, a.ready), c.downRate);
  }

  lemma ClampTowards(demand: int, low: int, up: int, ready: nat, kick: bool)
    requires demand >= 1 && up > Max(1, ready) && (kick ==> ready == 0)
    requires 0 <= low && (low < Max(1, ready) || (kick && low == 1))
    ensures ready < demand ==> ready < Clamp(demand, low, up) <= demand
    ensures ready > demand ==> demand <= Clamp(demand, low, up) < ready
    ensures ready == demand ==> Clamp(demand, low, up) == demand
  {
  }

  lemma StepTowards(c: Config, a: Call, demand: int)
    requires c.upRate > 1.0 && c.downRate > 1.0 && Wanted(c, a.seen.stable) == demand && demand >= 1
    ensures a.ready < demand ==> a.ready < StableCount(c, a) <= demand
    ensures a.ready > demand ==> demand <= StableCount(c, a) < a.ready
    ensures a.ready == demand ==> StableCount(c, a) == demand
  {
    StrictlyAround(c, a);
    ClampTowards(demand, Lower(c, a), Upper(c, a), a.ready, Kick(a));
  }

  lemma {:induction false} LoopStep(c: Config, calls: seq<Call>, i: nat)
    requires StableLoop(c, calls) && 0 < i < |calls|
    ensures calls[i].ready == StableCount(c, calls[i - 1])
  {
    assert !Panicking(c, calls, i);
  }

  /** Convergence: under a constant demand of at least one pod, the ready count comes at least
      one closer with every decision until it is reached, never passes it, and stays. */
  lemma {:induction false} Converges(c: Config, calls: seq<Call>, demand: int, n: nat)
    requires StableLoop(c, calls) && Demand(c, calls, demand) && demand >= 1 && n < |calls|
    ensures Distance(calls[n].ready, demand) <= Max(0, Distance(calls[0].ready, demand) - n)
    ensures calls[0].ready <= demand ==> calls[n].ready <= demand
    ensures calls[0].ready >= demand ==> calls[n].ready >= demand
  {
    if n > 0 {
      Converges(c, calls, demand, n - 1);
      LoopStep(c, calls, n);
      StepTowards(c, calls[n - 1], demand);
    }
  }

  function Power(x: real, n: nat): real {
    if n == 0 then 1.0 else x * Power(x, n - 1)
  }

  lemma {:induction false} PowerPositive(x: real, n: nat)
    requires x > 0.0
    ensures Power(x, n) > 0.0
  {
    if n > 0 {
      PowerPositive(x, n - 1);
      PositiveProduct(x, Power(x, n - 1));
    }
  }

  /** A count that has shrunk by at least the n-th power of a rate. */
  predicate Decayed(count: int, rate: real, n: nat, start: int) {
    count as real * Power(rate, n) <= start as real
  }

  lemma FloorTimes(r: real, d: real)
    requires r > 0.0 && d > 0.0
    ensures (r / d).Floor as real * d <= r
  {
    var q := r / d;
    var x := q.Floor as real;
    assert q * d == r;
    assert (q - x) * d >= 0.0;
  }

  lemma StepDown(c: Config, a: Call)
    requires c.upRate > 1.0 && c.downRate > 1.0 && Wanted(c, a.seen.stable) == 0 && a.seen.instant <= 0
    ensures 0 <= StableCount(c, a) <= Max(0, a.ready - 1)
    ensures Decayed(StableCount(c, a), c.downRate, 1, a.ready)
  {
    assert Power(c.downRate, 1) == c.downRate;
    StrictlyAround(c, a);
    assert StableCount(c, a) == Lower(c, a);
    FloorTimes(Max(1, a.ready) as real, c.downRate);
  }

  lemma Geometric(x: real, y: real, r: real, d: real, p: real)
    requires x * d <= y && y * p <= r && p > 0.0
    ensures x * (d * p) <= r
  {
    assert x * (d * p) == (x * d) * p;
    assert (y - x * d) * p >= 0.0;
  }

  lemma DecayOnce(x: int, y: int, rate: real, n: nat, start: int)
    requires rate > 0.0 && Decayed(x, rate, 1, y) && Decayed(y, rate, n, start)
    ensures Decayed(x, rate, n + 1, start)
  {
    PowerPositive(rate, n);
    assert Power(rate, 1) == rate;
    Geometric(x as real, y as real, start as real, rate, Power(rate, n));
  }

  lemma {:induction false} LoopDown(c: Config, calls: seq<Call>, i: nat)
    requires StableLoop(c, calls) && 0 < i < |calls|
    requires Wanted(c, calls[i - 1].seen.stable) == 0 && calls[i - 1].seen.instant <= 0
    ensures calls[i].ready <= Max(0, calls[i - 1].ready - 1)
    ensures Decayed(calls[i].ready, c.downRate, 1, calls[i - 1].ready)
  {
    LoopStep(c, calls, i);
    StepDown(c, calls[i - 1]);
  }

  /** Without load, the ready count decays geometrically and reaches 0. */
  lemma {:induction false} DecaysToZero(c: Config, calls: seq<Call>, n: nat)
    requires StableLoop(c, calls) && Demand(c, calls, 0) && n < |calls|
    requires forall i | 0 <= i < |calls| :: calls[i].seen.instant <= 0
    ensures calls[n].ready <= Max(0, calls[0].ready - n)
    ensures Decayed(calls[n].ready, c.downRate, n, calls[0].ready)
  {
    if n > 0 {
      DecaysToZero(c, calls, n - 1);
      LoopDown(c, calls, n);
      DecayOnce(calls[n].ready, calls[n - 1].ready, c.downRate, n - 1, calls[0].ready);
    }
  }
}
