/** What the decider's quantities mean, as inequalities over the observed values and the rates. */
module KpaMeaning {
  import opened Wrappers
  import opened Kpa
  import opened KpaRuns

  // ----- rounding

  lemma CeilMeaning(x: real)
    ensures Ceil(x) as real - 1.0 < x <= Ceil(x) as real
  {
    assert (-x).Floor as real <= -x < (-x).Floor as real + 1.0;
  }

  lemma QuotientBounds(x: real, y: real, n: int)
    requires y > 0.0
    ensures x / y <= n as real <==> x <= n as real * y
    ensures n as real <= x / y <==> n as real * y <= x
    ensures x / y < n as real <==> x < n as real * y
  {
    var q, m := x / y, n as real;
    assert q * y == x;
    ProductOrder(q, m, y);
    ProductOrder(m, q, y);
  }

  lemma ProductOrder(a: real, b: real, y: real)
    requires y > 0.0
    ensures a <= b <==> a * y <= b * y
  {
    assert b * y - a * y == (b - a) * y;
    if a > b {
      PositiveProduct(a - b, y);
    }
  }

  /** The pods wanted are the least number that brings the value per pod down to the target. */
  lemma WantedMeaning(c: Config, value: real)
    ensures var w := Wanted(c, value); (w - 1) as real * c.target < value <= w as real * c.target
  {
    var w := Wanted(c, value);
    CeilMeaning(value / c.target);
    QuotientBounds(value, c.target, w);
    QuotientBounds(value, c.target, w - 1);
  }

  /** An upper multiple of one number lies above a lower multiple of another one. */
  lemma Apart(p: int, w: int, target: real, value: real)
    requires target > 0.0 && value <= p as real * target && (w - 1) as real * target < value
    ensures w <= p
  {
    if p < w {
      ProductOrder(p as real, (w - 1) as real, target);
    }
  }

  lemma WantedUnique(c: Config, value: real, p: int)
    requires (p - 1) as real * c.target < value <= p as real * c.target
    ensures p == Wanted(c, value)
  {
    var w := Wanted(c, value);
    WantedMeaning(c, value);
    Apart(p, w, c.target, value);
    Apart(w, p, c.target, value);
  }

  // ----- bounds and counts

  /** The upper bound is the scaled-up count of pods, one at least, rounded up. */
  lemma UpperMeaning(c: Config, a: Call)
    ensures var n := Max(1, a.ready) as real; (Upper(c, a) - 1) as real < c.upRate * n <= Upper(c, a) as real
  {
    var x := c.upRate * Max(1, a.ready) as real;
    PositiveProduct(c.upRate, Max(1, a.ready) as real);
    CeilMeaning(x);
    assert Ceil(x) >= 1;
  }

  /** The lower bound is the scaled-down count of pods, one at least, rounded down; a call from
      zero with requests in flight has at least 1. */
  lemma LowerMeaning(c: Config, a: Call)
    ensures var n := Max(1, a.ready) as real;
      && 0 <= Lower(c, a) && (Kick(a) ==> Lower(c, a) >= 1)
      && (Lower(c, a) as real * c.downRate <= n || (Kick(a) && Lower(c, a) == 1))
      && n < (Lower(c, a) + 1) as real * c.downRate
  {
    var n := Max(1, a.ready) as real;
    var low := (n / c.downRate).Floor;
    PositiveQuotient(n, c.downRate);
    QuotientBounds(n, c.downRate, low);
    QuotientBounds(n, c.downRate, low + 1);
    ProductOrder((low + 1) as real, (Lower(c, a) + 1) as real, c.downRate);
  }

  /** A count is the wanted number of pods, or the bound that it violates; the upper bound wins. */
  predicate Clamped(count: int, wanted: int, low: int, up: int) {
    && (low <= wanted <= up ==> count == wanted)
    && (wanted < low <= up ==> count == low)
    && (wanted > up || low > up ==> count == up)
  }

  lemma CountMeaning(c: Config, a: Call)
    ensures Clamped(StableCount(c, a), Wanted(c, a.seen.stable), Lower(c, a), Upper(c, a))
    ensures Clamped(PanicCount(c, a), Wanted(c, a.seen.panic), Lower(c, a), Upper(c, a))
  {
  }

  /** A call is over the threshold if the panic value wants at least threshold times the ready
      pods, of which one at least is counted. */
  lemma OverMeaning(c: Config, a: Call, p: int)
    requires (p - 1) as real * c.target < a.seen.panic <= p as real * c.target
    ensures OverThreshold(c, a) <==> p as real >= c.panicThreshold * Max(1, a.ready) as real
  {
    WantedUnique(c, a.seen.panic, p);
    var n, q := Max(1, a.ready) as real, p as real / Max(1, a.ready) as real;
    assert q * n == p as real;
    ProductOrder(c.panicThreshold, q, n);
  }

  // ----- the decision

  /** Before the delay, a decision in panic is the maximum of the episode's counts, and otherwise
      the stable count. */
  lemma {:induction false} PreMeaning(c: Config, calls: seq<Call>, i: nat)
    requires i < |calls|
    ensures !Panicking(c, calls, i + 1) ==> Pre(c, calls, i) == StableCount(c, calls[i])
    ensures Panicking(c, calls, i + 1) ==>
      && (forall m | EpisodeStart(c, calls, i + 1) <= m <= i ::
            StableCount(c, calls[m]) <= Pre(c, calls, i) && PanicCount(c, calls[m]) <= Pre(c, calls, i))
      && exists m | EpisodeStart(c, calls, i + 1) <= m <= i ::
           StableCount(c, calls[m]) == Pre(c, calls, i) || PanicCount(c, calls[m]) == Pre(c, calls, i)
  {
    EpisodeMaximum(c, calls, i + 1);
    if Panicking(c, calls, i + 1) {
      assert Pre(c, calls, i) == After(c, calls, i + 1).maxPanicPods;
      forall m | EpisodeStart(c, calls, i + 1) <= m <= i
        ensures StableCount(c, calls[m]) <= Pre(c, calls, i) && PanicCount(c, calls[m]) <= Pre(c, calls, i)
      {
        assert Larger(c, calls[m]) <= Pre(c, calls, i);
      }
      var m :| EpisodeStart(c, calls, i + 1) <= m < i + 1 && Larger(c, calls[m]) == Pre(c, calls, i);
      assert StableCount(c, calls[m]) == Pre(c, calls, i) || PanicCount(c, calls[m]) == Pre(c, calls, i);
    }
  }

  /** The 32-bit reading of a number. */
  lemma Int32Meaning(x: int)
    ensures MinInt32 <= Int32(x) <= MaxInt32 && (Int32(x) - x) % 0x1_0000_0000 == 0
    ensures MinInt32 <= x <= MaxInt32 ==> Int32(x) == x
  {
  }

  /** With a delay window, the decision is the larger one of the decision before the delay and of
      the largest other value in the window; without one, it is the decision before the delay. */
  lemma DelayMeaning(c: Config, d: Decider, a: Call)
    ensures !c.hasDelay ==> Decision(c, d, a) == PreDelay(c, d, a)
    ensures c.hasDelay && MinInt32 <= PreDelay(c, d, a) <= MaxInt32 ==>
      && Decision(c, d, a) >= a.others && Decision(c, d, a) >= PreDelay(c, d, a)
      && (Decision(c, d, a) == a.others || Decision(c, d, a) == PreDelay(c, d, a))
  {
    Int32Meaning(PreDelay(c, d, a));
  }

  /** What call m records in the delay window. */
  function Recorded(c: Config, calls: seq<Call>, m: nat): int
    requires m < |calls|
  {
    Int32(Pre(c, calls, m))
  }

  predicate Inside(calls: seq<Call>, delay: int, m: nat, i: nat)
    requires m < i < |calls|
  {
    calls[i].now - calls[m].now < delay
  }

  /** The window has what earlier calls recorded less than the delay ago, and nothing that no call
      has recorded. */
  ghost predicate Windowed(c: Config, calls: seq<Call>, delay: int) {
    forall i: nat | i < |calls| ::
      && (forall m: nat | m < i && Inside(calls, delay, m, i) :: Recorded(c, calls, m) <= calls[i].others)
      && (calls[i].others == MinInt32 || exists m: nat | m < i :: Recorded(c, calls, m) == calls[i].others)
  }

  /** Scale-down is delayed: a decision is never below one that was made before the delay less than
      the delay ago, and it is one that was made now or earlier. */
  lemma {:induction false} ScaleDownDelayed(c: Config, calls: seq<Call>, delay: int, i: nat)
    requires c.hasDelay && Windowed(c, calls, delay) && i < |calls|
    ensures forall m: nat | m < i && Inside(calls, delay, m, i) ::
      Recorded(c, calls, m) <= Decision(c, After(c, calls, i), calls[i])
    ensures Recorded(c, calls, i) <= Decision(c, After(c, calls, i), calls[i])
    ensures exists m: nat | m <= i :: Recorded(c, calls, m) == Decision(c, After(c, calls, i), calls[i])
  {
    var dec := Decision(c, After(c, calls, i), calls[i]);
    Int32Meaning(Pre(c, calls, i));
    if dec != Recorded(c, calls, i) {
      assert calls[i].others != MinInt32;
      var m: nat :| m < i && Recorded(c, calls, m) == calls[i].others;
      assert Recorded(c, calls, m) == dec;
    } else {
      assert Recorded(c, calls, i) == dec;
    }
  }

  /** The desired scale that other parties read is the last decision, in 32 bits. */
  lemma {:induction false} DesiredIsLast(c: Config, calls: seq<Call>, n: nat)
    requires 0 < n <= |calls|
    ensures var dec := Decision(c, After(c, calls, n - 1), calls[n - 1]);
      && (MinInt32 <= dec <= MaxInt32 ==> After(c, calls, n).desiredScale == dec)
      && (After(c, calls, n).desiredScale - dec) % 0x1_0000_0000 == 0
  {
    Int32Meaning(Decision(c, After(c, calls, n - 1), calls[n - 1]));
  }
}
