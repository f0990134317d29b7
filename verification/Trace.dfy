/** Translation of a function's trace into absolute arrival times. */
module Trace {
  import opened Wrappers

  /** Invocations per minute, and inter-arrival times (microseconds) and runtimes of them all. */
  datatype RawSpec = RawSpec(perMinute: seq<int>, iat: seq<real>, runtimes: seq<int>)

  datatype Invocation = Invocation(arrivalSec: real, runtimeMs: int)

  datatype Outcome = Translated(minutes: nat, invocations: seq<Invocation>) | IndexPanic | CountMismatch

  /** Number of invocations in the first m minutes. */
  function Before(perMinute: seq<int>, m: nat): nat
    requires m <= |perMinute|
  {
    if m == 0 then 0 else Before(perMinute, m - 1) + Max(0, perMinute[m - 1])
  }

  /** Sum of the inter-arrival times from one index up to another, in seconds. */
  function Elapsed(iat: seq<real>, start: nat, end: nat): real
    requires start <= end <= |iat|
    decreases end
  {
    if start == end then 0.0 else Elapsed(iat, start, end - 1) + iat[end - 1] / 1000000.0
  }

  /** Invocation k falls in minute m. */
  predicate InMinute(perMinute: seq<int>, m: nat, k: nat) {
    m < |perMinute| && Before(perMinute, m) <= k < Before(perMinute, m + 1)
  }

  function Arrival(raw: RawSpec, m: nat, k: nat): real
    requires InMinute(raw.perMinute, m, k) && k < |raw.iat|
  {
    m as real * 60.0 + Elapsed(raw.iat, Before(raw.perMinute, m), k + 1)
  }

  /** The outputs so far are what the minutes and the inter-arrival times say. */
  ghost predicate Faithful(raw: RawSpec, out: seq<Invocation>) {
    && |out| <= |raw.iat| && |out| <= |raw.runtimes|
    && forall m: nat, k: nat | InMinute(raw.perMinute, m, k) && k < |out| ::
         out[k] == Invocation(Arrival(raw, m, k), raw.runtimes[k])
  }

  lemma {:induction false} BeforeGrows(perMinute: seq<int>, m: nat, m': nat)
    requires m <= m' <= |perMinute|
    ensures Before(perMinute, m) <= Before(perMinute, m')
  {
    if m < m' {
      BeforeGrows(perMinute, m, m' - 1);
    }
  }

  lemma {:induction false} OneMinuteOnly(perMinute: seq<int>, m: nat, m': nat, k: nat)
    requires InMinute(perMinute, m, k) && InMinute(perMinute, m', k)
    ensures m == m'
  {
    if m < m' {
      BeforeGrows(perMinute, m + 1, m');
    } else if m' < m {
      BeforeGrows(perMinute, m' + 1, m);
    }
  }

  lemma {:induction false} FaithfulOneMore(raw: RawSpec, out: seq<Invocation>, m: nat)
    requires Faithful(raw, out) && InMinute(raw.perMinute, m, |out|) && |out| < |raw.iat| && |out| < |raw.runtimes|
    ensures Faithful(raw, out + [Invocation(Arrival(raw, m, |out|), raw.runtimes[|out|])])
  {
    var out' := out + [Invocation(Arrival(raw, m, |out|), raw.runtimes[|out|])];
    forall m': nat, k: nat | InMinute(raw.perMinute, m', k) && k < |out'|
      ensures out'[k] == Invocation(Arrival(raw, m', k), raw.runtimes[k])
    {
      if k == |out| {
        OneMinuteOnly(raw.perMinute, m, m', k);
      } else {
        assert out'[k] == out[k];
      }
    }
  }

  /** TranslateDirigentFunction: succeeds exactly if the per-minute counts add up to the number
      of inter-arrival times and there are runtimes for them; panics on a missing entry. */
  method Translate(raw: RawSpec) returns (outcome: Outcome)
    ensures var total := Before(raw.perMinute, |raw.perMinute|);
      && (outcome.IndexPanic? <==> total > |raw.iat| || total > |raw.runtimes|)
      && (outcome.CountMismatch? <==> total < |raw.iat| && total <= |raw.runtimes|)
    ensures outcome.Translated? ==>
      && outcome.minutes == |raw.perMinute| && |outcome.invocations| == |raw.iat|
      && Faithful(raw, outcome.invocations)
  {
    var invocations: seq<Invocation> := [];
    for minute := 0 to |raw.perMinute|
      invariant |invocations| == Before(raw.perMinute, minute) && Faithful(raw, invocations)
    {
      var startOfThisMinute := minute as real * 60.0;
      var elapsedInThisMinute := 0.0;
      ghost var start := |invocations|;
      var i := 0;
      while i < raw.perMinute[minute]
        invariant 0 <= i <= Max(0, raw.perMinute[minute])
        invariant start == Before(raw.perMinute, minute) && |invocations| == start + i
        invariant Faithful(raw, invocations)
        invariant elapsedInThisMinute == Elapsed(raw.iat, start, start + i)
      {
        var reqIndex := |invocations|;
        BeforeGrows(raw.perMinute, minute + 1, |raw.perMinute|);
        assert reqIndex < Before(raw.perMinute, minute + 1);
        if reqIndex >= |raw.iat| || reqIndex >= |raw.runtimes| {
          return IndexPanic;
        }
        elapsedInThisMinute := elapsedInThisMinute + raw.iat[reqIndex] / 1000000.0;
        FaithfulOneMore(raw, invocations, minute);
        invocations := invocations + [Invocation(startOfThisMinute + elapsedInThisMinute, raw.runtimes[reqIndex])];
        i := i + 1;
      }
    }
    if |invocations| != |raw.iat| {
      return CountMismatch;
    }
    return Translated(|raw.perMinute|, invocations);
  }

  // ----- the schedule

  /** Sum of the inter-arrival times from one index up to another, in microseconds. */
  function Gaps(iat: seq<real>, start: nat, end: nat): real
    requires start <= end <= |iat|
    decreases end
  {
    if start == end then 0.0 else Gaps(iat, start, end - 1) + iat[end - 1]
  }

  /** A second is a million microseconds. */
  lemma {:induction false} ElapsedMeaning(iat: seq<real>, start: nat, end: nat)
    requires start <= end <= |iat|
    ensures Elapsed(iat, start, end) * 1000000.0 == Gaps(iat, start, end)
    decreases end
  {
    if start < end {
      ElapsedMeaning(iat, start, end - 1);
    }
  }

  /** An invocation arrives as many microseconds after the start of its minute as the gaps of the
      minute's invocations up to its own one add up to. */
  lemma {:induction false} ArrivalMeaning(raw: RawSpec, out: seq<Invocation>, m: nat, k: nat)
    requires Faithful(raw, out) && InMinute(raw.perMinute, m, k) && k < |out|
    ensures (out[k].arrivalSec - 60.0 * m as real) * 1000000.0 == Gaps(raw.iat, Before(raw.perMinute, m), k + 1)
    ensures out[k].runtimeMs == raw.runtimes[k]
  {
    ElapsedMeaning(raw.iat, Before(raw.perMinute, m), k + 1);
  }

  /** Inter-arrival times are not negative and add up to at most 60 seconds, in microseconds, in
      each minute. */
  ghost predicate FitsMinutes(raw: RawSpec) {
    && Before(raw.perMinute, |raw.perMinute|) == |raw.iat|
    && (forall k | 0 <= k < |raw.iat| :: raw.iat[k] >= 0.0)
    && (forall m: nat | m < |raw.perMinute| && Before(raw.perMinute, m) <= Before(raw.perMinute, m + 1) <= |raw.iat| ::
          Gaps(raw.iat, Before(raw.perMinute, m), Before(raw.perMinute, m + 1)) <= 60000000.0)
  }

  lemma {:induction false} ElapsedGrows(iat: seq<real>, start: nat, end: nat, end': nat)
    requires start <= end <= end' <= |iat| && forall k | 0 <= k < |iat| :: iat[k] >= 0.0
    ensures Elapsed(iat, start, end) <= Elapsed(iat, start, end')
    decreases end'
  {
    if end < end' {
      ElapsedGrows(iat, start, end, end' - 1);
    }
  }

  lemma {:induction false} MinuteOf(perMinute: seq<int>, n: nat, k: nat) returns (m: nat)
    requires n <= |perMinute| && k < Before(perMinute, n)
    ensures InMinute(perMinute, m, k)
  {
    if k < Before(perMinute, n - 1) {
      m := MinuteOf(perMinute, n - 1, k);
    } else {
      m := n - 1;
    }
  }

  lemma SameMinute(raw: RawSpec, m: nat, k: nat, k': nat)
    requires FitsMinutes(raw) && k <= k' < |raw.iat| && InMinute(raw.perMinute, m, k) && InMinute(raw.perMinute, m, k')
    ensures Arrival(raw, m, k) <= Arrival(raw, m, k')
  {
    BeforeGrows(raw.perMinute, m + 1, |raw.perMinute|);
    ElapsedGrows(raw.iat, Before(raw.perMinute, m), k + 1, k' + 1);
  }

  /** An arrival lies in its minute. */
  lemma WithinMinute(raw: RawSpec, m: nat, k: nat)
    requires FitsMinutes(raw) && k < |raw.iat| && InMinute(raw.perMinute, m, k)
    ensures 60.0 * m as real <= Arrival(raw, m, k) <= 60.0 * m as real + 60.0
  {
    BeforeGrows(raw.perMinute, m + 1, |raw.perMinute|);
    ElapsedGrows(raw.iat, Before(raw.perMinute, m), k + 1, Before(raw.perMinute, m + 1));
    ElapsedGrows(raw.iat, Before(raw.perMinute, m), Before(raw.perMinute, m), k + 1);
    ElapsedMeaning(raw.iat, Before(raw.perMinute, m), Before(raw.perMinute, m + 1));
  }

  lemma MinutesInOrder(raw: RawSpec, m: nat, k: nat, m': nat, k': nat)
    requires FitsMinutes(raw) && k <= k' < |raw.iat| && InMinute(raw.perMinute, m, k) && InMinute(raw.perMinute, m', k')
    ensures Arrival(raw, m, k) <= Arrival(raw, m', k')
  {
    if m' < m {
      BeforeGrows(raw.perMinute, m' + 1, m);
      assert false;
    } else if m == m' {
      SameMinute(raw, m, k, k');
    } else {
      WithinMinute(raw, m, k);
      WithinMinute(raw, m', k');
    }
  }

  /** A faithful translation of such a trace is in nondecreasing order of arrival. */
  lemma {:induction false} ArrivalsInOrder(raw: RawSpec, out: seq<Invocation>, k: nat, k': nat)
    requires FitsMinutes(raw) && Faithful(raw, out) && k <= k' < |out|
    ensures out[k].arrivalSec <= out[k'].arrivalSec
  {
    var m := MinuteOf(raw.perMinute, |raw.perMinute|, k);
    var m' := MinuteOf(raw.perMinute, |raw.perMinute|, k');
    MinutesInOrder(raw, m, k, m', k');
  }
}
