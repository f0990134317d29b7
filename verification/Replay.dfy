/** The replay worker: round-robin sharding of a trace to senders. */
module Replay {
  import opened Trace

  const PerSender: nat := 60000

  /** Sixty seconds of at most a thousand invocations for each sender, rounded up. */
  function Senders(n: nat): nat {
    (n + PerSender - 1) / PerSender
  }

  /** There are just enough senders for 60000 invocations each. */
  lemma SendersMeaning(n: nat)
    ensures Senders(n) * 60000 >= n && (n > 0 ==> (Senders(n) - 1) * 60000 < n) && (n == 0 ==> Senders(n) == 0)
  {
  }

  // ----- division by the number of senders

  lemma SmallMultiple(x: int, d: int)
    requires d > 0 && -d < x * d < d
    ensures x == 0
  {
    assert x >= 1 ==> (x - 1) * d >= 0;
    assert x <= -1 ==> (-x - 1) * d >= 0;
  }

  lemma DivUnique(n: int, d: int, q: int, r: int)
    requires d > 0 && 0 <= r < d && n == q * d + r
    ensures n / d == q && n % d == r
  {
    var q', r' := n / d, n % d;
    assert n == q' * d + r';
    assert (q - q') * d == q * d - q' * d;
    SmallMultiple(q - q', d);
  }

  lemma MultiplesInOrder(a: int, b: int, n: nat)
    ensures a < b ==> a * n + n <= b * n
  {
    var x := b - a - 1;
    assert x >= 0 ==> x * n >= 0;
    assert b * n == (a + 1 + x) * n == a * n + n + x * n;
  }

  lemma NextDivMod(i: nat, n: nat)
    requires n > 0
    ensures if i % n == n - 1 then (i + 1) / n == i / n + 1 && (i + 1) % n == 0
            else (i + 1) / n == i / n && (i + 1) % n == i % n + 1
  {
    assert i == (i / n) * n + i % n;
    if i % n == n - 1 {
      assert (i / n + 1) * n == (i / n) * n + n;
      DivUnique(i + 1, n, i / n + 1, 0);
    } else {
      DivUnique(i + 1, n, i / n, i % n + 1);
    }
  }

  /** Position in the trace of item i of shard j. */
  function Position(j: nat, i: nat, n: nat): nat {
    i * n + j
  }

  /** Items of the first `done` ones that go to shard j. */
  function Share(done: nat, j: nat, n: nat): nat
    requires n > 0
  {
    done / n + if j < done % n then 1 else 0
  }

  // ----- sharding

  /** Shards dealt out round-robin: item i of shard j is item j + i * n of the trace. */
  ghost predicate Dealt<T(!new)>(trace: seq<T>, done: nat, shards: seq<seq<T>>) {
    && done <= |trace| && (|shards| == 0 ==> done == 0)
    && (forall j: nat | j < |shards| :: |shards[j]| == Share(done, j, |shards|))
    && (forall j: nat, i: nat | j < |shards| && i < |shards[j]| ::
          Position(j, i, |shards|) < |trace| && shards[j][i] == trace[Position(j, i, |shards|)])
  }

  lemma {:induction false} DealOne<T(!new)>(trace: seq<T>, done: nat, shards: seq<seq<T>>)
    requires Dealt(trace, done, shards) && done < |trace| && |shards| > 0
    ensures var bin := done % |shards|; Dealt(trace, done + 1, shards[bin := shards[bin] + [trace[done]]])
  {
    var n := |shards|;
    var bin := done % n;
    var shards' := shards[bin := shards[bin] + [trace[done]]];
    NextDivMod(done, n);
    forall j: nat | j < n ensures |shards'[j]| == Share(done + 1, j, n) {
      assert |shards[j]| == Share(done, j, n);
    }
    forall j: nat, i: nat | j < n && i < |shards'[j]|
      ensures Position(j, i, n) < |trace| && shards'[j][i] == trace[Position(j, i, n)]
    {
      if i < |shards[j]| {
        assert shards'[j][i] == shards[j][i];
      } else {
        assert j == bin && i == Share(done, bin, n) == done / n;
        assert Position(bin, done / n, n) == done;
      }
    }
  }

  method NewWorker(trace: seq<Invocation>) returns (shards: seq<seq<Invocation>>)
    ensures |shards| == Senders(|trace|) && Dealt(trace, |trace|, shards)
  {
    var nSenders := Senders(|trace|);
    shards := seq(nSenders, _ => []);
    for i := 0 to |trace|
      invariant |shards| == nSenders && Dealt(trace, i, shards)
    {
      DealOne(trace, i, shards);
      var senderBin := i % nSenders;
      shards := shards[senderBin := shards[senderBin] + [trace[i]]];
    }
  }

  /** The shards read back in turn. */
  function Interleaved<T>(shards: seq<seq<T>>, total: nat): seq<T>
    requires |shards| == 0 ==> total == 0
    requires forall j: nat | j < |shards| :: |shards[j]| == Share(total, j, |shards|)
  {
    seq(total, k requires 0 <= k < total => ItemOf(shards, total, k))
  }

  function ItemOf<T>(shards: seq<seq<T>>, total: nat, k: nat): T
    requires k < total && |shards| > 0
    requires forall j: nat | j < |shards| :: |shards[j]| == Share(total, j, |shards|)
  {
    TurnInside(k, total, |shards|);
    shards[k % |shards|][k / |shards|]
  }

  lemma TurnInside(k: nat, total: nat, n: nat)
    requires k < total && n > 0
    ensures k % n < n && k / n < Share(total, k % n, n) && Position(k % n, k / n, n) == k
  {
    var q, r := total / n, total % n;
    assert total == q * n + r && k == (k / n) * n + k % n;
    MultiplesInOrder(q, k / n, n);
  }

  /** Sharding keeps the trace: read back in turn, the shards are the trace again; no sender gets
      more than 60000 invocations, and any two senders' loads differ by at most one. */
  lemma {:induction false} ShardingPreservesTrace<T(!new)>(trace: seq<T>, shards: seq<seq<T>>)
    requires |shards| == Senders(|trace|) && Dealt(trace, |trace|, shards)
    ensures Interleaved(shards, |trace|) == trace
    ensures forall j: nat | j < |shards| :: |shards[j]| <= PerSender
    ensures forall j: nat, j': nat | j < |shards| && j' < |shards| :: |shards[j]| <= |shards[j']| + 1
  {
    var n, total := |shards|, |trace|;
    forall k: nat | k < total ensures ItemOf(shards, total, k) == trace[k] {
      ItemBack(trace, shards, k);
    }
    forall j: nat | j < n ensures |shards[j]| <= PerSender {
      ShareBounded(total, j, n);
    }
  }

  lemma {:induction false} ItemBack<T(!new)>(trace: seq<T>, shards: seq<seq<T>>, k: nat)
    requires |shards| > 0 && Dealt(trace, |trace|, shards) && k < |trace|
    ensures ItemOf(shards, |trace|, k) == trace[k]
  {
    TurnInside(k, |trace|, |shards|);
  }

  lemma ShareBounded(total: nat, j: nat, n: nat)
    requires n == Senders(total) && j < n
    ensures Share(total, j, n) <= PerSender
  {
    assert total <= n * PerSender;
    assert total == (total / n) * n + total % n;
    MultiplesInOrder(PerSender, total / n, n);
  }

  lemma PositionGrows(j: nat, i: nat, i': nat, n: nat)
    requires i <= i'
    ensures Position(j, i, n) <= Position(j, i', n)
  {
    assert (i' - i) * n >= 0;
  }

  /** Every sender's schedule is nondecreasing when the translated trace fits its minutes. */
  lemma {:induction false} SchedulesInOrder(raw: RawSpec, trace: seq<Invocation>, shards: seq<seq<Invocation>>, j: nat, i: nat, i': nat)
    requires FitsMinutes(raw) && Faithful(raw, trace) && Dealt(trace, |trace|, shards)
    requires j < |shards| && i <= i' < |shards[j]|
    ensures shards[j][i].arrivalSec <= shards[j][i'].arrivalSec
  {
    PositionGrows(j, i, i', |shards|);
    ArrivalsInOrder(raw, trace, Position(j, i, |shards|), Position(j, i', |shards|));
  }
}
