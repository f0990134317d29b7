/** What senders send, and the identifiers they print: "target-sender/index". */
module RequestIds {
  import opened Trace
  import opened Replay

  const Digits := "0123456789"

  function Decimal(n: nat): string {
    if n < 10 then [Digits[n]] else Decimal(n / 10) + [Digits[n % 10]]
  }

  function RequestId(target: string, sender: nat, index: nat): string {
    target + "-" + Decimal(sender) + "/" + Decimal(index)
  }

  datatype Request = Request(id: string, target: string, durationMs: int, traceSec: real)

  /** What a sender sends: one request per invocation of its shard, in order. */
  method Send(target: string, sender: nat, shard: seq<Invocation>) returns (sent: seq<Request>)
    ensures |sent| == |shard|
    ensures forall i: nat | i < |sent| ::
      sent[i] == Request(RequestId(target, sender, i), target, shard[i].runtimeMs, shard[i].arrivalSec)
  {
    sent := [];
    for i := 0 to |shard|
      invariant |sent| == i
      invariant forall m: nat | m < i ::
        sent[m] == Request(RequestId(target, sender, m), target, shard[m].runtimeMs, shard[m].arrivalSec)
    {
      sent := sent + [Request(RequestId(target, sender, i), target, shard[i].runtimeMs, shard[i].arrivalSec)];
    }
  }

  // ----- reading an identifier

  function DigitValue(c: char): int {
    c as int - '0' as int
  }

  /** The value of a string of decimal digits. */
  function ValueOf(s: string): int {
    if s == "" then 0 else ValueOf(s[..|s| - 1]) * 10 + DigitValue(s[|s| - 1])
  }

  lemma DigitReads(d: nat)
    requires d < 10
    ensures '0' <= Digits[d] <= '9' && DigitValue(Digits[d]) == d
  {
  }

  /** Decimal numbers consist of digits, read as the number, and have no leading zeros. */
  lemma {:induction false} DecimalReads(n: nat)
    ensures (forall c | c in Decimal(n) :: '0' <= c <= '9') && ValueOf(Decimal(n)) == n
    ensures Decimal(n) != "" && (n > 0 ==> Decimal(n)[0] != '0')
  {
    DigitReads(n % 10);
    if n < 10 {
      assert Decimal(n)[..0] == "";
    } else {
      var s := Decimal(n / 10);
      DecimalReads(n / 10);
      assert Decimal(n)[..|s|] == s && Decimal(n)[0] == s[0];
    }
  }

  /** The position of the last occurrence of a character; -1 if there is none. */
  function LastIndex(s: string, c: char): (i: int)
    ensures -1 <= i < |s| && (i >= 0 ==> s[i] == c) && forall j | i < j < |s| :: s[j] != c
  {
    if s == "" then -1 else if s[|s| - 1] == c then |s| - 1 else LastIndex(s[..|s| - 1], c)
  }

  /** Target, sender and index of an identifier, read back from its end. */
  function Parsed(id: string): (string, int, int) {
    var slash := LastIndex(id, '/');
    if slash < 0 then (id, 0, 0)
    else
      var dash := LastIndex(id[..slash], '-');
      if dash < 0 then (id, 0, 0) else (id[..dash], ValueOf(id[dash + 1..slash]), ValueOf(id[slash + 1..]))
  }

  lemma LastIndexIs(s: string, c: char, i: int)
    requires 0 <= i < |s| && s[i] == c && forall j | i < j < |s| :: s[j] != c
    ensures LastIndex(s, c) == i
  {
  }

  /** A string cut at a character that does not occur in the rest. */
  lemma CutAt(head: string, c: char, rest: string)
    requires c !in rest
    ensures var s := head + [c] + rest;
      LastIndex(s, c) == |head| && s[..|head|] == head && s[|head| + 1..] == rest
  {
    var s := head + [c] + rest;
    forall j | |head| < j < |s| ensures s[j] != c {
      assert s[j] == rest[j - |head| - 1];
    }
    LastIndexIs(s, c, |head|);
  }

  lemma ParsesAs(id: string, head: string, target: string, x: string, y: string)
    requires id == head + ['/'] + y && head == target + ['-'] + x && '/' !in y && '-' !in x
    ensures Parsed(id) == (target, ValueOf(x), ValueOf(y))
  {
    CutAt(head, '/', y);
    CutAt(target, '-', x);
    assert id[..|target|] == head[..|target|] && id[|target| + 1..|head|] == head[|target| + 1..];
  }

  /** Round trip: an identifier reads back as its target, sender and index, whatever the target
      contains. */
  lemma IdParses(target: string, sender: nat, index: nat)
    ensures Parsed(RequestId(target, sender, index)) == (target, sender, index)
  {
    DecimalReads(sender);
    DecimalReads(index);
    var head := target + ['-'] + Decimal(sender);
    assert RequestId(target, sender, index) == head + ['/'] + Decimal(index);
    ParsesAs(RequestId(target, sender, index), head, target, Decimal(sender), Decimal(index));
  }

  /** An identifier determines target, sender and index. */
  lemma IdDecodes(target: string, sender: nat, index: nat, target': string, sender': nat, index': nat)
    requires RequestId(target, sender, index) == RequestId(target', sender', index')
    ensures target == target' && sender == sender' && index == index'
  {
    IdParses(target, sender, index);
    IdParses(target', sender', index');
  }

  // ----- all senders of a worker

  /** The requests of all senders of a worker, sender by sender. */
  ghost predicate SentBy(target: string, shards: seq<seq<Invocation>>, sent: seq<seq<Request>>) {
    && |sent| == |shards| && (forall j: nat | j < |sent| :: |sent[j]| == |shards[j]|)
    && forall j: nat, i: nat | j < |sent| && i < |sent[j]| ::
         sent[j][i] == Request(RequestId(target, j, i), target, shards[j][i].runtimeMs, shards[j][i].arrivalSec)
  }

  /** A worker replays its trace: each sender sends its shard. */
  method ReplayTrace(target: string, trace: seq<Invocation>) returns (sent: seq<seq<Request>>, shards: seq<seq<Invocation>>)
    ensures |shards| == Senders(|trace|) && Dealt(trace, |trace|, shards) && SentBy(target, shards, sent)
  {
    shards := NewWorker(trace);
    sent := [];
    for j := 0 to |shards|
      invariant SentBy(target, shards[..j], sent)
    {
      var requests := Send(target, j, shards[j]);
      sent := sent + [requests];
    }
    assert shards[..|shards|] == shards;
  }

  /** No two requests share an identifier, across all senders of all workers. */
  lemma {:induction false} IdsUnique(target: string, shards: seq<seq<Invocation>>, sent: seq<seq<Request>>,
                                     target': string, shards': seq<seq<Invocation>>, sent': seq<seq<Request>>,
                                     j: nat, i: nat, j': nat, i': nat)
    requires SentBy(target, shards, sent) && SentBy(target', shards', sent')
    requires j < |sent| && i < |sent[j]| && j' < |sent'| && i' < |sent'[j']| && sent[j][i].id == sent'[j'][i'].id
    ensures target == target' && j == j' && i == i'
  {
    IdDecodes(target, j, i, target', j', i');
  }

  /** Every invocation of the trace is sent: the k-th one is request k / n of sender k mod n. */
  lemma {:induction false} EveryInvocationSent(target: string, trace: seq<Invocation>, shards: seq<seq<Invocation>>,
                                               sent: seq<seq<Request>>, k: nat) returns (j: nat, i: nat)
    requires |shards| == Senders(|trace|) && Dealt(trace, |trace|, shards) && SentBy(target, shards, sent) && k < |trace|
    ensures j < |sent| && i < |sent[j]| && k == Position(j, i, |sent|)
    ensures sent[j][i] == Request(RequestId(target, j, i), target, trace[k].runtimeMs, trace[k].arrivalSec)
  {
    j, i := k % |shards|, k / |shards|;
    TurnInside(k, |trace|, |shards|);
    assert |shards[j]| == Share(|trace|, j, |shards|);
  }
}
