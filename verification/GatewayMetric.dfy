/**
  The gateway's metric is a run of the request statistics: every arrival, departure and report of
  the statistics is an action of the relay loop or of the collector, in the same order.
*/
module GatewayMetric {
  import opened Gateway

  /** What an action tells the statistics. */
  function OpOf(s: State, l: Label): seq<Stats.Op> {
    match l
    case OnRelay(TakeRequest(now)) => if s.extIn != [] && s.extIn[0].target == s.target then [Stats.Op.ReqIn(now)] else []
    case OnRelay(TakeResponse(now)) => [Stats.Op.ReqOut(now)]
    case OnRelay(Collect(now)) => [Stats.Op.Report(now)]
    case _ => []
  }

  function OpsOf(s: State, run: seq<Label>): seq<Stats.Op>
    requires Legal(s, run)
    decreases |run|
  {
    if run == [] then [] else OpOf(s, run[0]) + OpsOf(Do(s, run[0]), run[1..])
  }

  lemma {:induction false} AfterPrefix(ops: seq<Stats.Op>, more: seq<Stats.Op>, n: nat)
    requires n <= |ops|
    ensures Stats.After(ops + more, n) == Stats.After(ops, n)
  {
    if n > 0 {
      AfterPrefix(ops, more, n - 1);
      assert (ops + more)[n - 1] == ops[n - 1];
    }
  }

  /** The statistics after some operations. */
  predicate Follows(ops: seq<Stats.Op>, view: Stats.View) {
    view == Stats.After(ops, |ops|)
  }

  lemma StatsStep(s: State, l: Label)
    requires Enabled(s, l)
    ensures var op := OpOf(s, l);
      |op| <= 1 && Do(s, l).stats == if op == [] then s.stats else Stats.Step(s.stats, op[0])
  {
  }

  /** One more action. */
  lemma {:induction false} MetricStep(ops: seq<Stats.Op>, s: State, l: Label)
    requires Enabled(s, l) && Follows(ops, s.stats)
    ensures Follows(ops + OpOf(s, l), Do(s, l).stats)
  {
    StatsStep(s, l);
    var op := OpOf(s, l);
    AfterPrefix(ops, op, |ops|);
    if op != [] {
      assert (ops + op)[|ops|] == op[0];
    } else {
      assert ops + op == ops;
    }
  }

  lemma {:induction false} MetricRun(ops: seq<Stats.Op>, s: State, run: seq<Label>)
    requires Legal(s, run) && Follows(ops, s.stats)
    ensures Follows(ops + OpsOf(s, run), Exec(s, run).stats)
    decreases |run|
  {
    if run == [] {
      assert ops + [] == ops;
    } else {
      MetricStep(ops, s, run[0]);
      MetricRun(ops + OpOf(s, run[0]), Do(s, run[0]), run[1..]);
      assert ops + OpOf(s, run[0]) + OpsOf(Do(s, run[0]), run[1..]) == ops + OpsOf(s, run);
    }
  }

  /** The metric of the gateway after any run is that of the statistics after the run's arrivals,
      departures and reports, so the area law and all that follows hold for it. */
  lemma {:induction false} MetricIsStatistics(target: string, run: seq<Label>)
    requires Legal(Init(target), run)
    ensures Follows(OpsOf(Init(target), run), Exec(Init(target), run).stats)
  {
    MetricRun([], Init(target), run);
    assert [] + OpsOf(Init(target), run) == OpsOf(Init(target), run);
  }
}
