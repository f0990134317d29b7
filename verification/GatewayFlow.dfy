/** Requests through the gateway: conservation, and the metric that follows them. */
module GatewayFlow {
  import opened Totals
  import opened Gateway

  /** Dispatch goroutines that still owe the answer to a request. */
  predicate Owes(d: Dispatch, r: Request) {
    match d
    case Waiting(q) => q == r
    case Holding(q, _) => q == r
    case Running(q, _, _) => q == r
    case Returning(q, _, _) => q == r
    case Answering(res) => res.source == r
    case Exited => false
  }

  function OweWeight(r: Request): Dispatch -> nat {
    (d: Dispatch) => if Owes(d, r) then 1 else 0
  }

  function LiveWeight(): Dispatch -> nat {
    (d: Dispatch) => if d.Exited? then 0 else 1
  }

  function SourceWeight(r: Request): Response -> nat {
    (res: Response) => if res.source == r then 1 else 0
  }

  function Bit(b: bool): nat {
    if b then 1 else 0
  }

  /** Places of a request between being relayed and being answered. */
  function Pending(s: State, r: Request): nat {
    Bit(s.relay == Forwarding(r)) + multiset(s.intIn)[r] + Total(OweWeight(r), s.disp) + Total(SourceWeight(r), s.intOut)
  }

  function Answered(s: State, r: Request): nat {
    Bit(s.relay.Replying? && s.relay.res.source == r) + Total(SourceWeight(r), s.extOut)
  }

  /** All requests between ReqIn and ReqOut. */
  function Outstanding(s: State): nat {
    Bit(s.relay.Forwarding?) + |s.intIn| + Total(LiveWeight(), s.disp) + |s.intOut|
  }

  ghost predicate RequestInv(s: State, r: Request) {
    && (s.relay.Rejecting? ==> s.relay.req.target != s.target)
    && (r.target == s.target ==> multiset(s.relayed)[r] == Pending(s, r) + Answered(s, r))
    && (r.target != s.target ==> multiset(s.relayed)[r] == 0)
  }

  ghost predicate MetricInv(s: State) {
    s.nSend == |s.relayed| && s.stats.concurrency == s.nSend - s.nRecv == Outstanding(s)
  }

  lemma {:induction false} OwesAfter(disp: seq<Dispatch>, i: nat, d: Dispatch, r: Request)
    requires i < |disp|
    ensures Total(OweWeight(r), disp[i := d]) + Bit(Owes(disp[i], r)) == Total(OweWeight(r), disp) + Bit(Owes(d, r))
  {
    Changed(OweWeight(r), disp, i, d);
  }

  lemma {:induction false} LiveAfter(disp: seq<Dispatch>, i: nat, d: Dispatch)
    requires i < |disp|
    ensures Total(LiveWeight(), disp[i := d]) + Bit(!disp[i].Exited?) == Total(LiveWeight(), disp) + Bit(!d.Exited?)
  {
    Changed(LiveWeight(), disp, i, d);
  }

  lemma {:induction false} ResponseQueued(q: seq<Response>, res: Response, r: Request)
    ensures Total(SourceWeight(r), q + [res]) == Total(SourceWeight(r), q) + Bit(res.source == r)
  {
    OneMore(SourceWeight(r), q, res);
  }

  lemma {:induction false} ResponseTaken(q: seq<Response>, r: Request)
    requires q != []
    ensures Total(SourceWeight(r), q) == Bit(q[0].source == r) + Total(SourceWeight(r), q[1..])
  {
    FirstGone(SourceWeight(r), q);
  }

  lemma RequestTaken(s: State, l: RelayAct, r: Request)
    requires RelayEnabled(s, l) && RequestInv(s, r) && (l.TakeRequest? || l.Forward?)
    ensures RequestInv(DoRelay(s, l), r)
  {
  }

  lemma RequestReplied(s: State, l: RelayAct, r: Request)
    requires RelayEnabled(s, l) && RequestInv(s, r) && (l.TakeResponse? || l.Reply? || l.Reject?)
    ensures RequestInv(DoRelay(s, l), r)
  {
    match l
    case Reject => ResponseQueued(s.extOut, Response(s.relay.req, INVALID_TARGET), r);
    case TakeResponse(_) => ResponseTaken(s.intOut, r);
    case Reply => ResponseQueued(s.extOut, s.relay.res, r);
  }

  lemma RequestRelay(s: State, l: RelayAct, r: Request)
    requires RelayEnabled(s, l) && RequestInv(s, r)
    ensures RequestInv(DoRelay(s, l), r)
  {
    if l.TakeRequest? || l.Forward? {
      RequestTaken(s, l, r);
    } else if l.TakeResponse? || l.Reply? || l.Reject? {
      RequestReplied(s, l, r);
    }
  }

  lemma MetricRelay(s: State, l: RelayAct)
    requires RelayEnabled(s, l) && MetricInv(s)
    ensures MetricInv(DoRelay(s, l))
  {
  }

  lemma RequestStart(s: State, r: Request)
    requires DispatchEnabled(s, Start) && RequestInv(s, r)
    ensures RequestInv(DoDispatch(s, Start), r)
  {
    OneMore(OweWeight(r), s.disp, Waiting(s.intIn[0]));
    assert s.intIn == [s.intIn[0]] + s.intIn[1..];
  }

  lemma RequestAnswer(s: State, i: nat, r: Request)
    requires DispatchEnabled(s, Answer(i)) && RequestInv(s, r)
    ensures RequestInv(DoDispatch(s, Answer(i)), r)
  {
    OwesAfter(s.disp, i, Exited, r);
    ResponseQueued(s.intOut, s.disp[i].res, r);
  }

  /** A goroutine that goes on without answering owes the same request as before. */
  lemma RequestGoesOn(s: State, l: DispatchAct, r: Request)
    requires DispatchEnabled(s, l) && !l.Start? && !l.Answer? && RequestInv(s, r)
    ensures RequestInv(DoDispatch(s, l), r)
  {
    var s' := DoDispatch(s, l);
    assert s'.disp == s.disp[l.i := s'.disp[l.i]] && Owes(s'.disp[l.i], r) == Owes(s.disp[l.i], r);
    OwesAfter(s.disp, l.i, s'.disp[l.i], r);
    assert s'.relay == s.relay && s'.intIn == s.intIn && s'.intOut == s.intOut && s'.extOut == s.extOut;
    assert Pending(s', r) == Pending(s, r) && Answered(s', r) == Answered(s, r);
  }

  lemma RequestDispatch(s: State, l: DispatchAct, r: Request)
    requires DispatchEnabled(s, l) && RequestInv(s, r)
    ensures RequestInv(DoDispatch(s, l), r)
  {
    match l
    case Start => RequestStart(s, r);
    case Answer(i) => RequestAnswer(s, i, r);
    case _ => RequestGoesOn(s, l, r);
  }

  lemma MetricGoesOn(s: State, l: DispatchAct)
    requires DispatchEnabled(s, l) && !l.Start? && MetricInv(s)
    ensures MetricInv(DoDispatch(s, l))
  {
    var s' := DoDispatch(s, l);
    assert s'.disp == s.disp[l.i := s'.disp[l.i]] && !s.disp[l.i].Exited? && s'.disp[l.i].Exited? == l.Answer?;
    LiveAfter(s.disp, l.i, s'.disp[l.i]);
    assert s'.relay == s.relay && s'.intIn == s.intIn && s'.stats == s.stats && s'.relayed == s.relayed;
    assert |s'.intOut| == |s.intOut| + Bit(l.Answer?);
  }

  lemma MetricDispatch(s: State, l: DispatchAct)
    requires DispatchEnabled(s, l) && MetricInv(s)
    ensures MetricInv(DoDispatch(s, l))
  {
    if l.Start? {
      OneMore(LiveWeight(), s.disp, Waiting(s.intIn[0]));
    } else {
      MetricGoesOn(s, l);
    }
  }

  lemma RequestReconcile(s: State, l: ReconcileAct, r: Request)
    requires ReconcileEnabled(s, l) && RequestInv(s, r)
    ensures RequestInv(DoReconcile(s, l), r)
  {
  }

  lemma MetricReconcile(s: State, l: ReconcileAct)
    requires ReconcileEnabled(s, l) && MetricInv(s)
    ensures MetricInv(DoReconcile(s, l))
  {
  }

  lemma {:induction false} RunKept(s: State, run: seq<Label>, r: Request)
    requires Legal(s, run) && RequestInv(s, r)
    ensures RequestInv(Exec(s, run), r) && Exec(s, run).target == s.target
    decreases |run|
  {
    if run != [] {
      match run[0] {
        case OnRelay(a) => RequestRelay(s, a, r);
        case OnDispatch(a) => RequestDispatch(s, a, r);
        case OnReconcile(a) => RequestReconcile(s, a, r);
      }
      RunKept(Do(s, run[0]), run[1..], r);
    }
  }

  lemma {:induction false} MetricKept(s: State, run: seq<Label>)
    requires Legal(s, run) && MetricInv(s)
    ensures MetricInv(Exec(s, run))
    decreases |run|
  {
    if run != [] {
      match run[0] {
        case OnRelay(a) => MetricRelay(s, a);
        case OnDispatch(a) => MetricDispatch(s, a);
        case OnReconcile(a) => MetricReconcile(s, a);
      }
      MetricKept(Do(s, run[0]), run[1..]);
    }
  }

  lemma MetricStart(target: string)
    ensures MetricInv(Init(target))
  {
  }

  // ----- the theorems

  /** Request conservation: every relayed request of the target is at exactly one place between
      relay and answer, or has been answered exactly once with itself as source; requests for
      another target are never relayed. */
  lemma {:induction false} RequestConservation(target: string, run: seq<Label>, r: Request)
    requires Legal(Init(target), run)
    ensures var s := Exec(Init(target), run);
      if r.target == target then multiset(s.relayed)[r] == Pending(s, r) + Answered(s, r) else r !in s.relayed
  {
    RunKept(Init(target), run, r);
    var s := Exec(Init(target), run);
    assert r in s.relayed <==> multiset(s.relayed)[r] > 0;
  }

  /** The metric: the autoscaler's concurrency is nSend minus nRecv, which is the number of
      requests between ReqIn and ReqOut and so never negative. */
  lemma {:induction false} MetricIsOutstanding(target: string, run: seq<Label>)
    requires Legal(Init(target), run)
    ensures var s := Exec(Init(target), run);
      s.stats.concurrency == s.nSend - s.nRecv == Outstanding(s) && s.nSend == |s.relayed|
  {
    MetricStart(target);
    MetricKept(Init(target), run);
  }

  lemma PendingIsOutstanding(s: State, r: Request)
    ensures Pending(s, r) <= Outstanding(s)
  {
    Dominated(OweWeight(r), LiveWeight(), s.disp);
    SourcesBounded(s.intOut, r);
    assert multiset(s.intIn)[r] <= |multiset(s.intIn)|;
  }

  lemma {:induction false} SourcesBounded(q: seq<Response>, r: Request)
    ensures Total(SourceWeight(r), q) <= |q|
  {
    if q != [] {
      SourcesBounded(q[..|q| - 1], r);
    }
  }
}
