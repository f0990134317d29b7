/**
  Order in the gateway: channels are first-in first-out, goroutine number i serves the i-th
  relayed request, and an endpoint has the executor with which it was added last.
*/
module GatewayOrder {
  import opened Wrappers
  import opened Gateway

  // ----- what an action sends to a channel and receives from it

  function SentIn(l: Label): seq<Request> {
    match l
    case OnRelay(Submit(req)) => [req]
    case _ => []
  }

  function TakenIn(s: State, l: Label): seq<Request> {
    match l
    case OnRelay(TakeRequest(_)) => s.extIn[..Min(1, |s.extIn|)]
    case _ => []
  }

  function SentOut(s: State, l: Label): seq<Response> {
    match l
    case OnDispatch(Answer(i)) => if i < |s.disp| && s.disp[i].Answering? then [s.disp[i].res] else []
    case _ => []
  }

  function TakenOut(s: State, l: Label): seq<Response> {
    match l
    case OnRelay(TakeResponse(_)) => s.intOut[..Min(1, |s.intOut|)]
    case _ => []
  }

  /** What the relay writes to its output. */
  function Delivered(s: State, l: Label): seq<Response> {
    match l
    case OnRelay(Reject) => if s.relay.Rejecting? then [Response(s.relay.req, INVALID_TARGET)] else []
    case OnRelay(Reply) => if s.relay.Replying? then [s.relay.res] else []
    case _ => []
  }

  function SentToken(s: State, l: Label): seq<EndpointKey> {
    match l
    case OnDispatch(GiveBack(i)) => if i < |s.disp| && s.disp[i].Returning? then [s.disp[i].key] else []
    case OnReconcile(Push(k)) => [k]
    case _ => []
  }

  function TakenToken(s: State, l: Label): seq<EndpointKey> {
    match l
    case OnDispatch(TakeToken(_)) => s.tokens[..Min(1, |s.tokens|)]
    case _ => []
  }

  /** What happened on the channels in a run. */
  datatype Traffic = Traffic(
    sentIn: seq<Request>, takenIn: seq<Request>, sentOut: seq<Response>, takenOut: seq<Response>,
    delivered: seq<Response>, sentTokens: seq<EndpointKey>, takenTokens: seq<EndpointKey>)

  const NoTraffic := Traffic([], [], [], [], [], [], [])

  function After(t: Traffic, s: State, l: Label): Traffic {
    Traffic(t.sentIn + SentIn(l), t.takenIn + TakenIn(s, l), t.sentOut + SentOut(s, l), t.takenOut + TakenOut(s, l),
            t.delivered + Delivered(s, l), t.sentTokens + SentToken(s, l), t.takenTokens + TakenToken(s, l))
  }

  function TrafficOf(t: Traffic, s: State, run: seq<Label>): Traffic
    requires Legal(s, run)
    decreases |run|
  {
    if run == [] then t else TrafficOf(After(t, s, run[0]), Do(s, run[0]), run[1..])
  }

  /** What was sent is what was taken, followed by what is still in the channel. */
  predicate InOrder(t: Traffic, s: State) {
    && t.sentIn == t.takenIn + s.extIn && t.sentOut == t.takenOut + s.intOut
    && t.delivered == s.extOut && t.sentTokens == t.takenTokens + s.tokens
  }

  lemma OrderRequest(t: Traffic, s: State, l: RelayAct)
    requires RelayEnabled(s, l) && (l.TakeRequest? || l.Submit?) && InOrder(t, s)
    ensures InOrder(After(t, s, OnRelay(l)), DoRelay(s, l))
  {
    if l.TakeRequest? {
      assert s.extIn == s.extIn[..1] + s.extIn[1..];
    }
  }

  lemma OrderResponse(t: Traffic, s: State, l: RelayAct)
    requires RelayEnabled(s, l) && l.TakeResponse? && InOrder(t, s)
    ensures InOrder(After(t, s, OnRelay(l)), DoRelay(s, l))
  {
    assert s.intOut == s.intOut[..1] + s.intOut[1..];
  }

  lemma OrderOutput(t: Traffic, s: State, l: RelayAct)
    requires RelayEnabled(s, l) && (l.Reject? || l.Reply?) && InOrder(t, s)
    ensures InOrder(After(t, s, OnRelay(l)), DoRelay(s, l))
  {
  }

  lemma OrderRest(t: Traffic, s: State, l: RelayAct)
    requires RelayEnabled(s, l) && (l.Forward? || l.Collect?) && InOrder(t, s)
    ensures InOrder(After(t, s, OnRelay(l)), DoRelay(s, l))
  {
  }

  lemma OrderRelay(t: Traffic, s: State, l: RelayAct)
    requires RelayEnabled(s, l) && InOrder(t, s)
    ensures InOrder(After(t, s, OnRelay(l)), DoRelay(s, l))
  {
    if l.TakeRequest? || l.Submit? {
      OrderRequest(t, s, l);
    } else if l.TakeResponse? {
      OrderResponse(t, s, l);
    } else if l.Reject? || l.Reply? {
      OrderOutput(t, s, l);
    } else {
      OrderRest(t, s, l);
    }
  }

  lemma OrderTake(t: Traffic, s: State, i: nat)
    requires DispatchEnabled(s, TakeToken(i)) && InOrder(t, s)
    ensures InOrder(After(t, s, OnDispatch(TakeToken(i))), DoDispatch(s, TakeToken(i)))
  {
    assert s.tokens == s.tokens[..1] + s.tokens[1..];
  }

  lemma OrderGiveBack(t: Traffic, s: State, i: nat)
    requires DispatchEnabled(s, GiveBack(i)) && InOrder(t, s)
    ensures InOrder(After(t, s, OnDispatch(GiveBack(i))), DoDispatch(s, GiveBack(i)))
  {
  }

  lemma OrderAnswer(t: Traffic, s: State, i: nat)
    requires DispatchEnabled(s, Answer(i)) && InOrder(t, s)
    ensures InOrder(After(t, s, OnDispatch(Answer(i))), DoDispatch(s, Answer(i)))
  {
  }

  lemma OrderElse(t: Traffic, s: State, l: DispatchAct)
    requires DispatchEnabled(s, l) && InOrder(t, s) && (l.Start? || l.TimeOut? || l.LookUp? || l.Execute?)
    ensures InOrder(After(t, s, OnDispatch(l)), DoDispatch(s, l))
  {
  }

  lemma OrderDispatch(t: Traffic, s: State, l: DispatchAct)
    requires DispatchEnabled(s, l) && InOrder(t, s)
    ensures InOrder(After(t, s, OnDispatch(l)), DoDispatch(s, l))
  {
    match l
    case TakeToken(i) => OrderTake(t, s, i);
    case GiveBack(i) => OrderGiveBack(t, s, i);
    case Answer(i) => OrderAnswer(t, s, i);
    case _ => OrderElse(t, s, l);
  }

  lemma OrderReconcile(t: Traffic, s: State, l: ReconcileAct)
    requires ReconcileEnabled(s, l) && InOrder(t, s)
    ensures InOrder(After(t, s, OnReconcile(l)), DoReconcile(s, l))
  {
  }

  lemma {:induction false} OrderRun(t: Traffic, s: State, run: seq<Label>)
    requires Legal(s, run) && InOrder(t, s)
    ensures InOrder(TrafficOf(t, s, run), Exec(s, run))
    decreases |run|
  {
    if run != [] {
      match run[0] {
        case OnRelay(a) => OrderRelay(t, s, a);
        case OnDispatch(a) => OrderDispatch(t, s, a);
        case OnReconcile(a) => OrderReconcile(t, s, a);
      }
      OrderRun(After(t, s, run[0]), Do(s, run[0]), run[1..]);
    }
  }

  /** The channels are first-in first-out: in every run, requests are taken in the order in which
      they were submitted, responses in the order in which goroutines answered, tokens in the
      order in which they were pushed or given back; and the output has the relay's answers in the
      order in which it gave them. */
  lemma {:induction false} FirstInFirstOut(target: string, run: seq<Label>)
    requires Legal(Init(target), run)
    ensures InOrder(TrafficOf(NoTraffic, Init(target), run), Exec(Init(target), run))
  {
    OrderRun(NoTraffic, Init(target), run);
  }

  // ----- who serves whom

  /** The request that a goroutine still works on. */
  function ReqOf(d: Dispatch): Request
    requires !d.Exited?
  {
    match d
    case Waiting(r) => r
    case Holding(r, _) => r
    case Running(r, _, _) => r
    case Returning(r, _, _) => r
    case Answering(res) => res.source
  }

  /** Goroutines, the channel to them and the relay have the relayed requests one after the other. */
  ghost predicate ServedInTurn(s: State) {
    && |s.relayed| == |s.disp| + |s.intIn| + (if s.relay.Forwarding? then 1 else 0)
    && s.intIn == s.relayed[|s.disp|..|s.disp| + |s.intIn|]
    && (s.relay.Forwarding? ==> s.relay.req == s.relayed[|s.relayed| - 1])
    && forall i | 0 <= i < |s.disp| && !s.disp[i].Exited? :: ReqOf(s.disp[i]) == s.relayed[i]
  }

  lemma TurnRelay(s: State, l: RelayAct)
    requires RelayEnabled(s, l) && ServedInTurn(s)
    ensures ServedInTurn(DoRelay(s, l))
  {
  }

  lemma TurnStart(s: State)
    requires DispatchEnabled(s, Start) && ServedInTurn(s)
    ensures ServedInTurn(DoDispatch(s, Start))
  {
    assert s.intIn[0] == s.relayed[|s.disp|];
  }

  lemma TurnGoesOn(s: State, l: DispatchAct)
    requires DispatchEnabled(s, l) && !l.Start? && ServedInTurn(s)
    ensures ServedInTurn(DoDispatch(s, l))
  {
    var t := DoDispatch(s, l);
    assert t.disp == s.disp[l.i := t.disp[l.i]] && t.intIn == s.intIn && t.relay == s.relay && t.relayed == s.relayed;
  }

  lemma TurnDispatch(s: State, l: DispatchAct)
    requires DispatchEnabled(s, l) && ServedInTurn(s)
    ensures ServedInTurn(DoDispatch(s, l))
  {
    if l.Start? {
      TurnStart(s);
    } else {
      TurnGoesOn(s, l);
    }
  }

  lemma TurnReconcile(s: State, l: ReconcileAct)
    requires ReconcileEnabled(s, l) && ServedInTurn(s)
    ensures ServedInTurn(DoReconcile(s, l))
  {
  }

  lemma {:induction false} TurnRun(s: State, run: seq<Label>)
    requires Legal(s, run) && ServedInTurn(s)
    ensures ServedInTurn(Exec(s, run))
    decreases |run|
  {
    if run != [] {
      match run[0] {
        case OnRelay(a) => TurnRelay(s, a);
        case OnDispatch(a) => TurnDispatch(s, a);
        case OnReconcile(a) => TurnReconcile(s, a);
      }
      TurnRun(Do(s, run[0]), run[1..]);
    }
  }

  /** In every run, the i-th goroutine works on the i-th relayed request until it exits. */
  lemma {:induction false} GoroutinesServe(target: string, run: seq<Label>)
    requires Legal(Init(target), run)
    ensures ServedInTurn(Exec(Init(target), run))
  {
    TurnRun(Init(target), run);
  }

  // ----- executors

  /** The executor with which the key was added last in the run. */
  function LastAdded(run: seq<Label>, k: EndpointKey, before: Option<Executor>): Option<Executor>
    decreases |run|
  {
    if run == [] then before
    else LastAdded(run[1..], k,
                   if run[0].OnReconcile? && run[0].reconcile.AddOk? && run[0].reconcile.key == k
                   then Some(run[0].reconcile.executor) else before)
  }

  predicate HasExecutor(s: State, k: EndpointKey, e: Option<Executor>) {
    k in s.endpoints ==> e == Some(s.endpoints[k])
  }

  lemma {:induction false} ExecutorRun(s: State, run: seq<Label>, k: EndpointKey, before: Option<Executor>)
    requires Legal(s, run) && HasExecutor(s, k, before)
    ensures HasExecutor(Exec(s, run), k, LastAdded(run, k, before))
    decreases |run|
  {
    if run != [] {
      ExecutorRun(Do(s, run[0]), run[1..], k,
                  if run[0].OnReconcile? && run[0].reconcile.AddOk? && run[0].reconcile.key == k
                  then Some(run[0].reconcile.executor) else before);
    }
  }

  /** An endpoint has the executor of its last addition. */
  lemma {:induction false} EndpointExecutor(target: string, run: seq<Label>, k: EndpointKey)
    requires Legal(Init(target), run) && k in Exec(Init(target), run).endpoints
    ensures LastAdded(run, k, None) == Some(Exec(Init(target), run).endpoints[k])
  {
    ExecutorRun(Init(target), run, k, None);
  }
}
