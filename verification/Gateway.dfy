/**
  The gateway's data plane for one target as a labelled transition system: the relay loop with
  its counters and the request metric, the dispatch goroutines, the token channel, and
  Reconcile changing the endpoint set at the same time.

  Channels are unbounded and first-in first-out, as chann provides them.  Runs are before
  cancellation of the context.
*/
module Gateway {
  import opened Wrappers
  import Stats

  datatype Request = Request(id: string, target: string)

  datatype Status = SUCCESS | FAIL_DISPATCH | FAIL_TIMEOUT | FAIL_CONNECT | FAIL_SEND | FAIL_RECV | INVALID_TARGET

  datatype Response = Response(source: Request, status: Status)

  /** An endpoint key is pod name and address together. */
  type EndpointKey = string

  type Executor = int

  const PodServiceConcurrency: nat := 1

  /** Program points of Dispatch. */
  datatype Dispatch =
    | Waiting(req: Request)                                       // no token yet
    | Holding(req: Request, key: EndpointKey)                     // token taken, endpoint not looked up
    | Running(req: Request, key: EndpointKey, executor: Executor)
    | Returning(req: Request, key: EndpointKey, status: Status)   // token not given back yet
    | Answering(res: Response)
    | Exited

  /** Program points inside one iteration of the relay loop. */
  datatype Relay = AtSelect | Forwarding(req: Request) | Replying(res: Response) | Rejecting(req: Request)

  /** One goroutine of Reconcile that adds an endpoint. */
  datatype Adder = Creating | Pushing(left: nat)

  datatype Reconcile =
    | Quiet
    | Busy(ready: set<EndpointKey>, before: map<EndpointKey, Executor>, adders: map<EndpointKey, Adder>,
           failed: set<EndpointKey>, stale: set<EndpointKey>)

  datatype State = State(
    target: string,
    extIn: seq<Request>, intIn: seq<Request>, disp: seq<Dispatch>, intOut: seq<Response>, extOut: seq<Response>,
    relay: Relay, nSend: int, nRecv: int, stats: Stats.View, relayed: seq<Request>,
    endpoints: map<EndpointKey, Executor>, tokens: seq<EndpointKey>, rec: Reconcile,
    adds: multiset<EndpointKey>, discards: multiset<EndpointKey>)

  function Init(target: string): State {
    State(target, [], [], [], [], [], AtSelect, 0, 0, Stats.Fresh, [], map[], [], Quiet, multiset{}, multiset{})
  }

  // ----- the relay loop

  datatype RelayAct =
    | Submit(req: Request)
    | TakeRequest(now: Instant)     // receive, autoscaler.ReqIn, nSend++; or find the target wrong
    | Forward                             // internalInput <- req
    | Reject                              // externalOutput <- INVALID_TARGET
    | TakeResponse(now: Instant)    // receive, autoscaler.ReqOut, nRecv++
    | Reply                               // externalOutput <- res
    | Collect(now: Instant)         // the metric collector's periodic report

  predicate RelayEnabled(s: State, l: RelayAct) {
    match l
    case Submit(_) => true
    case TakeRequest(_) => s.relay == AtSelect && s.extIn != []
    case Forward => s.relay.Forwarding?
    case Reject => s.relay.Rejecting?
    case TakeResponse(_) => s.relay == AtSelect && s.intOut != []
    case Reply => s.relay.Replying?
    case Collect(_) => true
  }

  function DoRelay(s: State, l: RelayAct): State
    requires RelayEnabled(s, l)
  {
    match l
    case Submit(req) => s.(extIn := s.extIn + [req])
    case TakeRequest(now) =>
      var req := s.extIn[0];
      var ours := req.target == s.target;
      s.(extIn := s.extIn[1..],
         relay := if ours then Forwarding(req) else Rejecting(req),
         nSend := if ours then s.nSend + 1 else s.nSend,
         stats := if ours then Stats.In(s.stats, now) else s.stats,
         relayed := if ours then s.relayed + [req] else s.relayed)
    case Forward => s.(relay := AtSelect, intIn := s.intIn + [s.relay.req])
    case Reject => s.(relay := AtSelect, extOut := s.extOut + [Response(s.relay.req, INVALID_TARGET)])
    case TakeResponse(now) =>
      s.(intOut := s.intOut[1..], relay := Replying(s.intOut[0]), nRecv := s.nRecv + 1, stats := Stats.Out(s.stats, now))
    case Reply => s.(relay := AtSelect, extOut := s.extOut + [s.relay.res])
    case Collect(now) => s.(stats := Stats.Cleared(Stats.Moved(s.stats, now)))
  }

  // ----- the dispatcher

  datatype DispatchAct =
    | Start                               // Run: receive a request, start a goroutine
    | TakeToken(i: nat)
    | TimeOut(i: nat)
    | LookUp(i: nat)                      // a token of a removed endpoint is discarded
    | Execute(i: nat, status: Status)
    | GiveBack(i: nat)
    | Answer(i: nat)

  predicate DispatchEnabled(s: State, l: DispatchAct) {
    match l
    case Start => s.intIn != []
    case TakeToken(i) => i < |s.disp| && s.disp[i].Waiting? && s.tokens != []
    case TimeOut(i) => i < |s.disp| && s.disp[i].Waiting?
    case LookUp(i) => i < |s.disp| && s.disp[i].Holding?
    case Execute(i, _) => i < |s.disp| && s.disp[i].Running?
    case GiveBack(i) => i < |s.disp| && s.disp[i].Returning?
    case Answer(i) => i < |s.disp| && s.disp[i].Answering?
  }

  function DoDispatch(s: State, l: DispatchAct): State
    requires DispatchEnabled(s, l)
  {
    match l
    case Start => s.(intIn := s.intIn[1..], disp := s.disp + [Waiting(s.intIn[0])])
    case TakeToken(i) => s.(tokens := s.tokens[1..], disp := s.disp[i := Holding(s.disp[i].req, s.tokens[0])])
    case TimeOut(i) => s.(disp := s.disp[i := Answering(Response(s.disp[i].req, FAIL_DISPATCH))])
    case LookUp(i) =>
      var d := s.disp[i];
      var live := d.key in s.endpoints;
      s.(disp := s.disp[i := if live then Running(d.req, d.key, s.endpoints[d.key]) else Waiting(d.req)],
         discards := if live then s.discards else s.discards + multiset{d.key})
    case Execute(i, status) => s.(disp := s.disp[i := Returning(s.disp[i].req, s.disp[i].key, status)])
    case GiveBack(i) =>
      var d := s.disp[i];
      s.(tokens := s.tokens + [d.key], disp := s.disp[i := Answering(Response(d.req, d.status))])
    case Answer(i) => s.(intOut := s.intOut + [s.disp[i].res], disp := s.disp[i := Exited])
  }

  // ----- Reconcile

  datatype ReconcileAct =
    | Begin(ready: set<EndpointKey>)
    | AddOk(key: EndpointKey, executor: Executor)
    | AddFail(key: EndpointKey)
    | Push(key: EndpointKey)
    | Remove(key: EndpointKey)
    | End

  predicate ReconcileEnabled(s: State, l: ReconcileAct) {
    match l
    case Begin(_) => s.rec.Quiet?
    case AddOk(k, _) => s.rec.Busy? && k in s.rec.adders && s.rec.adders[k].Creating?
    case AddFail(k) => s.rec.Busy? && k in s.rec.adders && s.rec.adders[k].Creating?
    case Push(k) => s.rec.Busy? && k in s.rec.adders && s.rec.adders[k].Pushing? && s.rec.adders[k].left > 0
    case Remove(k) => s.rec.Busy? && k in s.rec.stale
    case End => s.rec.Busy? && s.rec.stale == {} && forall k | k in s.rec.adders :: s.rec.adders[k] == Pushing(0)
  }

  function DoReconcile(s: State, l: ReconcileAct): State
    requires ReconcileEnabled(s, l)
  {
    match l
    case Begin(ready) =>
      s.(rec := Busy(ready, s.endpoints, map k | k in ready - s.endpoints.Keys :: Creating, {}, s.endpoints.Keys - ready))
    case AddOk(k, executor) =>
      s.(endpoints := s.endpoints[k := executor], adds := s.adds + multiset{k},
         rec := s.rec.(adders := s.rec.adders[k := Pushing(PodServiceConcurrency)]))
    case AddFail(k) =>
      s.(rec := s.rec.(adders := s.rec.adders - {k}, failed := s.rec.failed + {k}))
    case Push(k) =>
      s.(tokens := s.tokens + [k], rec := s.rec.(adders := s.rec.adders[k := Pushing(s.rec.adders[k].left - 1)]))
    case Remove(k) => s.(endpoints := s.endpoints - {k}, rec := s.rec.(stale := s.rec.stale - {k}))
    case End => s.(rec := Quiet)
  }

  // ----- runs

  datatype Label = OnRelay(relay: RelayAct) | OnDispatch(dispatch: DispatchAct) | OnReconcile(reconcile: ReconcileAct)

  predicate Enabled(s: State, l: Label) {
    match l
    case OnRelay(a) => RelayEnabled(s, a)
    case OnDispatch(a) => DispatchEnabled(s, a)
    case OnReconcile(a) => ReconcileEnabled(s, a)
  }

  function Do(s: State, l: Label): State
    requires Enabled(s, l)
  {
    match l
    case OnRelay(a) => DoRelay(s, a)
    case OnDispatch(a) => DoDispatch(s, a)
    case OnReconcile(a) => DoReconcile(s, a)
  }

  predicate Legal(s: State, run: seq<Label>)
    decreases |run|
  {
    run == [] || (Enabled(s, run[0]) && Legal(Do(s, run[0]), run[1..]))
  }

  function Exec(s: State, run: seq<Label>): State
    requires Legal(s, run)
    decreases |run|
  {
    if run == [] then s else Exec(Do(s, run[0]), run[1..])
  }
}
