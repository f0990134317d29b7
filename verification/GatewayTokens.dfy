/** Tokens under endpoint churn, and what Reconcile leaves behind. */
module GatewayTokens {
  import opened Totals
  import opened Gateway

  predicate HoldsToken(d: Dispatch, k: EndpointKey) {
    (d.Holding? || d.Running? || d.Returning?) && d.key == k
  }

  function TokenWeight(k: EndpointKey): Dispatch -> nat {
    (d: Dispatch) => if HoldsToken(d, k) then 1 else 0
  }

  function RunWeight(k: EndpointKey): Dispatch -> nat {
    (d: Dispatch) => if d.Running? && d.key == k then 1 else 0
  }

  function ToPush(rec: Reconcile, k: EndpointKey): nat {
    if rec.Busy? && k in rec.adders && rec.adders[k].Pushing? then rec.adders[k].left else 0
  }

  /** Every token of a key: queued, held by a dispatcher, or still to be pushed. */
  function AllTokens(s: State, k: EndpointKey): nat {
    multiset(s.tokens)[k] + Total(TokenWeight(k), s.disp) + ToPush(s.rec, k)
  }

  ghost predicate TokenInv(s: State, k: EndpointKey) {
    && AllTokens(s, k) + s.discards[k] == PodServiceConcurrency * s.adds[k]
    && (k in s.endpoints ==> AllTokens(s, k) >= PodServiceConcurrency)
  }

  lemma TokensRelay(s: State, l: RelayAct, k: EndpointKey)
    requires RelayEnabled(s, l) && TokenInv(s, k)
    ensures TokenInv(DoRelay(s, l), k)
  {
  }

  lemma {:induction false} HeldAfter(disp: seq<Dispatch>, i: nat, d: Dispatch, k: EndpointKey)
    requires i < |disp|
    ensures Total(TokenWeight(k), disp[i := d]) + (if HoldsToken(disp[i], k) then 1 else 0) ==
      Total(TokenWeight(k), disp) + if HoldsToken(d, k) then 1 else 0
  {
    Changed(TokenWeight(k), disp, i, d);
  }

  /** A token is discarded exactly if its endpoint is absent when it is looked up. */
  lemma TokensLookUp(s: State, i: nat, k: EndpointKey)
    requires DispatchEnabled(s, LookUp(i)) && TokenInv(s, k)
    ensures TokenInv(DoDispatch(s, LookUp(i)), k)
    ensures AllTokens(DoDispatch(s, LookUp(i)), k) == AllTokens(s, k) - if s.disp[i].key == k && k !in s.endpoints then 1 else 0
  {
    HeldAfter(s.disp, i, DoDispatch(s, LookUp(i)).disp[i], k);
  }

  lemma TokensTaken(s: State, i: nat, k: EndpointKey)
    requires DispatchEnabled(s, TakeToken(i)) && TokenInv(s, k)
    ensures TokenInv(DoDispatch(s, TakeToken(i)), k)
  {
    HeldAfter(s.disp, i, DoDispatch(s, TakeToken(i)).disp[i], k);
    assert s.tokens == [s.tokens[0]] + s.tokens[1..];
  }

  lemma TokensGivenBack(s: State, i: nat, k: EndpointKey)
    requires DispatchEnabled(s, GiveBack(i)) && TokenInv(s, k)
    ensures TokenInv(DoDispatch(s, GiveBack(i)), k)
  {
    HeldAfter(s.disp, i, DoDispatch(s, GiveBack(i)).disp[i], k);
  }

  lemma TokensStart(s: State, k: EndpointKey)
    requires DispatchEnabled(s, Start) && TokenInv(s, k)
    ensures TokenInv(DoDispatch(s, Start), k)
  {
    OneMore(TokenWeight(k), s.disp, Waiting(s.intIn[0]));
  }

  /** Timing out, finishing and answering leave the token where it is. */
  lemma TokensStay(s: State, l: DispatchAct, k: EndpointKey)
    requires DispatchEnabled(s, l) && TokenInv(s, k) && (l.TimeOut? || l.Execute? || l.Answer?)
    ensures TokenInv(DoDispatch(s, l), k)
  {
    var s' := DoDispatch(s, l);
    assert s'.disp == s.disp[l.i := s'.disp[l.i]] && HoldsToken(s'.disp[l.i], k) == HoldsToken(s.disp[l.i], k);
    HeldAfter(s.disp, l.i, s'.disp[l.i], k);
    assert s'.tokens == s.tokens && s'.rec == s.rec;
    assert AllTokens(s', k) == AllTokens(s, k);
  }

  lemma TokensDispatch(s: State, l: DispatchAct, k: EndpointKey)
    requires DispatchEnabled(s, l) && TokenInv(s, k)
    ensures TokenInv(DoDispatch(s, l), k)
  {
    match l
    case Start => TokensStart(s, k);
    case TakeToken(i) => TokensTaken(s, i, k);
    case LookUp(i) => TokensLookUp(s, i, k);
    case GiveBack(i) => TokensGivenBack(s, i, k);
    case _ => TokensStay(s, l, k);
  }

  lemma TokensReconcile(s: State, l: ReconcileAct, k: EndpointKey)
    requires ReconcileEnabled(s, l) && TokenInv(s, k)
    ensures TokenInv(DoReconcile(s, l), k)
  {
  }

  // ----- Reconcile

  /** Keys whose endpoint Reconcile has still to create. */
  function ToCreate(rec: Reconcile): set<EndpointKey>
    requires rec.Busy?
  {
    set k | k in rec.adders && rec.adders[k].Creating?
  }

  /** While Reconcile runs: kept keys keep their executor, stale ones are going, new ones coming. */
  ghost predicate ReconcileInv(s: State) {
    s.rec.Busy? ==>
      var r := s.rec;
      && r.stale <= r.before.Keys - r.ready
      && r.failed <= r.ready - r.before.Keys
      && r.adders.Keys == r.ready - r.before.Keys - r.failed
      && s.endpoints.Keys == r.before.Keys * r.ready + r.stale + (r.adders.Keys - ToCreate(r))
      && (forall k | k in r.before.Keys * r.ready :: s.endpoints[k] == r.before[k])
  }

  lemma ReconcileKept(s: State, l: ReconcileAct)
    requires ReconcileEnabled(s, l) && ReconcileInv(s)
    ensures ReconcileInv(DoReconcile(s, l))
  {
    var s' := DoReconcile(s, l);
    match l
    case AddOk(k, _) => assert ToCreate(s'.rec) == ToCreate(s.rec) - {k};
    case AddFail(k) => assert ToCreate(s'.rec) == ToCreate(s.rec) - {k};
    case Push(k) => assert ToCreate(s'.rec) == ToCreate(s.rec);
    case _ =>
  }

  lemma {:induction false} RunKept(s: State, run: seq<Label>, k: EndpointKey)
    requires Legal(s, run) && TokenInv(s, k) && ReconcileInv(s)
    ensures TokenInv(Exec(s, run), k) && ReconcileInv(Exec(s, run))
    decreases |run|
  {
    if run != [] {
      match run[0] {
        case OnRelay(a) => TokensRelay(s, a, k);
        case OnDispatch(a) => TokensDispatch(s, a, k);
        case OnReconcile(a) => TokensReconcile(s, a, k); ReconcileKept(s, a);
      }
      RunKept(Do(s, run[0]), run[1..], k);
    }
  }

  // ----- the theorems

  /** Token conservation: whatever the interleaving of dispatchers and Reconcile, the tokens of a
      key are the concurrency times its additions minus the discarded ones; a live endpoint has
      never lost a token of its last addition; and a key that was added only once never runs
      more requests at a time than the concurrency. */
  lemma {:induction false} TokenConservation(target: string, run: seq<Label>, k: EndpointKey)
    requires Legal(Init(target), run)
    ensures var s := Exec(Init(target), run);
      && AllTokens(s, k) == PodServiceConcurrency * s.adds[k] - s.discards[k]
      && (k in s.endpoints ==> AllTokens(s, k) >= PodServiceConcurrency)
      && (s.adds[k] <= 1 ==> Total(RunWeight(k), s.disp) <= PodServiceConcurrency)
  {
    RunKept(Init(target), run, k);
    Dominated(RunWeight(k), TokenWeight(k), Exec(Init(target), run).disp);
  }

  /** Reconcile exactness: when Reconcile can return, the endpoints are the ready keys minus the
      additions whose backend failed, and every key that was there before has kept its executor. */
  lemma {:induction false} ReconcileExact(target: string, run: seq<Label>)
    requires Legal(Init(target), run) && ReconcileEnabled(Exec(Init(target), run), End)
    ensures var s := Exec(Init(target), run);
      && s.endpoints.Keys == s.rec.ready - s.rec.failed
      && s.rec.failed !! s.rec.before.Keys
      && forall k | k in s.rec.before && k in s.rec.ready :: k in s.endpoints && s.endpoints[k] == s.rec.before[k]
  {
    RunKept(Init(target), run, "");
    var s := Exec(Init(target), run);
    assert ToCreate(s.rec) == {};
  }

  predicate WithoutReconcile(run: seq<Label>) {
    forall i | 0 <= i < |run| :: !run[i].OnReconcile?
  }

  /** Requests never touch the endpoints, and never cost a live endpoint a token. */
  lemma {:induction false} EndpointsUntouched(s: State, run: seq<Label>)
    requires Legal(s, run) && WithoutReconcile(run)
    ensures var s' := Exec(s, run);
      && s'.endpoints == s.endpoints && s'.rec == s.rec && s'.adds == s.adds
      && forall k | k in s.endpoints :: s'.discards[k] == s.discards[k]
    decreases |run|
  {
    if run != [] {
      EndpointsUntouched(Do(s, run[0]), run[1..]);
    }
  }

  lemma {:induction false} NothingToDo(s: State, ready: set<EndpointKey>, during: seq<Label>)
    requires s.endpoints.Keys == ready && ReconcileEnabled(s, Begin(ready)) && WithoutReconcile(during)
    requires Legal(DoReconcile(s, Begin(ready)), during)
    ensures var t := Exec(DoReconcile(s, Begin(ready)), during);
      && t.endpoints == s.endpoints && t.adds == s.adds && (forall k | k in s.endpoints :: t.discards[k] == s.discards[k])
      && forall l | ReconcileEnabled(t, l) :: l == End && DoReconcile(t, l) == t.(rec := Quiet)
  {
    var s0 := DoReconcile(s, Begin(ready));
    assert s0.rec.adders == map[];
    EndpointsUntouched(s0, during);
  }

  /** The state before and the state while a Reconcile is repeated. */
  predicate Repeats(s: State, between: seq<Label>, during: seq<Label>) {
    && ReconcileEnabled(s, End) && WithoutReconcile(between) && Legal(DoReconcile(s, End), between)
    && WithoutReconcile(during)
    && var s2 := Exec(DoReconcile(s, End), between);
       ReconcileEnabled(s2, Begin(s.rec.ready)) && Legal(DoReconcile(s2, Begin(s.rec.ready)), during)
  }

  function Repeated(s: State, between: seq<Label>, during: seq<Label>): State
    requires Repeats(s, between, during)
  {
    Exec(DoReconcile(Exec(DoReconcile(s, End), between), Begin(s.rec.ready)), during)
  }

  lemma {:induction false} RepeatKept(s: State, between: seq<Label>, during: seq<Label>, k: EndpointKey)
    requires Repeats(s, between, during) && TokenInv(s, k) && ReconcileInv(s)
    ensures TokenInv(Repeated(s, between, during), k)
  {
    var s1 := DoReconcile(s, End);
    TokensReconcile(s, End, k);
    RunKept(s1, between, k);
    var s2 := Exec(s1, between);
    TokensReconcile(s2, Begin(s.rec.ready), k);
    ReconcileKept(s2, Begin(s.rec.ready));
    RunKept(DoReconcile(s2, Begin(s.rec.ready)), during, k);
  }

  /** Repeating a Reconcile that succeeded, with the same ready set, whatever requests do in
      between and meanwhile: endpoints and their tokens stay, nothing is added, and ending it is
      all that is left to do. */
  lemma {:induction false} RepeatIsNoOp(target: string, run: seq<Label>, between: seq<Label>, during: seq<Label>, k: EndpointKey)
    requires Legal(Init(target), run) && Repeats(Exec(Init(target), run), between, during)
    requires Exec(Init(target), run).rec.failed == {}
    ensures var s, t := Exec(Init(target), run), Repeated(Exec(Init(target), run), between, during);
      && t.endpoints == s.endpoints && t.adds == s.adds && (k in s.endpoints ==> AllTokens(t, k) == AllTokens(s, k))
      && forall l | ReconcileEnabled(t, l) :: l == End && DoReconcile(t, l) == t.(rec := Quiet)
  {
    var s := Exec(Init(target), run);
    ReconcileExact(target, run);
    RunKept(Init(target), run, k);
    RepeatKept(s, between, during, k);
    EndpointsUntouched(DoReconcile(s, End), between);
    NothingToDo(Exec(DoReconcile(s, End), between), s.rec.ready, during);
  }
}
