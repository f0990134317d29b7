/**
  Progress of the gateway: whatever state it is in, the relay loop and the dispatchers can answer
  every relayed request, and run a waiting one on a live endpoint, without help from Reconcile.
*/
module GatewayProgress {
  import opened Wrappers
  import opened Totals
  import opened Gateway
  import opened GatewayFlow
  import GatewayTokens

  /** Actions of the relay loop on requests it has taken already, and of the dispatchers. */
  predicate Finishing(l: Label) {
    match l
    case OnRelay(a) => a.Forward? || a.Reject? || a.TakeResponse? || a.Reply?
    case OnDispatch(_) => true
    case OnReconcile(_) => false
  }

  /** How many actions a dispatch goroutine and the answer after it can still take. */
  function Steps(d: Dispatch): nat {
    match d
    case Waiting(_) => 4
    case Holding(_, _) => 6
    case Running(_, _, _) => 5
    case Returning(_, _, _) => 4
    case Answering(_) => 3
    case Exited => 0
  }

  function StepWeight(): Dispatch -> nat {
    (d: Dispatch) => Steps(d)
  }

  function RelaySteps(r: Relay): nat {
    match r
    case AtSelect => 0
    case Forwarding(_) => 6
    case Replying(_) => 1
    case Rejecting(_) => 1
  }

  function Remaining(s: State): nat {
    RelaySteps(s.relay) + 5 * |s.intIn| + Total(StepWeight(), s.disp) + 2 * |s.intOut|
  }

  lemma {:induction false} StepsAfter(disp: seq<Dispatch>, i: nat, d: Dispatch)
    requires i < |disp|
    ensures Total(StepWeight(), disp[i := d]) + Steps(disp[i]) == Total(StepWeight(), disp) + Steps(d)
  {
    Changed(StepWeight(), disp, i, d);
  }

  /** What a goroutine that has not exited can do by itself. */
  function NextAct(d: Dispatch, i: nat): DispatchAct
    requires !d.Exited?
  {
    match d
    case Waiting(_) => TimeOut(i)
    case Holding(_, _) => LookUp(i)
    case Running(_, _, _) => Execute(i, SUCCESS)
    case Returning(_, _, _) => GiveBack(i)
    case Answering(_) => Answer(i)
  }

  lemma DispatchCloser(s: State, i: nat, l: DispatchAct)
    requires i < |s.disp| && !s.disp[i].Exited? && l == NextAct(s.disp[i], i)
    ensures DispatchEnabled(s, l) && Remaining(DoDispatch(s, l)) < Remaining(s)
  {
    StepsAfter(s.disp, i, DoDispatch(s, l).disp[i]);
    assert DoDispatch(s, l).disp == s.disp[i := DoDispatch(s, l).disp[i]];
  }

  lemma StartCloser(s: State)
    requires s.intIn != []
    ensures DispatchEnabled(s, Start) && Remaining(DoDispatch(s, Start)) < Remaining(s)
  {
    OneMore(StepWeight(), s.disp, Waiting(s.intIn[0]));
  }

  lemma RelayCloser(s: State, l: RelayAct)
    requires RelayEnabled(s, l) && (l.Forward? || l.Reject? || l.TakeResponse? || l.Reply?)
    ensures Remaining(DoRelay(s, l)) < Remaining(s)
  {
  }

  /** Every relayed request has been answered. */
  predicate AllAnswered(s: State) {
    s.relay == AtSelect && s.intIn == [] && s.intOut == [] && forall i | 0 <= i < |s.disp| :: s.disp[i].Exited?
  }

  /** Otherwise somebody can act, and brings the end closer. */
  lemma OneCloser(s: State, now: Instant) returns (l: Label)
    requires !AllAnswered(s)
    ensures Finishing(l) && Enabled(s, l) && Remaining(Do(s, l)) < Remaining(s)
  {
    if s.relay != AtSelect {
      var a := if s.relay.Forwarding? then Forward else if s.relay.Replying? then Reply else Reject;
      RelayCloser(s, a);
      l := OnRelay(a);
    } else if s.intOut != [] {
      RelayCloser(s, TakeResponse(now));
      l := OnRelay(TakeResponse(now));
    } else if s.intIn != [] {
      StartCloser(s);
      l := OnDispatch(Start);
    } else {
      var i :| 0 <= i < |s.disp| && !s.disp[i].Exited?;
      DispatchCloser(s, i, NextAct(s.disp[i], i));
      l := OnDispatch(NextAct(s.disp[i], i));
    }
  }

  lemma {:induction false} CanFinish(s: State, now: Instant) returns (more: seq<Label>)
    ensures Legal(s, more) && AllAnswered(Exec(s, more)) && forall i | 0 <= i < |more| :: Finishing(more[i])
    decreases Remaining(s)
  {
    if AllAnswered(s) {
      more := [];
    } else {
      var l := OneCloser(s, now);
      var rest := CanFinish(Do(s, l), now);
      more := [l] + rest;
      assert more[1..] == rest;
    }
  }

  lemma {:induction false} FinishingKeeps(s: State, more: seq<Label>)
    requires Legal(s, more) && forall i | 0 <= i < |more| :: Finishing(more[i])
    ensures Exec(s, more).relayed == s.relayed && Exec(s, more).target == s.target
    decreases |more|
  {
    if more != [] {
      FinishingKeeps(Do(s, more[0]), more[1..]);
    }
  }

  lemma {:induction false} NothingOwed(disp: seq<Dispatch>, r: Request)
    requires forall i | 0 <= i < |disp| :: disp[i].Exited?
    ensures Total(OweWeight(r), disp) == 0
  {
    if disp != [] {
      NothingOwed(disp[..|disp| - 1], r);
    }
  }

  /** Progress: from every reachable state, the relay loop and the dispatchers alone can get to a
      state in which every request relayed so far has been answered, exactly as often as it was
      relayed, and the metric is back at 0. */
  lemma {:induction false} CanAnswerAll(target: string, run: seq<Label>, now: Instant, r: Request)
    returns (more: seq<Label>, t: State)
    requires Legal(Init(target), run)
    ensures var s := Exec(Init(target), run);
      && Legal(s, more) && t == Exec(s, more) && (forall i | 0 <= i < |more| :: Finishing(more[i]))
      && t.relayed == s.relayed && Pending(t, r) == 0 && t.stats.concurrency == 0
      && (r.target == target ==> Total(SourceWeight(r), t.extOut) == multiset(s.relayed)[r])
  {
    var s := Exec(Init(target), run);
    more := CanFinish(s, now);
    t := Exec(s, more);
    FinishingKeeps(s, more);
    MetricStart(target);
    MetricKept(Init(target), run);
    MetricKept(s, more);
    RunKept(Init(target), run, r);
    RunKept(s, more, r);
    NothingOwed(t.disp, r);
    NothingLive(t.disp);
  }

  lemma {:induction false} NothingLive(disp: seq<Dispatch>)
    requires forall i | 0 <= i < |disp| :: disp[i].Exited?
    ensures Total(LiveWeight(), disp) == 0
  {
    if disp != [] {
      NothingLive(disp[..|disp| - 1]);
    }
  }

  // ----- a live endpoint serves

  predicate Holds(d: Dispatch) {
    d.Holding? || d.Running? || d.Returning?
  }

  function HoldSteps(d: Dispatch): nat {
    if d.Holding? then 3 else if d.Running? then 2 else if d.Returning? then 1 else 0
  }

  function HoldWeight(): Dispatch -> nat {
    (d: Dispatch) => HoldSteps(d)
  }

  /** Request i is waiting for a token while the key is a live endpoint whose tokens are pushed. */
  ghost predicate Waits(s: State, i: nat, k: EndpointKey) {
    i < |s.disp| && s.disp[i].Waiting? && k in s.endpoints && GatewayTokens.ToPush(s.rec, k) == 0 && GatewayTokens.TokenInv(s, k)
  }

  lemma HoldCloser(s: State, i: nat, j: nat, k: EndpointKey, l: DispatchAct)
    requires Waits(s, i, k) && j < |s.disp| && Holds(s.disp[j]) && l == NextAct(s.disp[j], j)
    ensures DispatchEnabled(s, l) && Waits(DoDispatch(s, l), i, k)
    ensures Total(HoldWeight(), DoDispatch(s, l).disp) < Total(HoldWeight(), s.disp)
    ensures DoDispatch(s, l).disp[i] == s.disp[i] && DoDispatch(s, l).endpoints == s.endpoints
  {
    GatewayTokens.TokensDispatch(s, l, k);
    Changed(HoldWeight(), s.disp, j, DoDispatch(s, l).disp[j]);
    assert DoDispatch(s, l).disp == s.disp[j := DoDispatch(s, l).disp[j]];
  }

  lemma {:induction false} OneMoreAct(s: State, l: DispatchAct, rest: seq<Label>)
    requires DispatchEnabled(s, l) && Legal(DoDispatch(s, l), rest)
    ensures Legal(s, [OnDispatch(l)] + rest) && Exec(s, [OnDispatch(l)] + rest) == Exec(DoDispatch(s, l), rest)
  {
    assert ([OnDispatch(l)] + rest)[1..] == rest;
  }

  predicate OnlyDispatch(run: seq<Label>) {
    forall i | 0 <= i < |run| :: run[i].OnDispatch?
  }

  /** Everybody who holds a token gives it back. */
  lemma {:induction false} TokensFreed(s: State, i: nat, k: EndpointKey) returns (more: seq<Label>, t: State)
    requires Waits(s, i, k)
    ensures Legal(s, more) && t == Exec(s, more) && OnlyDispatch(more) && Waits(t, i, k)
    ensures t.disp[i] == s.disp[i] && t.endpoints == s.endpoints && forall j | 0 <= j < |t.disp| :: !Holds(t.disp[j])
    decreases Total(HoldWeight(), s.disp)
  {
    if j :| 0 <= j < |s.disp| && Holds(s.disp[j]) {
      var l := NextAct(s.disp[j], j);
      HoldCloser(s, i, j, k, l);
      var rest;
      rest, t := TokensFreed(DoDispatch(s, l), i, k);
      OneMoreAct(s, l, rest);
      more := [OnDispatch(l)] + rest;
    } else {
      more, t := [], s;
    }
  }

  lemma {:induction false} NobodyHolds(disp: seq<Dispatch>, k: EndpointKey)
    requires forall j | 0 <= j < |disp| :: !Holds(disp[j])
    ensures Total(GatewayTokens.TokenWeight(k), disp) == 0
  {
    if disp != [] {
      NobodyHolds(disp[..|disp| - 1], k);
    }
  }

  /** Taking a token and looking its endpoint up. */
  lemma TryToken(s: State, i: nat) returns (t: State)
    requires i < |s.disp| && s.disp[i].Waiting? && s.tokens != []
    ensures DispatchEnabled(s, TakeToken(i)) && DispatchEnabled(DoDispatch(s, TakeToken(i)), LookUp(i))
    ensures t == DoDispatch(DoDispatch(s, TakeToken(i)), LookUp(i)) && t.tokens == s.tokens[1..] && t.endpoints == s.endpoints
    ensures |t.disp| == |s.disp|
    ensures s.tokens[0] in s.endpoints ==> t.disp[i] == Running(s.disp[i].req, s.tokens[0], s.endpoints[s.tokens[0]])
    ensures s.tokens[0] !in s.endpoints ==> t.disp[i] == s.disp[i]
  {
    t := DoDispatch(DoDispatch(s, TakeToken(i)), LookUp(i));
  }

  /** Discarding tokens of removed endpoints, the request comes to one of a live endpoint. */
  lemma {:induction false} LiveTokenTaken(s: State, i: nat, k: EndpointKey) returns (more: seq<Label>, t: State)
    requires i < |s.disp| && s.disp[i].Waiting? && k in s.endpoints && k in s.tokens
    ensures Legal(s, more) && t == Exec(s, more) && OnlyDispatch(more) && i < |t.disp| && t.disp[i].Running?
    ensures t.disp[i].req == s.disp[i].req && t.disp[i].key in t.endpoints && t.disp[i].executor == t.endpoints[t.disp[i].key]
    decreases |s.tokens|
  {
    var u := TryToken(s, i);
    var s1 := DoDispatch(s, TakeToken(i));
    var rest;
    if s.tokens[0] in s.endpoints {
      rest, t := [], u;
    } else {
      assert s.tokens == [s.tokens[0]] + s.tokens[1..];
      rest, t := LiveTokenTaken(u, i, k);
    }
    OneMoreAct(s1, LookUp(i), rest);
    OneMoreAct(s, TakeToken(i), [OnDispatch(LookUp(i))] + rest);
    more := [OnDispatch(TakeToken(i))] + ([OnDispatch(LookUp(i))] + rest);
  }

  lemma {:induction false} Joined(s: State, run: seq<Label>, more: seq<Label>)
    requires Legal(s, run) && Legal(Exec(s, run), more)
    ensures Legal(s, run + more) && Exec(s, run + more) == Exec(Exec(s, run), more)
    decreases |run|
  {
    if run == [] {
      assert run + more == more;
    } else {
      assert (run + more)[0] == run[0] && (run + more)[1..] == run[1..] + more;
      Joined(Do(s, run[0]), run[1..], more);
    }
  }

  /** No starvation: whatever endpoints have come and gone, a request that waits for a token while
      some endpoint is live and its tokens have been pushed can be run by the dispatchers alone,
      on an endpoint that is live and with its executor. */
  lemma {:induction false} CanBeRun(target: string, run: seq<Label>, i: nat, k: EndpointKey) returns (more: seq<Label>, t: State)
    requires Legal(Init(target), run)
    requires var s := Exec(Init(target), run);
      i < |s.disp| && s.disp[i].Waiting? && k in s.endpoints && GatewayTokens.ToPush(s.rec, k) == 0
    ensures var s := Exec(Init(target), run);
      && Legal(s, more) && t == Exec(s, more) && OnlyDispatch(more) && i < |t.disp| && t.disp[i].Running?
      && t.disp[i].req == s.disp[i].req && t.disp[i].key in t.endpoints && t.disp[i].executor == t.endpoints[t.disp[i].key]
  {
    var s := Exec(Init(target), run);
    GatewayTokens.RunKept(Init(target), run, k);
    var freed, u := TokensFreed(s, i, k);
    NobodyHolds(u.disp, k);
    assert multiset(u.tokens)[k] >= 1;
    var rest;
    rest, t := LiveTokenTaken(u, i, k);
    Joined(s, freed, rest);
    more := freed + rest;
  }
}
