/**
  The gateway's sequential code as it is written: one iteration of the relay loop, the dispatch of
  one request, and Reconcile with its goroutines one after the other.
*/
module GatewayServer {
  import opened Wrappers
  import opened Gateway
  import Stats

  class GatewayRelay {
    const key: string
    const autoscaler: Stats.RequestStats
    var externalInput: seq<Request>
    var internalInput: seq<Request>
    var internalOutput: seq<Response>
    var externalOutput: seq<Response>
    var nSend: int
    var nRecv: int

    ghost predicate Matches(s: State)
      reads this, autoscaler
    {
      && s.target == key && s.relay == AtSelect && s.nSend == nSend && s.nRecv == nRecv && s.stats == autoscaler.Now()
      && s.extIn == externalInput && s.intIn == internalInput && s.intOut == internalOutput && s.extOut == externalOutput
    }

    constructor (target: string, stats: Stats.RequestStats)
      requires stats.Now() == Stats.Fresh
      ensures key == target && autoscaler == stats && Matches(Init(target))
    {
      key, autoscaler := target, stats;
      externalInput, internalInput, internalOutput, externalOutput := [], [], [], [];
      nSend, nRecv := 0, 0;
    }

    /** The select case of an incoming request, from one loop boundary to the next. */
    method OnRequest(now: Instant, ghost s: State) returns (ghost s': State)
      requires Matches(s) && externalInput != []
      modifies this, autoscaler
      ensures Matches(s')
      ensures var taken := DoRelay(s, TakeRequest(now));
        s' == DoRelay(taken, if s.extIn[0].target == key then Forward else Reject)
      ensures var req := old(externalInput)[0];
        && externalInput == old(externalInput)[1..] && internalOutput == old(internalOutput) && nRecv == old(nRecv)
        && (req.target != key ==>
              && externalOutput == old(externalOutput) + [Response(req, INVALID_TARGET)]
              && internalInput == old(internalInput) && nSend == old(nSend) && autoscaler.Now() == old(autoscaler.Now()))
        && (req.target == key ==>
              && internalInput == old(internalInput) + [req] && externalOutput == old(externalOutput)
              && nSend == old(nSend) + 1 && autoscaler.Now() == Stats.In(old(autoscaler.Now()), now))
    {
      var req := externalInput[0];
      externalInput := externalInput[1..];
      if req.target != key {
        externalOutput := externalOutput + [Response(req, INVALID_TARGET)];
        s' := DoRelay(DoRelay(s, TakeRequest(now)), Reject);
        return;
      }
      var concurrency := autoscaler.ReqIn(now);
      nSend := nSend + 1;
      internalInput := internalInput + [req];
      s' := DoRelay(DoRelay(s, TakeRequest(now)), Forward);
    }

    /** The select case of a response. */
    method OnResponse(now: Instant, ghost s: State) returns (ghost s': State)
      requires Matches(s) && internalOutput != []
      modifies this, autoscaler
      ensures Matches(s') && s' == DoRelay(DoRelay(s, TakeResponse(now)), Reply)
      ensures internalOutput == old(internalOutput)[1..] && externalOutput == old(externalOutput) + [old(internalOutput)[0]]
      ensures nRecv == old(nRecv) + 1 && nSend == old(nSend) && autoscaler.Now() == Stats.Out(old(autoscaler.Now()), now)
      ensures externalInput == old(externalInput) && internalInput == old(internalInput)
    {
      var res := internalOutput[0];
      internalOutput := internalOutput[1..];
      var concurrency := autoscaler.ReqOut(now);
      nRecv := nRecv + 1;
      externalOutput := externalOutput + [res];
      s' := DoRelay(DoRelay(s, TakeResponse(now)), Reply);
    }
  }

  ghost predicate Distinct(keys: seq<EndpointKey>) {
    forall i, j | 0 <= i < j < |keys| :: keys[i] != keys[j]
  }

  /** The keys of one map that are missing in another, in the order of some iteration. */
  method MissingIn(keys: set<EndpointKey>, other: set<EndpointKey>) returns (missing: seq<EndpointKey>)
    ensures Distinct(missing) && (forall k :: k in missing <==> k in keys && k !in other)
  {
    missing := [];
    var rest := keys;
    while rest != {}
      invariant rest <= keys && Distinct(missing)
      invariant forall k :: k in missing <==> k in keys - rest && k !in other
      decreases rest
    {
      var key :| key in rest;
      rest := rest - {key};
      if key !in other {
        missing := missing + [key];
      }
    }
  }

  /** Reconcile's comparison: each addition and each removal once, never both, and exactly the
      goroutines and removals that the transition system's Begin starts. */
  method PlanReconcile(ready: set<EndpointKey>, existing: map<EndpointKey, Executor>, ghost s: State)
    returns (add: seq<EndpointKey>, del: seq<EndpointKey>)
    requires s.rec == Quiet && s.endpoints == existing
    ensures Distinct(add) && Distinct(del) && (forall k :: !(k in add && k in del))
    ensures var r := DoReconcile(s, Begin(ready)).rec;
      (forall k :: k in add <==> k in r.adders) && (forall k :: k in del <==> k in r.stale)
  {
    add := MissingIn(ready, existing.Keys);
    del := MissingIn(existing.Keys, ready);
  }

  /** The position of the first token of a live endpoint; the length if there is none. */
  function FirstLive(tokens: seq<EndpointKey>, live: set<EndpointKey>): (n: nat)
    ensures n <= |tokens| && (n < |tokens| ==> tokens[n] in live)
    ensures forall i | 0 <= i < n :: tokens[i] !in live
  {
    if tokens == [] then 0 else if tokens[0] in live then 0 else 1 + FirstLive(tokens[1..], live)
  }

  /** The endpoints after the goroutines of some additions. */
  function AddedTo(endpoints: map<EndpointKey, Executor>, add: seq<EndpointKey>, backends: map<EndpointKey, Option<Executor>>):
    map<EndpointKey, Executor>
    requires forall k | k in add :: k in backends
  {
    if add == [] then endpoints
    else
      var before, k := AddedTo(endpoints, add[..|add| - 1], backends), add[|add| - 1];
      if backends[k].Some? then before[k := backends[k].value] else before
  }

  /** The tokens that they push. */
  function Pushed(add: seq<EndpointKey>, backends: map<EndpointKey, Option<Executor>>): seq<EndpointKey>
    requires forall k | k in add :: k in backends
  {
    if add == [] then []
    else
      var before, k := Pushed(add[..|add| - 1], backends), add[|add| - 1];
      if backends[k].Some? then before + seq(PodServiceConcurrency, _ => k) else before
  }

  function CountOf(keys: seq<EndpointKey>, k: EndpointKey): nat {
    multiset(keys)[k]
  }

  lemma {:induction false} AddedKeys(endpoints: map<EndpointKey, Executor>, add: seq<EndpointKey>,
                                     backends: map<EndpointKey, Option<Executor>>)
    requires forall k | k in add :: k in backends
    ensures var after := AddedTo(endpoints, add, backends);
      && (forall k :: k in after <==> k in endpoints || (k in add && backends[k].Some?))
      && (forall k | k in after :: if k in add && backends[k].Some? then backends[k] == Some(after[k]) else after[k] == endpoints[k])
    decreases |add|
  {
    if add != [] {
      var rest, last := add[..|add| - 1], add[|add| - 1];
      assert add == rest + [last];
      AddedKeys(endpoints, rest, backends);
    }
  }

  lemma {:induction false} PushedCount(add: seq<EndpointKey>, backends: map<EndpointKey, Option<Executor>>, k: EndpointKey)
    requires Distinct(add) && forall k | k in add :: k in backends
    ensures CountOf(Pushed(add, backends), k) == if k in add && backends[k].Some? then PodServiceConcurrency else 0
    decreases |add|
  {
    if add != [] {
      var rest, last := add[..|add| - 1], add[|add| - 1];
      assert add == rest + [last];
      PushedCount(rest, backends, k);
    }
  }

  class PodDispatcher {
    var endpoints: map<EndpointKey, Executor>
    var tokens: seq<EndpointKey>
    var resChan: seq<Response>

    constructor ()
      ensures endpoints == map[] && tokens == [] && resChan == []
    {
      endpoints, tokens, resChan := map[], [], [];
    }

    /** dispatch: discards tokens of removed endpoints until one is live; without any, it times out. */
    method TakeLive() returns (key: Option<EndpointKey>)
      modifies `tokens
      ensures var n := FirstLive(old(tokens), endpoints.Keys);
        if n < |old(tokens)| then key == Some(old(tokens)[n]) && tokens == old(tokens)[n + 1..]
        else key == None && tokens == []
    {
      ghost var n := FirstLive(tokens, endpoints.Keys);
      ghost var taken := 0;
      while tokens != []
        invariant taken <= n && tokens == old(tokens)[taken..]
      {
        var next := tokens[0];
        tokens := tokens[1..];
        if next in endpoints {
          return Some(next);
        }
        taken := taken + 1;
      }
      return None;
    }

    /** Dispatch of a request: it is executed by the executor of the first live token, which goes
        back to the end of the queue, and answered with the execution's status; without a live
        token it is answered FAIL_DISPATCH.  status is what an execution answers. */
    method Dispatch(req: Request, status: Status) returns (used: Option<Executor>)
      modifies `tokens, `resChan
      ensures var n := FirstLive(old(tokens), endpoints.Keys);
        if n < |old(tokens)| then
          && used == Some(endpoints[old(tokens)[n]])
          && tokens == old(tokens)[n + 1..] + [old(tokens)[n]]
          && resChan == old(resChan) + [Response(req, status)]
        else
          used == None && tokens == [] && resChan == old(resChan) + [Response(req, FAIL_DISPATCH)]
    {
      var key := TakeLive();
      if key.None? {
        resChan := resChan + [Response(req, FAIL_DISPATCH)];
        return None;
      }
      used := Some(endpoints[key.value]);
      tokens := tokens + [key.value];
      resChan := resChan + [Response(req, status)];
    }

    /** One goroutine of Reconcile: a backend that starts is added with its tokens. */
    method Add(key: EndpointKey, backend: Option<Executor>)
      modifies `endpoints, `tokens
      ensures backend.None? ==> endpoints == old(endpoints) && tokens == old(tokens)
      ensures backend.Some? ==>
        && endpoints == old(endpoints)[key := backend.value]
        && tokens == old(tokens) + seq(PodServiceConcurrency, _ => key)
    {
      if backend.None? {
        return;
      }
      endpoints := endpoints[key := backend.value];
      for i := 0 to PodServiceConcurrency
        invariant tokens == old(tokens) + seq(i, _ => key) && endpoints == old(endpoints)[key := backend.value]
      {
        tokens := tokens + [key];
      }
    }

    /** Reconcile, whose goroutines start one backend for each new key.  Afterwards the endpoints
        are the ready keys without those whose backend failed; kept endpoints have their executor,
        new ones their backend, and each new one has its tokens. */
    method Reconcile(ready: set<EndpointKey>, backends: map<EndpointKey, Option<Executor>>) returns (failed: set<EndpointKey>)
      requires ready <= backends.Keys
      modifies `endpoints, `tokens
      ensures failed == set k | k in ready && k !in old(endpoints) && backends[k].None?
      ensures endpoints.Keys == ready - failed
      ensures forall k | k in endpoints ::
        if k in old(endpoints) then endpoints[k] == old(endpoints)[k] else backends[k] == Some(endpoints[k])
      ensures |tokens| >= |old(tokens)| && tokens[..|old(tokens)|] == old(tokens)
      ensures forall k :: CountOf(tokens[|old(tokens)|..], k) ==
                          if k in endpoints && k !in old(endpoints) then PodServiceConcurrency else 0
    {
      var add := MissingIn(ready, endpoints.Keys);
      var del := MissingIn(endpoints.Keys, ready);
      AddAll(add, backends);
      AddedKeys(old(endpoints), add, backends);
      forall k ensures CountOf(Pushed(add, backends), k) ==
                       if k in add && backends[k].Some? then PodServiceConcurrency else 0 {
        PushedCount(add, backends, k);
      }
      assert tokens[|old(tokens)|..] == Pushed(add, backends);
      RemoveAll(del);
      failed := set k | k in add && backends[k].None?;
    }

    method AddAll(add: seq<EndpointKey>, backends: map<EndpointKey, Option<Executor>>)
      requires forall k | k in add :: k in backends
      modifies `endpoints, `tokens
      ensures endpoints == AddedTo(old(endpoints), add, backends) && tokens == old(tokens) + Pushed(add, backends)
    {
      for i := 0 to |add|
        invariant endpoints == AddedTo(old(endpoints), add[..i], backends)
        invariant tokens == old(tokens) + Pushed(add[..i], backends)
      {
        assert add[..i + 1][..i] == add[..i];
        Add(add[i], backends[add[i]]);
      }
      assert add[..|add|] == add;
    }

    method RemoveAll(del: seq<EndpointKey>)
      modifies `endpoints
      ensures endpoints == old(endpoints) - (set k | k in del)
    {
      for i := 0 to |del|
        invariant endpoints == old(endpoints) - (set k | k in del[..i])
      {
        assert del[..i + 1] == del[..i] + [del[i]];
        endpoints := endpoints - {del[i]};
      }
      assert del[..|del|] == del;
    }
  }
}
