/** Parts of runs: letting the informer catch up, and letting a worker return its key. */
module KubeletDrive {
  import opened Wrappers
  import opened Kubelet
  import opened KubeletNames

  // ----- single actions that a rule for the outside world always allows

  lemma {:induction false} OnWork(rule: Rule, c: Config, s0: State, run: seq<Label>, s: State, k: Key, l: WorkAct)
    returns (run': seq<Label>, t: State)
    requires Leads(rule, c, s0, run, s) && !rule.Recovery? && WorkEnabled(s, k, l)
    ensures Leads(rule, c, s0, run', t) && t == DoWork(c, s, k, l)
  {
    run', t := ThenWork(rule, c, s0, run, s, k, l);
  }

  lemma {:induction false} OnInform(rule: Rule, c: Config, s0: State, run: seq<Label>, s: State, l: InformAct)
    returns (run': seq<Label>, t: State)
    requires Leads(rule, c, s0, run, s) && InformEnabled(s, l)
    ensures Leads(rule, c, s0, run', t) && t == DoInform(s, l)
  {
    run', t := ThenInform(rule, c, s0, run, s, l);
  }

  lemma {:induction false} OnRpc(rule: Rule, c: Config, s0: State, run: seq<Label>, s: State, l: RpcAct)
    returns (run': seq<Label>, t: State)
    requires Leads(rule, c, s0, run, s) && !rule.Recovery? && RpcEnabled(s, l) && !l.BindInsert?
    requires l.BindLock? && rule != Anything ==> WellNamed(c, l.info.key)
    ensures Leads(rule, c, s0, run', t) && t == DoRpc(s, l)
  {
    run', t := ThenRpc(rule, c, s0, run, s, l);
  }

  lemma {:induction false} OnWorld(rule: Rule, c: Config, s0: State, run: seq<Label>, s: State, l: WorldAct)
    returns (run': seq<Label>, t: State)
    requires Leads(rule, c, s0, run, s) && !rule.Recovery? && WorldEnabled(s, l)
    requires (l.ApiCreate? || l.ApiUpdate?) && rule != Anything ==> WellNamed(c, l.key)
    ensures Leads(rule, c, s0, run', t) && t == DoWorld(s, l)
  {
    run', t := ThenWorld(rule, c, s0, run, s, l);
  }

  // ----- handshakes

  lemma {:induction false} Answer(rule: Rule, c: Config, s0: State, run: seq<Label>, s: State, source: string)
    returns (run': seq<Label>, t: State)
    requires Leads(rule, c, s0, run, s) && !rule.Recovery? && HandshakeOf(s, source) && s.hub[source].holder.value.Installing?
    ensures var h := s.hub[source];
      && Leads(rule, c, s0, run', t)
      && t == s.(hub := s.hub[source := Hub(h.epoch, None)],
                 history := s.history + [Snapshot(source, h.epoch, h.holder.value.node, OnNode(s.cache, h.holder.value.node))])
  {
    run', t := OnRpc(rule, c, s0, run, s, HandshakeSnapshot(source));
    run', t := OnRpc(rule, c, s0, run', t, HandshakeUnlock(source));
    assert t.hub == s.hub[source := Hub(s.hub[source].epoch, None)];
  }

  /** A source without pending binds shakes hands. */
  lemma {:induction false} ShakeHands(rule: Rule, c: Config, s0: State, run: seq<Label>, s: State, source: string, node: string)
    returns (run': seq<Label>, t: State)
    requires Leads(rule, c, s0, run, s) && !rule.Recovery? && !HandshakeOf(s, source)
    requires forall id | id in s.binders :: s.binders[id].source != source
    ensures Leads(rule, c, s0, run', t) && t == s.(hub := s.hub[source := Hub("epoch", None)], history := t.history)
    ensures t.history == s.history + [Installed(source, "epoch"), Snapshot(source, "epoch", node, OnNode(s.cache, node))]
  {
    run', t := OnRpc(rule, c, s0, run, s, HandshakeLock(source, "epoch", node));
    run', t := Answer(rule, c, s0, run', t, source);
    assert t.hub == s.hub[source := Hub("epoch", None)];
  }

  // ----- the informer and the handler

  /** What the informer and the handler leave alone, as seen from one key. */
  predicate InformFrame(s: State, t: State, k: Key) {
    && t.clock == s.clock && t.api == s.api && t.gone == s.gone && t.accepted == s.accepted && t.binders == s.binders
    && t.delayed == s.delayed && t.sync == s.sync && t.exposing == s.exposing && s.dirty <= t.dirty
    && (k in t.timers ==> k in s.timers && t.timers[k] == s.timers[k])
    && (k.name in t.cache ==> k.name in s.cache && t.cache[k.name] == s.cache[k.name])
  }

  lemma InformStep(s: State, l: InformAct, k: Key)
    requires InformEnabled(s, l)
    ensures InformFrame(s, DoInform(s, l), k)
  {
  }

  /** The informer catches up with the API server, and the handler with the informer. */
  lemma {:induction false} Flush(rule: Rule, c: Config, s0: State, run: seq<Label>, s: State, k: Key)
    returns (run': seq<Label>, t: State)
    requires Leads(rule, c, s0, run, s) && Consistent(s)
    ensures Leads(rule, c, s0, run', t) && InformFrame(s, t, k)
    ensures t.watch == [] && t.notices == [] && t.store == t.api
    decreases 3 * |s.watch| + 2 * |s.notices| + if s.midNotice then 0 else 1
  {
    if s.watch == [] && s.notices == [] {
      run', t := run, s;
    } else {
      var l := if s.watch != [] then Deliver else if s.midNotice then HandleSecond else HandleFirst;
      InformStep(s, l, k);
      ConsistentInform(s, l);
      var r, u := OnInform(rule, c, s0, run, s, l);
      run', t := Flush(rule, c, s0, r, u, k);
    }
  }

  /** The cache entry is gone or is going to be dropped. */
  predicate Dropping(s: State, k: Key) {
    DropPending(s.notices, k) || k.name !in s.cache
  }

  lemma DroppingSecond(s: State, k: Key)
    requires InformEnabled(s, HandleSecond) && Dropping(s, k)
    ensures Dropping(DoInform(s, HandleSecond), k)
  {
    var s' := DoInform(s, HandleSecond);
    if DropPending(s.notices, k) && !(s.notices[0].key == k && s.notices[0].pod.managed) {
      var i :| 0 <= i < |s.notices| && s.notices[i].key == k && s.notices[i].pod.managed;
      assert s'.notices[i - 1] == s.notices[i];
    }
  }

  lemma AddSecond(s: State, k: Key)
    requires InformEnabled(s, HandleSecond)
    ensures AddPending(s.notices, true, k) <==> AddPending(DoInform(s, HandleSecond).notices, false, k)
  {
    var s' := DoInform(s, HandleSecond);
    forall i | 1 <= i < |s.notices| ensures s'.notices[i - 1] == s.notices[i] {}
    if AddPending(s'.notices, false, k) {
      var i :| 0 <= i < |s'.notices| && s'.notices[i].key == k && !s'.notices[i].isDelete;
      assert s.notices[i + 1] == s'.notices[i];
    }
  }

  /** Whether the key is queued once the handler has caught up. */
  predicate WillBeDirty(s: State, k: Key) {
    k in s.dirty || AddPending(s.notices, s.midNotice, k)
  }

  lemma DrainStep(s: State, l: InformAct, k: Key)
    requires InformEnabled(s, l) && !l.Deliver?
    ensures InformFrame(s, DoInform(s, l), k) && DoInform(s, l).watch == s.watch && DoInform(s, l).store == s.store
    ensures Dropping(s, k) ==> Dropping(DoInform(s, l), k)
    ensures WillBeDirty(s, k) <==> WillBeDirty(DoInform(s, l), k)
  {
    if l.HandleSecond? {
      AddSecond(s, k);
      if Dropping(s, k) {
        DroppingSecond(s, k);
      }
    }
  }

  /** The handler catches up with the informer. */
  lemma {:induction false} Drain(rule: Rule, c: Config, s0: State, run: seq<Label>, s: State, k: Key)
    returns (run': seq<Label>, t: State)
    requires Leads(rule, c, s0, run, s)
    ensures Leads(rule, c, s0, run', t) && InformFrame(s, t, k) && t.watch == s.watch && t.store == s.store && t.notices == []
    ensures Dropping(s, k) ==> k.name !in t.cache
    ensures k in t.dirty <==> WillBeDirty(s, k)
    decreases 2 * |s.notices| + if s.midNotice then 0 else 1
  {
    if s.notices == [] {
      run', t := run, s;
    } else {
      var l := if s.midNotice then HandleSecond else HandleFirst;
      DrainStep(s, l, k);
      var r, u := OnInform(rule, c, s0, run, s, l);
      run', t := Drain(rule, c, s0, r, u, k);
    }
  }

  /** Time passes. */
  lemma {:induction false} Wait(rule: Rule, c: Config, s0: State, run: seq<Label>, s: State, d: nat)
    returns (run': seq<Label>, t: State)
    requires Leads(rule, c, s0, run, s)
    ensures Leads(rule, c, s0, run', t) && t == s.(clock := s.clock + d)
  {
    run', t := ThenWorld(rule, c, s0, run, s, Tick(d));
  }

  /** The binds of the key enqueue it. */
  lemma {:induction false} Settle(rule: Rule, c: Config, s0: State, run: seq<Label>, s: State, k: Key)
    returns (run': seq<Label>, t: State)
    requires Leads(rule, c, s0, run, s)
    ensures Leads(rule, c, s0, run', t) && !BindPending(t.binders, k)
    ensures t == s.(binders := t.binders, dirty := t.dirty) && s.dirty <= t.dirty && (BindPending(s.binders, k) ==> k in t.dirty)
    decreases |Pending(s.binders, k)|
  {
    if !BindPending(s.binders, k) {
      run', t := run, s;
    } else {
      var id :| id in s.binders && s.binders[id].point == Inserted && s.binders[id].info.key == k;
      var r, u := ThenRpc(rule, c, s0, run, s, BindEnqueue(id));
      assert Pending(u.binders, k) <= Pending(s.binders, k) - {id};
      Smaller(Pending(u.binders, k), Pending(s.binders, k), id);
      run', t := Settle(rule, c, s0, r, u, k);
    }
  }

  function Pending(binders: map<nat, Binder>, k: Key): set<nat> {
    set id | id in binders && binders[id].point == Inserted && binders[id].info.key == k
  }

  lemma {:induction false} Smaller(a: set<nat>, b: set<nat>, x: nat)
    requires a <= b - {x} && x in b
    ensures |a| < |b|
    decreases |a|
  {
    if y :| y in a {
      Smaller(a - {y}, b - {y}, x);
    }
  }

  // ----- the worker of a key

  /** How far a worker is from returning its key. */
  function Distance(p: SyncPoint): nat {
    match p
    case Start => 10
    case MemLookup => 9
    case HaveApi(_) => 9
    case Deleting => 8
    case AtTimer(_) => 8
    case RemoveTimer => 7
    case Waiting(_, _) => 7
    case Marking(_) => 6
    case Failed => 5
    case Finished => 4
  }

  /** Whatever the worker does brings it closer to returning its key. */
  lemma Closer(c: Config, s: State, k: Key, l: WorkAct)
    requires k in s.sync && WorkEnabled(s, k, l) && !l.Fire?
    ensures k in DoWork(c, s, k, l).sync ==> Distance(DoWork(c, s, k, l).sync[k]) < Distance(s.sync[k])
    ensures l.Done? || k in DoWork(c, s, k, l).sync
  {
  }

  /** What the worker does next when nothing fails. */
  function Smooth(s: State, k: Key): WorkAct
    requires k in s.sync
  {
    match s.sync[k]
    case Start => ReadStore
    case MemLookup => ReadCache(false)
    case HaveApi(_) => CheckApi(false)
    case Deleting => ForceDelete(false)
    case AtTimer(_) => ReadTimer
    case RemoveTimer => DropTimer
    case Waiting(_, _) => CheckWait
    case Marking(_) => MarkReady(k !in s.api)
    case Failed => Requeue
    case Finished => Done
  }

  /** What the worker does next when everything fails. */
  function Unlucky(p: SyncPoint): WorkAct {
    match p
    case Start => ReadStore
    case MemLookup => ReadCache(true)
    case HaveApi(_) => CheckApi(true)
    case Deleting => ForceDelete(true)
    case AtTimer(_) => ReadTimer
    case RemoveTimer => DropTimer
    case Waiting(_, _) => CheckWait
    case Marking(_) => MarkReady(true)
    case Failed => Requeue
    case Finished => Done
  }

  lemma UnluckyEnabled(s: State, k: Key)
    requires k in s.sync
    ensures WorkEnabled(s, k, Unlucky(s.sync[k])) && !Unlucky(s.sync[k]).Fire?
  {
  }

  /** The pod stays where it is in the API server, the informer and the cache, and still queued
      if it was. */
  predicate SameFate(s: State, t: State, k: Key) {
    && t.api == s.api && t.gone == s.gone && t.accepted == s.accepted && t.binders == s.binders
    && t.store == s.store && t.watch == s.watch && t.notices == s.notices && t.midNotice == s.midNotice
    && t.cache == s.cache && (k in s.dirty ==> k in t.dirty) && (k in s.delayed ==> k in t.delayed)
  }

  lemma UnluckyFate(c: Config, s: State, k: Key, l: WorkAct)
    requires k in s.sync && l == Unlucky(s.sync[k]) && WorkEnabled(s, k, l)
    ensures SameFate(s, DoWork(c, s, k, l), k)
  {
  }

  // ----- a pod that is not in the API server

  lemma SmoothAllowed(rule: Rule, c: Config, s: State, k: Key)
    requires k in s.sync && (rule.Recovery? ==> rule.key == k)
    ensures WorkEnabled(s, k, Smooth(s, k)) && Allowed(rule, c, s, Work(k, Smooth(s, k)))
  {
  }

  lemma SmoothFate(c: Config, s: State, k: Key, l: WorkAct)
    requires k in s.sync && k !in s.api && l == Smooth(s, k) && WorkEnabled(s, k, l)
    ensures SameFate(s, DoWork(c, s, k, l), k)
  {
  }

  lemma {:induction false} StepAway(rule: Rule, c: Config, s0: State, run: seq<Label>, s: State, k: Key)
    returns (run': seq<Label>, t: State)
    requires Leads(rule, c, s0, run, s) && (rule.Recovery? ==> rule.key == k) && k !in s.api && k in s.sync
    ensures Leads(rule, c, s0, run', t) && SameFate(s, t, k)
    ensures k in t.sync ==> Distance(t.sync[k]) < Distance(s.sync[k])
  {
    var l := Smooth(s, k);
    SmoothAllowed(rule, c, s, k);
    Closer(c, s, k, l);
    SmoothFate(c, s, k, l);
    run', t := ThenWork(rule, c, s0, run, s, k, l);
  }

  /** The worker returns the key. */
  lemma {:induction false} ReturnAway(rule: Rule, c: Config, s0: State, run: seq<Label>, s: State, k: Key)
    returns (run': seq<Label>, t: State)
    requires Leads(rule, c, s0, run, s) && (rule.Recovery? ==> rule.key == k) && k !in s.api
    ensures Leads(rule, c, s0, run', t) && SameFate(s, t, k) && k !in t.sync
    decreases if k in s.sync then Distance(s.sync[k]) else 0
  {
    if k !in s.sync {
      run', t := run, s;
    } else {
      var r, u := StepAway(rule, c, s0, run, s, k);
      run', t := ReturnAway(rule, c, s0, r, u, k);
    }
  }
}
