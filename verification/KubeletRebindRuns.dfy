/**
  Each way a bind of a deleted key can be unsafe is met in some run: a ready timer left behind,
  a worker with a copy of the deleted object, an undelivered event, an unhandled notice.  And a
  bind can be out of step while a new object of the key exists.
*/
module KubeletRebindRuns {
  import opened Wrappers
  import opened Kubelet
  import opened KubeletNoStuck
  import opened KubeletDrive
  import opened KubeletRebind
  import opened KubeletHandoffExact

  /** An API pod appears. */
  lemma {:induction false} Created(rule: Rule, c: Config, k: Key) returns (run: seq<Label>, s: State)
    requires !rule.Recovery? && WellNamed(c, k)
    ensures Leads(rule, c, Init, run, s)
    ensures s == Init.(api := map[k := Exposed], store := map[k := Exposed], notices := [Notice(k, Exposed, false)],
                       history := s.history)
  {
    Stay(rule, c, Init);
    run, s := OnWorld(rule, c, Init, [], Init, ApiCreate(k, Exposed));
    run, s := OnInform(rule, c, Init, run, s, Deliver);
    assert s.notices == [Notice(k, Exposed, false)];
  }

  /** It is noticed. */
  lemma {:induction false} Appeared(rule: Rule, c: Config, k: Key) returns (run: seq<Label>, s: State)
    requires !rule.Recovery? && WellNamed(c, k)
    ensures Leads(rule, c, Init, run, s)
    ensures s == Init.(api := map[k := Exposed], store := map[k := Exposed], dirty := {k}, history := s.history)
  {
    run, s := Created(rule, c, k);
    run, s := OnInform(rule, c, Init, run, s, HandleFirst);
    run, s := OnInform(rule, c, Init, run, s, HandleSecond);
    assert s.cache == map[];
  }

  /** It is deleted, which the informer does not know yet. */
  lemma {:induction false} Vanished(rule: Rule, c: Config, k: Key) returns (run: seq<Label>, s: State)
    requires !rule.Recovery? && WellNamed(c, k)
    ensures Leads(rule, c, Init, run, s)
    ensures s == Init.(gone := {k}, store := map[k := Exposed], watch := [Change(k, None)], dirty := {k}, history := s.history)
  {
    run, s := Appeared(rule, c, k);
    run, s := OnWorld(rule, c, Init, run, s, ApiDelete(k));
    assert s.api == map[];
  }

  /** The informer knows, but the handler has not been called yet. */
  lemma {:induction false} Delivered(rule: Rule, c: Config, k: Key) returns (run: seq<Label>, s: State)
    requires !rule.Recovery? && WellNamed(c, k)
    ensures Leads(rule, c, Init, run, s)
    ensures s == Init.(gone := {k}, notices := [Notice(k, Exposed, true)], dirty := {k}, history := s.history)
  {
    run, s := Vanished(rule, c, k);
    run, s := OnInform(rule, c, Init, run, s, Deliver);
    assert s.store == map[];
  }

  /** A worker copies the pod and passes all checks up to its ready timer. */
  lemma {:induction false} Copied(rule: Rule, c: Config, k: Key) returns (run: seq<Label>, s: State)
    requires !rule.Recovery? && WellNamed(c, k) && c.responsible(k)
    ensures Leads(rule, c, Init, run, s)
    ensures s == Init.(api := map[k := Exposed], store := map[k := Exposed], sync := map[k := AtTimer(None)],
                       history := s.history)
  {
    run, s := Appeared(rule, c, k);
    run, s := OnWork(rule, c, Init, run, s, k, Get);
    run, s := OnWork(rule, c, Init, run, s, k, ReadStore);
    run, s := OnWork(rule, c, Init, run, s, k, CheckApi(false));
    assert s.dirty == {};
  }

  /** Then the object is deleted, and the informer knows. */
  lemma {:induction false} Deleted(rule: Rule, c: Config, k: Key) returns (run: seq<Label>, s: State)
    requires !rule.Recovery? && WellNamed(c, k) && c.responsible(k)
    ensures Leads(rule, c, Init, run, s)
    ensures s == Init.(gone := {k}, notices := [Notice(k, Exposed, true)], sync := map[k := AtTimer(None)], history := s.history)
  {
    run, s := Copied(rule, c, k);
    run, s := OnWorld(rule, c, Init, run, s, ApiDelete(k));
    run, s := OnInform(rule, c, Init, run, s, Deliver);
    assert s.notices == [Notice(k, Exposed, true)] && s.api == map[] && s.store == map[];
  }

  /** The deletion is handled while the worker still has its copy. */
  lemma {:induction false} Overtaken(rule: Rule, c: Config, k: Key) returns (run: seq<Label>, s: State)
    requires !rule.Recovery? && WellNamed(c, k) && c.responsible(k)
    ensures Leads(rule, c, Init, run, s)
    ensures s == Init.(gone := {k}, sync := map[k := AtTimer(None)], history := s.history)
  {
    run, s := Deleted(rule, c, k);
    run, s := OnInform(rule, c, Init, run, s, HandleFirst);
    run, s := OnInform(rule, c, Init, run, s, HandleSecond);
    assert s.cache == map[] && s.timers == map[];
  }

  /** The worker creates a timer for it. */
  lemma {:induction false} Timed(rule: Rule, c: Config, k: Key) returns (run: seq<Label>, s: State)
    requires !rule.Recovery? && WellNamed(c, k) && c.responsible(k)
    ensures Leads(rule, c, Init, run, s)
    ensures s == Init.(clock := Max(0, c.readyDelay), gone := {k}, timers := map[k := c.readyDelay],
                       sync := map[k := Waiting(c.readyDelay, false)], history := s.history)
  {
    run, s := Overtaken(rule, c, k);
    run, s := OnWork(rule, c, Init, run, s, k, ReadTimer);
    run, s := Wait(rule, c, Init, run, s, Max(0, c.readyDelay));
  }

  /** It fails to update the deleted object. */
  lemma {:induction false} Failing(rule: Rule, c: Config, k: Key) returns (run: seq<Label>, s: State)
    requires !rule.Recovery? && WellNamed(c, k) && c.responsible(k)
    ensures Leads(rule, c, Init, run, s)
    ensures s == Init.(clock := Max(0, c.readyDelay), gone := {k}, timers := map[k := c.readyDelay],
                       sync := map[k := Failed], history := s.history)
  {
    run, s := Timed(rule, c, k);
    run, s := OnWork(rule, c, Init, run, s, k, CheckWait);
    run, s := OnWork(rule, c, Init, run, s, k, MarkReady(true));
  }

  lemma {:induction false} Retried(rule: Rule, c: Config, k: Key) returns (run: seq<Label>, s: State)
    requires !rule.Recovery? && WellNamed(c, k) && c.responsible(k)
    ensures Leads(rule, c, Init, run, s)
    ensures s == Init.(clock := Max(0, c.readyDelay), gone := {k}, timers := map[k := c.readyDelay], dirty := {k},
                       history := s.history)
  {
    run, s := Failing(rule, c, k);
    run, s := OnWork(rule, c, Init, run, s, k, Requeue);
    run, s := OnWork(rule, c, Init, run, s, k, Done);
    run, s := OnWork(rule, c, Init, run, s, k, Fire);
    assert s.sync == map[] && s.delayed == {};
  }

  /** Retried, it finds nothing: the timer of the deleted pod stays behind. */
  lemma {:induction false} TimerLeft(rule: Rule, c: Config, k: Key) returns (run: seq<Label>, s: State)
    requires !rule.Recovery? && WellNamed(c, k) && c.responsible(k)
    ensures Leads(rule, c, Init, run, s)
    ensures s == Init.(clock := Max(0, c.readyDelay), gone := {k}, timers := map[k := c.readyDelay],
                       history := s.history)
  {
    run, s := Retried(rule, c, k);
    run, s := OnWork(rule, c, Init, run, s, k, Get);
    run, s := OnWork(rule, c, Init, run, s, k, ReadStore);
    run, s := OnWork(rule, c, Init, run, s, k, ReadCache(false));
    run, s := OnWork(rule, c, Init, run, s, k, Done);
    assert s.sync == map[] && s.dirty == {};
  }

  /** A scheduler shakes hands and offers the key again. */
  lemma {:induction false} Offer(rule: Rule, c: Config, run: seq<Label>, s: State, k: Key) returns (run': seq<Label>, t: State)
    requires Leads(rule, c, Init, run, s) && !rule.Recovery? && s.binders == map[] && s.hub == map[] && WellNamed(c, k)
    ensures Leads(rule, c, Init, run', t) && RpcEnabled(t, BindInsert(0)) && BoundKey(t, 0) == k
    ensures t == s.(binders := t.binders, hub := t.hub, history := t.history)
    ensures forall id | id in t.binders :: t.binders[id].point == Locked
  {
    run', t := ShakeHands(rule, c, Init, run, s, "scheduler", "node");
    run', t := OnRpc(rule, c, Init, run', t, BindLock(0, "scheduler", "epoch", PodInfo(k, "node")));
  }

  // ----- getting stuck

  /** The four ways in which a bind of a deleted key, found in no cache, can be unsafe. */
  datatype Way = LeftoverTimer | StaleCopy | UndeliveredEvent | UnhandledNotice

  predicate Fails(c: Config, s: State, k: Key, way: Way) {
    match way
    case LeftoverTimer => k in s.timers && !At(s, k, RemoveTimer) && !Rescued(s.notices, s.midNotice, k)
    case StaleCopy => k in s.sync && Copying(c, k, s.sync[k])
    case UndeliveredEvent => Watched(s.watch, k)
    case UnhandledNotice => DropPending(s.notices, k)
  }

  /** A state that shows one way alone. */
  ghost predicate Shows(c: Config, s: State, k: Key, way: Way) {
    && s.binders == map[] && s.hub == map[] && k in s.gone && k !in s.api && !Exposes(s, k) && k.name !in s.cache
    && forall w :: Fails(c, s, k, w) <==> w == way
  }

  lemma {:induction false} EachWayMet(rule: Rule, c: Config, k: Key, way: Way) returns (run: seq<Label>, s: State)
    requires !rule.Recovery? && WellNamed(c, k) && c.responsible(k)
    ensures Leads(rule, c, Init, run, s) && Shows(c, s, k, way)
  {
    match way
    case LeftoverTimer => run, s := TimerLeft(rule, c, k);
    case StaleCopy => run, s := Overtaken(rule, c, k);
    case UndeliveredEvent =>
      run, s := Vanished(rule, c, k);
      assert s.watch[0].key == k;
    case UnhandledNotice =>
      run, s := Delivered(rule, c, k);
      assert s.notices[0].key == k;
  }

  /** Every way is met alone, and the pod bound then can get stuck. */
  lemma {:induction false} EachWaySticks(c: Config, k: Key, way: Way)
    returns (run: seq<Label>, s: State, whole: seq<Label>, t: State)
    requires WellNamed(c, k) && c.template(k) && c.responsible(k)
    ensures Leads(SafeBinds, c, Init, run, s) && Offered(c, s, 0) && BoundKey(s, 0) == k && !Exposes(s, k)
    ensures forall w :: Fails(c, s, k, w) <==> w == way
    ensures Leads(Named, c, Init, whole, t) && Stuck(c, t, k)
  {
    var u;
    run, u := EachWayMet(SafeBinds, c, k, way);
    run, s := Offer(SafeBinds, c, run, u, k);
    forall w ensures Fails(c, s, k, w) <==> Fails(c, u, k, w) {}
    assert Fails(c, s, k, way) && !SafeBind(c, s, k);
    whole, t := StuckRun(c, run, s, 0);
  }

  // ----- being missed

  /** The key has a new object already when the old one's deletion is still undelivered. */
  lemma {:induction false} Recreated(rule: Rule, c: Config, k: Key) returns (run: seq<Label>, s: State)
    requires !rule.Recovery? && WellNamed(c, k)
    ensures Leads(rule, c, Init, run, s)
    ensures s == Init.(api := map[k := Exposed], gone := {k}, store := map[k := Exposed],
                       watch := [Change(k, None), Change(k, Some(Exposed))], dirty := {k}, history := s.history)
  {
    run, s := Vanished(rule, c, k);
    run, s := OnWorld(rule, c, Init, run, s, ApiCreate(k, Exposed));
    assert s.watch == [Change(k, None), Change(k, Some(Exposed))] && s.api == map[k := Exposed];
  }

  lemma OldDeletionDrops(k: Key)
    ensures DropsInGap(false, map[k := Exposed], [Change(k, None), Change(k, Some(Exposed))], k)
  {
    var store, watch := map[k := Exposed], [Change(k, None), Change(k, Some(Exposed))];
    var told := Told(store, watch[0]);
    assert told[0].key == k && told[0].pod.managed && DropPending(told, k);
    assert k !in Apply(store, watch[0]);
  }

  /** A bind while the new object exists is out of step, and its pod can be missed although
      nothing is deleted any more. */
  lemma {:induction false} RecreatedIsMissed(c: Config, k: Key)
    returns (run: seq<Label>, s: State, whole: seq<Label>, t: State)
    requires WellNamed(c, k)
    ensures Leads(InStepBinds, c, Init, run, s) && Rebinds(s, Rpc(BindInsert(0))) && BoundKey(s, 0) == k && k in s.api
    ensures !InStep(s, k)
    ensures Leads(Named, c, Init, whole, t) && Missed(t, k)
  {
    var u;
    run, u := Recreated(InStepBinds, c, k);
    run, s := Offer(InStepBinds, c, run, u, k);
    OldDeletionDrops(k);
    whole, t := MissedRun(c, run, s, 0);
  }
}
