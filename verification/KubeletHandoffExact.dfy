/**
  Binding a deleted key again: InStep is exactly the condition under which the two lookups of
  SyncPod cannot miss the new pod.

  KubeletHandoff proves that binds in step suffice.  Here, from every reachable state in which a
  bind is about to succeed out of step, a run is built in which both lookups miss the pod.
*/
module KubeletHandoffExact {
  import opened Kubelet
  import opened KubeletHandoff
  import opened KubeletDrive

  /** Both lookups are about to miss a bound and undeleted pod whose key is not queued again. */
  predicate Missed(s: State, k: Key) {
    BothMiss(s, k) && k in s.accepted && k !in s.gone && !(k in s.dirty && k in s.store)
  }

  predicate Alive(s: State, k: Key) {
    k in s.accepted && k !in s.gone
  }

  // ----- a gap in the store

  lemma {:induction false} LookInGap(c: Config, s0: State, run: seq<Label>, s: State, k: Key)
    returns (run': seq<Label>, t: State)
    requires Leads(InStepBinds, c, s0, run, s) && Alive(s, k) && k in s.dirty && k !in s.sync
    requires k !in s.store && k.name !in s.cache
    ensures Leads(InStepBinds, c, s0, run', t) && Missed(t, k)
  {
    run', t := OnWork(InStepBinds, c, s0, run, s, k, Get);
    assert t == s.(dirty := t.dirty, sync := t.sync);
    run', t := OnWork(InStepBinds, c, s0, run', t, k, ReadStore);
  }

  /** Delivering events until the gap, and handling them, leaves the pod to be missed. */
  lemma {:induction false} MissInGap(c: Config, s0: State, run: seq<Label>, s: State, k: Key)
    returns (run': seq<Label>, t: State)
    requires Leads(InStepBinds, c, s0, run, s) && Alive(s, k) && k in s.dirty && k !in s.sync
    requires DropsInGap(Dropping(s, k), s.store, s.watch, k)
    ensures Leads(InStepBinds, c, s0, run', t) && Missed(t, k)
    decreases |s.watch|
  {
    if Dropping(s, k) && k !in s.store {
      run', t := Drain(InStepBinds, c, s0, run, s, k);
      run', t := LookInGap(c, s0, run', t, k);
    } else {
      PendingAfter(s.notices, Told(s.store, s.watch[0]), k);
      InformStep(s, Deliver, k);
      var r, u := OnInform(InStepBinds, c, s0, run, s, Deliver);
      run', t := MissInGap(c, s0, r, u, k);
    }
  }

  // ----- a key that somebody is going to look for

  /** Points from which a worker may come back to the key. */
  predicate MayReturn(p: SyncPoint) {
    !(p == Finished || p == RemoveTimer || (p.AtTimer? && p.mem.Some?) || (p.Waiting? && p.inMem))
  }

  predicate Sought(s: State, k: Key) {
    || BindPending(s.binders, k) || k in s.dirty || k in s.delayed || (k in s.sync && MayReturn(s.sync[k]))
    || AddPending(s.notices, s.midNotice, k)
  }

  lemma UnluckyReturns(c: Config, s: State, k: Key, l: WorkAct)
    requires k in s.sync && l == Unlucky(s.sync[k]) && WorkEnabled(s, k, l) && MayReturn(s.sync[k]) && k.name in s.cache
    ensures var t := DoWork(c, s, k, l); k in t.delayed || (k in t.sync && MayReturn(t.sync[k]))
  {
  }

  /** The worker gives the key back; if it may return to it, the key is delayed then. */
  lemma {:induction false} GiveBack(c: Config, s0: State, run: seq<Label>, s: State, k: Key)
    returns (run': seq<Label>, t: State)
    requires Leads(InStepBinds, c, s0, run, s) && k.name in s.cache
    ensures Leads(InStepBinds, c, s0, run', t) && SameFate(s, t, k) && k !in t.sync
    ensures k in s.sync && MayReturn(s.sync[k]) ==> k in t.delayed
    decreases if k in s.sync then Distance(s.sync[k]) else 0
  {
    if k !in s.sync {
      run', t := run, s;
    } else {
      var l := Unlucky(s.sync[k]);
      UnluckyEnabled(s, k);
      Closer(c, s, k, l);
      UnluckyFate(c, s, k, l);
      if MayReturn(s.sync[k]) {
        UnluckyReturns(c, s, k, l);
      }
      var r, u := OnWork(InStepBinds, c, s0, run, s, k, l);
      run', t := GiveBack(c, s0, r, u, k);
    }
  }

  lemma {:induction false} FireIfDelayed(c: Config, s0: State, run: seq<Label>, s: State, k: Key)
    returns (run': seq<Label>, t: State)
    requires Leads(InStepBinds, c, s0, run, s) && (k in s.dirty || k in s.delayed)
    ensures Leads(InStepBinds, c, s0, run', t) && k in t.dirty && t == s.(dirty := t.dirty, delayed := t.delayed)
  {
    if k in s.dirty {
      run', t := run, s;
    } else {
      run', t := OnWork(InStepBinds, c, s0, run, s, k, Fire);
    }
  }

  /** A key without worker that is due, or that the handler is going to enqueue. */
  predicate Due(s: State, k: Key) {
    k !in s.sync && (k in s.delayed || WillBeDirty(s, k))
  }

  lemma {:induction false} Released(c: Config, s: State, k: Key) returns (run: seq<Label>, t: State)
    requires Alive(s, k) && k.name in s.cache && Sought(s, k)
    requires DropsInGap(DropPending(s.notices, k), s.store, s.watch, k)
    ensures Leads(InStepBinds, c, s, run, t) && Alive(t, k) && Due(t, k)
    ensures DropsInGap(DropPending(t.notices, k), t.store, t.watch, k)
  {
    Stay(InStepBinds, c, s);
    run, t := Settle(InStepBinds, c, s, [], s, k);
    run, t := GiveBack(c, s, run, t, k);
  }

  /** It becomes dirty while no worker has it, and the gap is still ahead. */
  lemma {:induction false} ReadyToLook(c: Config, s0: State, run: seq<Label>, s: State, k: Key)
    returns (run': seq<Label>, t: State)
    requires Leads(InStepBinds, c, s0, run, s) && Alive(s, k) && Due(s, k)
    requires DropsInGap(DropPending(s.notices, k), s.store, s.watch, k)
    ensures Leads(InStepBinds, c, s0, run', t) && Alive(t, k) && k in t.dirty && k !in t.sync
    ensures DropsInGap(Dropping(t, k), t.store, t.watch, k)
  {
    run', t := Drain(InStepBinds, c, s0, run, s, k);
    GapMonotone(DropPending(s.notices, k), Dropping(t, k), s.store, s.watch, k);
    run', t := FireIfDelayed(c, s0, run', t, k);
  }

  lemma {:induction false} GapIsMissed(c: Config, s: State, k: Key) returns (run: seq<Label>, t: State)
    requires Alive(s, k) && k.name in s.cache && Sought(s, k)
    requires DropsInGap(DropPending(s.notices, k), s.store, s.watch, k)
    ensures Leads(InStepBinds, c, s, run, t) && Missed(t, k)
  {
    run, t := Released(c, s, k);
    run, t := ReadyToLook(c, s, run, t, k);
    run, t := MissInGap(c, s, run, t, k);
  }

  // ----- a worker between the lookups

  lemma FirstStays(notices: seq<Notice>, k: Key)
    requires notices != [] && DropFirst(notices, false, k)
    ensures DropFirst(notices, true, k) && !(notices[0].key == k && !notices[0].isDelete)
  {
    var i :| 0 <= i < |notices| && notices[i].key == k && notices[i].pod.managed && !AddWithin(notices, false, k, i);
    assert !AddWithin(notices, true, k, i);
  }

  lemma FirstShifts(notices: seq<Notice>, k: Key)
    requires notices != [] && DropFirst(notices, true, k) && !(notices[0].key == k && notices[0].pod.managed)
    ensures DropFirst(notices[1..], false, k)
  {
    var i :| 0 <= i < |notices| && notices[i].key == k && notices[i].pod.managed && !AddWithin(notices, true, k, i);
    var rest := notices[1..];
    assert rest[i - 1] == notices[i];
    forall j | 0 <= j < |rest| && j <= i - 1 ensures rest[j].key == k ==> rest[j].isDelete {
      assert rest[j] == notices[j + 1];
    }
  }

  lemma FirstStep(s: State, l: InformAct, k: Key)
    requires InformEnabled(s, l) && !l.Deliver? && DropFirst(s.notices, s.midNotice, k) && k !in s.dirty
    ensures var t := DoInform(s, l);
      k !in t.dirty && t.sync == s.sync && (DropFirst(t.notices, t.midNotice, k) || k.name !in t.cache)
  {
    if l.HandleFirst? {
      FirstStays(s.notices, k);
    } else if !(s.notices[0].key == k && s.notices[0].pod.managed) {
      FirstShifts(s.notices, k);
    }
  }

  /** The handler drops the entry behind the worker's back. */
  lemma {:induction false} MissBetween(c: Config, s0: State, run: seq<Label>, s: State, k: Key)
    returns (run': seq<Label>, t: State)
    requires Leads(InStepBinds, c, s0, run, s) && Alive(s, k) && At(s, k, MemLookup) && k !in s.dirty
    requires DropFirst(s.notices, s.midNotice, k) || k.name !in s.cache
    ensures Leads(InStepBinds, c, s0, run', t) && Missed(t, k)
    decreases 2 * |s.notices| + if s.midNotice then 0 else 1
  {
    if k.name !in s.cache {
      run', t := run, s;
    } else {
      var l := if s.midNotice then HandleSecond else HandleFirst;
      FirstStep(s, l, k);
      var r, u := OnInform(InStepBinds, c, s0, run, s, l);
      run', t := MissBetween(c, s0, r, u, k);
    }
  }

  // ----- the exact condition

  /** In no run from here on do the lookups miss the pod. */
  ghost predicate NeverMissed(c: Config, s: State, k: Key) {
    forall more, t | Leads(InStepBinds, c, s, more, t) :: !Missed(t, k)
  }

  /** What a successful bind changes. */
  lemma BoundFacts(s: State, id: nat) returns (t: State)
    requires RpcEnabled(s, BindInsert(id))
    ensures var k := BoundKey(s, id);
      && t == DoRpc(s, BindInsert(id)) && Alive(t, k) && k.name in t.cache
      && t == s.(binders := t.binders, cache := t.cache, accepted := t.accepted, gone := t.gone, history := t.history)
      && (k.name !in s.cache || BindPending(s.binders, k) ==> BindPending(t.binders, k))
  {
    t := DoRpc(s, BindInsert(id));
    var k := BoundKey(s, id);
    assert t.binders[id].info.key == k;
    forall i | i in s.binders && i != id ensures i in t.binders && t.binders[i] == s.binders[i] {}
  }

  /** After a bind out of step the pod can be missed. */
  lemma {:induction false} OutOfStepIsMissed(c: Config, s: State, id: nat) returns (more: seq<Label>, t: State)
    requires RpcEnabled(s, BindInsert(id)) && !InStep(s, BoundKey(s, id))
    requires BoundKey(s, id).name !in s.cache || Sought(s, BoundKey(s, id))
    ensures Leads(InStepBinds, c, DoRpc(s, BindInsert(id)), more, t) && Missed(t, BoundKey(s, id))
  {
    var k := BoundKey(s, id);
    var s0 := BoundFacts(s, id);
    if DropsInGap(DropPending(s.notices, k), s.store, s.watch, k) {
      more, t := GapIsMissed(c, s0, k);
    } else {
      Stay(InStepBinds, c, s0);
      more, t := MissBetween(c, s0, [], s0, k);
    }
  }

  lemma {:induction false} InStepNeverMissed(c: Config, s: State, id: nat)
    requires RpcEnabled(s, BindInsert(id)) && Inv(c, s, BoundKey(s, id)) && InStep(s, BoundKey(s, id))
    ensures NeverMissed(c, DoRpc(s, BindInsert(id)), BoundKey(s, id))
  {
    var k, u := BoundKey(s, id), DoRpc(s, BindInsert(id));
    StepKept(c, s, Rpc(BindInsert(id)), k);
    forall more, t | Leads(InStepBinds, c, u, more, t) ensures !Missed(t, k) {
      RunKept(c, u, more, t, k);
    }
  }

  /** When the hand-off is safe for a pod bound after a deletion of its key: from every reachable
      state in which such a bind is about to succeed, whether the key has a new API object or
      not, the two lookups never both miss the pod unless its key is queued again and it is in
      the store, if and only if the bind is in step.  A bind that finds a cache entry is covered
      if somebody is going to look for the key. */
  lemma {:induction false} HandoffExact(c: Config, run: seq<Label>, s: State, id: nat)
    requires Leads(InStepBinds, c, Init, run, s) && Rebinds(s, Rpc(BindInsert(id)))
    requires BoundKey(s, id).name !in s.cache || Sought(s, BoundKey(s, id))
    ensures InStep(s, BoundKey(s, id)) <==> NeverMissed(c, DoRpc(s, BindInsert(id)), BoundKey(s, id))
  {
    RunKept(c, Init, run, s, BoundKey(s, id));
    if InStep(s, BoundKey(s, id)) {
      InStepNeverMissed(c, s, id);
    } else {
      var more, t := OutOfStepIsMissed(c, s, id);
    }
  }

  /** A bind out of step, and the run after it in which the pod is missed. */
  lemma {:induction false} MissedRun(c: Config, run: seq<Label>, s: State, id: nat) returns (whole: seq<Label>, t: State)
    requires Leads(InStepBinds, c, Init, run, s) && RpcEnabled(s, BindInsert(id)) && !InStep(s, BoundKey(s, id))
    requires BoundKey(s, id).name !in s.cache || Sought(s, BoundKey(s, id))
    ensures Leads(Named, c, Init, whole, t) && Missed(t, BoundKey(s, id))
  {
    var more;
    more, t := OutOfStepIsMissed(c, s, id);
    Relax(InStepBinds, c, Init, run, s);
    Relax(InStepBinds, c, DoRpc(s, BindInsert(id)), more, t);
    var u;
    whole, u := ThenRpc(Named, c, Init, run, s, BindInsert(id));
    Extend(Named, c, Init, whole, u, more, t);
    whole := whole + more;
  }
}
