/**
  What SyncPod comes to, case by case and field by field: the checks of an API pod, its deletion,
  the ready timer, and the pods that are only in memory.
*/
module KubeletOutcome {
  import opened Wrappers
  import opened Kubelet
  import opened KubeletServer

  // ----- single actions

  /** The worker's point changes, nothing else. */
  function Moved(s: State, k: Key, p: SyncPoint): State {
    s.(sync := s.sync[k := p])
  }

  /** The object of the key is removed from the API server, and a deletion is announced. */
  function Erased(s: State, k: Key): State {
    if k in s.api then
      s.(api := s.api - {k}, gone := s.gone + {k}, watch := s.watch + [Change(k, None)], history := s.history + [Died(k)])
    else s
  }

  lemma EraseEffect(c: Config, s: State, k: Key)
    requires At(s, k, Deleting)
    ensures DoWork(c, s, k, ForceDelete(true)) == Moved(s, k, Failed)
    ensures DoWork(c, s, k, ForceDelete(false)) == Moved(Erased(s, k), k, RemoveTimer)
    ensures k !in Erased(s, k).api
  {
  }

  /** The object of the key becomes active and ready, and the change is announced. */
  function MadeReady(s: State, k: Key): State
    requires k in s.api
  {
    var pod := s.api[k].(active := true, ready := true);
    s.(api := s.api[k := pod], watch := s.watch + [Change(k, Some(pod))], history := s.history + [MarkedReady(k, s.clock)])
  }

  lemma MarkEffect(c: Config, s: State, k: Key)
    requires k in s.sync && s.sync[k].Marking?
    ensures DoWork(c, s, k, MarkReady(true)) == Moved(s, k, Failed)
    ensures k in s.api ==> DoWork(c, s, k, MarkReady(false)) == Moved(MadeReady(s, k), k, Finished)
  {
  }

  lemma WaitEffect(c: Config, s: State, k: Key, readyTime: int, inMem: bool)
    requires At(s, k, Waiting(readyTime, inMem))
    ensures readyTime > s.clock ==> DoWork(c, s, k, CheckWait) == Moved(s, k, Finished).(delayed := s.delayed + {k})
    ensures readyTime <= s.clock ==> DoWork(c, s, k, CheckWait) == Moved(s, k, if inMem then Finished else Marking(readyTime))
  {
  }

  /** The ready time of the key: that of its timer, or one delay from now. */
  function ReadyTime(c: Config, s: State, k: Key): int {
    if k in s.timers then s.timers[k] else s.clock + c.readyDelay
  }

  /** The key has a timer; a fresh one is recorded and starts the exposure of an in-memory pod. */
  function Timed(c: Config, s: State, k: Key, mem: Option<PodInfo>): State {
    if k in s.timers then s
    else s.(timers := s.timers[k := s.clock + c.readyDelay],
            exposing := if mem.Some? then s.exposing + multiset{mem.value.key} else s.exposing,
            history := s.history + [TimerCreated(k, s.clock)])
  }

  lemma TimerEffect(c: Config, s: State, k: Key, mem: Option<PodInfo>)
    requires At(s, k, AtTimer(mem))
    ensures DoWork(c, s, k, ReadTimer) == Moved(Timed(c, s, k, mem), k, Waiting(ReadyTime(c, s, k), mem.Some?))
  {
    assert k in s.timers ==> s.timers[k := s.timers[k]] == s.timers;
  }

  /** The checks of an API pod, in the order of the code. */
  lemma CheckEffect(c: Config, s: State, k: Key, pod: ApiPod, err: bool)
    requires At(s, k, HaveApi(pod))
    ensures err ==> DoWork(c, s, k, CheckApi(err)) == Moved(s, k, Failed)
    ensures !err && !c.responsible(k) ==> DoWork(c, s, k, CheckApi(err)) == Moved(s, k, Finished)
    ensures !err && c.responsible(k) && pod.deleting ==> DoWork(c, s, k, CheckApi(err)) == Moved(s, k, Deleting)
    ensures !err && c.responsible(k) && !pod.deleting && (!pod.active || pod.ready) ==>
      DoWork(c, s, k, CheckApi(err)) == Moved(s, k, RemoveTimer)
    ensures !err && Obliged(c, k, pod) ==> DoWork(c, s, k, CheckApi(err)) == Moved(s, k, AtTimer(None))
  {
  }

  /** The lookup of an in-memory pod. */
  lemma LookEffect(c: Config, s: State, k: Key, err: bool)
    requires At(s, k, MemLookup)
    ensures k.name !in s.cache ==> DoWork(c, s, k, ReadCache(err)) == Moved(s, k, Finished)
    ensures k.name in s.cache && err ==> DoWork(c, s, k, ReadCache(err)) == Moved(s, k, Failed)
    ensures k.name in s.cache && !err ==>
      var info := s.cache[k.name];
      DoWork(c, s, k, ReadCache(err)) ==
        Moved(s, k, if c.template(info.key) && c.responsible(info.key) then AtTimer(Some(info)) else Finished)
  {
  }

  // ----- from each program point to the return

  lemma OneStep(c: Config, f: Faults, s: State, k: Key, l: WorkAct, t: State)
    requires k in s.sync && !Returned(s.sync[k]) && l == SyncAct(c, f, s, k) && WorkEnabled(s, k, l)
    requires DoWork(c, s, k, l) == t
    ensures k in t.sync && Synced(c, f, s, k) == Synced(c, f, t, k)
  {
    assert SyncStep(c, f, s, k) == t;
  }

  lemma AtReturn(c: Config, f: Faults, s: State, k: Key)
    requires k in s.sync && Returned(s.sync[k])
    ensures Synced(c, f, s, k) == s
  {
  }

  /** One more action after which SyncPod returns. */
  lemma LastStep(c: Config, f: Faults, s: State, k: Key, l: WorkAct, t: State)
    requires k in s.sync && !Returned(s.sync[k]) && l == SyncAct(c, f, s, k) && WorkEnabled(s, k, l)
    requires DoWork(c, s, k, l) == t && k in t.sync && Returned(t.sync[k])
    ensures Synced(c, f, s, k) == t
  {
    OneStep(c, f, s, k, l, t);
    AtReturn(c, f, t, k);
  }

  lemma FromRemoveTimer(c: Config, f: Faults, s: State, k: Key, t: State)
    requires At(s, k, RemoveTimer) && t == Moved(s, k, Finished).(timers := s.timers - {k})
    ensures Synced(c, f, s, k) == t
  {
    LastStep(c, f, s, k, DropTimer, t);
  }

  lemma FromDeleting(c: Config, f: Faults, s: State, k: Key, t: State)
    requires At(s, k, Deleting)
    requires t == if f.delete then Moved(s, k, Failed) else Moved(Erased(s, k), k, Finished).(timers := s.timers - {k})
    ensures Synced(c, f, s, k) == t
  {
    EraseEffect(c, s, k);
    if f.delete {
      LastStep(c, f, s, k, ForceDelete(true), t);
    } else {
      var u := Moved(Erased(s, k), k, RemoveTimer);
      OneStep(c, f, s, k, ForceDelete(false), u);
      assert u.sync[k := Finished] == s.sync[k := Finished];
      FromRemoveTimer(c, f, u, k, t);
    }
  }

  /** Where a worker that waits for no more time ends. */
  function Marked(f: Faults, s: State, k: Key): State {
    if f.mark || k !in s.api then Moved(s, k, Failed) else Moved(MadeReady(s, k), k, Finished)
  }

  lemma FromMarking(c: Config, f: Faults, s: State, k: Key)
    requires k in s.sync && s.sync[k].Marking?
    ensures Synced(c, f, s, k) == Marked(f, s, k)
  {
    MarkEffect(c, s, k);
    LastStep(c, f, s, k, MarkReady(f.mark || k !in s.api), Marked(f, s, k));
  }

  /** Where it ends with a ready time. */
  function Awaited(f: Faults, s: State, k: Key, readyTime: int, inMem: bool): State {
    if readyTime > s.clock then Moved(s, k, Finished).(delayed := s.delayed + {k})
    else if inMem then Moved(s, k, Finished)
    else Marked(f, s, k)
  }

  lemma MovedOn(s: State, k: Key, p: SyncPoint, q: SyncPoint)
    ensures Moved(Moved(s, k, p), k, q) == Moved(s, k, q)
  {
    assert s.sync[k := p][k := q] == s.sync[k := q];
  }

  lemma MarkedOn(f: Faults, s: State, k: Key, p: SyncPoint)
    ensures Marked(f, Moved(s, k, p), k) == Marked(f, s, k)
  {
    MovedOn(s, k, p, Failed);
    if k in s.api {
      MovedOn(MadeReady(s, k), k, p, Finished);
    }
  }

  lemma AwaitedOn(f: Faults, s: State, k: Key, p: SyncPoint, readyTime: int, inMem: bool)
    ensures Awaited(f, Moved(s, k, p), k, readyTime, inMem) == Awaited(f, s, k, readyTime, inMem)
  {
    MovedOn(s, k, p, Finished);
    MarkedOn(f, s, k, p);
  }

  lemma FromWaitOver(c: Config, f: Faults, s: State, k: Key, readyTime: int)
    requires At(s, k, Waiting(readyTime, false)) && readyTime <= s.clock
    ensures Synced(c, f, s, k) == Marked(f, s, k)
  {
    var t := Moved(s, k, Marking(readyTime));
    WaitEffect(c, s, k, readyTime, false);
    OneStep(c, f, s, k, CheckWait, t);
    FromMarking(c, f, t, k);
    MarkedOn(f, s, k, Marking(readyTime));
  }

  lemma FromWaiting(c: Config, f: Faults, s: State, k: Key, readyTime: int, inMem: bool)
    requires At(s, k, Waiting(readyTime, inMem))
    ensures Synced(c, f, s, k) == Awaited(f, s, k, readyTime, inMem)
  {
    if readyTime > s.clock || inMem {
      WaitEffect(c, s, k, readyTime, inMem);
      LastStep(c, f, s, k, CheckWait, Awaited(f, s, k, readyTime, inMem));
    } else {
      FromWaitOver(c, f, s, k, readyTime);
    }
  }

  /** Where a worker at the ready timer ends. */
  function TimerDone(c: Config, f: Faults, s: State, k: Key, mem: Option<PodInfo>): State {
    Awaited(f, Timed(c, s, k, mem), k, ReadyTime(c, s, k), mem.Some?)
  }

  lemma FromTimer(c: Config, f: Faults, s: State, k: Key, mem: Option<PodInfo>)
    requires At(s, k, AtTimer(mem))
    ensures Synced(c, f, s, k) == TimerDone(c, f, s, k, mem)
  {
    var u, p := Timed(c, s, k, mem), Waiting(ReadyTime(c, s, k), mem.Some?);
    TimerEffect(c, s, k, mem);
    OneStep(c, f, s, k, ReadTimer, Moved(u, k, p));
    FromWaiting(c, f, Moved(u, k, p), k, ReadyTime(c, s, k), mem.Some?);
    AwaitedOn(f, u, k, p, ReadyTime(c, s, k), mem.Some?);
  }

  lemma TimedOn(c: Config, s: State, k: Key, p: SyncPoint, mem: Option<PodInfo>)
    ensures Timed(c, Moved(s, k, p), k, mem) == Moved(Timed(c, s, k, mem), k, p)
    ensures ReadyTime(c, Moved(s, k, p), k) == ReadyTime(c, s, k)
  {
  }

  lemma TimerDoneOn(c: Config, f: Faults, s: State, k: Key, p: SyncPoint, mem: Option<PodInfo>)
    ensures TimerDone(c, f, Moved(s, k, p), k, mem) == TimerDone(c, f, s, k, mem)
  {
    TimedOn(c, s, k, p, mem);
    AwaitedOn(f, Timed(c, s, k, mem), k, p, ReadyTime(c, s, k), mem.Some?);
  }

  // ----- what SyncPod comes to

  /** An API pod, checked: a pod to be deleted is deleted and its timer removed; an inactive or a
      ready one only loses its timer; any other one is made ready when its time has come. */
  function ApiDone(c: Config, f: Faults, s: State, k: Key, pod: ApiPod): State {
    if f.node then Moved(s, k, Failed)
    else if !c.responsible(k) then Moved(s, k, Finished)
    else if pod.deleting then
      if f.delete then Moved(s, k, Failed) else Moved(Erased(s, k), k, Finished).(timers := s.timers - {k})
    else if !pod.active || pod.ready then Moved(s, k, Finished).(timers := s.timers - {k})
    else TimerDone(c, f, s, k, None)
  }

  lemma FromDoomed(c: Config, f: Faults, s: State, k: Key, pod: ApiPod)
    requires At(s, k, HaveApi(pod)) && !f.node && c.responsible(k) && pod.deleting
    ensures Synced(c, f, s, k) == ApiDone(c, f, s, k, pod)
  {
    CheckEffect(c, s, k, pod, false);
    var u, t := Moved(s, k, Deleting), ApiDone(c, f, s, k, pod);
    OneStep(c, f, s, k, CheckApi(false), u);
    MovedOn(s, k, Deleting, Failed);
    MovedOn(Erased(s, k), k, Deleting, Finished);
    assert Erased(u, k) == Moved(Erased(s, k), k, Deleting);
    FromDeleting(c, f, u, k, t);
  }

  lemma FromIdle(c: Config, f: Faults, s: State, k: Key, pod: ApiPod)
    requires At(s, k, HaveApi(pod)) && !f.node && c.responsible(k) && !pod.deleting && (!pod.active || pod.ready)
    ensures Synced(c, f, s, k) == ApiDone(c, f, s, k, pod)
  {
    CheckEffect(c, s, k, pod, false);
    OneStep(c, f, s, k, CheckApi(false), Moved(s, k, RemoveTimer));
    MovedOn(s, k, RemoveTimer, Finished);
    FromRemoveTimer(c, f, Moved(s, k, RemoveTimer), k, ApiDone(c, f, s, k, pod));
  }

  lemma FromObliged(c: Config, f: Faults, s: State, k: Key, pod: ApiPod)
    requires At(s, k, HaveApi(pod)) && !f.node && Obliged(c, k, pod)
    ensures Synced(c, f, s, k) == ApiDone(c, f, s, k, pod)
  {
    CheckEffect(c, s, k, pod, false);
    OneStep(c, f, s, k, CheckApi(false), Moved(s, k, AtTimer(None)));
    FromTimer(c, f, Moved(s, k, AtTimer(None)), k, None);
    TimerDoneOn(c, f, s, k, AtTimer(None), None);
  }

  lemma FromApi(c: Config, f: Faults, s: State, k: Key, pod: ApiPod)
    requires At(s, k, HaveApi(pod))
    ensures Synced(c, f, s, k) == ApiDone(c, f, s, k, pod)
  {
    if f.node || !c.responsible(k) {
      CheckEffect(c, s, k, pod, f.node);
      LastStep(c, f, s, k, CheckApi(f.node), ApiDone(c, f, s, k, pod));
    } else if pod.deleting {
      FromDoomed(c, f, s, k, pod);
    } else if !pod.active || pod.ready {
      FromIdle(c, f, s, k, pod);
    } else {
      FromObliged(c, f, s, k, pod);
    }
  }

  /** A pod that is only in memory: it is ignored if it is not cached, has no template or belongs
      to another kubelet; otherwise a fresh timer starts its exposure. */
  function MemDone(c: Config, f: Faults, s: State, k: Key): State {
    if k.name !in s.cache then Moved(s, k, Finished)
    else if MemErr(c, f, s.cache, k) then Moved(s, k, Failed)
    else if c.template(s.cache[k.name].key) && c.responsible(s.cache[k.name].key) then
      TimerDone(c, f, s, k, Some(s.cache[k.name]))
    else Moved(s, k, Finished)
  }

  lemma FromCached(c: Config, f: Faults, s: State, k: Key, mem: Option<PodInfo>)
    requires At(s, k, MemLookup) && k.name in s.cache && mem == Some(s.cache[k.name]) && !MemErr(c, f, s.cache, k)
    requires c.template(s.cache[k.name].key) && c.responsible(s.cache[k.name].key)
    ensures Synced(c, f, s, k) == TimerDone(c, f, s, k, mem)
  {
    LookEffect(c, s, k, false);
    OneStep(c, f, s, k, ReadCache(false), Moved(s, k, AtTimer(mem)));
    FromTimer(c, f, Moved(s, k, AtTimer(mem)), k, mem);
    TimerDoneOn(c, f, s, k, AtTimer(mem), mem);
  }

  lemma FromMem(c: Config, f: Faults, s: State, k: Key)
    requires At(s, k, MemLookup)
    ensures Synced(c, f, s, k) == MemDone(c, f, s, k)
  {
    var err := MemErr(c, f, s.cache, k);
    if k.name in s.cache && !err && c.template(s.cache[k.name].key) && c.responsible(s.cache[k.name].key) {
      FromCached(c, f, s, k, Some(s.cache[k.name]));
    } else {
      LookEffect(c, s, k, err);
      LastStep(c, f, s, k, ReadCache(err), MemDone(c, f, s, k));
    }
  }

  lemma MemDoneOn(c: Config, f: Faults, s: State, k: Key, p: SyncPoint)
    ensures MemDone(c, f, Moved(s, k, p), k) == MemDone(c, f, s, k)
  {
    MovedOn(s, k, p, Finished);
    MovedOn(s, k, p, Failed);
    if k.name in s.cache {
      TimerDoneOn(c, f, s, k, p, Some(s.cache[k.name]));
    }
  }

  lemma ApiDoneOn(c: Config, f: Faults, s: State, k: Key, p: SyncPoint, pod: ApiPod)
    ensures ApiDone(c, f, Moved(s, k, p), k, pod) == ApiDone(c, f, s, k, pod)
  {
    MovedOn(s, k, p, Finished);
    MovedOn(s, k, p, Failed);
    assert Erased(Moved(s, k, p), k) == Moved(Erased(s, k), k, p);
    MovedOn(Erased(s, k), k, p, Finished);
    TimerDoneOn(c, f, s, k, p, None);
  }

  lemma StoreEffect(c: Config, s: State, k: Key)
    requires At(s, k, Start)
    ensures DoWork(c, s, k, ReadStore) == Moved(s, k, if k in s.store then HaveApi(s.store[k]) else MemLookup)
  {
  }

  /** SyncPod in one piece: the pod of the informer store if there is one, and otherwise the one
      in the cache. */
  lemma FromStart(c: Config, f: Faults, s: State, k: Key)
    requires At(s, k, Start)
    ensures k in s.store ==> Synced(c, f, s, k) == ApiDone(c, f, s, k, s.store[k])
    ensures k !in s.store ==> Synced(c, f, s, k) == MemDone(c, f, s, k)
  {
    var p := if k in s.store then HaveApi(s.store[k]) else MemLookup;
    StoreEffect(c, s, k);
    OneStep(c, f, s, k, ReadStore, Moved(s, k, p));
    if k in s.store {
      FromApi(c, f, Moved(s, k, p), k, s.store[k]);
      ApiDoneOn(c, f, s, k, p, s.store[k]);
    } else {
      FromMem(c, f, Moved(s, k, p), k);
      MemDoneOn(c, f, s, k, p);
    }
  }

  // ----- the cases, field by field

  /** A worker whose time has not come only leaves the timer and a delayed key. */
  lemma TimerPending(c: Config, f: Faults, s: State, k: Key, mem: Option<PodInfo>)
    requires ReadyTime(c, s, k) > s.clock
    ensures TimerDone(c, f, s, k, mem) == Moved(Timed(c, s, k, mem), k, Finished).(delayed := s.delayed + {k})
  {
  }

  /** One whose time has come marks an API pod. */
  lemma TimerOver(c: Config, f: Faults, s: State, k: Key)
    requires ReadyTime(c, s, k) <= s.clock
    ensures TimerDone(c, f, s, k, None) == Marked(f, Timed(c, s, k, None), k)
  {
  }

  /** What an API pod's timer changes. */
  lemma TimedFields(c: Config, s: State, k: Key)
    ensures var t := Timed(c, s, k, None);
      && t == s.(timers := t.timers, history := t.history)
      && t.timers == s.timers[k := if k in s.timers then s.timers[k] else s.clock + c.readyDelay]
  {
    assert k in s.timers ==> s.timers[k := s.timers[k]] == s.timers;
  }

  lemma DueDone(c: Config, f: Faults, s: State, k: Key)
    requires At(s, k, Start) && k in s.store && Obliged(c, k, s.store[k]) && !f.node && ReadyTime(c, s, k) <= s.clock
    ensures Synced(c, f, s, k) == Marked(f, Timed(c, s, k, None), k)
  {
    FromStart(c, f, s, k);
    TimerOver(c, f, s, k);
  }

  /** A pod whose deletion is requested is removed from the API server, and its timer with it. */
  lemma DeletesDoomed(c: Config, f: Faults, s: State, k: Key)
    requires At(s, k, Start) && k in s.store && c.responsible(k) && s.store[k].deleting && !f.node && !f.delete
    ensures var t := Synced(c, f, s, k);
      && At(t, k, Finished) && t.api == s.api - {k} && t.timers == s.timers - {k}
      && t.exposing == s.exposing && t.delayed == s.delayed && t.dirty == s.dirty && t.cache == s.cache
      && t.watch == (if k in s.api then s.watch + [Change(k, None)] else s.watch) && (k in s.api ==> k in t.gone)
  {
    FromStart(c, f, s, k);
  }

  /** An inactive or ready pod only loses its timer. */
  lemma ForgetsIdle(c: Config, f: Faults, s: State, k: Key)
    requires At(s, k, Start) && k in s.store && c.responsible(k) && !f.node
    requires !s.store[k].deleting && (!s.store[k].active || s.store[k].ready)
    ensures var t := Synced(c, f, s, k);
      && At(t, k, Finished) && t.timers == s.timers - {k} && t.api == s.api && t.watch == s.watch
      && t.exposing == s.exposing && t.delayed == s.delayed
  {
    FromStart(c, f, s, k);
  }

  /** An unready API pod without a timer gets one that runs out after the delay; until then its
      key is delayed, and no exposure is started for it. */
  lemma TimesFresh(c: Config, f: Faults, s: State, k: Key)
    requires At(s, k, Start) && k in s.store && Obliged(c, k, s.store[k]) && !f.node
    requires k !in s.timers && c.readyDelay > 0
    ensures var t := Synced(c, f, s, k);
      && At(t, k, Finished) && t.timers == s.timers[k := s.clock + c.readyDelay] && t.delayed == s.delayed + {k}
      && t.api == s.api && t.watch == s.watch && t.exposing == s.exposing
  {
    FromStart(c, f, s, k);
  }

  /** One whose timer is still running keeps it and is delayed. */
  lemma AwaitsRunning(c: Config, f: Faults, s: State, k: Key)
    requires At(s, k, Start) && k in s.store && Obliged(c, k, s.store[k]) && !f.node
    requires k in s.timers && s.timers[k] > s.clock
    ensures var t := Synced(c, f, s, k);
      && At(t, k, Finished) && t.timers == s.timers && t.delayed == s.delayed + {k}
      && t.api == s.api && t.watch == s.watch && t.exposing == s.exposing
  {
    FromStart(c, f, s, k);
  }

  /** One whose time has come, with a timer that has run out or without any delay, is marked ready
      in the API server. */
  lemma MarksDue(c: Config, f: Faults, s: State, k: Key, readyTime: int)
    requires At(s, k, Start) && k in s.store && Obliged(c, k, s.store[k]) && !f.node
    requires readyTime == (if k in s.timers then s.timers[k] else s.clock + c.readyDelay) && readyTime <= s.clock
    requires !f.mark && k in s.api
    ensures var t := Synced(c, f, s, k);
      && At(t, k, Finished) && t.timers == s.timers[k := readyTime] && t.delayed == s.delayed && t.exposing == s.exposing
      && t.api == s.api[k := ApiPod(s.api[k].managed, s.api[k].deleting, true, true)]
      && t.watch == s.watch + [Change(k, Some(t.api[k]))]
  {
    DueDone(c, f, s, k);
    TimedFields(c, s, k);
  }

  /** If that fails, the key is synced again and the API server is as before. */
  lemma FailsDue(c: Config, f: Faults, s: State, k: Key, readyTime: int)
    requires At(s, k, Start) && k in s.store && Obliged(c, k, s.store[k]) && !f.node
    requires readyTime == (if k in s.timers then s.timers[k] else s.clock + c.readyDelay) && readyTime <= s.clock
    requires f.mark || k !in s.api
    ensures var t := Synced(c, f, s, k);
      && At(t, k, Failed) && t.timers == s.timers[k := readyTime] && t.delayed == s.delayed && t.exposing == s.exposing
      && t.api == s.api && t.watch == s.watch
  {
    DueDone(c, f, s, k);
    TimedFields(c, s, k);
  }

  /** A pod of another kubelet, a failing node lister, and a failing deletion change nothing. */
  lemma LeavesAlone(c: Config, f: Faults, s: State, k: Key)
    requires At(s, k, Start) && k in s.store
    requires f.node || !c.responsible(k) || (s.store[k].deleting && f.delete)
    ensures Synced(c, f, s, k) == s.(sync := s.sync[k := if f.node || c.responsible(k) then Failed else Finished])
  {
    FromStart(c, f, s, k);
  }

  /** A cached pod without a timer gets one, and its exposure starts; its key is delayed while the
      timer runs.  It is never marked ready. */
  lemma ExposesCached(c: Config, f: Faults, s: State, k: Key)
    requires At(s, k, Start) && k !in s.store && k.name in s.cache && k !in s.timers && !f.lister && !f.node
    requires c.template(s.cache[k.name].key) && c.responsible(s.cache[k.name].key)
    ensures var t := Synced(c, f, s, k);
      && At(t, k, Finished) && t.api == s.api && t.watch == s.watch
      && t.timers == s.timers[k := s.clock + c.readyDelay] && t.exposing == s.exposing + multiset{s.cache[k.name].key}
      && t.delayed == if c.readyDelay > 0 then s.delayed + {k} else s.delayed
  {
    FromStart(c, f, s, k);
  }

  /** A cached pod with a timer is not exposed again. */
  lemma AwaitsCached(c: Config, f: Faults, s: State, k: Key)
    requires At(s, k, Start) && k !in s.store && k.name in s.cache && k in s.timers && !f.lister && !f.node
    requires c.template(s.cache[k.name].key) && c.responsible(s.cache[k.name].key)
    ensures var t := Synced(c, f, s, k);
      && At(t, k, Finished) && t.api == s.api && t.watch == s.watch && t.timers == s.timers && t.exposing == s.exposing
      && t.delayed == if s.timers[k] > s.clock then s.delayed + {k} else s.delayed
  {
    FromStart(c, f, s, k);
  }

  /** A failing lister changes nothing. */
  lemma FailsLookup(c: Config, f: Faults, s: State, k: Key)
    requires At(s, k, Start) && k !in s.store && k.name in s.cache
    requires f.lister || (f.node && c.template(s.cache[k.name].key))
    ensures Synced(c, f, s, k) == s.(sync := s.sync[k := Failed])
  {
    FromStart(c, f, s, k);
  }

  /** A key found nowhere, a pod without template and one of another kubelet are ignored. */
  lemma IgnoresOthers(c: Config, f: Faults, s: State, k: Key)
    requires At(s, k, Start) && k !in s.store && !f.lister && !f.node
    requires k.name in s.cache ==> !c.template(s.cache[k.name].key) || !c.responsible(s.cache[k.name].key)
    ensures Synced(c, f, s, k) == s.(sync := s.sync[k := Finished])
  {
    FromStart(c, f, s, k);
  }
}
