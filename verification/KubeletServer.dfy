/**
  The kubelet's functions as they are written, run without interference.  Each of them performs
  exactly the actions of the transition system that its own program points call for, and nobody
  else's; interference between them is what the transition system adds.
*/
module KubeletServer {
  import opened Wrappers
  import opened Kubelet
  import opened KubeletDrive

  /** Errors of the listers and of the API server during one SyncPod. */
  datatype Faults = Faults(lister: bool, node: bool, delete: bool, mark: bool)

  datatype BindResult = NotFound | EpochMismatch | Bound

  // ----- what SyncPod does, as actions of its worker

  predicate Returned(p: SyncPoint) {
    p == Finished || p == Failed
  }

  /** Looking up an in-memory pod fails with the template lister, or with the node lister once
      the template has been found. */
  predicate MemErr(c: Config, f: Faults, cache: map<string, PodInfo>, k: Key) {
    f.lister || (f.node && k.name in cache && c.template(cache[k.name].key))
  }

  /** The one action that a worker inside SyncPod performs next. */
  function SyncAct(c: Config, f: Faults, s: State, k: Key): WorkAct
    requires k in s.sync && !Returned(s.sync[k])
  {
    match s.sync[k]
    case Start => ReadStore
    case MemLookup => ReadCache(MemErr(c, f, s.cache, k))
    case HaveApi(_) => CheckApi(f.node)
    case Deleting => ForceDelete(f.delete)
    case RemoveTimer => DropTimer
    case AtTimer(_) => ReadTimer
    case Waiting(_, _) => CheckWait
    case Marking(_) => MarkReady(f.mark || k !in s.api)
  }

  /** Actions inside SyncPod, as opposed to those of the work queue. */
  predicate InSync(l: WorkAct) {
    !l.Fire? && !l.Get? && !l.Requeue? && !l.Done?
  }

  lemma ActEnabled(c: Config, f: Faults, s: State, k: Key)
    requires k in s.sync && !Returned(s.sync[k])
    ensures WorkEnabled(s, k, SyncAct(c, f, s, k)) && InSync(SyncAct(c, f, s, k))
  {
  }

  /** Each of them leaves other workers, the queue, the store, the cache and the RPCs alone. */
  lemma ActFrame(c: Config, s: State, k: Key, l: WorkAct)
    requires WorkEnabled(s, k, l) && InSync(l)
    ensures SameAround(s, DoWork(c, s, k, l), k)
  {
  }

  ghost predicate SameAround(s: State, t: State, k: Key) {
    && t.sync.Keys == s.sync.Keys && (forall j | j in s.sync && j != k :: t.sync[j] == s.sync[j])
    && t.store == s.store && t.cache == s.cache && t.dirty == s.dirty && t.binders == s.binders && t.hub == s.hub
  }

  /** The state after the next action. */
  function SyncStep(c: Config, f: Faults, s: State, k: Key): (t: State)
    requires k in s.sync && !Returned(s.sync[k])
    ensures k in t.sync && Distance(t.sync[k]) < Distance(s.sync[k])
  {
    ActEnabled(c, f, s, k);
    Closer(c, s, k, SyncAct(c, f, s, k));
    DoWork(c, s, k, SyncAct(c, f, s, k))
  }

  /** The state in which SyncPod returns. */
  function Synced(c: Config, f: Faults, s: State, k: Key): (t: State)
    requires k in s.sync
    ensures k in t.sync && Returned(t.sync[k])
    decreases Distance(s.sync[k])
  {
    if Returned(s.sync[k]) then s else Synced(c, f, SyncStep(c, f, s, k), k)
  }

  /** Actions of SyncPod for a key, with these faults. */
  predicate OwnSync(f: Faults, k: Key, l: Label) {
    && l.Work? && l.key == k
    && match l.work
       case ReadStore => true
       case ReadCache(err) => (f.lister ==> err) && (err ==> f.lister || f.node)
       case CheckApi(err) => err == f.node
       case ForceDelete(err) => err == f.delete
       case MarkReady(err) => f.mark ==> err
       case DropTimer => true
       case ReadTimer => true
       case CheckWait => true
       case _ => false
  }

  lemma {:induction false} OneMore(c: Config, s: State, k: Key, l: WorkAct, rest: seq<Label>, t: State)
    requires WorkEnabled(s, k, l) && Leads(Anything, c, DoWork(c, s, k, l), rest, t)
    ensures Leads(Anything, c, s, [Work(k, l)] + rest, t)
  {
    One(Anything, c, s, Work(k, l));
    Extend(Anything, c, s, [Work(k, l)], DoWork(c, s, k, l), rest, t);
  }

  lemma ActOwn(c: Config, f: Faults, s: State, k: Key)
    requires k in s.sync && !Returned(s.sync[k])
    ensures OwnSync(f, k, Work(k, SyncAct(c, f, s, k)))
  {
  }

  /** SyncPod is a run of the transition system that consists of its own actions only. */
  lemma {:induction false} SyncedIsRun(c: Config, f: Faults, s: State, k: Key) returns (run: seq<Label>)
    requires k in s.sync
    ensures Leads(Anything, c, s, run, Synced(c, f, s, k))
    ensures forall i | 0 <= i < |run| :: OwnSync(f, k, run[i])
    decreases Distance(s.sync[k])
  {
    if Returned(s.sync[k]) {
      Stay(Anything, c, s);
      run := [];
    } else {
      var l, t := SyncAct(c, f, s, k), SyncStep(c, f, s, k);
      ActEnabled(c, f, s, k);
      ActOwn(c, f, s, k);
      var rest := SyncedIsRun(c, f, t, k);
      OneMore(c, s, k, l, rest, Synced(c, f, t, k));
      run := [Work(k, l)] + rest;
    }
  }

  /** SyncPod changes nothing but the API object, the timer, the exposure and the delayed adds of
      its key; in particular it does not take other keys out of the queue. */
  lemma {:induction false} SyncedFrame(c: Config, f: Faults, s: State, k: Key)
    requires k in s.sync
    ensures SameAround(s, Synced(c, f, s, k), k)
    decreases Distance(s.sync[k])
  {
    if !Returned(s.sync[k]) {
      ActEnabled(c, f, s, k);
      ActFrame(c, s, k, SyncAct(c, f, s, k));
      SyncedFrame(c, f, SyncStep(c, f, s, k), k);
    }
  }

  // ----- processNextItem

  function Requeued(c: Config, s: State, k: Key): State
    requires k in s.sync && Returned(s.sync[k])
  {
    if s.sync[k] == Failed then DoWork(c, s, k, Requeue) else s
  }

  /** The state after a key has been taken, synced and given back. */
  function Processed(c: Config, f: Faults, s: State, k: Key): State
    requires WorkEnabled(s, k, Get)
  {
    DoWork(c, Requeued(c, Synced(c, f, DoWork(c, s, k, Get), k), k), k, Done)
  }

  lemma RequeuedFrame(c: Config, s: State, k: Key)
    requires k in s.sync && Returned(s.sync[k])
    ensures SameAround(s, Requeued(c, s, k), k)
  {
  }

  lemma GivenBack(c: Config, s: State, t: State, k: Key)
    requires WorkEnabled(s, k, Get) && SameAround(DoWork(c, s, k, Get), t, k) && WorkEnabled(t, k, Done)
    ensures DoWork(c, t, k, Done).sync == s.sync && DoWork(c, t, k, Done).dirty == s.dirty - {k}
  {
    assert t.sync.Keys == s.sync.Keys + {k};
  }

  lemma SameAroundTwice(s: State, t: State, u: State, k: Key)
    requires SameAround(s, t, k) && SameAround(t, u, k)
    ensures SameAround(s, u, k)
  {
  }

  lemma SyncedAndRequeued(c: Config, f: Faults, s: State, k: Key)
    requires k in s.sync
    ensures SameAround(s, Requeued(c, Synced(c, f, s, k), k), k)
  {
    var t := Synced(c, f, s, k);
    SyncedFrame(c, f, s, k);
    RequeuedFrame(c, t, k);
    SameAroundTwice(s, t, Requeued(c, t, k), k);
  }

  /** Afterwards the same keys are being processed as before, and the key itself is no longer
      queued unless it is delayed. */
  lemma ProcessedFrame(c: Config, f: Faults, s: State, k: Key)
    requires WorkEnabled(s, k, Get)
    ensures Processed(c, f, s, k).sync == s.sync && Processed(c, f, s, k).dirty == s.dirty - {k}
  {
    var s1 := DoWork(c, s, k, Get);
    SyncedAndRequeued(c, f, s1, k);
    GivenBack(c, s, Requeued(c, Synced(c, f, s1, k), k), k);
  }

  // ----- handlePodEvent

  /** What the handler does on its first call: it enqueues the key, or removes its ready timer
      after a deletion, and drops the name of a managed pod from the cache. */
  lemma HandledMeaning(s: State)
    requires s.notices != [] && !s.midNotice
    ensures var n, t := s.notices[0], DoInform(DoInform(s, HandleFirst), HandleSecond);
      && t.notices == s.notices[1..] && !t.midNotice && t.store == s.store && t.api == s.api && t.watch == s.watch
      && t.dirty == (if n.isDelete then s.dirty else s.dirty + {n.key})
      && t.timers == (if n.isDelete then s.timers - {n.key} else s.timers)
      && t.cache == (if n.pod.managed then s.cache - {n.key.name} else s.cache)
      && t.delayed == s.delayed && t.sync == s.sync && t.exposing == s.exposing
  {
  }

  // ----- BindPod, Handshake and ExposeManagedPod

  /** The lock, GetOrCreate, the enqueueing of a fresh pod, and the unlock. */
  function BoundBy(s: State, id: nat, source: string, epoch: string, info: PodInfo): State
    requires RpcEnabled(s, BindLock(id, source, epoch, info))
  {
    var s1 := DoRpc(DoRpc(s, BindLock(id, source, epoch, info)), BindInsert(id));
    DoRpc(if s1.binders[id].point == Inserted then DoRpc(s1, BindEnqueue(id)) else s1, BindUnlock(id))
  }

  /** The lock and GetOrCreate. */
  lemma BoundByInsert(s: State, id: nat, source: string, epoch: string, info: PodInfo)
    requires RpcEnabled(s, BindLock(id, source, epoch, info))
    ensures var t := DoRpc(DoRpc(s, BindLock(id, source, epoch, info)), BindInsert(id));
      && t == s.(binders := t.binders, cache := t.cache, accepted := t.accepted, gone := t.gone, history := t.history)
      && t.binders == s.binders[id := Binder(source, epoch, info, if info.key.name in s.cache then Returning else Inserted)]
      && t.cache == (if info.key.name in s.cache then s.cache else s.cache[info.key.name := info])
  {
  }

  /** What the four actions come to. */
  lemma BoundByMeaning(s: State, id: nat, source: string, epoch: string, info: PodInfo)
    requires RpcEnabled(s, BindLock(id, source, epoch, info))
    ensures var t := BoundBy(s, id, source, epoch, info);
      && t == s.(cache := t.cache, dirty := t.dirty, accepted := t.accepted, gone := t.gone, history := t.history)
      && (info.key.name in s.cache ==> t.cache == s.cache && t.dirty == s.dirty)
      && (info.key.name !in s.cache ==> t.cache == s.cache[info.key.name := info] && t.dirty == s.dirty + {info.key})
  {
    BoundByInsert(s, id, source, epoch, info);
    assert BoundBy(s, id, source, epoch, info).binders == s.binders;
  }

  function ShakenBy(s: State, source: string, epoch: string, node: string): State
    requires RpcEnabled(s, HandshakeLock(source, epoch, node))
  {
    DoRpc(DoRpc(DoRpc(s, HandshakeLock(source, epoch, node)), HandshakeSnapshot(source)), HandshakeUnlock(source))
  }

  /** What the three actions come to. */
  lemma ShakenByMeaning(s: State, source: string, epoch: string, node: string)
    requires RpcEnabled(s, HandshakeLock(source, epoch, node))
    ensures ShakenBy(s, source, epoch, node) == s.(hub := s.hub[source := Hub(epoch, None)],
      history := s.history + [Installed(source, epoch), Snapshot(source, epoch, node, OnNode(s.cache, node))])
  {
    var t := ShakenBy(s, source, epoch, node);
    assert t.hub == s.hub[source := Hub(epoch, None)];
    assert t.history == s.history + [Installed(source, epoch), Snapshot(source, epoch, node, OnNode(s.cache, node))];
  }

  /** Polling until the first answer without error. */
  function Polled(s: State, k: Key, errs: seq<bool>): State
    requires k in s.exposing
    decreases |errs|
  {
    if errs == [] then s
    else if errs[0] then Polled(DoWorld(s, ExposeTry(k, true)), k, errs[1..])
    else DoWorld(s, ExposeTry(k, false))
  }

  lemma {:induction false} PolledMeaning(s: State, k: Key, errs: seq<bool>)
    requires k in s.exposing
    ensures Polled(s, k, errs) == if false in errs then DoWorld(s, ExposeTry(k, false)) else s
    decreases |errs|
  {
    if errs != [] {
      assert errs == [errs[0]] + errs[1..];
      if errs[0] {
        PolledMeaning(s, k, errs[1..]);
      }
    }
  }

  /** What that comes to, field by field. */
  lemma PolledFields(s: State, k: Key, errs: seq<bool>)
    requires k in s.exposing
    ensures var t := Polled(s, k, errs);
      && t.store == s.store && t.cache == s.cache && t.dirty == s.dirty && t.delayed == s.delayed && t.timers == s.timers
      && t.api == (if false in errs && k !in s.api then s.api[k := Exposed] else s.api)
      && t.exposing == (if false in errs then s.exposing - multiset{k} else s.exposing)
  {
    PolledMeaning(s, k, errs);
  }

  // ----- the server

  class KubedirectServer {
    const config: Config
    var podLister: map<Key, ApiPod>
    var api: map<Key, ApiPod>          // the pods behind the clients
    var inMemCache: map<string, PodInfo>
    var queued: set<Key>
    var delayed: set<Key>
    var readyTimers: map<Key, int>
    var exposing: multiset<Key>
    var epochs: map<string, string>    // the server hub

    /** The server's own fields are those of the global state. */
    ghost predicate Matches(s: State)
      reads this
    {
      && s.store == podLister && s.api == api && s.cache == inMemCache && s.dirty == queued && s.delayed == delayed
      && s.timers == readyTimers && s.exposing == exposing
    }

    /** The epoch that the server hub holds for each source, no handshake being under way. */
    ghost predicate EpochsMatch(s: State)
      reads this
    {
      epochs.Keys == s.hub.Keys && forall source | source in epochs :: s.hub[source] == Hub(epochs[source], None)
    }

    constructor (c: Config)
      ensures config == c && Matches(Init) && EpochsMatch(Init)
    {
      config := c;
      podLister, api, inMemCache, queued, delayed, readyTimers := map[], map[], map[], {}, {}, map[];
      exposing, epochs := multiset{}, map[];
    }

    /** handlePodEvent: the two actions of the handler on the first notice. */
    method HandlePodEvent(pod: ApiPod, key: Key, isDelete: bool, ghost s0: State) returns (ghost s: State)
      requires Matches(s0) && s0.notices != [] && s0.notices[0] == Notice(key, pod, isDelete) && !s0.midNotice
      modifies `queued, `readyTimers, `inMemCache
      ensures s == DoInform(DoInform(s0, HandleFirst), HandleSecond) && Matches(s)
    {
      s := DoInform(s0, HandleFirst);
      if !isDelete {
        queued := queued + {key};
      } else {
        readyTimers := readyTimers - {key};
      }
      s := DoInform(s, HandleSecond);
      if pod.managed {
        inMemCache := inMemCache - {key.name};
      }
    }

    /** The worker stands at a point of a SyncPod that is on its way to return in the state goal. */
    ghost predicate Stands(f: Faults, goal: State, s: State, k: Key, point: SyncPoint)
      reads this
    {
      Matches(s) && At(s, k, point) && Synced(config, f, s, k) == goal
    }

    method GetApiPod(pending: Key, ghost f: Faults, ghost goal: State, ghost s: State) returns (point: SyncPoint, ghost s': State)
      requires Stands(f, goal, s, pending, Start)
      ensures Stands(f, goal, s', pending, point) && s'.clock == s.clock && s'.api == s.api
      ensures point == if pending in podLister then HaveApi(podLister[pending]) else MemLookup
    {
      point := if pending in podLister then HaveApi(podLister[pending]) else MemLookup;
      s' := DoWork(config, s, pending, ReadStore);
    }

    method CheckPod(pending: Key, pod: ApiPod, nodeErr: bool, ghost f: Faults, ghost goal: State, ghost s: State)
      returns (point: SyncPoint, ghost s': State)
      requires Stands(f, goal, s, pending, HaveApi(pod)) && nodeErr == f.node
      ensures Stands(f, goal, s', pending, point) && s'.clock == s.clock && s'.api == s.api
      ensures point == AfterChecks(config, pending, pod, nodeErr)
    {
      if nodeErr {
        point := Failed;
      } else if !config.responsible(pending) {
        point := Finished;
      } else if pod.deleting {
        point := Deleting;
      } else if !pod.active || pod.ready {
        point := RemoveTimer;
      } else {
        point := AtTimer(None);
      }
      s' := DoWork(config, s, pending, CheckApi(nodeErr));
    }

    method DeletePod(pending: Key, err: bool, ghost f: Faults, ghost goal: State, ghost s: State)
      returns (point: SyncPoint, ghost s': State)
      requires Stands(f, goal, s, pending, Deleting) && err == f.delete
      modifies `api
      ensures Stands(f, goal, s', pending, point)
      ensures point == if err then Failed else RemoveTimer
    {
      point := Failed;
      if !err {
        api := api - {pending};
        point := RemoveTimer;
      }
      s' := DoWork(config, s, pending, ForceDelete(err));
    }

    method ForgetTimer(pending: Key, ghost f: Faults, ghost goal: State, ghost s: State) returns (ghost s': State)
      requires Stands(f, goal, s, pending, RemoveTimer)
      modifies `readyTimers
      ensures Stands(f, goal, s', pending, Finished)
    {
      readyTimers := readyTimers - {pending};
      s' := DoWork(config, s, pending, DropTimer);
    }

    method GetMemPod(pending: Key, f: Faults, ghost goal: State, ghost s: State) returns (point: SyncPoint, ghost s': State)
      requires Stands(f, goal, s, pending, MemLookup)
      ensures Stands(f, goal, s', pending, point) && s'.clock == s.clock && s'.api == s.api
      ensures point == AfterCache(config, inMemCache, pending, MemErr(config, f, inMemCache, pending))
    {
      if pending.name !in inMemCache {
        point := Finished;
      } else if f.lister {
        point := Failed;
      } else if !config.template(inMemCache[pending.name].key) {
        point := Finished;
      } else if f.node {
        point := Failed;
      } else {
        point := if config.responsible(inMemCache[pending.name].key) then AtTimer(Some(inMemCache[pending.name])) else Finished;
      }
      s' := DoWork(config, s, pending, ReadCache(MemErr(config, f, s.cache, pending)));
    }

    method CreateTimer(pending: Key, now: int, ghost f: Faults, ghost goal: State, ghost s: State)
      returns (readyTime: int, ghost s': State)
      requires Stands(f, goal, s, pending, AtTimer(None)) && now == s.clock && pending !in readyTimers
      modifies `readyTimers
      ensures Stands(f, goal, s', pending, Waiting(readyTime, false)) && s'.clock == s.clock && s'.api == s.api
    {
      readyTime := now + config.readyDelay;
      readyTimers := readyTimers[pending := readyTime];
      s' := DoWork(config, s, pending, ReadTimer);
    }

    method CreateTimerAndExpose(pending: Key, info: PodInfo, now: int, ghost f: Faults, ghost goal: State, ghost s: State)
      returns (readyTime: int, ghost s': State)
      requires Stands(f, goal, s, pending, AtTimer(Some(info))) && now == s.clock && pending !in readyTimers
      modifies `readyTimers, `exposing
      ensures Stands(f, goal, s', pending, Waiting(readyTime, true)) && s'.clock == s.clock && s'.api == s.api
    {
      readyTime := now + config.readyDelay;
      readyTimers, exposing := readyTimers[pending := readyTime], exposing + multiset{info.key};
      s' := DoWork(config, s, pending, ReadTimer);
    }

    method ReuseTimer(pending: Key, mem: Option<PodInfo>, ghost f: Faults, ghost goal: State, ghost s: State)
      returns (readyTime: int, ghost s': State)
      requires Stands(f, goal, s, pending, AtTimer(mem)) && pending in readyTimers
      ensures Stands(f, goal, s', pending, Waiting(readyTime, mem.Some?)) && s'.clock == s.clock && s'.api == s.api
    {
      readyTime := readyTimers[pending];
      s' := DoWork(config, s, pending, ReadTimer);
      assert s'.timers == readyTimers;
    }

    /** GetOrCreate of the ready timer; a fresh one starts the exposure of an in-memory pod. */
    method StartTimer(pending: Key, mem: Option<PodInfo>, now: int, ghost f: Faults, ghost goal: State, ghost s: State)
      returns (readyTime: int, ghost s': State)
      requires Stands(f, goal, s, pending, AtTimer(mem)) && now == s.clock
      modifies `readyTimers, `exposing
      ensures Stands(f, goal, s', pending, Waiting(readyTime, mem.Some?)) && s'.clock == s.clock && s'.api == s.api
    {
      if pending in readyTimers {
        readyTime, s' := ReuseTimer(pending, mem, f, goal, s);
      } else if mem.Some? {
        readyTime, s' := CreateTimerAndExpose(pending, mem.value, now, f, goal, s);
      } else {
        readyTime, s' := CreateTimer(pending, now, f, goal, s);
      }
    }

    method WaitReady(pending: Key, readyTime: int, inMem: bool, now: int, ghost f: Faults, ghost goal: State, ghost s: State)
      returns (point: SyncPoint, ghost s': State)
      requires Stands(f, goal, s, pending, Waiting(readyTime, inMem)) && now == s.clock
      modifies `delayed
      ensures Stands(f, goal, s', pending, point) && s'.api == s.api
      ensures point == if readyTime > now || inMem then Finished else Marking(readyTime)
    {
      point := Marking(readyTime);
      if readyTime > now {
        delayed := delayed + {pending};
        point := Finished;
      } else if inMem {
        point := Finished;
      }
      s' := DoWork(config, s, pending, CheckWait);
    }

    /** A missing object is answered with an error, like any other fault. */
    method MarkPodReady(pending: Key, readyTime: int, err: bool, ghost f: Faults, ghost goal: State, ghost s: State)
      returns (point: SyncPoint, ghost s': State)
      requires Stands(f, goal, s, pending, Marking(readyTime)) && err == f.mark
      modifies `api
      ensures Stands(f, goal, s', pending, point)
      ensures point == if err || pending !in s.api then Failed else Finished
    {
      point := Failed;
      if !err && pending in api {
        api := api[pending := api[pending].(active := true, ready := true)];
        point := Finished;
      }
      s' := DoWork(config, s, pending, MarkReady(err || pending !in s.api));
    }

    /** SyncPod from the start to its return. */
    method SyncPod(pending: Key, f: Faults, now: int, ghost s0: State) returns (ok: bool, ghost s: State)
      requires Matches(s0) && At(s0, pending, Start) && now == s0.clock
      modifies `readyTimers, `exposing, `delayed, `api
      ensures s == Synced(config, f, s0, pending) && Matches(s) && At(s, pending, if ok then Finished else Failed)
      ensures !ok ==> f.lister || f.node || f.delete || f.mark || pending !in s0.api
    {
      ghost var goal := Synced(config, f, s0, pending);
      var point;
      point, s := GetApiPod(pending, f, goal, s0);
      if point.HaveApi? {
        point, s := CheckPod(pending, point.pod, f.node, f, goal, s);
        if point == Deleting {
          point, s := DeletePod(pending, f.delete, f, goal, s);
        }
        if point == RemoveTimer {
          s := ForgetTimer(pending, f, goal, s);
          return true, s;
        }
      } else {
        point, s := GetMemPod(pending, f, goal, s);
      }
      if !point.AtTimer? {
        return point == Finished, s;
      }
      var mem := point.mem;
      var readyTime;
      readyTime, s := StartTimer(pending, mem, now, f, goal, s);
      point, s := WaitReady(pending, readyTime, mem.Some?, now, f, goal, s);
      if point.Marking? {
        point, s := MarkPodReady(pending, readyTime, f.mark, f, goal, s);
      }
      return point == Finished, s;
    }

    /** The end of processNextItem: a failed key is requeued, and every key is given back. */
    method GiveBack(pending: Key, ok: bool, ghost s0: State) returns (ghost s: State)
      requires Matches(s0) && At(s0, pending, if ok then Finished else Failed)
      modifies `delayed
      ensures s == DoWork(config, Requeued(config, s0, pending), pending, Done) && Matches(s)
    {
      if !ok {
        delayed := delayed + {pending};
      }
      s := DoWork(config, Requeued(config, s0, pending), pending, Done);
    }

    method Take(pending: Key, ghost s0: State) returns (ghost s: State)
      requires Matches(s0) && pending in queued && pending !in s0.sync
      modifies `queued
      ensures s == DoWork(config, s0, pending, Get) && Matches(s) && At(s, pending, Start) && s.clock == s0.clock
    {
      queued := queued - {pending};
      s := DoWork(config, s0, pending, Get);
    }

    /** processNextItem: take a queued key, sync it, and give it back, requeued after an error. */
    method ProcessNextItem(pending: Key, f: Faults, now: int, ghost s0: State) returns (ghost s: State)
      requires Matches(s0) && pending in queued && pending !in s0.sync && now == s0.clock
      modifies `queued, `readyTimers, `exposing, `delayed, `api
      ensures s == Processed(config, f, s0, pending) && Matches(s)
    {
      s := Take(pending, s0);
      var ok;
      ok, s := SyncPod(pending, f, now, s);
      s := GiveBack(pending, ok, s);
    }

    /** GetOrCreate on the cache, and the enqueueing of a fresh pod, under the shared lock. */
    method AcceptPod(source: string, epoch: string, info: PodInfo, ghost id: nat, ghost s0: State) returns (ghost s: State)
      requires Matches(s0) && RpcEnabled(s0, BindLock(id, source, epoch, info))
      modifies `inMemCache, `queued
      ensures s == BoundBy(s0, id, source, epoch, info) && Matches(s) && s.binders == s0.binders
    {
      BoundByMeaning(s0, id, source, epoch, info);
      s := BoundBy(s0, id, source, epoch, info);
      if info.key.name !in inMemCache {
        inMemCache := inMemCache[info.key.name := info];
        queued := queued + {info.key};
      }
    }

    /** BindPod: refused without a template or under another epoch, and otherwise its four actions. */
    method BindPod(source: string, epoch: string, info: PodInfo, ghost id: nat, ghost s0: State)
      returns (result: BindResult, ghost s: State)
      requires Matches(s0) && EpochsMatch(s0) && id !in s0.binders
      modifies `inMemCache, `queued
      ensures result == if !config.template(info.key) then NotFound
                        else if source in epochs && epochs[source] == epoch then Bound else EpochMismatch
      ensures result == Bound ==> RpcEnabled(s0, BindLock(id, source, epoch, info)) && s == BoundBy(s0, id, source, epoch, info)
      ensures result != Bound ==> s == s0
      ensures Matches(s) && s.binders == s0.binders
    {
      s := s0;
      if !config.template(info.key) {
        return NotFound, s;
      }
      if source !in epochs || epochs[source] != epoch {
        return EpochMismatch, s;
      }
      s := AcceptPod(source, epoch, info, id, s0);
      result := Bound;
    }

    /** Handshake: its three actions; it answers the cached pods of the node. */
    method Handshake(source: string, epoch: string, node: string, ghost s0: State) returns (pods: set<PodInfo>, ghost s: State)
      requires Matches(s0) && EpochsMatch(s0) && forall id | id in s0.binders :: s0.binders[id].source != source
      modifies `epochs
      ensures RpcEnabled(s0, HandshakeLock(source, epoch, node)) && s == ShakenBy(s0, source, epoch, node)
      ensures Matches(s) && EpochsMatch(s) && s.history == s0.history + [Installed(source, epoch), Snapshot(source, epoch, node, pods)]
    {
      epochs := epochs[source := epoch];
      pods := OnNode(inMemCache, node);
      s := ShakenBy(s0, source, epoch, node);
      ShakenByMeaning(s0, source, epoch, node);
    }

    /** The polling loop: it ends with the first answer that is no error. */
    method PollUntilCreated(errs: seq<bool>) returns (done: bool)
      ensures done == (false in errs)
    {
      var i := 0;
      while i < |errs| && errs[i]
        invariant 0 <= i <= |errs| && forall j | 0 <= j < i :: errs[j]
      {
        i := i + 1;
      }
      assert i < |errs| ==> !errs[i];
      done := i < |errs|;
    }

    /** ExposeManagedPod: polls until the object exists; errs are the answers of the API server. */
    method ExposeManagedPod(key: Key, errs: seq<bool>, ghost s0: State) returns (done: bool, ghost s: State)
      requires Matches(s0) && key in s0.exposing
      modifies `api, `exposing
      ensures s == Polled(s0, key, errs) && Matches(s) && done == (false in errs)
    {
      PolledFields(s0, key, errs);
      s := Polled(s0, key, errs);
      done := PollUntilCreated(errs);
      if done {
        if key !in api {
          api := api[key := Exposed];
        }
        exposing := exposing - multiset{key};
      }
    }
  }
}
