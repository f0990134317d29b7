/**
  The custom kubelet as a labelled transition system.

  Every label is one atomic action of one of the concurrent parties: the API server, the
  informer, the event handler, the RPC handlers BindPod and Handshake, the sync workers and
  the background exposure goroutines.  The code's own functions are therefore cut at each
  access to shared state, and all interleavings are runs.
*/
module Kubelet {
  import opened Wrappers

  /** Namespace and name: what the work queue and the ready timers are indexed by. */
  datatype Key = Key(ns: string, name: string)

  /** An entry of the in-memory cache, which is indexed by name only. */
  datatype PodInfo = PodInfo(key: Key, node: string)

  /** The parts of an API pod that the kubelet looks at. */
  datatype ApiPod = ApiPod(managed: bool, deleting: bool, active: bool, ready: bool)

  /** A watch event on its way from the API server; None is a deletion. */
  datatype Change = Change(key: Key, pod: Option<ApiPod>)

  /** A call of the event handler that has not finished yet. */
  datatype Notice = Notice(key: Key, pod: ApiPod, isDelete: bool)

  /** What stays fixed in a run: the one namespace of each managed name, the delay, and which
      pods have a template and are delegated to this kubelet. */
  datatype Config = Config(home: string -> string, readyDelay: int, template: Key -> bool, responsible: Key -> bool)

  /** Program points of SyncPod for the one worker that holds a key. */
  datatype SyncPoint =
    | Start
    | MemLookup                          // informer store missed, cache not read yet
    | HaveApi(pod: ApiPod)               // copy of the informer's pod
    | Deleting
    | RemoveTimer
    | AtTimer(mem: Option<PodInfo>)      // Some: the pod was materialized from the cache
    | Waiting(readyTime: int, inMem: bool)
    | Marking(readyTime: int)
    | Failed
    | Finished

  datatype BindPoint = Locked | Inserted | Returning

  datatype Binder = Binder(source: string, epoch: string, info: PodInfo, point: BindPoint)

  datatype HandshakePoint = Installing(node: string) | Answered

  /** The server hub's lock of one source: its epoch and the handshake holding it exclusively. */
  datatype Hub = Hub(epoch: string, holder: Option<HandshakePoint>)

  datatype Entry =
    | Installed(source: string, epoch: string)
    | Snapshot(source: string, epoch: string, node: string, pods: set<PodInfo>)
    | Accepted(source: string, epoch: string, info: PodInfo, found: PodInfo)   // BindPod succeeds; found is the cache entry
    | Dropped(key: Key)                                        // the event handler removed the key's name
    | Born(key: Key)                                           // an API object is created
    | Died(key: Key)                                           // an API object is deleted
    | TimerCreated(key: Key, at: int)
    | MarkedReady(key: Key, at: int)

  /** In gone are the keys whose API object was deleted and that have not been bound since; in
      accepted those for which a bind has succeeded. */
  datatype State = State(
    clock: int,
    api: map<Key, ApiPod>, gone: set<Key>,
    watch: seq<Change>, store: map<Key, ApiPod>,
    notices: seq<Notice>, midNotice: bool,
    cache: map<string, PodInfo>, accepted: set<Key>,
    binders: map<nat, Binder>, hub: map<string, Hub>,
    dirty: set<Key>, delayed: set<Key>, sync: map<Key, SyncPoint>,
    timers: map<Key, int>, exposing: multiset<Key>,
    history: seq<Entry>)

  const Init := State(0, map[], {}, [], map[], [], false, map[], {}, map[], map[], {}, {}, map[], map[], multiset{}, [])

  /** Actions of the API server, of time and of the exposure goroutines. */
  datatype WorldAct =
    | Tick(elapsed: nat)
    | ApiCreate(key: Key, pod: ApiPod)
    | ApiUpdate(key: Key, pod: ApiPod)
    | ApiDelete(key: Key)
    | ExposeTry(key: Key, err: bool)

  /** Actions of the informer and of its event handler. */
  datatype InformAct =
    | Deliver          // the store is updated first, then a handler call is scheduled
    | HandleFirst      // handlePodEvent: queue.Add or readyTimers.Del
    | HandleSecond     // handlePodEvent: inMemCache.Del

  /** Actions of BindPod and Handshake. */
  datatype RpcAct =
    | BindLock(id: nat, source: string, epoch: string, info: PodInfo)
    | BindInsert(id: nat)
    | BindEnqueue(id: nat)
    | BindUnlock(id: nat)
    | HandshakeLock(source: string, epoch: string, node: string)
    | HandshakeSnapshot(source: string)
    | HandshakeUnlock(source: string)

  /** Actions of the work queue and of the worker that holds a key. */
  datatype WorkAct =
    | Fire             // a delayed or rate-limited add is due
    | Get
    | ReadStore
    | ReadCache(err: bool)
    | CheckApi(err: bool)
    | ForceDelete(err: bool)
    | DropTimer
    | ReadTimer
    | CheckWait
    | MarkReady(err: bool)
    | Requeue          // AddRateLimited after an error
    | Done

  datatype Label = World(world: WorldAct) | Inform(inform: InformAct) | Rpc(rpc: RpcAct) | Work(key: Key, work: WorkAct)

  /** The pod that exposure creates: managed, persistent, pending. */
  const Exposed := ApiPod(true, false, true, false)

  // ----- the API server and exposure

  predicate WorldEnabled(s: State, l: WorldAct) {
    match l
    case Tick(_) => true
    case ApiCreate(k, _) => k !in s.api
    case ApiUpdate(k, _) => k in s.api
    case ApiDelete(k) => k in s.api
    case ExposeTry(k, _) => k in s.exposing
  }

  function DoWorld(s: State, l: WorldAct): State
    requires WorldEnabled(s, l)
  {
    match l
    case Tick(d) => s.(clock := s.clock + d)
    case ApiCreate(k, pod) =>
      s.(api := s.api[k := pod], watch := s.watch + [Change(k, Some(pod))], history := s.history + [Born(k)])
    case ApiUpdate(k, pod) => s.(api := s.api[k := pod], watch := s.watch + [Change(k, Some(pod))])
    case ApiDelete(k) =>
      s.(api := s.api - {k}, gone := s.gone + {k}, watch := s.watch + [Change(k, None)], history := s.history + [Died(k)])
    case ExposeTry(k, err) =>
      // an already existing object also ends the polling loop
      var create := !err && k !in s.api;
      s.(api := if create then s.api[k := Exposed] else s.api,
         watch := if create then s.watch + [Change(k, Some(Exposed))] else s.watch,
         history := if create then s.history + [Born(k)] else s.history,
         exposing := if err then s.exposing else s.exposing - multiset{k})
  }

  // ----- the informer and handlePodEvent

  predicate InformEnabled(s: State, l: InformAct) {
    match l
    case Deliver => s.watch != []
    case HandleFirst => s.notices != [] && !s.midNotice
    case HandleSecond => s.notices != [] && s.midNotice
  }

  function Apply(store: map<Key, ApiPod>, e: Change): map<Key, ApiPod> {
    match e.pod
    case Some(pod) => store[e.key := pod]
    case None => store - {e.key}
  }

  /** The handler call that a watch event gives rise to; none for an unknown object. */
  function Told(store: map<Key, ApiPod>, e: Change): seq<Notice> {
    match e.pod
    case Some(pod) => [Notice(e.key, pod, false)]
    case None => if e.key in store then [Notice(e.key, store[e.key], true)] else []
  }

  function DoInform(s: State, l: InformAct): State
    requires InformEnabled(s, l)
  {
    match l
    case Deliver =>
      s.(watch := s.watch[1..], store := Apply(s.store, s.watch[0]), notices := s.notices + Told(s.store, s.watch[0]))
    case HandleFirst =>
      var n := s.notices[0];
      s.(midNotice := true,
         dirty := if n.isDelete then s.dirty else s.dirty + {n.key},
         timers := if n.isDelete then s.timers - {n.key} else s.timers)
    case HandleSecond =>
      var n := s.notices[0];
      s.(midNotice := false, notices := s.notices[1..],
         cache := if n.pod.managed then s.cache - {n.key.name} else s.cache,
         history := if n.pod.managed then s.history + [Dropped(n.key)] else s.history)
  }

  // ----- BindPod and Handshake

  predicate HandshakeOf(s: State, source: string) {
    source in s.hub && s.hub[source].holder.Some?
  }

  predicate RpcEnabled(s: State, l: RpcAct) {
    match l
    case BindLock(id, source, epoch, _) =>
      id !in s.binders && source in s.hub && s.hub[source].epoch == epoch && s.hub[source].holder.None?
    case BindInsert(id) => id in s.binders && s.binders[id].point == Locked
    case BindEnqueue(id) => id in s.binders && s.binders[id].point == Inserted
    case BindUnlock(id) => id in s.binders && s.binders[id].point == Returning
    case HandshakeLock(source, _, _) =>
      !HandshakeOf(s, source) && forall id | id in s.binders :: s.binders[id].source != source
    case HandshakeSnapshot(source) => HandshakeOf(s, source) && s.hub[source].holder.value.Installing?
    case HandshakeUnlock(source) => HandshakeOf(s, source) && s.hub[source].holder.value.Answered?
  }

  /** The cached pods of a node, as a handshake answers them. */
  function OnNode(cache: map<string, PodInfo>, node: string): set<PodInfo> {
    set n | n in cache && cache[n].node == node :: cache[n]
  }

  function DoRpc(s: State, l: RpcAct): State
    requires RpcEnabled(s, l)
  {
    match l
    case BindLock(id, source, epoch, info) =>
      s.(binders := s.binders[id := Binder(source, epoch, info, Locked)])
    case BindInsert(id) =>
      // GetOrCreate; a bind that finds an entry succeeds without doing anything
      var b := s.binders[id];
      var k := b.info.key;
      var isNew := k.name !in s.cache;
      s.(binders := s.binders[id := b.(point := if isNew then Inserted else Returning)],
         cache := if isNew then s.cache[k.name := b.info] else s.cache,
         accepted := s.accepted + {k}, gone := s.gone - {k},
         history := s.history + [Accepted(b.source, b.epoch, b.info, if isNew then b.info else s.cache[k.name])])
    case BindEnqueue(id) =>
      var b := s.binders[id];
      s.(dirty := s.dirty + {b.info.key}, binders := s.binders[id := b.(point := Returning)])
    case BindUnlock(id) => s.(binders := s.binders - {id})
    case HandshakeLock(source, epoch, node) =>
      s.(hub := s.hub[source := Hub(epoch, Some(Installing(node)))], history := s.history + [Installed(source, epoch)])
    case HandshakeSnapshot(source) =>
      var h := s.hub[source];
      var node := h.holder.value.node;
      s.(hub := s.hub[source := h.(holder := Some(Answered))],
         history := s.history + [Snapshot(source, h.epoch, node, OnNode(s.cache, node))])
    case HandshakeUnlock(source) => s.(hub := s.hub[source := s.hub[source].(holder := None)])
  }

  // ----- the work queue and SyncPod

  predicate At(s: State, k: Key, p: SyncPoint) {
    k in s.sync && s.sync[k] == p
  }

  predicate WorkEnabled(s: State, k: Key, l: WorkAct) {
    match l
    case Fire => k in s.delayed
    case Get => k in s.dirty && k !in s.sync
    case ReadStore => At(s, k, Start)
    case ReadCache(_) => At(s, k, MemLookup)
    case CheckApi(_) => k in s.sync && s.sync[k].HaveApi?
    case ForceDelete(_) => At(s, k, Deleting)
    case DropTimer => At(s, k, RemoveTimer)
    case ReadTimer => k in s.sync && s.sync[k].AtTimer?
    case CheckWait => k in s.sync && s.sync[k].Waiting?
    case MarkReady(err) => k in s.sync && s.sync[k].Marking? && (err || k in s.api)
    case Requeue => At(s, k, Failed)
    case Done => At(s, k, Finished)
  }

  /** The checks of SyncPod on an API pod, up to the ready timer. */
  function AfterChecks(c: Config, k: Key, pod: ApiPod, err: bool): SyncPoint {
    if err then Failed
    else if !c.responsible(k) then Finished
    else if pod.deleting then Deleting
    else if !pod.active || pod.ready then RemoveTimer
    else AtTimer(None)
  }

  /** The second lookup of SyncPod: the in-memory cache, by name. */
  function AfterCache(c: Config, cache: map<string, PodInfo>, k: Key, err: bool): SyncPoint {
    if k.name !in cache then Finished
    else if err then Failed
    else if c.template(cache[k.name].key) && c.responsible(cache[k.name].key) then AtTimer(Some(cache[k.name]))
    else Finished
  }

  function DoWork(c: Config, s: State, k: Key, l: WorkAct): State
    requires WorkEnabled(s, k, l)
  {
    match l
    case Fire => s.(delayed := s.delayed - {k}, dirty := s.dirty + {k})
    case Get => s.(dirty := s.dirty - {k}, sync := s.sync[k := Start])
    case ReadStore => s.(sync := s.sync[k := if k in s.store then HaveApi(s.store[k]) else MemLookup])
    case ReadCache(err) => s.(sync := s.sync[k := AfterCache(c, s.cache, k, err)])
    case CheckApi(err) => s.(sync := s.sync[k := AfterChecks(c, k, s.sync[k].pod, err)])
    case ForceDelete(err) =>
      // an object that is already gone counts as deleted
      var erase := !err && k in s.api;
      s.(sync := s.sync[k := if err then Failed else RemoveTimer],
         api := if erase then s.api - {k} else s.api,
         gone := if erase then s.gone + {k} else s.gone,
         watch := if erase then s.watch + [Change(k, None)] else s.watch,
         history := if erase then s.history + [Died(k)] else s.history)
    case DropTimer => s.(sync := s.sync[k := Finished], timers := s.timers - {k})
    case ReadTimer =>
      // GetOrCreate; a fresh timer of an in-memory pod starts its exposure
      var mem := s.sync[k].mem;
      var isNew := k !in s.timers;
      var readyTime := if isNew then s.clock + c.readyDelay else s.timers[k];
      s.(sync := s.sync[k := Waiting(readyTime, mem.Some?)],
         timers := s.timers[k := readyTime],
         exposing := if isNew && mem.Some? then s.exposing + multiset{mem.value.key} else s.exposing,
         history := if isNew then s.history + [TimerCreated(k, s.clock)] else s.history)
    case CheckWait =>
      var p := s.sync[k];
      s.(sync := s.sync[k := if p.readyTime > s.clock || p.inMem then Finished else Marking(p.readyTime)],
         delayed := if p.readyTime > s.clock then s.delayed + {k} else s.delayed)
    case MarkReady(err) =>
      s.(sync := s.sync[k := if err then Failed else Finished],
         api := if err then s.api else s.api[k := s.api[k].(active := true, ready := true)],
         watch := if err then s.watch else s.watch + [Change(k, Some(s.api[k].(active := true, ready := true)))],
         history := if err then s.history else s.history + [MarkedReady(k, s.clock)])
    case Requeue => s.(sync := s.sync[k := Finished], delayed := s.delayed + {k})
    case Done => s.(sync := s.sync - {k})
  }

  // ----- one action of any party

  predicate Enabled(s: State, l: Label) {
    match l
    case World(a) => WorldEnabled(s, a)
    case Inform(a) => InformEnabled(s, a)
    case Rpc(a) => RpcEnabled(s, a)
    case Work(k, a) => WorkEnabled(s, k, a)
  }

  function Do(c: Config, s: State, l: Label): State
    requires Enabled(s, l)
  {
    match l
    case World(a) => DoWorld(s, a)
    case Inform(a) => DoInform(s, a)
    case Rpc(a) => DoRpc(s, a)
    case Work(k, a) => DoWork(c, s, k, a)
  }

  // ----- what is in flight for a key

  predicate Watched(watch: seq<Change>, k: Key) {
    exists i | 0 <= i < |watch| :: watch[i].key == k
  }

  predicate Noticed(notices: seq<Notice>, k: Key) {
    exists i | 0 <= i < |notices| :: notices[i].key == k
  }

  /** A handler call is still going to remove the key's name from the cache. */
  predicate DropPending(notices: seq<Notice>, k: Key) {
    exists i | 0 <= i < |notices| :: notices[i].key == k && notices[i].pod.managed
  }

  /** A bind is still going to enqueue the key. */
  predicate BindPending(binders: map<nat, Binder>, k: Key) {
    exists id | id in binders :: binders[id].point == Inserted && binders[id].info.key == k
  }

  /** The API form of the pod still has to be made ready by this kubelet. */
  predicate Obliged(c: Config, k: Key, pod: ApiPod) {
    c.responsible(k) && !pod.deleting && pod.active && !pod.ready
  }

  /** A handler call is still going to enqueue the key; the first call may be half done. */
  predicate AddPending(notices: seq<Notice>, mid: bool, k: Key) {
    exists i | (if mid then 1 else 0) <= i < |notices| :: notices[i].key == k && !notices[i].isDelete
  }

  // ----- when a deleted key can be bound again without being missed in the hand-off

  /** Delivering some of the events leads to a state in which the store has no object of the key
      while a handler call has dropped the cache entry or is going to. */
  predicate DropsInGap(dropped: bool, store: map<Key, ApiPod>, watch: seq<Change>, k: Key)
    decreases |watch|
  {
    || (dropped && k !in store)
    || (watch != [] && DropsInGap(dropped || DropPending(Told(store, watch[0]), k), Apply(store, watch[0]), watch[1..], k))
  }

  /** Among the handler calls up to this one, some call is still going to enqueue the key. */
  predicate AddWithin(notices: seq<Notice>, mid: bool, k: Key, last: int) {
    exists i | (if mid then 1 else 0) <= i < |notices| :: i <= last && notices[i].key == k && !notices[i].isDelete
  }

  /** The handler is going to drop the cache entry before it enqueues the key. */
  predicate DropFirst(notices: seq<Notice>, mid: bool, k: Key) {
    exists i | 0 <= i < |notices| :: notices[i].key == k && notices[i].pod.managed && !AddWithin(notices, mid, k, i)
  }

  /** A pod bound now cannot be missed by both lookups because of an earlier object of its key:
      no cache entry is dropped while the store has no object of the key, nor behind the back of
      a worker that is between the lookups. */
  predicate InStep(s: State, k: Key) {
    && !DropsInGap(DropPending(s.notices, k), s.store, s.watch, k)
    && (At(s, k, MemLookup) && k !in s.dirty ==> !DropFirst(s.notices, s.midNotice, k))
  }

  // ----- when a deleted key can be bound again without getting stuck

  /** The pod is being exposed, or the worker is about to start its exposure. */
  predicate Exposes(s: State, k: Key) {
    k in s.exposing || (k in s.sync && s.sync[k].AtTimer? && s.sync[k].mem.Some? && k !in s.timers)
  }

  /** The worker holds a copy of the API form and will create a ready timer for it. */
  predicate Copying(c: Config, k: Key, p: SyncPoint) {
    p == AtTimer(None) || (p.HaveApi? && Obliged(c, k, p.pod))
  }

  /** The handler is going to remove the ready timer of the key, and to enqueue the key later. */
  predicate Rescued(notices: seq<Notice>, mid: bool, k: Key) {
    exists i, j | (if mid then 1 else 0) <= i < j < |notices| ::
      notices[i].key == k && notices[i].isDelete && notices[j].key == k && !notices[j].isDelete
  }

  /** Nothing of an earlier API object can drop the cache entry, swallow the queued key or pass
      for the ready timer of a pod bound now. */
  predicate Clean(c: Config, s: State, k: Key) {
    && k !in s.store && !Watched(s.watch, k) && !DropPending(s.notices, k)
    && !(k in s.sync && Copying(c, k, s.sync[k]))
    && (k in s.timers ==> At(s, k, RemoveTimer) || Rescued(s.notices, s.midNotice, k))
  }

  /** Points from which a worker certainly comes back to a pod that is not in the API server. */
  predicate CarriesMem(p: SyncPoint) {
    || p == Start || p == MemLookup || p == Failed || p.Marking? || (p.AtTimer? && p.mem.Some?)
    || (p.Waiting? && !p.inMem)
  }

  /** The key is certain to be synced again. */
  predicate Followed(s: State, k: Key) {
    || BindPending(s.binders, k) || k in s.dirty || k in s.delayed || (k in s.sync && CarriesMem(s.sync[k]))
    || AddPending(s.notices, s.midNotice, k)
  }

  /** A bind of a deleted key succeeds in a state where the pod is certain to be exposed. */
  predicate SafeBind(c: Config, s: State, k: Key) {
    Exposes(s, k) || (Clean(c, s, k) && (k.name !in s.cache || Followed(s, k)))
  }

  // ----- rules for the outside world

  predicate WellNamed(c: Config, k: Key) {
    k.ns == c.home(k.name)
  }

  /** Managed names are unique across namespaces. */
  predicate NamedLabel(c: Config, l: Label) {
    match l
    case World(ApiCreate(k, pod)) => pod.managed ==> WellNamed(c, k)
    case World(ApiUpdate(k, pod)) => pod.managed ==> WellNamed(c, k)
    case Rpc(BindLock(_, _, _, info)) => WellNamed(c, info.key)
    case _ => true
  }

  /** The key of a bind that has got hold of the lock. */
  function BoundKey(s: State, id: nat): Key
    requires id in s.binders
  {
    s.binders[id].info.key
  }

  /** The label is a bind of a deleted key that is about to succeed. */
  predicate Rebinds(s: State, l: Label) {
    l.Rpc? && l.rpc.BindInsert? && RpcEnabled(s, l.rpc) && BoundKey(s, l.rpc.id) in s.gone
  }

  /** Actions of the kubelet's own parties for one key, of the informer and of time, in which
      nothing fails; marking an object that is not there is answered with an error. */
  predicate Recovers(s: State, k: Key, l: Label) {
    match l
    case World(Tick(_)) => true
    case World(ExposeTry(j, err)) => j == k && !err
    case Inform(_) => true
    case Rpc(BindEnqueue(_)) => true
    case Work(j, a) =>
      && j == k
      && (a.ReadCache? || a.CheckApi? || a.ForceDelete? ==> !a.err)
      && (a.MarkReady? && a.err ==> k !in s.api)
    case _ => false
  }

  /** What a run may assume: nothing; unique names; also that deleted keys are only bound again
      in step with the informer, or only in a safe state if they have no API object; or that only
      recovery happens. */
  datatype Rule = Anything | Named | InStepBinds | SafeBinds | Recovery(key: Key)

  predicate Allowed(rule: Rule, c: Config, s: State, l: Label) {
    match rule
    case Anything => true
    case Named => NamedLabel(c, l)
    case InStepBinds => NamedLabel(c, l) && (Rebinds(s, l) ==> InStep(s, BoundKey(s, l.rpc.id)))
    case SafeBinds =>
      && NamedLabel(c, l)
      && (Rebinds(s, l) ==> BoundKey(s, l.rpc.id) in s.api || SafeBind(c, s, BoundKey(s, l.rpc.id)))
    case Recovery(k) => Recovers(s, k, l)
  }

  // ----- runs

  predicate Steps(rule: Rule, c: Config, s: State, l: Label, t: State) {
    Enabled(s, l) && Allowed(rule, c, s, l) && Do(c, s, l) == t
  }

  /** The states that a sequence of labels goes through. */
  ghost predicate Path(rule: Rule, c: Config, path: seq<State>, run: seq<Label>) {
    |path| == |run| + 1 && forall i | 0 <= i < |run| :: Steps(rule, c, path[i], run[i], path[i + 1])
  }

  /** A sequence of allowed labels, performed one after the other, leads from s to t. */
  ghost predicate Leads(rule: Rule, c: Config, s: State, run: seq<Label>, t: State) {
    exists path :: Path(rule, c, path, run) && path[0] == s && path[|run|] == t
  }

  lemma {:induction false} Stay(rule: Rule, c: Config, s: State)
    ensures Leads(rule, c, s, [], s)
  {
    assert Path(rule, c, [s], []);
  }

  /** A run that is not empty begins with an action. */
  lemma {:induction false} Tail(rule: Rule, c: Config, s: State, run: seq<Label>, t: State)
    requires Leads(rule, c, s, run, t) && run != []
    ensures Enabled(s, run[0]) && Allowed(rule, c, s, run[0]) && Leads(rule, c, Do(c, s, run[0]), run[1..], t)
  {
    var path :| Path(rule, c, path, run) && path[0] == s && path[|run|] == t;
    assert Steps(rule, c, path[0], run[0], path[1]);
    assert Path(rule, c, path[1..], run[1..]);
  }

  lemma {:induction false} Joined(rule: Rule, c: Config, path: seq<State>, run: seq<Label>,
                                  rest: seq<State>, more: seq<Label>, i: nat)
    requires Path(rule, c, path, run) && Path(rule, c, rest, more) && path[|run|] == rest[0] && i < |run + more|
    ensures var all := path[..|run|] + rest; Steps(rule, c, all[i], (run + more)[i], all[i + 1])
  {
    var all := path[..|run|] + rest;
    if i < |run| {
      assert all[i] == path[i] && (run + more)[i] == run[i] && all[i + 1] == path[i + 1];
    } else {
      var j := i - |run|;
      assert all[i] == rest[j] && (run + more)[i] == more[j] && all[i + 1] == rest[j + 1];
    }
  }

  lemma {:induction false} Extend(rule: Rule, c: Config, s: State, run: seq<Label>, t: State, more: seq<Label>, u: State)
    requires Leads(rule, c, s, run, t) && Leads(rule, c, t, more, u)
    ensures Leads(rule, c, s, run + more, u)
  {
    var path :| Path(rule, c, path, run) && path[0] == s && path[|run|] == t;
    var rest :| Path(rule, c, rest, more) && rest[0] == t && rest[|more|] == u;
    var all := path[..|run|] + rest;
    forall i | 0 <= i < |run + more| ensures Steps(rule, c, all[i], (run + more)[i], all[i + 1]) {
      Joined(rule, c, path, run, rest, more, i);
    }
    assert Path(rule, c, all, run + more);
  }

  lemma {:induction false} One(rule: Rule, c: Config, s: State, l: Label)
    requires Enabled(s, l) && Allowed(rule, c, s, l)
    ensures Leads(rule, c, s, [l], Do(c, s, l))
  {
    assert Path(rule, c, [s, Do(c, s, l)], [l]);
  }

  /** A run from s0 that has reached s goes on by one action. */
  lemma {:induction false} Then(rule: Rule, c: Config, s0: State, run: seq<Label>, s: State, l: Label)
    returns (run': seq<Label>, s': State)
    requires Leads(rule, c, s0, run, s) && Enabled(s, l) && Allowed(rule, c, s, l)
    ensures Leads(rule, c, s0, run', s') && s' == Do(c, s, l)
  {
    run', s' := run + [l], Do(c, s, l);
    One(rule, c, s, l);
    Extend(rule, c, s0, run, s, [l], s');
  }

  lemma {:induction false} ThenWork(rule: Rule, c: Config, s0: State, run: seq<Label>, s: State, k: Key, l: WorkAct)
    returns (run': seq<Label>, s': State)
    requires Leads(rule, c, s0, run, s) && WorkEnabled(s, k, l) && Allowed(rule, c, s, Work(k, l))
    ensures Leads(rule, c, s0, run', s') && s' == DoWork(c, s, k, l)
  {
    run', s' := Then(rule, c, s0, run, s, Work(k, l));
  }

  lemma {:induction false} ThenInform(rule: Rule, c: Config, s0: State, run: seq<Label>, s: State, l: InformAct)
    returns (run': seq<Label>, s': State)
    requires Leads(rule, c, s0, run, s) && InformEnabled(s, l) && Allowed(rule, c, s, Inform(l))
    ensures Leads(rule, c, s0, run', s') && s' == DoInform(s, l)
  {
    run', s' := Then(rule, c, s0, run, s, Inform(l));
  }

  lemma {:induction false} ThenRpc(rule: Rule, c: Config, s0: State, run: seq<Label>, s: State, l: RpcAct)
    returns (run': seq<Label>, s': State)
    requires Leads(rule, c, s0, run, s) && RpcEnabled(s, l) && Allowed(rule, c, s, Rpc(l))
    ensures Leads(rule, c, s0, run', s') && s' == DoRpc(s, l)
  {
    run', s' := Then(rule, c, s0, run, s, Rpc(l));
  }

  lemma {:induction false} ThenWorld(rule: Rule, c: Config, s0: State, run: seq<Label>, s: State, l: WorldAct)
    returns (run': seq<Label>, s': State)
    requires Leads(rule, c, s0, run, s) && WorldEnabled(s, l) && Allowed(rule, c, s, World(l))
    ensures Leads(rule, c, s0, run', s') && s' == DoWorld(s, l)
  {
    run', s' := Then(rule, c, s0, run, s, World(l));
  }

  /** A run under a rule is a run; one under a rule other than Anything has unique names; one
      of recovery binds nothing, so it is a safe one. */
  lemma {:induction false} Relax(rule: Rule, c: Config, s: State, run: seq<Label>, t: State)
    requires Leads(rule, c, s, run, t)
    ensures Leads(Anything, c, s, run, t)
    ensures !rule.Anything? ==> Leads(Named, c, s, run, t)
    ensures rule.Recovery? ==> Leads(SafeBinds, c, s, run, t)
  {
    var path :| Path(rule, c, path, run) && path[0] == s && path[|run|] == t;
    forall i | 0 <= i < |run| ensures Relaxed(rule, c, path[i], run[i], path[i + 1]) {
      assert Steps(rule, c, path[i], run[i], path[i + 1]);
      RelaxStep(rule, c, path[i], run[i], path[i + 1]);
    }
    assert Path(Anything, c, path, run);
    assert !rule.Anything? ==> Path(Named, c, path, run);
    assert rule.Recovery? ==> Path(SafeBinds, c, path, run);
  }

  predicate Relaxed(rule: Rule, c: Config, s: State, l: Label, t: State) {
    && Steps(Anything, c, s, l, t)
    && (!rule.Anything? ==> Steps(Named, c, s, l, t))
    && (rule.Recovery? ==> Steps(SafeBinds, c, s, l, t))
  }

  lemma RelaxStep(rule: Rule, c: Config, s: State, l: Label, t: State)
    requires Steps(rule, c, s, l, t)
    ensures Relaxed(rule, c, s, l, t)
  {
  }
}
