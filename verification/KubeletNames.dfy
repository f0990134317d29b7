/**
  What every run with unique names keeps, whatever else happens: names belong to one namespace
  wherever they are in flight, and the informer store with the undelivered events replayed is
  the API server.
*/
module KubeletNames {
  import opened Wrappers
  import opened Kubelet

  // ----- the informer follows the API server

  function Replay(store: map<Key, ApiPod>, watch: seq<Change>): map<Key, ApiPod>
    decreases |watch|
  {
    if watch == [] then store else Replay(Apply(store, watch[0]), watch[1..])
  }

  /** Only objects that exist are deleted. */
  predicate Sound(store: map<Key, ApiPod>, watch: seq<Change>)
    decreases |watch|
  {
    watch == [] || ((watch[0].pod.None? ==> watch[0].key in store) && Sound(Apply(store, watch[0]), watch[1..]))
  }

  predicate Consistent(s: State) {
    Replay(s.store, s.watch) == s.api && Sound(s.store, s.watch)
  }

  lemma {:induction false} ReplayAppend(store: map<Key, ApiPod>, watch: seq<Change>, e: Change)
    ensures Replay(store, watch + [e]) == Apply(Replay(store, watch), e)
    ensures Sound(store, watch + [e]) <==> Sound(store, watch) && (e.pod.None? ==> e.key in Replay(store, watch))
    decreases |watch|
  {
    if watch == [] {
      assert watch + [e] == [e];
    } else {
      assert (watch + [e])[1..] == watch[1..] + [e];
      ReplayAppend(Apply(store, watch[0]), watch[1..], e);
    }
  }

  lemma {:induction false} ReplayUntouched(store: map<Key, ApiPod>, watch: seq<Change>, k: Key)
    requires !Watched(watch, k)
    ensures k in Replay(store, watch) <==> k in store
    ensures k in store ==> Replay(store, watch)[k] == store[k]
    decreases |watch|
  {
    if watch != [] {
      assert watch[0].key != k;
      forall i | 0 <= i < |watch[1..]| ensures watch[1..][i].key != k {
        assert watch[1..][i] == watch[i + 1];
      }
      ReplayUntouched(Apply(store, watch[0]), watch[1..], k);
    }
  }

  lemma WatchedAfter(watch: seq<Change>, e: Change, k: Key)
    ensures Watched(watch + [e], k) <==> Watched(watch, k) || e.key == k
  {
    assert (watch + [e])[|watch|] == e;
    forall i | 0 <= i < |watch| && watch[i].key == k ensures Watched(watch + [e], k) {
      assert (watch + [e])[i] == watch[i];
    }
  }

  lemma ConsistentWorld(s: State, l: WorldAct)
    requires WorldEnabled(s, l) && Consistent(s)
    ensures Consistent(DoWorld(s, l))
  {
    match l
    case ApiCreate(k, pod) => ReplayAppend(s.store, s.watch, Change(k, Some(pod)));
    case ApiUpdate(k, pod) => ReplayAppend(s.store, s.watch, Change(k, Some(pod)));
    case ApiDelete(k) => ReplayAppend(s.store, s.watch, Change(k, None));
    case ExposeTry(k, _) => ReplayAppend(s.store, s.watch, Change(k, Some(Exposed)));
    case _ =>
  }

  lemma ConsistentWork(c: Config, s: State, k: Key, l: WorkAct)
    requires WorkEnabled(s, k, l) && Consistent(s)
    ensures Consistent(DoWork(c, s, k, l))
  {
    match l
    case ForceDelete(_) => ReplayAppend(s.store, s.watch, Change(k, None));
    case MarkReady(err) =>
      if !err {
        ReplayAppend(s.store, s.watch, Change(k, Some(s.api[k].(active := true, ready := true))));
      }
    case _ =>
  }

  lemma ConsistentInform(s: State, l: InformAct)
    requires InformEnabled(s, l) && Consistent(s)
    ensures Consistent(DoInform(s, l))
  {
  }

  lemma ConsistentRpc(s: State, l: RpcAct)
    requires RpcEnabled(s, l) && Consistent(s)
    ensures Consistent(DoRpc(s, l))
  {
  }

  // ----- names

  ghost predicate PodsNamed(c: Config, pods: map<Key, ApiPod>) {
    forall k | k in pods :: pods[k].managed ==> WellNamed(c, k)
  }

  ghost predicate WatchNamed(c: Config, watch: seq<Change>) {
    forall i | 0 <= i < |watch| :: watch[i].pod.Some? && watch[i].pod.value.managed ==> WellNamed(c, watch[i].key)
  }

  ghost predicate NoticesNamed(c: Config, notices: seq<Notice>) {
    forall i | 0 <= i < |notices| :: notices[i].pod.managed ==> WellNamed(c, notices[i].key)
  }

  ghost predicate CacheNamed(c: Config, cache: map<string, PodInfo>) {
    forall n | n in cache :: cache[n].key.name == n && WellNamed(c, cache[n].key)
  }

  ghost predicate BindersNamed(c: Config, binders: map<nat, Binder>) {
    forall id | id in binders :: WellNamed(c, binders[id].info.key)
  }

  ghost predicate SyncNamed(c: Config, sync: map<Key, SyncPoint>) {
    forall k | k in sync && sync[k].AtTimer? && sync[k].mem.Some? ::
      WellNamed(c, sync[k].mem.value.key) && sync[k].mem.value.key.name == k.name
  }

  ghost predicate ExposingNamed(c: Config, exposing: multiset<Key>) {
    forall k | k in exposing :: WellNamed(c, k)
  }

  /** Managed names belong to one namespace, wherever they are in flight. */
  ghost predicate NamesInv(c: Config, s: State) {
    && PodsNamed(c, s.api) && PodsNamed(c, s.store) && WatchNamed(c, s.watch) && NoticesNamed(c, s.notices)
    && CacheNamed(c, s.cache) && BindersNamed(c, s.binders) && SyncNamed(c, s.sync) && ExposingNamed(c, s.exposing)
  }

  /** What every part that carries names keeps, when the API server emits one more event. */
  lemma NamesEmit(c: Config, s: State, s': State, e: Change)
    requires NamesInv(c, s) && (e.pod.Some? && e.pod.value.managed ==> WellNamed(c, e.key))
    requires s'.api == Apply(s.api, e) && s'.watch == s.watch + [e]
    requires s'.store == s.store && s'.notices == s.notices && s'.cache == s.cache && s'.binders == s.binders
    requires SyncNamed(c, s'.sync) && ExposingNamed(c, s'.exposing)
    ensures NamesInv(c, s')
  {
  }

  lemma NamesWorld(c: Config, s: State, l: WorldAct)
    requires WorldEnabled(s, l) && NamedLabel(c, World(l)) && NamesInv(c, s)
    ensures NamesInv(c, DoWorld(s, l))
  {
    var s' := DoWorld(s, l);
    match l
    case Tick(_) =>
    case ApiCreate(k, pod) => NamesEmit(c, s, s', Change(k, Some(pod)));
    case ApiUpdate(k, pod) => NamesEmit(c, s, s', Change(k, Some(pod)));
    case ApiDelete(k) => NamesEmit(c, s, s', Change(k, None));
    case ExposeTry(k, err) =>
      assert WellNamed(c, k) && ExposingNamed(c, s'.exposing);
      if !err && k !in s.api {
        NamesEmit(c, s, s', Change(k, Some(Exposed)));
      }
  }

  lemma NamesInform(c: Config, s: State, l: InformAct)
    requires InformEnabled(s, l) && NamesInv(c, s)
    ensures NamesInv(c, DoInform(s, l))
  {
  }

  lemma NamesRpc(c: Config, s: State, l: RpcAct)
    requires RpcEnabled(s, l) && NamedLabel(c, Rpc(l)) && NamesInv(c, s)
    ensures NamesInv(c, DoRpc(s, l))
  {
  }

  lemma NamesRead(c: Config, s: State, k: Key, err: bool)
    requires WorkEnabled(s, k, ReadCache(err)) && NamesInv(c, s)
    ensures NamesInv(c, DoWork(c, s, k, ReadCache(err)))
  {
    var s' := DoWork(c, s, k, ReadCache(err));
    assert k.name in s.cache ==> WellNamed(c, s.cache[k.name].key) && s.cache[k.name].key.name == k.name;
    assert SyncNamed(c, s'.sync);
  }

  lemma TimerNamed(c: Config, s: State, k: Key)
    requires WorkEnabled(s, k, ReadTimer) && SyncNamed(c, s.sync) && ExposingNamed(c, s.exposing)
    ensures SyncNamed(c, DoWork(c, s, k, ReadTimer).sync) && ExposingNamed(c, DoWork(c, s, k, ReadTimer).exposing)
  {
    assert s.sync[k].mem.Some? ==> WellNamed(c, s.sync[k].mem.value.key);
  }

  lemma NamesTimer(c: Config, s: State, k: Key)
    requires WorkEnabled(s, k, ReadTimer) && NamesInv(c, s)
    ensures NamesInv(c, DoWork(c, s, k, ReadTimer))
  {
    TimerNamed(c, s, k);
  }

  lemma NamesMark(c: Config, s: State, k: Key, err: bool)
    requires WorkEnabled(s, k, MarkReady(err)) && NamesInv(c, s)
    ensures NamesInv(c, DoWork(c, s, k, MarkReady(err)))
  {
    var s' := DoWork(c, s, k, MarkReady(err));
    assert SyncNamed(c, s'.sync);
    if !err {
      NamesEmit(c, s, s', Change(k, Some(s.api[k].(active := true, ready := true))));
    }
  }

  lemma NamesErase(c: Config, s: State, k: Key, err: bool)
    requires WorkEnabled(s, k, ForceDelete(err)) && NamesInv(c, s)
    ensures NamesInv(c, DoWork(c, s, k, ForceDelete(err)))
  {
    var s' := DoWork(c, s, k, ForceDelete(err));
    assert SyncNamed(c, s'.sync);
    if !err && k in s.api {
      NamesEmit(c, s, s', Change(k, None));
    }
  }

  lemma NamesWork(c: Config, s: State, k: Key, l: WorkAct)
    requires WorkEnabled(s, k, l) && NamesInv(c, s)
    ensures NamesInv(c, DoWork(c, s, k, l))
  {
    match l
    case ReadCache(err) => NamesRead(c, s, k, err);
    case ReadTimer => NamesTimer(c, s, k);
    case MarkReady(err) => NamesMark(c, s, k, err);
    case ForceDelete(err) => NamesErase(c, s, k, err);
    case _ => assert SyncNamed(c, DoWork(c, s, k, l).sync);
  }

  // ----- every action

  ghost predicate Basic(c: Config, s: State) {
    NamesInv(c, s) && Consistent(s)
  }

  lemma BasicStep(c: Config, s: State, l: Label)
    requires Enabled(s, l) && NamedLabel(c, l) && Basic(c, s)
    ensures Basic(c, Do(c, s, l))
  {
    match l
    case World(a) => NamesWorld(c, s, a); ConsistentWorld(s, a);
    case Inform(a) => NamesInform(c, s, a); ConsistentInform(s, a);
    case Rpc(a) => NamesRpc(c, s, a); ConsistentRpc(s, a);
    case Work(k, a) => NamesWork(c, s, k, a); ConsistentWork(c, s, k, a);
  }
}
