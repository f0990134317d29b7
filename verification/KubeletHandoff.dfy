/**
  The hand-off from the in-memory cache to the informer loses nothing, although SyncPod looks
  into the two of them in separate steps.
*/
module KubeletHandoff {
  import opened Wrappers
  import opened Kubelet
  import opened KubeletNames

  // ----- the invariant

  /** A bound pod whose cache entry has been dropped. */
  predicate Evicted(s: State, k: Key) {
    k in s.accepted && k.name !in s.cache
  }

  /** No entry is dropped while the store has no object of the key. */
  predicate NoGap(s: State, k: Key) {
    !DropsInGap(DropPending(s.notices, k) || Evicted(s, k), s.store, s.watch, k)
  }

  /** Between the two lookups: whoever drops the cache entry has made the key dirty before. */
  predicate BetweenInv(s: State, k: Key) {
    At(s, k, MemLookup) ==>
      && (Evicted(s, k) ==> k in s.dirty)
      && (k !in s.dirty ==> !DropFirst(s.notices, s.midNotice, k))
  }

  /** What holds of a key that was not deleted since its latest bind. */
  ghost predicate HandoffInv(c: Config, s: State, k: Key) {
    && (s.midNotice ==> s.notices != [])
    && (k in s.accepted ==> WellNamed(c, k))
    && (k !in s.gone ==> NoGap(s, k) && BetweenInv(s, k))
  }

  ghost predicate Inv(c: Config, s: State, k: Key) {
    Basic(c, s) && HandoffInv(c, s, k)
  }

  // ----- gaps

  lemma {:induction false} GapMonotone(dropped: bool, dropped': bool, store: map<Key, ApiPod>, watch: seq<Change>, k: Key)
    requires DropsInGap(dropped, store, watch, k) && (dropped ==> dropped')
    ensures DropsInGap(dropped', store, watch, k)
    decreases |watch|
  {
    if !(dropped && k !in store) {
      var told := DropPending(Told(store, watch[0]), k);
      GapMonotone(dropped || told, dropped' || told, Apply(store, watch[0]), watch[1..], k);
    }
  }

  /** An event that is no deletion of the key opens no gap. */
  lemma {:induction false} GapAppend(dropped: bool, store: map<Key, ApiPod>, watch: seq<Change>, e: Change, k: Key)
    requires DropsInGap(dropped, store, watch + [e], k) && (e.key == k ==> e.pod.Some?)
    ensures DropsInGap(dropped, store, watch, k)
    decreases |watch|
  {
    if watch == [] {
      assert (watch + [e])[0] == e && (watch + [e])[1..] == [];
    } else if !(dropped && k !in store) {
      assert (watch + [e])[0] == watch[0] && (watch + [e])[1..] == watch[1..] + [e];
      GapAppend(dropped || DropPending(Told(store, watch[0]), k), Apply(store, watch[0]), watch[1..], e, k);
    }
  }

  // ----- the API server

  /** The API server emits an event that is no deletion of the key. */
  lemma HandoffEmit(c: Config, s: State, s': State, e: Change, k: Key)
    requires HandoffInv(c, s, k) && (e.key == k ==> e.pod.Some?) && s'.watch == s.watch + [e]
    requires s'.store == s.store && s'.notices == s.notices && s'.midNotice == s.midNotice && s'.cache == s.cache
    requires s'.accepted == s.accepted && s'.dirty == s.dirty && (k !in s'.gone ==> k !in s.gone)
    requires At(s', k, MemLookup) ==> At(s, k, MemLookup)
    ensures HandoffInv(c, s', k)
  {
    if k !in s'.gone && !NoGap(s', k) {
      GapAppend(DropPending(s.notices, k) || Evicted(s, k), s.store, s.watch, e, k);
    }
  }

  /** Nothing about the hand-off changes, but the key may become dirty. */
  lemma HandoffSame(c: Config, s: State, s': State, k: Key)
    requires HandoffInv(c, s, k) && s'.watch == s.watch
    requires s'.store == s.store && s'.notices == s.notices && s'.midNotice == s.midNotice && s'.cache == s.cache
    requires s'.accepted == s.accepted && (k in s.dirty ==> k in s'.dirty) && (k !in s'.gone ==> k !in s.gone)
    requires At(s', k, MemLookup) ==> At(s, k, MemLookup)
    ensures HandoffInv(c, s', k)
  {
  }

  lemma HandoffWorld(c: Config, s: State, l: WorldAct, k: Key)
    requires WorldEnabled(s, l) && HandoffInv(c, s, k)
    ensures HandoffInv(c, DoWorld(s, l), k)
  {
    var s' := DoWorld(s, l);
    match l
    case Tick(_) =>
    case ApiCreate(j, pod) => HandoffEmit(c, s, s', Change(j, Some(pod)), k);
    case ApiUpdate(j, pod) => HandoffEmit(c, s, s', Change(j, Some(pod)), k);
    case ApiDelete(j) =>
      if j != k {
        HandoffEmit(c, s, s', Change(j, None), k);
      }
    case ExposeTry(j, err) =>
      if !err && j !in s.api {
        HandoffEmit(c, s, s', Change(j, Some(Exposed)), k);
      }
  }

  // ----- the informer and the handler

  lemma PendingAfter(notices: seq<Notice>, more: seq<Notice>, k: Key)
    ensures DropPending(notices + more, k) <==> DropPending(notices, k) || DropPending(more, k)
  {
    forall i | 0 <= i < |notices| ensures (notices + more)[i] == notices[i] {}
    forall i | 0 <= i < |more| ensures (notices + more)[|notices| + i] == more[i] {}
  }

  /** A later call that enqueues the key, or does not drop it, is not a first drop. */
  lemma DropFirstAfter(notices: seq<Notice>, mid: bool, n: Notice, k: Key)
    requires (mid ==> notices != []) && DropFirst(notices + [n], mid, k) && (n.key == k ==> !n.isDelete || !n.pod.managed)
    ensures DropFirst(notices, mid, k)
  {
    var all := notices + [n];
    var i :| 0 <= i < |all| && all[i].key == k && all[i].pod.managed && !AddWithin(all, mid, k, i);
    assert all[|notices|] == n;
    assert i < |notices|;
    assert all[i] == notices[i];
    forall j | (if mid then 1 else 0) <= j < |notices| && j <= i ensures notices[j].key == k ==> notices[j].isDelete {
      assert all[j] == notices[j];
    }
  }

  lemma GapDeliver(s: State, k: Key)
    requires InformEnabled(s, Deliver) && NoGap(s, k)
    ensures NoGap(DoInform(s, Deliver), k)
  {
    PendingAfter(s.notices, Told(s.store, s.watch[0]), k);
  }

  lemma BetweenDeliver(s: State, k: Key)
    requires InformEnabled(s, Deliver) && (s.midNotice ==> s.notices != []) && NoGap(s, k) && BetweenInv(s, k)
    ensures BetweenInv(DoInform(s, Deliver), k)
  {
    var s' := DoInform(s, Deliver);
    var told := Told(s.store, s.watch[0]);
    assert told == [] ==> s'.notices == s.notices;
    if told != [] && DropFirst(s'.notices, s.midNotice, k) {
      GapDeliver(s, k);
      assert DropPending(told, k) && told[0].isDelete ==> k !in s'.store;
      PendingAfter(s.notices, told, k);
      assert told == [told[0]];
      if told[0].key == k && told[0].pod.managed {
        assert told[0] in told && DropPending(told, k);
      }
      DropFirstAfter(s.notices, s.midNotice, told[0], k);
    }
  }

  lemma HandoffDeliver(c: Config, s: State, k: Key)
    requires InformEnabled(s, Deliver) && HandoffInv(c, s, k)
    ensures HandoffInv(c, DoInform(s, Deliver), k)
  {
    if k !in s.gone {
      GapDeliver(s, k);
      BetweenDeliver(s, k);
    }
  }

  lemma HandoffFirst(c: Config, s: State, k: Key)
    requires InformEnabled(s, HandleFirst) && HandoffInv(c, s, k)
    ensures HandoffInv(c, DoInform(s, HandleFirst), k)
  {
    var n := s.notices[0];
    if DropFirst(s.notices, true, k) && (n.key != k || n.isDelete) {
      var i :| 0 <= i < |s.notices| && s.notices[i].key == k && s.notices[i].pod.managed && !AddWithin(s.notices, true, k, i);
      assert !AddWithin(s.notices, false, k, i);
    }
  }

  /** The call at the front is over. */
  lemma DropFirstFinish(notices: seq<Notice>, k: Key)
    requires notices != [] && DropFirst(notices[1..], false, k)
    ensures DropFirst(notices, true, k)
  {
    var rest := notices[1..];
    var i :| 0 <= i < |rest| && rest[i].key == k && rest[i].pod.managed && !AddWithin(rest, false, k, i);
    assert notices[i + 1] == rest[i];
    forall j | 1 <= j < |notices| && j <= i + 1 ensures notices[j].key == k ==> notices[j].isDelete {
      assert rest[j - 1] == notices[j];
    }
  }

  lemma PendingRest(notices: seq<Notice>, k: Key)
    requires notices != []
    ensures DropPending(notices[1..], k) ==> DropPending(notices, k)
  {
    if DropPending(notices[1..], k) {
      var i :| 0 <= i < |notices[1..]| && notices[1..][i].key == k && notices[1..][i].pod.managed;
      assert notices[i + 1] == notices[1..][i];
    }
  }

  /** The handler drops an entry: of this key, or of another name. */
  lemma GapSecond(c: Config, s: State, k: Key)
    requires InformEnabled(s, HandleSecond) && NoticesNamed(c, s.notices) && (k in s.accepted ==> WellNamed(c, k))
    requires NoGap(s, k)
    ensures NoGap(DoInform(s, HandleSecond), k)
  {
    var s' := DoInform(s, HandleSecond);
    PendingRest(s.notices, k);
    var n := s.notices[0];
    assert Evicted(s', k) && !Evicted(s, k) ==> n.key == k && n.pod.managed;
    if !NoGap(s', k) {
      GapMonotone(DropPending(s'.notices, k) || Evicted(s', k), DropPending(s.notices, k) || Evicted(s, k), s.store, s.watch, k);
    }
  }

  lemma BetweenSecond(c: Config, s: State, k: Key)
    requires InformEnabled(s, HandleSecond) && NoticesNamed(c, s.notices) && (k in s.accepted ==> WellNamed(c, k))
    requires BetweenInv(s, k)
    ensures BetweenInv(DoInform(s, HandleSecond), k)
  {
    var s' := DoInform(s, HandleSecond);
    var n := s.notices[0];
    assert Evicted(s', k) && !Evicted(s, k) ==> n.key == k && n.pod.managed;
    assert n.key == k && n.pod.managed ==> !AddWithin(s.notices, true, k, 0);
    if DropFirst(s'.notices, false, k) {
      DropFirstFinish(s.notices, k);
    }
  }

  lemma HandoffSecond(c: Config, s: State, k: Key)
    requires InformEnabled(s, HandleSecond) && NoticesNamed(c, s.notices) && HandoffInv(c, s, k)
    ensures HandoffInv(c, DoInform(s, HandleSecond), k)
  {
    if k !in s.gone {
      GapSecond(c, s, k);
      BetweenSecond(c, s, k);
    }
  }

  lemma HandoffInform(c: Config, s: State, l: InformAct, k: Key)
    requires InformEnabled(s, l) && NoticesNamed(c, s.notices) && HandoffInv(c, s, k)
    ensures HandoffInv(c, DoInform(s, l), k)
  {
    match l
    case Deliver => HandoffDeliver(c, s, k);
    case HandleFirst => HandoffFirst(c, s, k);
    case HandleSecond => HandoffSecond(c, s, k);
  }

  // ----- binds

  /** A bind of the key succeeds.  It was not deleted since the last one, or is in step. */
  lemma HandoffInsertOwn(c: Config, s: State, id: nat, k: Key)
    requires RpcEnabled(s, BindInsert(id)) && BoundKey(s, id) == k && WellNamed(c, k)
    requires k in s.gone ==> InStep(s, k)
    requires HandoffInv(c, s, k)
    ensures HandoffInv(c, DoRpc(s, BindInsert(id)), k)
  {
    var s' := DoRpc(s, BindInsert(id));
    assert !Evicted(s', k);
    if !NoGap(s', k) {
      GapMonotone(DropPending(s.notices, k), DropPending(s.notices, k) || Evicted(s, k), s.store, s.watch, k);
    }
  }

  lemma HandoffInsertOther(c: Config, s: State, id: nat, k: Key)
    requires RpcEnabled(s, BindInsert(id)) && BoundKey(s, id) != k && WellNamed(c, BoundKey(s, id))
    requires HandoffInv(c, s, k)
    ensures HandoffInv(c, DoRpc(s, BindInsert(id)), k)
  {
    var s' := DoRpc(s, BindInsert(id));
    assert k in s.accepted ==> BoundKey(s, id).name != k.name;
    assert Evicted(s', k) == Evicted(s, k);
  }

  lemma HandoffQuiet(c: Config, s: State, l: RpcAct, k: Key)
    requires RpcEnabled(s, l) && !l.BindInsert? && HandoffInv(c, s, k)
    ensures HandoffInv(c, DoRpc(s, l), k)
  {
    HandoffSame(c, s, DoRpc(s, l), k);
  }

  lemma HandoffRpc(c: Config, s: State, l: RpcAct, k: Key)
    requires RpcEnabled(s, l) && Allowed(InStepBinds, c, s, Rpc(l)) && BindersNamed(c, s.binders) && HandoffInv(c, s, k)
    ensures HandoffInv(c, DoRpc(s, l), k)
  {
    if !l.BindInsert? {
      HandoffQuiet(c, s, l, k);
    } else if BoundKey(s, l.id) == k {
      HandoffInsertOwn(c, s, l.id, k);
    } else {
      HandoffInsertOther(c, s, l.id, k);
    }
  }

  // ----- workers

  lemma HandoffGet(c: Config, s: State, k: Key)
    requires WorkEnabled(s, k, Get) && HandoffInv(c, s, k)
    ensures HandoffInv(c, DoWork(c, s, k, Get), k)
  {
  }

  /** The first lookup misses: then the entry is in the cache, and nothing is going to drop it. */
  lemma HandoffLook(c: Config, s: State, k: Key)
    requires WorkEnabled(s, k, ReadStore) && HandoffInv(c, s, k)
    ensures HandoffInv(c, DoWork(c, s, k, ReadStore), k)
  {
  }

  lemma HandoffErase(c: Config, s: State, j: Key, err: bool, k: Key)
    requires WorkEnabled(s, j, ForceDelete(err)) && HandoffInv(c, s, k)
    ensures HandoffInv(c, DoWork(c, s, j, ForceDelete(err)), k)
  {
    var s' := DoWork(c, s, j, ForceDelete(err));
    if !err && j in s.api && j != k {
      HandoffEmit(c, s, s', Change(j, None), k);
    }
  }

  lemma HandoffMark(c: Config, s: State, j: Key, err: bool, k: Key)
    requires WorkEnabled(s, j, MarkReady(err)) && HandoffInv(c, s, k)
    ensures HandoffInv(c, DoWork(c, s, j, MarkReady(err)), k)
  {
    if !err {
      HandoffEmit(c, s, DoWork(c, s, j, MarkReady(err)), Change(j, Some(s.api[j].(active := true, ready := true))), k);
    }
  }

  lemma HandoffQueue(c: Config, s: State, j: Key, l: WorkAct, k: Key)
    requires WorkEnabled(s, j, l) && (l.Fire? || l.Requeue? || l.Done? || (l.Get? && j != k)) && HandoffInv(c, s, k)
    ensures HandoffInv(c, DoWork(c, s, j, l), k)
  {
    HandoffSame(c, s, DoWork(c, s, j, l), k);
  }

  lemma HandoffMove(c: Config, s: State, j: Key, l: WorkAct, k: Key)
    requires WorkEnabled(s, j, l) && HandoffInv(c, s, k)
    requires l.ReadCache? || l.CheckApi? || l.DropTimer? || l.ReadTimer? || l.CheckWait? || (l.ReadStore? && j != k)
    ensures HandoffInv(c, DoWork(c, s, j, l), k)
  {
    HandoffSame(c, s, DoWork(c, s, j, l), k);
  }

  lemma HandoffWork(c: Config, s: State, j: Key, l: WorkAct, k: Key)
    requires WorkEnabled(s, j, l) && HandoffInv(c, s, k)
    ensures HandoffInv(c, DoWork(c, s, j, l), k)
  {
    if j == k && l == Get {
      HandoffGet(c, s, k);
    } else if j == k && l == ReadStore {
      HandoffLook(c, s, k);
    } else if l.ForceDelete? {
      HandoffErase(c, s, j, l.err, k);
    } else if l.MarkReady? {
      HandoffMark(c, s, j, l.err, k);
    } else if l.Fire? || l.Requeue? || l.Done? || l.Get? {
      HandoffQueue(c, s, j, l, k);
    } else {
      HandoffMove(c, s, j, l, k);
    }
  }

  // ----- every action

  lemma StepKept(c: Config, s: State, l: Label, k: Key)
    requires Enabled(s, l) && Allowed(InStepBinds, c, s, l) && Inv(c, s, k)
    ensures Inv(c, Do(c, s, l), k)
  {
    BasicStep(c, s, l);
    match l
    case World(a) => HandoffWorld(c, s, a, k);
    case Inform(a) => HandoffInform(c, s, a, k);
    case Rpc(a) => HandoffRpc(c, s, a, k);
    case Work(j, a) => HandoffWork(c, s, j, a, k);
  }

  lemma {:induction false} RunKept(c: Config, s: State, run: seq<Label>, t: State, k: Key)
    requires Leads(InStepBinds, c, s, run, t) && Inv(c, s, k)
    ensures Inv(c, t, k)
    decreases |run|
  {
    if run != [] {
      Tail(InStepBinds, c, s, run, t);
      StepKept(c, s, run[0], k);
      RunKept(c, Do(c, s, run[0]), run[1..], t, k);
    }
  }

  /** SyncPod has missed the key in the informer store and is about to miss it in the cache. */
  predicate BothMiss(s: State, k: Key) {
    At(s, k, MemLookup) && k.name !in s.cache
  }

  /** The hand-off never loses a pod: if both lookups miss a pod that is bound and undeleted
      since, the handler has already made the key dirty again, and the pod is in the store.  First
      and redelivered binds need no assumption; binds of a deleted key have to be in step. */
  lemma {:induction false} HandoffNeverLoses(c: Config, run: seq<Label>, s: State, k: Key)
    requires Leads(InStepBinds, c, Init, run, s)
    ensures BothMiss(s, k) && k in s.accepted && k !in s.gone ==> k in s.dirty && k in s.store
  {
    RunKept(c, Init, run, s, k);
  }
}
