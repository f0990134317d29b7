/**
  No pod gets stuck.

  The invariant is stated for one arbitrary key at a time.  It follows a pod through its whole
  life: bound and cached, exposed, seen by the informer, deleted, and bound again.
*/
module KubeletNoStuck {
  import opened Wrappers
  import opened Kubelet
  import opened KubeletNames

  /** The key has no API object, and none was deleted since its latest bind. */
  predicate Unexposed(s: State, k: Key) {
    k !in s.api && k !in s.gone
  }

  /** A bound pod that has not reached the API server yet. */
  predicate BoundOnly(c: Config, s: State, k: Key) {
    k in s.accepted && Unexposed(s, k) && c.template(k) && c.responsible(k)
  }

  predicate NotReadyYet(c: Config, s: State, k: Key) {
    BoundOnly(c, s, k) || (k in s.api && Obliged(c, k, s.api[k]))
  }

  /** Something is going to act on the key again. */
  predicate Continues(s: State, k: Key) {
    || BindPending(s.binders, k) || k in s.dirty || k in s.delayed || (k in s.sync && s.sync[k] != Finished)
    || k in s.exposing || Watched(s.watch, k) || Noticed(s.notices, k)
  }

  predicate Stuck(c: Config, s: State, k: Key) {
    NotReadyYet(c, s, k) && !Continues(s, k)
  }

  // ----- the invariant

  /** Points from which a worker certainly follows an unready API pod to the end. */
  predicate CarriesApi(c: Config, k: Key, p: SyncPoint) {
    || p == Start || p == Failed || p.Marking? || p == AtTimer(None)
    || (p.HaveApi? && Obliged(c, k, p.pod)) || (p.Waiting? && !p.inMem)
  }

  /** An unready pod of the informer store is followed up. */
  ghost predicate ApiInv(c: Config, s: State, k: Key) {
    && (s.midNotice ==> s.notices != [])
    && (k in s.store && Obliged(c, k, s.store[k]) ==>
          || AddPending(s.notices, s.midNotice, k) || k in s.dirty || k in s.delayed || Watched(s.watch, k)
          || (k in s.sync && CarriesApi(c, k, s.sync[k])))
  }

  /** What holds of a key before its first bind and its first API object. */
  predicate Untouched(c: Config, s: State, k: Key) {
    Clean(c, s, k) && k !in s.timers && k.name !in s.cache && !(k in s.sync && s.sync[k].AtTimer?)
  }

  /** A bound pod that is not in the API server is on its way to exposure. */
  ghost predicate BoundInv(c: Config, s: State, k: Key) {
    && (k in s.accepted ==> WellNamed(c, k))
    && (BoundOnly(c, s, k) ==> Exposes(s, k) || (Clean(c, s, k) && k.name in s.cache && Followed(s, k)))
    && (k !in s.accepted && Unexposed(s, k) && WellNamed(c, k) ==> Untouched(c, s, k))
  }

  ghost predicate Inv(c: Config, s: State, k: Key) {
    Basic(c, s) && ApiInv(c, s, k) && BoundInv(c, s, k)
  }

  // ----- unready API pods

  lemma {:induction false} AddPendingAfter(notices: seq<Notice>, mid: bool, more: seq<Notice>, k: Key)
    requires mid ==> notices != []
    ensures AddPending(notices, mid, k) ==> AddPending(notices + more, mid, k)
    ensures more != [] && more[0].key == k && !more[0].isDelete ==> AddPending(notices + more, mid, k)
  {
    if more != [] {
      assert (notices + more)[|notices|] == more[0];
    }
    forall i | 0 <= i < |notices| ensures (notices + more)[i] == notices[i] {}
  }

  lemma {:induction false} AddPendingFinish(notices: seq<Notice>, k: Key)
    requires notices != [] && AddPending(notices, true, k)
    ensures AddPending(notices[1..], false, k)
  {
    var i :| 1 <= i < |notices| && notices[i].key == k && !notices[i].isDelete;
    assert notices[1..][i - 1] == notices[i];
  }

  /** An unready pod stays followed up when the store and its handler calls do not change, the
      undelivered events only grow, and the key is not taken out of queue or worker. */
  lemma ApiSame(c: Config, s: State, s': State, k: Key)
    requires ApiInv(c, s, k) && s'.store == s.store && s'.notices == s.notices && s'.midNotice == s.midNotice
    requires Watched(s.watch, k) ==> Watched(s'.watch, k)
    requires k in s.dirty || k in s.delayed ==> k in s'.dirty || k in s'.delayed
    requires k in s.sync ==> k in s'.sync && s'.sync[k] == s.sync[k]
    ensures ApiInv(c, s', k)
  {
  }

  lemma ApiWorld(c: Config, s: State, l: WorldAct, k: Key)
    requires WorldEnabled(s, l) && ApiInv(c, s, k)
    ensures ApiInv(c, DoWorld(s, l), k)
  {
    match l {
      case ApiCreate(j, pod) => WatchedAfter(s.watch, Change(j, Some(pod)), k);
      case ApiUpdate(j, pod) => WatchedAfter(s.watch, Change(j, Some(pod)), k);
      case ApiDelete(j) => WatchedAfter(s.watch, Change(j, None), k);
      case ExposeTry(j, _) => WatchedAfter(s.watch, Change(j, Some(Exposed)), k);
      case Tick(_) =>
    }
    ApiSame(c, s, DoWorld(s, l), k);
  }

  lemma ApiInform(c: Config, s: State, l: InformAct, k: Key)
    requires InformEnabled(s, l) && ApiInv(c, s, k)
    ensures ApiInv(c, DoInform(s, l), k)
  {
    match l
    case Deliver =>
      var e := s.watch[0];
      assert s.watch == [e] + s.watch[1..];
      AddPendingAfter(s.notices, s.midNotice, Told(s.store, e), k);
    case HandleFirst =>
    case HandleSecond =>
      if AddPending(s.notices, true, k) {
        AddPendingFinish(s.notices, k);
      }
  }

  lemma RpcFrame(s: State, l: RpcAct)
    requires RpcEnabled(s, l)
    ensures var t := DoRpc(s, l);
      && t.store == s.store && t.watch == s.watch && t.notices == s.notices && t.midNotice == s.midNotice
      && t.delayed == s.delayed && t.sync == s.sync && s.dirty <= t.dirty
  {
  }

  lemma ApiRpc(c: Config, s: State, l: RpcAct, k: Key)
    requires RpcEnabled(s, l) && ApiInv(c, s, k)
    ensures ApiInv(c, DoRpc(s, l), k)
  {
    RpcFrame(s, l);
    ApiSame(c, s, DoRpc(s, l), k);
  }

  lemma ApiEmitOther(c: Config, s: State, j: Key, l: WorkAct, k: Key)
    requires WorkEnabled(s, j, l) && (l.ForceDelete? || l.MarkReady?) && ApiInv(c, s, k) && j != k
    ensures ApiInv(c, DoWork(c, s, j, l), k)
  {
    if l.ForceDelete? {
      WatchedAfter(s.watch, Change(j, None), k);
    } else if !l.err {
      WatchedAfter(s.watch, Change(j, Some(s.api[j].(active := true, ready := true))), k);
    }
    ApiSame(c, s, DoWork(c, s, j, l), k);
  }

  lemma ApiWorkOther(c: Config, s: State, j: Key, l: WorkAct, k: Key)
    requires WorkEnabled(s, j, l) && ApiInv(c, s, k) && j != k
    ensures ApiInv(c, DoWork(c, s, j, l), k)
  {
    if l.ForceDelete? || l.MarkReady? {
      ApiEmitOther(c, s, j, l, k);
    } else {
      ApiSame(c, s, DoWork(c, s, j, l), k);
    }
  }

  lemma ApiMark(c: Config, s: State, k: Key, err: bool)
    requires WorkEnabled(s, k, MarkReady(err)) && ApiInv(c, s, k)
    ensures ApiInv(c, DoWork(c, s, k, MarkReady(err)), k)
  {
    if !err {
      WatchedAfter(s.watch, Change(k, Some(s.api[k].(active := true, ready := true))), k);
    }
  }

  lemma ApiErase(c: Config, s: State, k: Key, err: bool)
    requires WorkEnabled(s, k, ForceDelete(err)) && ApiInv(c, s, k)
    ensures ApiInv(c, DoWork(c, s, k, ForceDelete(err)), k)
  {
    WatchedAfter(s.watch, Change(k, None), k);
  }

  lemma ApiWorkOwn(c: Config, s: State, l: WorkAct, k: Key)
    requires WorkEnabled(s, k, l) && ApiInv(c, s, k)
    ensures ApiInv(c, DoWork(c, s, k, l), k)
  {
    match l
    case MarkReady(err) => ApiMark(c, s, k, err);
    case ForceDelete(err) => ApiErase(c, s, k, err);
    case _ =>
  }

  // ----- bound pods

  /** A bound pod stays on its way when nothing about it changes but for further follow-ups. */
  lemma BoundSame(c: Config, s: State, s': State, k: Key)
    requires BoundInv(c, s, k)
    requires (k in s'.accepted <==> k in s.accepted) && (Unexposed(s', k) ==> Unexposed(s, k))
    requires Unexposed(s', k) ==>
      && (k in s.exposing ==> k in s'.exposing) && (k in s'.store ==> k in s.store)
      && (Watched(s'.watch, k) ==> Watched(s.watch, k)) && (DropPending(s'.notices, k) ==> DropPending(s.notices, k))
      && (k in s.sync <==> k in s'.sync) && (k in s.sync ==> s'.sync[k] == s.sync[k])
      && (k in s'.timers ==> k in s.timers) && (Followed(s, k) ==> Followed(s', k))
      && (k in s'.timers && Rescued(s.notices, s.midNotice, k) ==> Rescued(s'.notices, s'.midNotice, k))
      && (k.name in s'.cache <==> k.name in s.cache)
    ensures BoundInv(c, s', k)
  {
  }

  /** The API server emits an event: of another key, or one that ends the wait for exposure. */
  lemma BoundEmit(c: Config, s: State, s': State, e: Change, k: Key)
    requires BoundInv(c, s, k) && s'.watch == s.watch + [e] && (e.key == k ==> !Unexposed(s', k))
    requires s' == s.(api := s'.api, gone := s'.gone, watch := s'.watch, exposing := s'.exposing, history := s'.history)
    requires Unexposed(s', k) ==> Unexposed(s, k) && (k in s.exposing ==> k in s'.exposing)
    ensures BoundInv(c, s', k)
  {
    WatchedAfter(s.watch, e, k);
    BoundSame(c, s, s', k);
  }

  lemma BoundExpose(c: Config, s: State, j: Key, err: bool, k: Key)
    requires WorldEnabled(s, ExposeTry(j, err)) && BoundInv(c, s, k)
    ensures BoundInv(c, DoWorld(s, ExposeTry(j, err)), k)
  {
    var s' := DoWorld(s, ExposeTry(j, err));
    if !err && j !in s.api {
      BoundEmit(c, s, s', Change(j, Some(Exposed)), k);
    } else {
      BoundSame(c, s, s', k);
    }
  }

  lemma BoundWorld(c: Config, s: State, l: WorldAct, k: Key)
    requires WorldEnabled(s, l) && BoundInv(c, s, k)
    ensures BoundInv(c, DoWorld(s, l), k)
  {
    match l
    case ApiCreate(j, pod) => BoundEmit(c, s, DoWorld(s, l), Change(j, Some(pod)), k);
    case ApiUpdate(j, pod) => BoundEmit(c, s, DoWorld(s, l), Change(j, Some(pod)), k);
    case ApiDelete(j) => BoundEmit(c, s, DoWorld(s, l), Change(j, None), k);
    case ExposeTry(j, err) => BoundExpose(c, s, j, err, k);
    case Tick(_) => BoundSame(c, s, DoWorld(s, l), k);
  }

  lemma RescuedAfter(notices: seq<Notice>, mid: bool, more: seq<Notice>, k: Key)
    requires Rescued(notices, mid, k)
    ensures Rescued(notices + more, mid, k)
  {
    var i, j :| (if mid then 1 else 0) <= i < j < |notices|
      && notices[i].key == k && notices[i].isDelete && notices[j].key == k && !notices[j].isDelete;
    assert (notices + more)[i] == notices[i] && (notices + more)[j] == notices[j];
  }

  lemma RescuedFinish(notices: seq<Notice>, k: Key)
    requires notices != [] && Rescued(notices, true, k)
    ensures Rescued(notices[1..], false, k)
  {
    var i, j :| 1 <= i < j < |notices|
      && notices[i].key == k && notices[i].isDelete && notices[j].key == k && !notices[j].isDelete;
    assert notices[1..][i - 1] == notices[i] && notices[1..][j - 1] == notices[j];
  }

  lemma DeliverClean(c: Config, s: State, k: Key)
    requires InformEnabled(s, Deliver) && Clean(c, s, k)
    ensures Clean(c, DoInform(s, Deliver), k)
  {
    var s' := DoInform(s, Deliver);
    assert s.watch[0].key != k;
    if Rescued(s.notices, s.midNotice, k) {
      RescuedAfter(s.notices, s.midNotice, Told(s.store, s.watch[0]), k);
    }
    forall i | 0 <= i < |s'.watch| ensures s'.watch[i].key != k {
      assert s'.watch[i] == s.watch[i + 1];
    }
    forall i | 0 <= i < |s'.notices| ensures !(s'.notices[i].key == k && s'.notices[i].pod.managed) {
      assert i < |s.notices| ==> s'.notices[i] == s.notices[i];
    }
  }

  lemma DeliverFollowed(s: State, k: Key)
    requires InformEnabled(s, Deliver) && (s.midNotice ==> s.notices != []) && Followed(s, k)
    ensures Followed(DoInform(s, Deliver), k)
  {
    AddPendingAfter(s.notices, s.midNotice, Told(s.store, s.watch[0]), k);
  }

  /** A bound pod stays on its way when it stays clean and followed. */
  lemma BoundKept(c: Config, s: State, s': State, k: Key)
    requires BoundInv(c, s, k) && (Clean(c, s, k) ==> Clean(c, s', k)) && (Followed(s, k) ==> Followed(s', k))
    requires s'.accepted == s.accepted && s'.api == s.api && s'.gone == s.gone && s'.exposing == s.exposing
    requires s'.sync == s.sync && s'.timers == s.timers && s'.cache == s.cache
    ensures BoundInv(c, s', k)
  {
  }

  lemma DeliverKeeps(c: Config, s: State, s': State, k: Key)
    requires InformEnabled(s, Deliver) && (s.midNotice ==> s.notices != []) && s' == DoInform(s, Deliver)
    ensures (Clean(c, s, k) ==> Clean(c, s', k)) && (Followed(s, k) ==> Followed(s', k))
  {
    if Followed(s, k) {
      DeliverFollowed(s, k);
    }
    if Clean(c, s, k) {
      DeliverClean(c, s, k);
    }
  }

  lemma BoundDeliver(c: Config, s: State, k: Key)
    requires InformEnabled(s, Deliver) && (s.midNotice ==> s.notices != []) && BoundInv(c, s, k)
    ensures BoundInv(c, DoInform(s, Deliver), k)
  {
    var s' := DoInform(s, Deliver);
    DeliverKeeps(c, s, s', k);
    BoundKept(c, s, s', k);
  }

  lemma BoundFirst(c: Config, s: State, k: Key)
    requires InformEnabled(s, HandleFirst) && BoundInv(c, s, k)
    ensures BoundInv(c, DoInform(s, HandleFirst), k)
  {
    BoundSame(c, s, DoInform(s, HandleFirst), k);
  }

  /** The handler drops a cached name only for a key with a pending drop. */
  lemma SecondClean(c: Config, s: State, k: Key)
    requires InformEnabled(s, HandleSecond) && NoticesNamed(c, s.notices) && WellNamed(c, k) && Clean(c, s, k)
    ensures Clean(c, DoInform(s, HandleSecond), k)
    ensures k.name in s.cache ==> k.name in DoInform(s, HandleSecond).cache
  {
    var s' := DoInform(s, HandleSecond);
    var n := s.notices[0];
    assert n.pod.managed ==> n.key != k && n.key.name != k.name;
    forall i | 0 <= i < |s'.notices| ensures !(s'.notices[i].key == k && s'.notices[i].pod.managed) {
      assert s'.notices[i] == s.notices[i + 1];
    }
    if Rescued(s.notices, true, k) {
      RescuedFinish(s.notices, k);
    }
  }

  lemma BoundSecond(c: Config, s: State, k: Key)
    requires InformEnabled(s, HandleSecond) && NoticesNamed(c, s.notices) && BoundInv(c, s, k)
    ensures BoundInv(c, DoInform(s, HandleSecond), k)
  {
    if AddPending(s.notices, true, k) {
      AddPendingFinish(s.notices, k);
    }
    if WellNamed(c, k) && Clean(c, s, k) {
      SecondClean(c, s, k);
    }
  }

  lemma BoundInform(c: Config, s: State, l: InformAct, k: Key)
    requires InformEnabled(s, l) && NoticesNamed(c, s.notices) && (s.midNotice ==> s.notices != []) && BoundInv(c, s, k)
    ensures BoundInv(c, DoInform(s, l), k)
  {
    match l
    case Deliver => BoundDeliver(c, s, k);
    case HandleFirst => BoundFirst(c, s, k);
    case HandleSecond => BoundSecond(c, s, k);
  }

  lemma PendingElsewhere(binders: map<nat, Binder>, binders': map<nat, Binder>, k: Key, id: nat)
    requires BindPending(binders, k) && forall i | i in binders && i != id :: i in binders' && binders'[i] == binders[i]
    ensures BindPending(binders', k) || (id in binders && binders[id].point == Inserted && binders[id].info.key == k)
  {
    var i :| i in binders && binders[i].point == Inserted && binders[i].info.key == k;
    assert i != id ==> binders'[i] == binders[i];
  }

  /** A bind of the key succeeds.  A fresh entry is going to be enqueued. */
  lemma BoundInsertOwn(c: Config, s: State, id: nat, k: Key)
    requires RpcEnabled(s, BindInsert(id)) && s.binders[id].info.key == k && WellNamed(c, k)
    requires k in s.gone && k !in s.api ==> SafeBind(c, s, k)
    requires BoundInv(c, s, k)
    ensures BoundInv(c, DoRpc(s, BindInsert(id)), k)
  {
    var s' := DoRpc(s, BindInsert(id));
    assert s'.binders[id].info.key == k;
    if BindPending(s.binders, k) {
      PendingElsewhere(s.binders, s'.binders, k, id);
    }
  }

  lemma BoundInsertOther(c: Config, s: State, id: nat, k: Key)
    requires RpcEnabled(s, BindInsert(id)) && s.binders[id].info.key != k && WellNamed(c, s.binders[id].info.key)
    requires BoundInv(c, s, k)
    ensures BoundInv(c, DoRpc(s, BindInsert(id)), k)
  {
    var s' := DoRpc(s, BindInsert(id));
    if BindPending(s.binders, k) {
      PendingElsewhere(s.binders, s'.binders, k, id);
    }
    if WellNamed(c, k) {
      assert s.binders[id].info.key.name != k.name;
      BoundSame(c, s, s', k);
    }
  }

  /** Binds and handshakes that do not touch the cache. */
  lemma BoundQuiet(c: Config, s: State, s': State, k: Key, id: nat)
    requires s' == s.(binders := s'.binders, hub := s'.hub, history := s'.history, dirty := s'.dirty) && s.dirty <= s'.dirty
    requires forall i | i in s.binders && i != id :: i in s'.binders && s'.binders[i] == s.binders[i]
    requires id in s.binders && s.binders[id].point == Inserted ==> s.binders[id].info.key in s'.dirty
    requires BoundInv(c, s, k)
    ensures BoundInv(c, s', k)
  {
    if BindPending(s.binders, k) {
      PendingElsewhere(s.binders, s'.binders, k, id);
    }
    BoundSame(c, s, s', k);
  }

  lemma BoundRpc(c: Config, s: State, l: RpcAct, k: Key)
    requires RpcEnabled(s, l) && Allowed(SafeBinds, c, s, Rpc(l)) && BindersNamed(c, s.binders) && BoundInv(c, s, k)
    ensures BoundInv(c, DoRpc(s, l), k)
  {
    match l
    case BindInsert(id) =>
      if s.binders[id].info.key == k {
        BoundInsertOwn(c, s, id, k);
      } else {
        BoundInsertOther(c, s, id, k);
      }
    case BindLock(id, _, _, _) => BoundQuiet(c, s, DoRpc(s, l), k, id);
    case BindEnqueue(id) => BoundQuiet(c, s, DoRpc(s, l), k, id);
    case BindUnlock(id) => BoundQuiet(c, s, DoRpc(s, l), k, id);
    case _ => BoundSame(c, s, DoRpc(s, l), k);
  }

  /** The worker of the key starts the exposure of a bound pod when its ready timer is fresh. */
  lemma BoundTimer(c: Config, s: State, k: Key)
    requires WorkEnabled(s, k, ReadTimer) && SyncNamed(c, s.sync) && BoundInv(c, s, k)
    ensures BoundInv(c, DoWork(c, s, k, ReadTimer), k)
  {
    var mem := s.sync[k].mem;
    assert mem.Some? && WellNamed(c, k) ==> mem.value.key == k;
  }

  lemma BoundRead(c: Config, s: State, k: Key, err: bool)
    requires WorkEnabled(s, k, ReadCache(err)) && CacheNamed(c, s.cache) && BoundInv(c, s, k)
    ensures BoundInv(c, DoWork(c, s, k, ReadCache(err)), k)
  {
    assert k.name in s.cache && WellNamed(c, k) ==> s.cache[k.name].key == k;
  }

  lemma BoundErase(c: Config, s: State, k: Key, err: bool)
    requires WorkEnabled(s, k, ForceDelete(err)) && BoundInv(c, s, k)
    ensures BoundInv(c, DoWork(c, s, k, ForceDelete(err)), k)
  {
  }

  lemma BoundMark(c: Config, s: State, k: Key, err: bool)
    requires WorkEnabled(s, k, MarkReady(err)) && BoundInv(c, s, k)
    ensures BoundInv(c, DoWork(c, s, k, MarkReady(err)), k)
  {
  }

  lemma BoundQueue(c: Config, s: State, l: WorkAct, k: Key)
    requires WorkEnabled(s, k, l) && (l == Fire || l == Get || l == Requeue || l == Done) && BoundInv(c, s, k)
    ensures BoundInv(c, DoWork(c, s, k, l), k)
  {
  }

  lemma BoundMove(c: Config, s: State, l: WorkAct, k: Key)
    requires WorkEnabled(s, k, l) && (l == ReadStore || l.CheckApi?) && BoundInv(c, s, k)
    ensures BoundInv(c, DoWork(c, s, k, l), k)
  {
  }

  lemma BoundFinish(c: Config, s: State, l: WorkAct, k: Key)
    requires WorkEnabled(s, k, l) && (l == DropTimer || l == CheckWait) && BoundInv(c, s, k)
    ensures BoundInv(c, DoWork(c, s, k, l), k)
  {
  }

  lemma BoundWorkOwn(c: Config, s: State, l: WorkAct, k: Key)
    requires WorkEnabled(s, k, l) && NamesInv(c, s) && BoundInv(c, s, k)
    ensures BoundInv(c, DoWork(c, s, k, l), k)
  {
    match l
    case ReadTimer => BoundTimer(c, s, k);
    case ReadCache(err) => BoundRead(c, s, k, err);
    case ForceDelete(err) => BoundErase(c, s, k, err);
    case MarkReady(err) => BoundMark(c, s, k, err);
    case Fire => BoundQueue(c, s, l, k);
    case Get => BoundQueue(c, s, l, k);
    case Requeue => BoundQueue(c, s, l, k);
    case Done => BoundQueue(c, s, l, k);
    case DropTimer => BoundFinish(c, s, l, k);
    case CheckWait => BoundFinish(c, s, l, k);
    case _ => BoundMove(c, s, l, k);
  }

  lemma BoundEmitOther(c: Config, s: State, j: Key, l: WorkAct, k: Key)
    requires WorkEnabled(s, j, l) && (l.ForceDelete? || l.MarkReady?) && BoundInv(c, s, k) && j != k
    ensures BoundInv(c, DoWork(c, s, j, l), k)
  {
    if l.ForceDelete? {
      WatchedAfter(s.watch, Change(j, None), k);
    } else if !l.err {
      WatchedAfter(s.watch, Change(j, Some(s.api[j].(active := true, ready := true))), k);
    }
    BoundSame(c, s, DoWork(c, s, j, l), k);
  }

  lemma BoundTimerOther(c: Config, s: State, j: Key, k: Key)
    requires WorkEnabled(s, j, ReadTimer) && BoundInv(c, s, k) && j != k
    ensures BoundInv(c, DoWork(c, s, j, ReadTimer), k)
  {
    BoundSame(c, s, DoWork(c, s, j, ReadTimer), k);
  }

  lemma BoundQueueOther(c: Config, s: State, j: Key, l: WorkAct, k: Key)
    requires WorkEnabled(s, j, l) && (l == Fire || l == Get || l == Requeue || l == Done) && BoundInv(c, s, k) && j != k
    ensures BoundInv(c, DoWork(c, s, j, l), k)
  {
    BoundSame(c, s, DoWork(c, s, j, l), k);
  }

  lemma BoundWorkOther(c: Config, s: State, j: Key, l: WorkAct, k: Key)
    requires WorkEnabled(s, j, l) && BoundInv(c, s, k) && j != k
    ensures BoundInv(c, DoWork(c, s, j, l), k)
  {
    match l
    case ForceDelete(_) => BoundEmitOther(c, s, j, l, k);
    case MarkReady(_) => BoundEmitOther(c, s, j, l, k);
    case ReadTimer => BoundTimerOther(c, s, j, k);
    case Fire => BoundQueueOther(c, s, j, l, k);
    case Get => BoundQueueOther(c, s, j, l, k);
    case Requeue => BoundQueueOther(c, s, j, l, k);
    case Done => BoundQueueOther(c, s, j, l, k);
    case _ => BoundSame(c, s, DoWork(c, s, j, l), k);
  }

  // ----- every action

  lemma StepKept(c: Config, s: State, l: Label, k: Key)
    requires Enabled(s, l) && Allowed(SafeBinds, c, s, l) && Inv(c, s, k)
    ensures Inv(c, Do(c, s, l), k)
  {
    BasicStep(c, s, l);
    match l
    case World(a) => ApiWorld(c, s, a, k); BoundWorld(c, s, a, k);
    case Inform(a) => ApiInform(c, s, a, k); BoundInform(c, s, a, k);
    case Rpc(a) => ApiRpc(c, s, a, k); BoundRpc(c, s, a, k);
    case Work(j, a) =>
      if j == k {
        ApiWorkOwn(c, s, a, k); BoundWorkOwn(c, s, a, k);
      } else {
        ApiWorkOther(c, s, j, a, k); BoundWorkOther(c, s, j, a, k);
      }
  }

  lemma {:induction false} RunKept(c: Config, s: State, run: seq<Label>, t: State, k: Key)
    requires Leads(SafeBinds, c, s, run, t) && Inv(c, s, k)
    ensures Inv(c, t, k)
    decreases |run|
  {
    if run != [] {
      Tail(SafeBinds, c, s, run, t);
      StepKept(c, s, run[0], k);
      RunKept(c, Do(c, s, run[0]), run[1..], t, k);
    }
  }

  // ----- the theorems

  lemma NotStuck(c: Config, s: State, k: Key)
    requires Inv(c, s, k)
    ensures !Stuck(c, s, k)
  {
    if !Watched(s.watch, k) {
      ReplayUntouched(s.store, s.watch, k);
    }
  }

  /** No pod gets stuck: in every reachable state, a bound pod that was not deleted since and is
      not in the API server yet has a continuation, and so has every unready API pod of this
      kubelet.  First binds need no assumption; binds of a deleted key have to be safe. */
  lemma {:induction false} NoPodStuck(c: Config, run: seq<Label>, s: State, k: Key)
    requires Leads(SafeBinds, c, Init, run, s)
    ensures NotReadyYet(c, s, k) ==> Continues(s, k)
  {
    RunKept(c, Init, run, s, k);
    NotStuck(c, s, k);
  }

  /** When nothing is in flight any more for a pod that is bound and undeleted since, or in the
      API server, then it is in the API server, the informer agrees, and no work is left. */
  lemma {:induction false} SettledWhenQuiet(c: Config, run: seq<Label>, s: State, k: Key)
    requires Leads(SafeBinds, c, Init, run, s) && !Continues(s, k)
    requires k in s.api || (k in s.accepted && k !in s.gone && c.template(k) && c.responsible(k))
    ensures k in s.api && k in s.store && s.store[k] == s.api[k] && !Obliged(c, k, s.api[k])
  {
    NoPodStuck(c, run, s, k);
    RunKept(c, Init, run, s, k);
    ReplayUntouched(s.store, s.watch, k);
  }
}
