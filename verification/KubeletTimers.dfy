/**
  The ready delay of one life of a pod: a pod is marked ready only after a timer of its own has
  run out, provided that no timer was left behind when its life began.
*/
module KubeletTimers {
  import opened Wrappers
  import opened Kubelet

  // ----- lives

  /** The instants at which timers were created in the current life of a key.  A life begins with
      the first bind or API object of the key and ends with a deletion. */
  function Life(h: seq<Entry>, k: Key): Option<set<int>> {
    if h == [] then None else Lived(Life(h[..|h| - 1], k), h[|h| - 1], k)
  }

  predicate Begins(e: Entry, k: Key) {
    e == Born(k) || (e.Accepted? && e.info.key == k)
  }

  function Lived(before: Option<set<int>>, e: Entry, k: Key): Option<set<int>> {
    if e == Died(k) then None
    else if Begins(e, k) then (if before.None? then Some({}) else before)
    else if e.TimerCreated? && e.key == k && before.Some? then Some(before.value + {e.at})
    else before
  }

  lemma LifeAppend(h: seq<Entry>, e: Entry, k: Key)
    ensures Life(h + [e], k) == Lived(Life(h, k), e, k)
  {
    assert (h + [e])[..|h|] == h;
  }

  /** No ready timer of the key is left, nor a worker that has read one for an API pod. */
  predicate Timeless(s: State, k: Key) {
    k !in s.timers && !(k in s.sync && HasRead(s.sync[k]))
  }

  predicate HasRead(p: SyncPoint) {
    p.Marking? || (p.Waiting? && !p.inMem)
  }

  /** Whenever an action begins a life of the key, no timer is left. */
  predicate BeginsFresh(c: Config, s: State, l: Label, k: Key)
    requires Enabled(s, l)
  {
    Life(s.history, k).None? && Life(Do(c, s, l).history, k).Some? ==> Timeless(s, k)
  }

  /** A run in which all lives of the key begin without an old timer. */
  predicate FreshRun(c: Config, s: State, run: seq<Label>, t: State, k: Key)
    decreases |run|
  {
    if run == [] then s == t
    else Enabled(s, run[0]) && BeginsFresh(c, s, run[0], k) && FreshRun(c, Do(c, s, run[0]), run[1..], t, k)
  }

  // ----- the invariant

  /** A ready mark comes at least the delay after a timer was created in the same life. */
  ghost predicate Young(c: Config, h: seq<Entry>, i: int)
    requires 0 <= i < |h| && h[i].MarkedReady?
  {
    var life := Life(h[..i], h[i].key);
    life.Some? && exists at :: at in life.value && at + c.readyDelay <= h[i].at
  }

  ghost predicate MarksYoung(c: Config, h: seq<Entry>, k: Key) {
    forall i | 0 <= i < |h| && h[i].MarkedReady? && h[i].key == k :: Young(c, h, i)
  }

  predicate OwnTimer(c: Config, life: Option<set<int>>, readyTime: int) {
    life.Some? ==> readyTime - c.readyDelay in life.value
  }

  /** Timers of the key, and what its worker has read, are of the current life. */
  predicate TimersOwn(c: Config, life: Option<set<int>>, s: State, k: Key) {
    && (k in s.timers ==> OwnTimer(c, life, s.timers[k]))
    && (k in s.sync && HasRead(s.sync[k]) ==> OwnTimer(c, life, s.sync[k].readyTime))
    && (k in s.sync && s.sync[k].Marking? ==> s.sync[k].readyTime <= s.clock)
  }

  ghost predicate LifeInv(c: Config, s: State, k: Key) {
    && (k in s.api ==> Life(s.history, k).Some?)
    && TimersOwn(c, Life(s.history, k), s, k) && MarksYoung(c, s.history, k)
  }

  lemma MarksAppend(c: Config, h: seq<Entry>, e: Entry, k: Key)
    requires MarksYoung(c, h, k)
    requires e.MarkedReady? && e.key == k ==>
      var life := Life(h, k); life.Some? && exists at :: at in life.value && at + c.readyDelay <= e.at
    ensures MarksYoung(c, h + [e], k)
  {
    var h' := h + [e];
    forall i | 0 <= i < |h'| && h'[i].MarkedReady? && h'[i].key == k ensures Young(c, h', i) {
      if i < |h| {
        assert h'[i] == h[i] && h'[..i] == h[..i] && Young(c, h, i);
      } else {
        assert h'[..i] == h;
      }
    }
  }

  // ----- every action keeps it

  /** What is written down, if anything, leaves the life of the key alone. */
  predicate Silent(h: seq<Entry>, h': seq<Entry>, k: Key) {
    h' == h || (h' != [] && h' == h + [h'[|h'| - 1]] && Uneventful(h'[|h'| - 1], k))
  }

  predicate Uneventful(e: Entry, k: Key) {
    e != Died(k) && !Begins(e, k) && !(e.TimerCreated? && e.key == k) && !(e.MarkedReady? && e.key == k)
  }

  lemma LifeSame(c: Config, s: State, s': State, k: Key)
    requires LifeInv(c, s, k) && Silent(s.history, s'.history, k) && (k in s'.api ==> k in s.api) && s.clock <= s'.clock
    requires k in s'.timers ==> k in s.timers && s'.timers[k] == s.timers[k]
    requires k in s'.sync && HasRead(s'.sync[k]) ==> k in s.sync && s'.sync[k] == s.sync[k]
    ensures LifeInv(c, s', k)
  {
    if s'.history != s.history {
      var e := s'.history[|s'.history| - 1];
      LifeAppend(s.history, e, k);
      MarksAppend(c, s.history, e, k);
    }
  }

  /** An object or a bind of the key appears: the life goes on, or a new one begins fresh. */
  lemma LifeBegins(c: Config, s: State, s': State, e: Entry, k: Key)
    requires LifeInv(c, s, k) && s'.history == s.history + [e] && Begins(e, k)
    requires Life(s.history, k).None? ==> Timeless(s, k)
    requires s'.timers == s.timers && s'.sync == s.sync && s'.clock == s.clock
    ensures LifeInv(c, s', k)
  {
    LifeAppend(s.history, e, k);
    MarksAppend(c, s.history, e, k);
  }

  lemma LifeEnds(c: Config, s: State, s': State, k: Key)
    requires LifeInv(c, s, k) && s'.history == s.history + [Died(k)] && k !in s'.api
    requires k in s'.sync && s'.sync[k].Marking? ==> s'.sync[k].readyTime <= s'.clock
    ensures LifeInv(c, s', k)
  {
    LifeAppend(s.history, Died(k), k);
    MarksAppend(c, s.history, Died(k), k);
  }

  lemma LifeCreate(c: Config, s: State, l: WorldAct, k: Key)
    requires WorldEnabled(s, l) && BeginsFresh(c, s, World(l), k) && LifeInv(c, s, k)
    requires l.ApiCreate? || (l.ExposeTry? && !l.err && l.key !in s.api)
    requires l.key == k
    ensures LifeInv(c, DoWorld(s, l), k)
  {
    LifeAppend(s.history, Born(k), k);
    LifeBegins(c, s, DoWorld(s, l), Born(k), k);
  }

  lemma LifeAside(c: Config, s: State, l: WorldAct, k: Key)
    requires WorldEnabled(s, l) && LifeInv(c, s, k) && l != ApiDelete(k)
    requires !(l.ApiCreate? || (l.ExposeTry? && !l.err && l.key !in s.api)) || l.key != k
    ensures LifeInv(c, DoWorld(s, l), k)
  {
    LifeSame(c, s, DoWorld(s, l), k);
  }

  lemma LifeDelete(c: Config, s: State, k: Key)
    requires WorldEnabled(s, ApiDelete(k)) && LifeInv(c, s, k)
    ensures LifeInv(c, DoWorld(s, ApiDelete(k)), k)
  {
    LifeEnds(c, s, DoWorld(s, ApiDelete(k)), k);
  }

  lemma LifeWorld(c: Config, s: State, l: WorldAct, k: Key)
    requires WorldEnabled(s, l) && BeginsFresh(c, s, World(l), k) && LifeInv(c, s, k)
    ensures LifeInv(c, DoWorld(s, l), k)
  {
    if (l.ApiCreate? || (l.ExposeTry? && !l.err && l.key !in s.api)) && l.key == k {
      LifeCreate(c, s, l, k);
    } else if l == ApiDelete(k) {
      LifeDelete(c, s, k);
    } else {
      LifeAside(c, s, l, k);
    }
  }

  lemma InformHistory(s: State, l: InformAct, k: Key)
    requires InformEnabled(s, l)
    ensures var t := DoInform(s, l);
      && Silent(s.history, t.history, k) && t.api == s.api && t.clock == s.clock && t.sync == s.sync
      && (k in t.timers ==> k in s.timers && t.timers[k] == s.timers[k])
  {
  }

  lemma LifeInform(c: Config, s: State, l: InformAct, k: Key)
    requires InformEnabled(s, l) && LifeInv(c, s, k)
    ensures LifeInv(c, DoInform(s, l), k)
  {
    InformHistory(s, l, k);
    LifeSame(c, s, DoInform(s, l), k);
  }

  lemma InsertHistory(s: State, id: nat) returns (t: State, e: Entry)
    requires RpcEnabled(s, BindInsert(id))
    ensures t == DoRpc(s, BindInsert(id)) && t.history == s.history + [e] && e.Accepted? && e.info.key == BoundKey(s, id)
    ensures t.timers == s.timers && t.sync == s.sync && t.clock == s.clock && t.api == s.api
  {
    t := DoRpc(s, BindInsert(id));
    e := t.history[|s.history|];
  }

  lemma LifeInsert(c: Config, s: State, id: nat, k: Key)
    requires RpcEnabled(s, BindInsert(id)) && LifeInv(c, s, k)
    requires BoundKey(s, id) == k && Life(s.history, k).None? ==> Timeless(s, k)
    ensures LifeInv(c, DoRpc(s, BindInsert(id)), k)
  {
    var t, e := InsertHistory(s, id);
    if BoundKey(s, id) == k {
      LifeBegins(c, s, t, e, k);
    } else {
      LifeSame(c, s, t, k);
    }
  }

  lemma InsertBegins(c: Config, s: State, id: nat, k: Key)
    requires RpcEnabled(s, BindInsert(id)) && BeginsFresh(c, s, Rpc(BindInsert(id)), k) && BoundKey(s, id) == k
    ensures Life(s.history, k).None? ==> Timeless(s, k)
  {
    var t, e := InsertHistory(s, id);
    LifeAppend(s.history, e, k);
  }

  lemma LocksHistory(s: State, l: RpcAct, k: Key)
    requires RpcEnabled(s, l) && !l.BindInsert?
    ensures var t := DoRpc(s, l);
      Silent(s.history, t.history, k) && t.api == s.api && t.clock == s.clock && t.sync == s.sync && t.timers == s.timers
  {
  }

  lemma LifeLocks(c: Config, s: State, l: RpcAct, k: Key)
    requires RpcEnabled(s, l) && !l.BindInsert? && LifeInv(c, s, k)
    ensures LifeInv(c, DoRpc(s, l), k)
  {
    LocksHistory(s, l, k);
    LifeSame(c, s, DoRpc(s, l), k);
  }

  lemma LifeRpc(c: Config, s: State, l: RpcAct, k: Key)
    requires RpcEnabled(s, l) && BeginsFresh(c, s, Rpc(l), k) && LifeInv(c, s, k)
    ensures LifeInv(c, DoRpc(s, l), k)
  {
    if l.BindInsert? {
      if BoundKey(s, l.id) == k {
        InsertBegins(c, s, l.id, k);
      }
      LifeInsert(c, s, l.id, k);
    } else {
      LifeLocks(c, s, l, k);
    }
  }

  /** A fresh timer belongs to the current life; an old one did before. */
  lemma LifeTimer(c: Config, s: State, k: Key)
    requires WorkEnabled(s, k, ReadTimer) && LifeInv(c, s, k)
    ensures LifeInv(c, DoWork(c, s, k, ReadTimer), k)
  {
    var s' := DoWork(c, s, k, ReadTimer);
    if k !in s.timers {
      var e := TimerCreated(k, s.clock);
      LifeAppend(s.history, e, k);
      MarksAppend(c, s.history, e, k);
      assert s'.history == s.history + [e];
    }
  }

  lemma LifeMark(c: Config, s: State, k: Key, err: bool)
    requires WorkEnabled(s, k, MarkReady(err)) && LifeInv(c, s, k)
    ensures LifeInv(c, DoWork(c, s, k, MarkReady(err)), k)
  {
    var s' := DoWork(c, s, k, MarkReady(err));
    if !err {
      var e, life := MarkedReady(k, s.clock), Life(s.history, k);
      assert s.sync[k].readyTime - c.readyDelay in life.value;
      MarksAppend(c, s.history, e, k);
      LifeAppend(s.history, e, k);
      assert s'.history == s.history + [e];
    }
  }

  lemma LifeErase(c: Config, s: State, k: Key, err: bool)
    requires WorkEnabled(s, k, ForceDelete(err)) && LifeInv(c, s, k)
    ensures LifeInv(c, DoWork(c, s, k, ForceDelete(err)), k)
  {
    if !err && k in s.api {
      LifeEnds(c, s, DoWork(c, s, k, ForceDelete(err)), k);
    } else {
      LifeSame(c, s, DoWork(c, s, k, ForceDelete(err)), k);
    }
  }

  lemma LifeWait(c: Config, s: State, k: Key)
    requires WorkEnabled(s, k, CheckWait) && LifeInv(c, s, k)
    ensures LifeInv(c, DoWork(c, s, k, CheckWait), k)
  {
  }

  lemma LifeMove(c: Config, s: State, l: WorkAct, k: Key)
    requires WorkEnabled(s, k, l) && LifeInv(c, s, k)
    requires l == Fire || l == Get || l == ReadStore || l.ReadCache? || l.CheckApi? || l == DropTimer || l == Requeue || l == Done
    ensures LifeInv(c, DoWork(c, s, k, l), k)
  {
    LifeSame(c, s, DoWork(c, s, k, l), k);
  }

  lemma LifeWorkOwn(c: Config, s: State, l: WorkAct, k: Key)
    requires WorkEnabled(s, k, l) && LifeInv(c, s, k)
    ensures LifeInv(c, DoWork(c, s, k, l), k)
  {
    match l
    case ReadTimer => LifeTimer(c, s, k);
    case MarkReady(err) => LifeMark(c, s, k, err);
    case ForceDelete(err) => LifeErase(c, s, k, err);
    case CheckWait => LifeWait(c, s, k);
    case _ => LifeMove(c, s, l, k);
  }

  lemma LifeTold(c: Config, s: State, j: Key, l: WorkAct, k: Key)
    requires WorkEnabled(s, j, l) && (l.ReadTimer? || l.MarkReady? || l.ForceDelete?) && LifeInv(c, s, k) && j != k
    ensures LifeInv(c, DoWork(c, s, j, l), k)
  {
    LifeSame(c, s, DoWork(c, s, j, l), k);
  }

  lemma LifeWorkOther(c: Config, s: State, j: Key, l: WorkAct, k: Key)
    requires WorkEnabled(s, j, l) && LifeInv(c, s, k) && j != k
    ensures LifeInv(c, DoWork(c, s, j, l), k)
  {
    if l.ReadTimer? || l.MarkReady? || l.ForceDelete? {
      LifeTold(c, s, j, l, k);
    } else {
      LifeSame(c, s, DoWork(c, s, j, l), k);
    }
  }

  lemma LifeStep(c: Config, s: State, l: Label, k: Key)
    requires Enabled(s, l) && BeginsFresh(c, s, l, k) && LifeInv(c, s, k)
    ensures LifeInv(c, Do(c, s, l), k)
  {
    match l
    case World(a) => LifeWorld(c, s, a, k);
    case Inform(a) => LifeInform(c, s, a, k);
    case Rpc(a) => LifeRpc(c, s, a, k);
    case Work(j, a) =>
      if j == k {
        LifeWorkOwn(c, s, a, k);
      } else {
        LifeWorkOther(c, s, j, a, k);
      }
  }

  lemma {:induction false} LifeRun(c: Config, s: State, run: seq<Label>, t: State, k: Key)
    requires FreshRun(c, s, run, t, k) && LifeInv(c, s, k)
    ensures LifeInv(c, t, k)
    decreases |run|
  {
    if run != [] {
      LifeStep(c, s, run[0], k);
      LifeRun(c, Do(c, s, run[0]), run[1..], t, k);
    }
  }

  /** The ready delay within one life: if lives of the key begin without an old timer, every ready
      mark comes at least the delay after a timer that was created in the same life, after the
      bind or the creation of the object with which it began. */
  lemma {:induction false} ReadyDelayOfLife(c: Config, run: seq<Label>, s: State, k: Key)
    requires FreshRun(c, Init, run, s, k)
    ensures MarksYoung(c, s.history, k)
  {
    LifeRun(c, Init, run, s, k);
  }

  // ----- the condition is exact for a key at rest

  lemma {:induction false} FreshExtend(c: Config, s: State, run: seq<Label>, t: State, l: Label, k: Key)
    requires FreshRun(c, s, run, t, k) && Enabled(t, l) && BeginsFresh(c, t, l, k)
    ensures FreshRun(c, s, run + [l], Do(c, t, l), k)
    decreases |run|
  {
    if run == [] {
      assert run + [l] == [l] && [l][1..] == [];
    } else {
      assert (run + [l])[0] == run[0] && (run + [l])[1..] == run[1..] + [l];
      FreshExtend(c, Do(c, s, run[0]), run[1..], t, l, k);
    }
  }

  /** A run that has reached s, in the midst of a life, goes on by one action. */
  lemma {:induction false} LiveOn(c: Config, s0: State, run: seq<Label>, s: State, l: Label, k: Key)
    returns (run': seq<Label>, t: State)
    requires FreshRun(c, s0, run, s, k) && Enabled(s, l) && Life(s.history, k).Some?
    ensures FreshRun(c, s0, run', t, k) && t == Do(c, s, l)
  {
    run', t := run + [l], Do(c, s, l);
    FreshExtend(c, s0, run, s, l, k);
  }

  lemma {:induction false} LiveWork(c: Config, s0: State, run: seq<Label>, s: State, l: WorkAct, k: Key)
    returns (run': seq<Label>, t: State)
    requires FreshRun(c, s0, run, s, k) && WorkEnabled(s, k, l) && Life(s.history, k).Some?
    ensures FreshRun(c, s0, run', t, k) && t == DoWork(c, s, k, l)
  {
    run', t := LiveOn(c, s0, run, s, Work(k, l), k);
  }

  lemma {:induction false} LiveInform(c: Config, s0: State, run: seq<Label>, s: State, l: InformAct, k: Key)
    returns (run': seq<Label>, t: State)
    requires FreshRun(c, s0, run, s, k) && InformEnabled(s, l) && Life(s.history, k).Some?
    ensures FreshRun(c, s0, run', t, k) && t == DoInform(s, l)
  {
    run', t := LiveOn(c, s0, run, s, Inform(l), k);
  }

  /** A worker has read a timer for an API pod in whose life no timer was created. */
  predicate ReadOld(s: State, k: Key) {
    k in s.api && k in s.sync && HasRead(s.sync[k]) && Life(s.history, k) == Some({})
  }

  lemma {:induction false} WaitedOld(c: Config, s0: State, run: seq<Label>, s: State, k: Key)
    returns (run': seq<Label>, t: State)
    requires FreshRun(c, s0, run, s, k) && ReadOld(s, k) && s.sync[k].Waiting?
    ensures FreshRun(c, s0, run', t, k) && ReadOld(t, k) && t.sync[k].Marking?
  {
    var wait := Max(0, s.sync[k].readyTime - s.clock);
    run', t := LiveOn(c, s0, run, s, World(Tick(wait)), k);
    assert t == s.(clock := s.clock + wait);
    run', t := LiveWork(c, s0, run', t, CheckWait, k);
  }

  lemma {:induction false} MarkedOld(c: Config, s0: State, run: seq<Label>, s: State, k: Key)
    returns (run': seq<Label>, t: State)
    requires FreshRun(c, s0, run, s, k) && ReadOld(s, k) && s.sync[k].Marking?
    ensures FreshRun(c, s0, run', t, k) && !MarksYoung(c, t.history, k)
  {
    run', t := LiveWork(c, s0, run, s, MarkReady(false), k);
    var i := |s.history|;
    assert t.history == s.history + [MarkedReady(k, s.clock)] && t.history[..i] == s.history;
    assert t.history[i].MarkedReady? && !Young(c, t.history, i);
  }

  /** The pod is marked ready although no timer of its own has run out. */
  lemma {:induction false} OldIsMarked(c: Config, s0: State, run: seq<Label>, s: State, k: Key)
    returns (run': seq<Label>, t: State)
    requires FreshRun(c, s0, run, s, k) && ReadOld(s, k)
    ensures FreshRun(c, s0, run', t, k) && !MarksYoung(c, t.history, k)
  {
    run', t := run, s;
    if s.sync[k].Waiting? {
      run', t := WaitedOld(c, s0, run, s, k);
    }
    run', t := MarkedOld(c, s0, run', t, k);
  }

  /** A new object, known to the handler, with an old timer. */
  predicate Haunted(s: State, k: Key) {
    && k in s.api && k in s.store && s.store[k] == Exposed && k in s.dirty && k !in s.sync && k in s.timers
    && Life(s.history, k) == Some({})
  }

  lemma {:induction false} ReadsOld(c: Config, s0: State, run: seq<Label>, s: State, k: Key)
    returns (run': seq<Label>, t: State)
    requires FreshRun(c, s0, run, s, k) && Haunted(s, k) && c.responsible(k)
    ensures FreshRun(c, s0, run', t, k) && k in t.api && At(t, k, AtTimer(None)) && k in t.timers && Life(t.history, k) == Some({})
  {
    run', t := LiveWork(c, s0, run, s, Get, k);
    run', t := LiveWork(c, s0, run', t, ReadStore, k);
    run', t := LiveWork(c, s0, run', t, CheckApi(false), k);
  }

  lemma {:induction false} HauntedIsMarked(c: Config, s0: State, run: seq<Label>, s: State, k: Key)
    returns (run': seq<Label>, t: State)
    requires FreshRun(c, s0, run, s, k) && Haunted(s, k) && c.responsible(k)
    ensures FreshRun(c, s0, run', t, k) && !MarksYoung(c, t.history, k)
  {
    run', t := ReadsOld(c, s0, run, s, k);
    run', t := LiveWork(c, s0, run', t, ReadTimer, k);
    run', t := OldIsMarked(c, s0, run', t, k);
  }

  /** The informer is idle, and so is the key, but for a worker that has read its timer. */
  predicate AtRest(s: State, k: Key) {
    s.watch == [] && s.notices == [] && !s.midNotice && (k in s.sync ==> HasRead(s.sync[k]))
  }

  lemma {:induction false} Announced(c: Config, s: State, k: Key) returns (run: seq<Label>, t: State)
    requires s.watch == [Change(k, Some(Exposed))] && s.notices == [] && !s.midNotice && k in s.api
    requires k !in s.sync && k in s.timers && Life(s.history, k) == Some({})
    ensures FreshRun(c, s, run, t, k) && Haunted(t, k)
  {
    run, t := LiveInform(c, s, [], s, Deliver, k);
    assert t.notices == [Notice(k, Exposed, false)];
    run, t := LiveInform(c, s, run, t, HandleFirst, k);
    assert t == s.(watch := [], store := t.store, notices := t.notices, midNotice := true, dirty := t.dirty);
    run, t := LiveInform(c, s, run, t, HandleSecond, k);
    LifeAppend(s.history, Dropped(k), k);
  }

  lemma Created(s: State, k: Key) returns (t: State)
    requires k !in s.api && Life(s.history, k).None? && s.watch == []
    ensures t == DoWorld(s, ApiCreate(k, Exposed)) && k in t.api && Life(t.history, k) == Some({})
    ensures t == s.(api := t.api, watch := [Change(k, Some(Exposed))], history := t.history)
  {
    LifeAppend(s.history, Born(k), k);
    t := DoWorld(s, ApiCreate(k, Exposed));
  }

  /** An object created while a timer is left can be marked ready early. */
  lemma {:induction false} EarlyMark(c: Config, s: State, k: Key) returns (run: seq<Label>, t: State)
    requires k !in s.api && Life(s.history, k).None? && AtRest(s, k) && !Timeless(s, k) && c.responsible(k)
    ensures FreshRun(c, DoWorld(s, ApiCreate(k, Exposed)), run, t, k) && !MarksYoung(c, t.history, k)
  {
    var u := Created(s, k);
    if k in s.sync {
      run, t := OldIsMarked(c, u, [], u, k);
    } else {
      run, t := Announced(c, u, k);
      run, t := HauntedIsMarked(c, u, run, t, k);
    }
  }

  /** In no run from here on is the pod marked ready early. */
  ghost predicate NeverEarly(c: Config, s: State, k: Key) {
    forall more, t | FreshRun(c, s, more, t, k) :: MarksYoung(c, t.history, k)
  }

  lemma {:induction false} TimelessNeverEarly(c: Config, s: State, k: Key)
    requires k !in s.api && LifeInv(c, s, k) && Timeless(s, k)
    ensures NeverEarly(c, DoWorld(s, ApiCreate(k, Exposed)), k)
  {
    var u := DoWorld(s, ApiCreate(k, Exposed));
    LifeWorld(c, s, ApiCreate(k, Exposed), k);
    forall more, t | FreshRun(c, u, more, t, k) ensures MarksYoung(c, t.history, k) {
      LifeRun(c, u, more, t, k);
    }
  }

  /** When the ready delay counts from the current life: from every reachable state in which the
      key is deleted and at rest, an object created now is never marked ready before a timer of
      its own has run out, if and only if no timer is left. */
  lemma {:induction false} ReadyDelayExact(c: Config, run: seq<Label>, s: State, k: Key)
    requires FreshRun(c, Init, run, s, k) && Life(s.history, k).None? && AtRest(s, k) && c.responsible(k)
    ensures k !in s.api && (Timeless(s, k) <==> NeverEarly(c, DoWorld(s, ApiCreate(k, Exposed)), k))
  {
    LifeRun(c, Init, run, s, k);
    if Timeless(s, k) {
      TimelessNeverEarly(c, s, k);
    } else {
      var more, t := EarlyMark(c, s, k);
    }
  }

  // ----- a timer can be left

  /** An API pod is seen, and a worker has a copy of it. */
  lemma {:induction false} Seen(c: Config, k: Key) returns (run: seq<Label>, s: State)
    ensures FreshRun(c, Init, run, s, k)
    ensures s == Init.(api := map[k := Exposed], store := map[k := Exposed], dirty := {k}, history := [Born(k), Dropped(k)])
  {
    LifeAppend([], Born(k), k);
    FreshExtend(c, Init, [], Init, World(ApiCreate(k, Exposed)), k);
    run, s := [World(ApiCreate(k, Exposed))], DoWorld(Init, ApiCreate(k, Exposed));
    run, s := LiveInform(c, Init, run, s, Deliver, k);
    assert s.notices == [Notice(k, Exposed, false)];
    run, s := LiveInform(c, Init, run, s, HandleFirst, k);
    run, s := LiveInform(c, Init, run, s, HandleSecond, k);
    assert s.cache == map[] && s.watch == [] && s.notices == [];
  }

  lemma LifeOfSeen(k: Key)
    ensures Life([Born(k), Dropped(k)], k) == Some({})
  {
    LifeAppend([], Born(k), k);
    LifeAppend([Born(k)], Dropped(k), k);
  }

  lemma {:induction false} Held(c: Config, k: Key) returns (run: seq<Label>, s: State)
    requires c.responsible(k)
    ensures FreshRun(c, Init, run, s, k)
    ensures s == Init.(api := map[k := Exposed], store := map[k := Exposed], sync := map[k := AtTimer(None)],
                       history := [Born(k), Dropped(k)])
  {
    run, s := Seen(c, k);
    LifeOfSeen(k);
    run, s := LiveWork(c, Init, run, s, Get, k);
    assert s.dirty == {} && s.sync == map[k := Start];
    run, s := LiveWork(c, Init, run, s, ReadStore, k);
    assert s.sync == map[k := HaveApi(Exposed)];
    run, s := LiveWork(c, Init, run, s, CheckApi(false), k);
  }

  lemma SilentInform(c: Config, s: State, l: InformAct, k: Key)
    requires InformEnabled(s, l)
    ensures Silent(s.history, DoInform(s, l).history, k) && BeginsFresh(c, s, Inform(l), k)
  {
    var t := DoInform(s, l);
    if t.history != s.history {
      LifeAppend(s.history, t.history[|t.history| - 1], k);
    }
  }

  lemma {:induction false} DeadInform(c: Config, s0: State, run: seq<Label>, s: State, l: InformAct, k: Key)
    returns (run': seq<Label>, t: State)
    requires FreshRun(c, s0, run, s, k) && InformEnabled(s, l)
    ensures FreshRun(c, s0, run', t, k) && t == DoInform(s, l)
  {
    SilentInform(c, s, l, k);
    run', t := run + [Inform(l)], DoInform(s, l);
    FreshExtend(c, s0, run, s, Inform(l), k);
  }

  lemma {:induction false} Lost(c: Config, k: Key) returns (run: seq<Label>, s: State)
    requires c.responsible(k)
    ensures FreshRun(c, Init, run, s, k)
    ensures s == Init.(gone := {k}, notices := [Notice(k, Exposed, true)], sync := map[k := AtTimer(None)],
                       history := [Born(k), Dropped(k), Died(k)])
  {
    run, s := Held(c, k);
    LifeOfSeen(k);
    run, s := LiveOn(c, Init, run, s, World(ApiDelete(k)), k);
    assert s.history == [Born(k), Dropped(k), Died(k)] && s.api == map[];
    run, s := DeadInform(c, Init, run, s, Deliver, k);
    assert s.notices == [Notice(k, Exposed, true)] && s.store == map[];
  }

  lemma LifeOfLost(k: Key)
    ensures Life([Born(k), Dropped(k), Died(k), Dropped(k)], k) == None
  {
    LifeAppend([Born(k), Dropped(k)], Died(k), k);
    LifeAppend([Born(k), Dropped(k), Died(k)], Dropped(k), k);
    assert [Born(k), Dropped(k), Died(k)] + [Dropped(k)] == [Born(k), Dropped(k), Died(k), Dropped(k)];
  }

  /** It is deleted, and the deletion is handled, while the worker still has its copy. */
  lemma {:induction false} Bereft(c: Config, k: Key) returns (run: seq<Label>, s: State)
    requires c.responsible(k)
    ensures FreshRun(c, Init, run, s, k) && At(s, k, AtTimer(None)) && Life(s.history, k).None?
    ensures s.watch == [] && s.notices == [] && !s.midNotice && k !in s.api
  {
    run, s := Lost(c, k);
    run, s := DeadInform(c, Init, run, s, HandleFirst, k);
    run, s := DeadInform(c, Init, run, s, HandleSecond, k);
    assert s.history == [Born(k), Dropped(k), Died(k), Dropped(k)];
    LifeOfLost(k);
  }

  /** The worker of a deleted pod leaves a timer: in a run of fresh lives, a key comes to rest
      without being timeless. */
  lemma {:induction false} TimerCanBeLeft(c: Config, k: Key) returns (run: seq<Label>, s: State)
    requires c.responsible(k)
    ensures FreshRun(c, Init, run, s, k) && Life(s.history, k).None? && AtRest(s, k) && k in s.timers
  {
    run, s := Bereft(c, k);
    var u := s;
    LifeAppend(u.history, TimerCreated(k, u.clock), k);
    s := DoWork(c, u, k, ReadTimer);
    FreshExtend(c, Init, run, u, Work(k, ReadTimer), k);
    run := run + [Work(k, ReadTimer)];
  }
}
