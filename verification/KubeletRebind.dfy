/**
  Binding a deleted key again: SafeBind is exactly the condition under which the new pod cannot
  get stuck.

  KubeletNoStuck proves that safe binds suffice.  Here, from every reachable state in which a
  bind is about to succeed without being safe, a run is built that leaves the pod stuck.
*/
module KubeletRebind {
  import opened Wrappers
  import opened Kubelet
  import opened KubeletNames
  import opened KubeletNoStuck
  import opened KubeletDrive

  // ----- pods that nobody works on

  /** The pod is bound only, and at most deletions of its key are still to be handled. */
  predicate Idle(c: Config, s: State, k: Key) {
    && BoundOnly(c, s, k) && k !in s.exposing && !Watched(s.watch, k) && !BindPending(s.binders, k)
    && !WillBeDirty(s, k) && k !in s.delayed && (k in s.sync ==> s.sync[k] == Finished)
  }

  lemma {:induction false} IdleGetsStuck(c: Config, s0: State, run: seq<Label>, s: State, k: Key)
    returns (run': seq<Label>, t: State)
    requires Leads(SafeBinds, c, s0, run, s) && Idle(c, s, k)
    ensures Leads(SafeBinds, c, s0, run', t) && Stuck(c, t, k)
  {
    run', t := Drain(SafeBinds, c, s0, run, s, k);
  }

  // ----- pods that will never be exposed

  /** A worker at the ready timer of an in-memory pod. */
  predicate AtOwnTimer(s: State, k: Key) {
    k in s.sync && s.sync[k].AtTimer? && s.sync[k].mem.Some?
  }

  /** The pod is bound only, no exposure will ever start for it, and nobody but the work queue is
      going to act on it: its cache entry is gone, or it has a ready timer that is not its own. */
  predicate Lost(c: Config, s: State, k: Key) {
    && BoundOnly(c, s, k) && k !in s.store && k !in s.exposing
    && !Watched(s.watch, k) && !AddPending(s.notices, s.midNotice, k) && !BindPending(s.binders, k)
    && (AtOwnTimer(s, k) ==> k in s.timers)
    && (k.name in s.cache ==> s.cache[k.name].key == k && k in s.timers && !At(s, k, RemoveTimer))
  }

  lemma UnluckyLost(c: Config, s: State, k: Key, l: WorkAct)
    requires k in s.sync && l == Unlucky(s.sync[k]) && WorkEnabled(s, k, l) && Lost(c, s, k)
    ensures Lost(c, DoWork(c, s, k, l), k)
  {
  }

  lemma {:induction false} StepLost(c: Config, s0: State, run: seq<Label>, s: State, k: Key)
    returns (run': seq<Label>, t: State)
    requires Leads(SafeBinds, c, s0, run, s) && Lost(c, s, k) && k in s.sync
    ensures Leads(SafeBinds, c, s0, run', t) && Lost(c, t, k)
    ensures k in t.sync ==> Distance(t.sync[k]) < Distance(s.sync[k])
  {
    var l := Unlucky(s.sync[k]);
    UnluckyEnabled(s, k);
    Closer(c, s, k, l);
    UnluckyLost(c, s, k, l);
    run', t := OnWork(SafeBinds, c, s0, run, s, k, l);
  }

  /** The worker returns the key. */
  lemma {:induction false} ReturnLost(c: Config, s0: State, run: seq<Label>, s: State, k: Key)
    returns (run': seq<Label>, t: State)
    requires Leads(SafeBinds, c, s0, run, s) && Lost(c, s, k)
    ensures Leads(SafeBinds, c, s0, run', t) && Lost(c, t, k) && k !in t.sync
    decreases if k in s.sync then Distance(s.sync[k]) else 0
  {
    if k !in s.sync {
      run', t := run, s;
    } else {
      var r, u := StepLost(c, s0, run, s, k);
      run', t := ReturnLost(c, s0, r, u, k);
    }
  }

  /** Its ready timer runs out. */
  lemma {:induction false} ExpireLost(c: Config, s0: State, run: seq<Label>, s: State, k: Key)
    returns (run': seq<Label>, t: State)
    requires Leads(SafeBinds, c, s0, run, s) && Lost(c, s, k) && k !in s.sync
    ensures Leads(SafeBinds, c, s0, run', t) && Lost(c, t, k) && k !in t.sync
    ensures k in t.timers ==> t.timers[k] <= t.clock
  {
    run', t := Wait(SafeBinds, c, s0, run, s, if k in s.timers then Max(0, s.timers[k] - s.clock) else 0);
  }

  /** Its key is due in the queue. */
  lemma {:induction false} FireLost(c: Config, s0: State, run: seq<Label>, s: State, k: Key)
    returns (run': seq<Label>, t: State)
    requires Leads(SafeBinds, c, s0, run, s) && Lost(c, s, k) && k in s.delayed
    ensures Leads(SafeBinds, c, s0, run', t) && Lost(c, t, k) && k !in t.delayed
    ensures t == s.(dirty := t.dirty, delayed := t.delayed)
  {
    run', t := OnWork(SafeBinds, c, s0, run, s, k, Fire);
  }

  /** A worker looks for it in vain in the store. */
  lemma {:induction false} LookLost(c: Config, s0: State, run: seq<Label>, s: State, k: Key)
    returns (run': seq<Label>, t: State)
    requires Leads(SafeBinds, c, s0, run, s) && Lost(c, s, k) && k in s.dirty && k !in s.sync && k !in s.delayed
    ensures Leads(SafeBinds, c, s0, run', t) && Lost(c, t, k) && At(t, k, MemLookup) && k !in t.dirty
    ensures t == s.(dirty := t.dirty, sync := t.sync)
  {
    run', t := OnWork(SafeBinds, c, s0, run, s, k, Get);
    run', t := OnWork(SafeBinds, c, s0, run', t, k, ReadStore);
  }

  /** In the cache it finds nothing, or a pod whose timer is not fresh. */
  lemma {:induction false} ReadLost(c: Config, s0: State, run: seq<Label>, s: State, k: Key)
    returns (run': seq<Label>, t: State)
    requires Leads(SafeBinds, c, s0, run, s) && Lost(c, s, k) && At(s, k, MemLookup)
    ensures Leads(SafeBinds, c, s0, run', t) && Lost(c, t, k)
    ensures At(t, k, Finished) || (k in t.sync && t.sync[k].AtTimer? && t.sync[k].mem.Some?)
    ensures t == s.(sync := t.sync)
  {
    run', t := OnWork(SafeBinds, c, s0, run, s, k, ReadCache(false));
  }

  /** The timer has run out, so the key is not enqueued again. */
  lemma {:induction false} WaitLost(c: Config, s0: State, run: seq<Label>, s: State, k: Key)
    returns (run': seq<Label>, t: State)
    requires Leads(SafeBinds, c, s0, run, s) && Lost(c, s, k) && k in s.sync && s.sync[k].AtTimer? && s.sync[k].mem.Some?
    requires k in s.timers && s.timers[k] <= s.clock
    ensures Leads(SafeBinds, c, s0, run', t) && Lost(c, t, k) && At(t, k, Finished)
    ensures t.dirty == s.dirty && t.delayed == s.delayed
  {
    run', t := OnWork(SafeBinds, c, s0, run, s, k, ReadTimer);
    assert t == s.(sync := t.sync, timers := t.timers) && t.timers == s.timers;
    run', t := OnWork(SafeBinds, c, s0, run', t, k, CheckWait);
  }

  lemma {:induction false} SearchLost(c: Config, s0: State, run: seq<Label>, s: State, k: Key)
    returns (run': seq<Label>, t: State)
    requires Leads(SafeBinds, c, s0, run, s) && Lost(c, s, k) && k in s.dirty && k !in s.sync && k !in s.delayed
    requires k in s.timers ==> s.timers[k] <= s.clock
    ensures Leads(SafeBinds, c, s0, run', t) && Idle(c, t, k)
  {
    run', t := LookLost(c, s0, run, s, k);
    run', t := ReadLost(c, s0, run', t, k);
    if t.sync[k].AtTimer? {
      run', t := WaitLost(c, s0, run', t, k);
    }
  }

  /** A lost pod gets stuck. */
  lemma {:induction false} LostGetsStuck(c: Config, s0: State, run: seq<Label>, s: State, k: Key)
    returns (run': seq<Label>, t: State)
    requires Leads(SafeBinds, c, s0, run, s) && Lost(c, s, k)
    ensures Leads(SafeBinds, c, s0, run', t) && Stuck(c, t, k)
  {
    run', t := ReturnLost(c, s0, run, s, k);
    run', t := ExpireLost(c, s0, run', t, k);
    if k in t.delayed {
      run', t := FireLost(c, s0, run', t, k);
    }
    if k in t.dirty {
      run', t := SearchLost(c, s0, run', t, k);
    }
    run', t := IdleGetsStuck(c, s0, run', t, k);
  }

  // ----- pods that everybody ignores

  /** Nobody is going to look at the pod any more. */
  predicate Ignored(c: Config, s: State, k: Key) {
    && BoundOnly(c, s, k) && k !in s.exposing && !Watched(s.watch, k) && !Followed(s, k)
    && (k in s.sync ==> !Copying(c, k, s.sync[k]) && (s.sync[k].Waiting? ==> s.sync[k].readyTime <= s.clock))
  }

  lemma SmoothIgnored(c: Config, s: State, k: Key, l: WorkAct)
    requires k in s.sync && l == Smooth(s, k) && WorkEnabled(s, k, l) && Ignored(c, s, k)
    ensures Ignored(c, DoWork(c, s, k, l), k)
  {
  }

  lemma {:induction false} IgnoredGetsStuck(c: Config, s0: State, run: seq<Label>, s: State, k: Key)
    returns (run': seq<Label>, t: State)
    requires Leads(SafeBinds, c, s0, run, s) && Ignored(c, s, k)
    ensures Leads(SafeBinds, c, s0, run', t) && Stuck(c, t, k)
    decreases if k in s.sync then Distance(s.sync[k]) else 0
  {
    if k !in s.sync {
      run', t := IdleGetsStuck(c, s0, run, s, k);
    } else {
      var l := Smooth(s, k);
      SmoothAllowed(SafeBinds, c, s, k);
      Closer(c, s, k, l);
      SmoothIgnored(c, s, k, l);
      var r, u := ThenWork(SafeBinds, c, s0, run, s, k, l);
      run', t := IgnoredGetsStuck(c, s0, r, u, k);
    }
  }

  // ----- undelivered events of an earlier object

  /** The next event is the last one of the key, a deletion; all others have been handled. */
  predicate AtBrink(c: Config, s: State, k: Key) {
    && BoundOnly(c, s, k) && k in s.store && k !in s.exposing && s.notices == [] && !BindPending(s.binders, k)
    && s.watch != [] && s.watch[0] == Change(k, None) && !Watched(s.watch[1..], k)
    && !AtOwnTimer(s, k) && (k.name in s.cache ==> s.cache[k.name].key == k)
  }

  lemma BrinkFacts(s: State, k: Key)
    requires Consistent(s) && k !in s.api && s.watch != [] && s.watch[0].key == k && !Watched(s.watch[1..], k)
    ensures s.watch[0] == Change(k, None) && k in s.store
  {
    ReplayUntouched(Apply(s.store, s.watch[0]), s.watch[1..], k);
  }

  lemma WatchedRest(watch: seq<Change>, k: Key)
    requires Watched(watch, k) && !(watch[0].key == k && !Watched(watch[1..], k))
    ensures Watched(watch[1..], k)
  {
    if watch[0].key != k {
      var i :| 0 <= i < |watch| && watch[i].key == k;
      assert watch[1..][i - 1] == watch[i];
    }
  }

  lemma {:induction false} DeliverOne(c: Config, s0: State, run: seq<Label>, s: State, k: Key)
    returns (run': seq<Label>, t: State)
    requires Leads(SafeBinds, c, s0, run, s) && Consistent(s) && s.watch != []
    ensures Leads(SafeBinds, c, s0, run', t) && InformFrame(s, t, k) && Consistent(t) && t.watch == s.watch[1..]
  {
    InformStep(s, Deliver, k);
    ConsistentInform(s, Deliver);
    run', t := OnInform(SafeBinds, c, s0, run, s, Deliver);
  }

  /** The handler catches up, and the next event is delivered. */
  lemma {:induction false} NextEvent(c: Config, s0: State, run: seq<Label>, s: State, k: Key)
    returns (run': seq<Label>, t: State)
    requires Leads(SafeBinds, c, s0, run, s) && Consistent(s) && s.watch != []
    ensures Leads(SafeBinds, c, s0, run', t) && InformFrame(s, t, k) && Consistent(t) && t.watch == s.watch[1..]
  {
    run', t := Drain(SafeBinds, c, s0, run, s, k);
    run', t := DeliverOne(c, s0, run', t, k);
  }

  /** The informer delivers everything but the last event of the key. */
  lemma {:induction false} ToBrink(c: Config, s0: State, run: seq<Label>, s: State, k: Key)
    returns (run': seq<Label>, t: State)
    requires Leads(SafeBinds, c, s0, run, s) && Consistent(s) && Watched(s.watch, k) && k !in s.api
    ensures Leads(SafeBinds, c, s0, run', t) && InformFrame(s, t, k) && t.notices == [] && k in t.store
    ensures t.watch != [] && t.watch[0] == Change(k, None) && !Watched(t.watch[1..], k)
    decreases |s.watch|
  {
    if s.watch[0].key == k && !Watched(s.watch[1..], k) {
      BrinkFacts(s, k);
      run', t := Drain(SafeBinds, c, s0, run, s, k);
    } else {
      WatchedRest(s.watch, k);
      run', t := NextEvent(c, s0, run, s, k);
      run', t := ToBrink(c, s0, run', t, k);
    }
  }

  lemma UnluckyBrink(c: Config, s: State, k: Key, l: WorkAct)
    requires k in s.sync && l == Unlucky(s.sync[k]) && WorkEnabled(s, k, l) && AtBrink(c, s, k)
    ensures AtBrink(c, DoWork(c, s, k, l), k)
  {
  }

  /** The worker returns the key. */
  lemma {:induction false} ReturnBrink(c: Config, s0: State, run: seq<Label>, s: State, k: Key)
    returns (run': seq<Label>, t: State)
    requires Leads(SafeBinds, c, s0, run, s) && AtBrink(c, s, k)
    ensures Leads(SafeBinds, c, s0, run', t) && AtBrink(c, t, k) && k !in t.sync
    decreases if k in s.sync then Distance(s.sync[k]) else 0
  {
    if k !in s.sync {
      run', t := run, s;
    } else {
      var l := Unlucky(s.sync[k]);
      UnluckyEnabled(s, k);
      Closer(c, s, k, l);
      UnluckyBrink(c, s, k, l);
      var r, u := OnWork(SafeBinds, c, s0, run, s, k, l);
      run', t := ReturnBrink(c, s0, r, u, k);
    }
  }

  lemma {:induction false} FireBrink(c: Config, s0: State, run: seq<Label>, s: State, k: Key)
    returns (run': seq<Label>, t: State)
    requires Leads(SafeBinds, c, s0, run, s) && AtBrink(c, s, k) && k !in s.sync && k in s.delayed
    ensures Leads(SafeBinds, c, s0, run', t) && AtBrink(c, t, k) && k !in t.sync && k !in t.delayed
  {
    run', t := OnWork(SafeBinds, c, s0, run, s, k, Fire);
    assert t == s.(dirty := t.dirty, delayed := t.delayed);
  }

  /** Nothing is queued: the deletion leaves the pod alone in the cache, or drops it. */
  lemma {:induction false} BrinkIdle(c: Config, s0: State, run: seq<Label>, s: State, k: Key)
    returns (run': seq<Label>, t: State)
    requires Leads(SafeBinds, c, s0, run, s) && AtBrink(c, s, k) && k !in s.sync && k !in s.delayed && k !in s.dirty
    ensures Leads(SafeBinds, c, s0, run', t) && Idle(c, t, k)
  {
    run', t := OnInform(SafeBinds, c, s0, run, s, Deliver);
    assert t.notices == [Notice(k, s.store[k], true)];
  }

  /** The queued key is spent on the object that is about to go. */
  lemma {:induction false} TakeBrink(c: Config, s0: State, run: seq<Label>, s: State, k: Key)
    returns (run': seq<Label>, t: State)
    requires Leads(SafeBinds, c, s0, run, s) && AtBrink(c, s, k) && k !in s.sync && k !in s.delayed && k in s.dirty
    ensures Leads(SafeBinds, c, s0, run', t) && AtBrink(c, t, k) && k !in t.delayed && k !in t.dirty
    ensures At(t, k, HaveApi(t.store[k]))
  {
    run', t := OnWork(SafeBinds, c, s0, run, s, k, Get);
    assert t == s.(dirty := t.dirty, sync := t.sync) && At(t, k, Start);
    run', t := OnWork(SafeBinds, c, s0, run', t, k, ReadStore);
  }

  /** An object that is not to be made ready: the worker finishes without a trace. */
  lemma {:induction false} BrinkIgnored(c: Config, s0: State, run: seq<Label>, s: State, k: Key)
    returns (run': seq<Label>, t: State)
    requires Leads(SafeBinds, c, s0, run, s) && AtBrink(c, s, k) && k !in s.delayed && k !in s.dirty
    requires At(s, k, HaveApi(s.store[k])) && !Obliged(c, k, s.store[k])
    ensures Leads(SafeBinds, c, s0, run', t) && Ignored(c, t, k)
  {
    run', t := OnInform(SafeBinds, c, s0, run, s, Deliver);
    assert t.notices == [Notice(k, s.store[k], true)];
  }

  /** Otherwise it creates a ready timer, which then passes for that of the new pod. */
  lemma {:induction false} BrinkTimed(c: Config, s0: State, run: seq<Label>, s: State, k: Key)
    returns (run': seq<Label>, t: State)
    requires Leads(SafeBinds, c, s0, run, s) && AtBrink(c, s, k) && At(s, k, HaveApi(s.store[k])) && Obliged(c, k, s.store[k])
    ensures Leads(SafeBinds, c, s0, run', t) && AtBrink(c, t, k) && k in t.timers && k in t.sync && t.sync[k].Waiting?
  {
    run', t := OnWork(SafeBinds, c, s0, run, s, k, CheckApi(false));
    assert t == s.(sync := t.sync) && At(t, k, AtTimer(None));
    run', t := OnWork(SafeBinds, c, s0, run', t, k, ReadTimer);
  }

  lemma {:induction false} BrinkLost(c: Config, s0: State, run: seq<Label>, s: State, k: Key)
    returns (run': seq<Label>, t: State)
    requires Leads(SafeBinds, c, s0, run, s) && AtBrink(c, s, k) && k in s.timers && k in s.sync && s.sync[k].Waiting?
    ensures Leads(SafeBinds, c, s0, run', t) && Lost(c, t, k)
  {
    run', t := OnInform(SafeBinds, c, s0, run, s, Deliver);
    assert t.notices == [Notice(k, s.store[k], true)];
  }

  lemma {:induction false} SpentGetsStuck(c: Config, s0: State, run: seq<Label>, s: State, k: Key)
    returns (run': seq<Label>, t: State)
    requires Leads(SafeBinds, c, s0, run, s) && AtBrink(c, s, k) && k !in s.delayed && k !in s.dirty
    requires At(s, k, HaveApi(s.store[k]))
    ensures Leads(SafeBinds, c, s0, run', t) && Stuck(c, t, k)
  {
    if Obliged(c, k, s.store[k]) {
      run', t := BrinkTimed(c, s0, run, s, k);
      run', t := BrinkLost(c, s0, run', t, k);
      run', t := LostGetsStuck(c, s0, run', t, k);
    } else {
      run', t := BrinkIgnored(c, s0, run, s, k);
      run', t := IgnoredGetsStuck(c, s0, run', t, k);
    }
  }

  lemma {:induction false} BrinkGetsStuck(c: Config, s0: State, run: seq<Label>, s: State, k: Key)
    returns (run': seq<Label>, t: State)
    requires Leads(SafeBinds, c, s0, run, s) && AtBrink(c, s, k)
    ensures Leads(SafeBinds, c, s0, run', t) && Stuck(c, t, k)
  {
    run', t := ReturnBrink(c, s0, run, s, k);
    if k in t.delayed {
      run', t := FireBrink(c, s0, run', t, k);
    }
    if k in t.dirty {
      run', t := TakeBrink(c, s0, run', t, k);
      run', t := SpentGetsStuck(c, s0, run', t, k);
    } else {
      run', t := BrinkIdle(c, s0, run', t, k);
      run', t := IdleGetsStuck(c, s0, run', t, k);
    }
  }

  // ----- the state after an unsafe bind

  /** What every unsafe state has in common. */
  predicate Overlooked(c: Config, s: State, k: Key) {
    && BoundOnly(c, s, k) && !Exposes(s, k) && !BindPending(s.binders, k)
    && (k.name in s.cache ==> s.cache[k.name].key == k)
  }

  /** The worker passes a timer that is not fresh. */
  lemma {:induction false} PassTimer(c: Config, s0: State, run: seq<Label>, s: State, k: Key)
    returns (run': seq<Label>, t: State)
    requires Leads(SafeBinds, c, s0, run, s) && !Exposes(s, k)
    ensures Leads(SafeBinds, c, s0, run', t) && !AtOwnTimer(t, k) && t == s.(sync := t.sync)
  {
    if AtOwnTimer(s, k) {
      run', t := PassOld(c, s0, run, s, k);
    } else {
      run', t := run, s;
    }
  }

  lemma {:induction false} PassOld(c: Config, s0: State, run: seq<Label>, s: State, k: Key)
    returns (run': seq<Label>, t: State)
    requires Leads(SafeBinds, c, s0, run, s) && AtOwnTimer(s, k) && k in s.timers
    ensures Leads(SafeBinds, c, s0, run', t) && !AtOwnTimer(t, k) && t == s.(sync := t.sync)
  {
    run', t := OnWork(SafeBinds, c, s0, run, s, k, ReadTimer);
    assert t.timers == s.timers;
  }

  /** Events of the earlier object are still on their way. */
  lemma {:induction false} StaleEvents(c: Config, s0: State, run: seq<Label>, s: State, k: Key)
    returns (run': seq<Label>, t: State)
    requires Leads(SafeBinds, c, s0, run, s) && Consistent(s) && Overlooked(c, s, k) && Watched(s.watch, k)
    ensures Leads(SafeBinds, c, s0, run', t) && Stuck(c, t, k)
  {
    run', t := PassTimer(c, s0, run, s, k);
    run', t := ToBrink(c, s0, run', t, k);
    run', t := BrinkGetsStuck(c, s0, run', t, k);
  }

  /** A handler call is going to drop the new cache entry. */
  lemma {:induction false} StaleNotice(c: Config, s0: State, run: seq<Label>, s: State, k: Key)
    returns (run': seq<Label>, t: State)
    requires Leads(SafeBinds, c, s0, run, s) && Overlooked(c, s, k) && DropPending(s.notices, k)
    requires !Watched(s.watch, k) && k !in s.store
    ensures Leads(SafeBinds, c, s0, run', t) && Stuck(c, t, k)
  {
    run', t := PassTimer(c, s0, run, s, k);
    run', t := Drain(SafeBinds, c, s0, run', t, k);
    run', t := LostGetsStuck(c, s0, run', t, k);
  }

  lemma {:induction false} PassChecks(c: Config, s0: State, run: seq<Label>, s: State, k: Key)
    returns (run': seq<Label>, t: State)
    requires Leads(SafeBinds, c, s0, run, s) && k in s.sync && Copying(c, k, s.sync[k])
    ensures Leads(SafeBinds, c, s0, run', t) && At(t, k, AtTimer(None)) && t == s.(sync := t.sync)
  {
    run', t := run, s;
    if s.sync[k].HaveApi? {
      run', t := OnWork(SafeBinds, c, s0, run, s, k, CheckApi(false));
    }
  }

  lemma {:induction false} CopyLost(c: Config, s0: State, run: seq<Label>, s: State, k: Key)
    returns (run': seq<Label>, t: State)
    requires Leads(SafeBinds, c, s0, run, s) && Overlooked(c, s, k) && At(s, k, AtTimer(None)) && s.notices == []
    requires !Watched(s.watch, k) && k !in s.store
    ensures Leads(SafeBinds, c, s0, run', t) && Lost(c, t, k)
  {
    run', t := OnWork(SafeBinds, c, s0, run, s, k, ReadTimer);
  }

  /** The worker still carries a copy of the earlier object, and creates a timer for it. */
  lemma {:induction false} StaleCopy(c: Config, s0: State, run: seq<Label>, s: State, k: Key)
    returns (run': seq<Label>, t: State)
    requires Leads(SafeBinds, c, s0, run, s) && Overlooked(c, s, k) && k in s.sync && Copying(c, k, s.sync[k])
    requires !Watched(s.watch, k) && k !in s.store
    ensures Leads(SafeBinds, c, s0, run', t) && Stuck(c, t, k)
  {
    run', t := PassChecks(c, s0, run, s, k);
    run', t := Drain(SafeBinds, c, s0, run', t, k);
    run', t := CopyLost(c, s0, run', t, k);
    run', t := LostGetsStuck(c, s0, run', t, k);
  }

  lemma RescueShifts(notices: seq<Notice>, k: Key)
    requires notices != [] && Rescued(notices[1..], false, k)
    ensures Rescued(notices, true, k)
  {
    var rest := notices[1..];
    var i, j :| 0 <= i < j < |rest| && rest[i].key == k && rest[i].isDelete && rest[j].key == k && !rest[j].isDelete;
    assert notices[i + 1] == rest[i] && notices[j + 1] == rest[j];
  }

  lemma AddStep(s: State, l: InformAct, k: Key)
    requires InformEnabled(s, l) && !l.Deliver? && k in s.timers && !Rescued(s.notices, s.midNotice, k)
    requires AddPending(s.notices, s.midNotice, k)
    ensures var t := DoInform(s, l); k in t.timers && !Rescued(t.notices, t.midNotice, k)
  {
    if l.HandleFirst? {
      assert !(s.notices[0].key == k && s.notices[0].isDelete);
    } else if Rescued(s.notices[1..], false, k) {
      RescueShifts(s.notices, k);
    }
  }

  /** The handler enqueues the key as often as it is going to, without touching its timer. */
  lemma {:induction false} AddsHandled(c: Config, s0: State, run: seq<Label>, s: State, k: Key)
    returns (run': seq<Label>, t: State)
    requires Leads(SafeBinds, c, s0, run, s) && k in s.timers && !Rescued(s.notices, s.midNotice, k)
    ensures Leads(SafeBinds, c, s0, run', t) && InformFrame(s, t, k) && t.watch == s.watch && t.store == s.store
    ensures k in t.timers && !AddPending(t.notices, t.midNotice, k)
    decreases 2 * |s.notices| + if s.midNotice then 0 else 1
  {
    if !AddPending(s.notices, s.midNotice, k) {
      run', t := run, s;
    } else {
      var l := if s.midNotice then HandleSecond else HandleFirst;
      AddStep(s, l, k);
      DrainStep(s, l, k);
      var r, u := OnInform(SafeBinds, c, s0, run, s, l);
      run', t := AddsHandled(c, s0, r, u, k);
    }
  }

  /** A timer is left that nobody is going to remove in time. */
  lemma {:induction false} StaleTimer(c: Config, s0: State, run: seq<Label>, s: State, k: Key)
    returns (run': seq<Label>, t: State)
    requires Leads(SafeBinds, c, s0, run, s) && Overlooked(c, s, k) && !Watched(s.watch, k) && k !in s.store
    requires k in s.timers && !At(s, k, RemoveTimer) && !Rescued(s.notices, s.midNotice, k)
    ensures Leads(SafeBinds, c, s0, run', t) && Stuck(c, t, k)
  {
    run', t := AddsHandled(c, s0, run, s, k);
    run', t := LostGetsStuck(c, s0, run', t, k);
  }

  lemma IgnoredLater(c: Config, s: State, t: State, k: Key)
    requires t == s.(clock := t.clock) && (k in s.sync && s.sync[k].Waiting? ==> s.sync[k].readyTime <= t.clock)
    requires BoundOnly(c, s, k) && k !in s.exposing && Clean(c, s, k) && !Followed(s, k)
    ensures Ignored(c, t, k)
  {
  }

  /** The bind found an entry that nobody is going to look at. */
  lemma {:induction false} StaleEntry(c: Config, s: State, k: Key) returns (run: seq<Label>, t: State)
    requires BoundOnly(c, s, k) && k !in s.exposing && Clean(c, s, k) && !Followed(s, k)
    ensures Leads(SafeBinds, c, s, run, t) && Stuck(c, t, k)
  {
    Stay(SafeBinds, c, s);
    run, t := Wait(SafeBinds, c, s, [], s, if k in s.sync && s.sync[k].Waiting? then Max(0, s.sync[k].readyTime - s.clock) else 0);
    IgnoredLater(c, s, t, k);
    run, t := IgnoredGetsStuck(c, s, run, t, k);
  }

  // ----- the exact condition

  /** A bind of a deleted key is about to succeed. */
  predicate Offered(c: Config, s: State, id: nat) {
    && RpcEnabled(s, BindInsert(id)) && BoundKey(s, id) in s.gone && BoundKey(s, id) !in s.api
    && c.template(BoundKey(s, id)) && c.responsible(BoundKey(s, id))
  }

  /** What a successful bind of a deleted key changes. */
  lemma BindFacts(c: Config, s: State, id: nat) returns (t: State)
    requires Basic(c, s) && Offered(c, s, id)
    ensures t == DoRpc(s, BindInsert(id)) && Consistent(t) && BoundOnly(c, t, BoundKey(s, id))
    ensures t == s.(binders := t.binders, cache := t.cache, accepted := t.accepted, gone := t.gone, history := t.history)
    ensures BoundKey(s, id).name in t.cache && t.cache[BoundKey(s, id).name].key == BoundKey(s, id)
    ensures BoundKey(s, id).name in s.cache && !BindPending(s.binders, BoundKey(s, id)) ==> !BindPending(t.binders, BoundKey(s, id))
  {
    t := DoRpc(s, BindInsert(id));
    var k := BoundKey(s, id);
    assert WellNamed(c, k) && (k.name in s.cache ==> s.cache[k.name].key == k);
    forall i | i in t.binders && i != id ensures i in s.binders && t.binders[i] == s.binders[i] {}
  }

  /** The state after an unsafe bind. */
  predicate Unsafe(c: Config, s: State, k: Key) {
    && BoundOnly(c, s, k) && !Exposes(s, k) && (Clean(c, s, k) ==> !Followed(s, k))
    && k.name in s.cache && s.cache[k.name].key == k
  }

  lemma UnsafeAfter(c: Config, s: State, t: State, k: Key)
    requires !SafeBind(c, s, k) && BoundOnly(c, t, k)
    requires t.store == s.store && t.watch == s.watch && t.notices == s.notices && t.midNotice == s.midNotice
    requires t.sync == s.sync && t.timers == s.timers
    requires t.exposing == s.exposing && t.dirty == s.dirty && t.delayed == s.delayed
    requires k.name in s.cache && !BindPending(s.binders, k) ==> !BindPending(t.binders, k)
    requires k.name in t.cache && t.cache[k.name].key == k
    ensures Unsafe(c, t, k)
  {
  }

  /** Without undelivered events of the key. */
  lemma {:induction false} UnwatchedSticks(c: Config, s0: State, run: seq<Label>, s: State, k: Key)
    returns (run': seq<Label>, t: State)
    requires Leads(SafeBinds, c, s0, run, s) && Overlooked(c, s, k) && !Watched(s.watch, k) && k !in s.store && !Clean(c, s, k)
    ensures Leads(SafeBinds, c, s0, run', t) && Stuck(c, t, k)
  {
    if DropPending(s.notices, k) {
      run', t := StaleNotice(c, s0, run, s, k);
    } else if k in s.sync && Copying(c, k, s.sync[k]) {
      run', t := StaleCopy(c, s0, run, s, k);
    } else {
      run', t := StaleTimer(c, s0, run, s, k);
    }
  }

  lemma SettledClean(c: Config, s: State, t: State, k: Key)
    requires t == s.(binders := t.binders, dirty := t.dirty)
    ensures (Clean(c, t, k) <==> Clean(c, s, k)) && (Exposes(t, k) <==> Exposes(s, k))
  {
  }

  lemma {:induction false} SettledSticks(c: Config, s: State, k: Key) returns (run: seq<Label>, t: State)
    requires Consistent(s) && BoundOnly(c, s, k) && !Exposes(s, k) && k.name in s.cache && s.cache[k.name].key == k
    requires !Clean(c, s, k)
    ensures Leads(SafeBinds, c, s, run, t) && Stuck(c, t, k)
  {
    Stay(SafeBinds, c, s);
    run, t := Settle(SafeBinds, c, s, [], s, k);
    SettledClean(c, s, t, k);
    if Watched(t.watch, k) {
      run, t := StaleEvents(c, s, run, t, k);
    } else {
      ReplayUntouched(t.store, t.watch, k);
      run, t := UnwatchedSticks(c, s, run, t, k);
    }
  }

  lemma {:induction false} UnsafeSticks(c: Config, s: State, k: Key) returns (run: seq<Label>, t: State)
    requires Consistent(s) && Unsafe(c, s, k)
    ensures Leads(SafeBinds, c, s, run, t) && Stuck(c, t, k)
  {
    if Clean(c, s, k) {
      run, t := StaleEntry(c, s, k);
    } else {
      run, t := SettledSticks(c, s, k);
    }
  }

  /** After an unsafe bind the pod can get stuck. */
  lemma {:induction false} UnsafeGetsStuck(c: Config, s: State, id: nat) returns (more: seq<Label>, t: State)
    requires Basic(c, s) && Offered(c, s, id) && !SafeBind(c, s, BoundKey(s, id))
    ensures Leads(SafeBinds, c, DoRpc(s, BindInsert(id)), more, t) && Stuck(c, t, BoundKey(s, id))
  {
    var s0 := BindFacts(c, s, id);
    UnsafeAfter(c, s, s0, BoundKey(s, id));
    more, t := UnsafeSticks(c, s0, BoundKey(s, id));
  }

  /** In no run from here on does the pod get stuck. */
  ghost predicate NeverSticks(c: Config, s: State, k: Key) {
    forall more, t | Leads(SafeBinds, c, s, more, t) :: !Stuck(c, t, k)
  }

  lemma {:induction false} SafeNeverSticks(c: Config, s: State, id: nat)
    requires RpcEnabled(s, BindInsert(id)) && Inv(c, s, BoundKey(s, id)) && SafeBind(c, s, BoundKey(s, id))
    ensures NeverSticks(c, DoRpc(s, BindInsert(id)), BoundKey(s, id))
  {
    var k, u := BoundKey(s, id), DoRpc(s, BindInsert(id));
    StepKept(c, s, Rpc(BindInsert(id)), k);
    forall more, t | Leads(SafeBinds, c, u, more, t) ensures !Stuck(c, t, k) {
      RunKept(c, u, more, t, k);
      NotStuck(c, t, k);
    }
  }

  /** When a rebound pod gets stuck: from every reachable state in which a bind of a deleted key
      without an API object is about to succeed, the new pod never gets stuck if and only if the
      bind is safe.  Later binds of deleted keys are safe ones. */
  lemma {:induction false} RebindExact(c: Config, run: seq<Label>, s: State, id: nat)
    requires Leads(SafeBinds, c, Init, run, s) && Offered(c, s, id)
    ensures SafeBind(c, s, BoundKey(s, id)) <==> NeverSticks(c, DoRpc(s, BindInsert(id)), BoundKey(s, id))
  {
    RunKept(c, Init, run, s, BoundKey(s, id));
    if SafeBind(c, s, BoundKey(s, id)) {
      SafeNeverSticks(c, s, id);
    } else {
      var more, t := UnsafeGetsStuck(c, s, id);
    }
  }

  /** An unsafe bind, and the run after it that leaves the pod stuck. */
  lemma {:induction false} StuckRun(c: Config, run: seq<Label>, s: State, id: nat) returns (whole: seq<Label>, t: State)
    requires Leads(SafeBinds, c, Init, run, s) && Offered(c, s, id) && !SafeBind(c, s, BoundKey(s, id))
    ensures Leads(Named, c, Init, whole, t) && Stuck(c, t, BoundKey(s, id))
  {
    RunKept(c, Init, run, s, BoundKey(s, id));
    var more;
    more, t := UnsafeGetsStuck(c, s, id);
    Relax(SafeBinds, c, Init, run, s);
    Relax(SafeBinds, c, DoRpc(s, BindInsert(id)), more, t);
    var u;
    whole, u := ThenRpc(Named, c, Init, run, s, BindInsert(id));
    Extend(Named, c, Init, whole, u, more, t);
    whole := whole + more;
  }
}
