/**
  Progress: from every reachable state in which a pod is bound or in the API server but not
  ready yet, the kubelet's own parties can make it ready without anybody's help.
*/
module KubeletRecovery {
  import opened Wrappers
  import opened Kubelet
  import opened KubeletNoStuck
  import opened KubeletDrive

  /** The worker is going to delete the API object. */
  predicate Condemned(s: State, k: Key) {
    k in s.sync && (s.sync[k] == Deleting || (s.sync[k].HaveApi? && s.sync[k].pod.deleting))
  }

  // ----- a pod that is not in the API server

  lemma {:induction false} EnqueuedBind(c: Config, s0: State, run: seq<Label>, s: State, k: Key)
    returns (run': seq<Label>, t: State)
    requires Leads(Recovery(k), c, s0, run, s) && BindPending(s.binders, k)
    ensures Leads(Recovery(k), c, s0, run', t) && k in t.dirty
    ensures t == s.(binders := t.binders, dirty := t.dirty)
  {
    var id :| id in s.binders && s.binders[id].point == Inserted && s.binders[id].info.key == k;
    run', t := ThenRpc(Recovery(k), c, s0, run, s, BindEnqueue(id));
  }

  lemma {:induction false} EnqueuedLate(c: Config, s0: State, run: seq<Label>, s: State, k: Key)
    returns (run': seq<Label>, t: State)
    requires Leads(Recovery(k), c, s0, run, s) && k in s.delayed
    ensures Leads(Recovery(k), c, s0, run', t) && k in t.dirty
    ensures t == s.(dirty := t.dirty, delayed := t.delayed)
  {
    run', t := ThenWork(Recovery(k), c, s0, run, s, k, Fire);
  }

  /** A followed key becomes dirty. */
  lemma {:induction false} Enqueued(c: Config, s0: State, run: seq<Label>, s: State, k: Key)
    returns (run': seq<Label>, t: State)
    requires Leads(Recovery(k), c, s0, run, s) && Followed(s, k) && k !in s.sync && s.notices == []
    ensures Leads(Recovery(k), c, s0, run', t) && k in t.dirty
    ensures t == s.(binders := t.binders, dirty := t.dirty, delayed := t.delayed)
  {
    if k in s.dirty {
      run', t := run, s;
    } else if k in s.delayed {
      run', t := EnqueuedLate(c, s0, run, s, k);
    } else {
      run', t := EnqueuedBind(c, s0, run, s, k);
    }
  }

  /** A cached pod without a ready timer is found by a worker. */
  lemma {:induction false} FoundInCache(c: Config, s0: State, run: seq<Label>, s: State, k: Key)
    returns (run': seq<Label>, t: State)
    requires Leads(Recovery(k), c, s0, run, s) && k in s.dirty && k !in s.sync && k !in s.store
    requires k.name in s.cache && s.cache[k.name].key == k && c.template(k) && c.responsible(k)
    ensures Leads(Recovery(k), c, s0, run', t) && At(t, k, AtTimer(Some(s.cache[k.name])))
    ensures t == s.(dirty := t.dirty, sync := t.sync)
  {
    run', t := ThenWork(Recovery(k), c, s0, run, s, k, Get);
    run', t := ThenWork(Recovery(k), c, s0, run', t, k, ReadStore);
    run', t := ThenWork(Recovery(k), c, s0, run', t, k, ReadCache(false));
  }

  /** Its exposure starts, and the worker returns the key. */
  lemma {:induction false} ExposureStarts(c: Config, s0: State, run: seq<Label>, s: State, k: Key, info: PodInfo)
    returns (run': seq<Label>, t: State)
    requires Leads(Recovery(k), c, s0, run, s) && At(s, k, AtTimer(Some(info))) && info.key == k && k !in s.timers && k !in s.api
    ensures Leads(Recovery(k), c, s0, run', t) && k in t.exposing && k !in t.api && k !in t.sync
  {
    run', t := ThenWork(Recovery(k), c, s0, run, s, k, ReadTimer);
    run', t := ThenWork(Recovery(k), c, s0, run', t, k, CheckWait);
    run', t := ThenWork(Recovery(k), c, s0, run', t, k, Done);
  }

  /** A bound pod that is not in the API server comes to be exposed. */
  lemma {:induction false} GetsExposing(c: Config, s0: State, k: Key) returns (run: seq<Label>, t: State)
    requires Inv(c, s0, k) && BoundOnly(c, s0, k)
    ensures Leads(Recovery(k), c, s0, run, t) && k in t.exposing && k !in t.api && k !in t.sync
  {
    Stay(Recovery(k), c, s0);
    run, t := Flush(Recovery(k), c, s0, [], s0, k);
    run, t := ReturnAway(Recovery(k), c, s0, run, t, k);
    Relax(Recovery(k), c, s0, run, t);
    RunKept(c, s0, run, t, k);
    if k !in t.exposing {
      assert Clean(c, t, k) && k !in t.timers;
      assert t.cache[k.name].key == k;
      run, t := Enqueued(c, s0, run, t, k);
      var info := t.cache[k.name];
      run, t := FoundInCache(c, s0, run, t, k);
      run, t := ExposureStarts(c, s0, run, t, k, info);
    }
  }

  /** It reaches the API server. */
  lemma {:induction false} GetsExposed(c: Config, s0: State, k: Key) returns (run: seq<Label>, t: State)
    requires Inv(c, s0, k) && BoundOnly(c, s0, k)
    ensures Leads(Recovery(k), c, s0, run, t) && k in t.api && Obliged(c, k, t.api[k]) && k !in t.sync
  {
    run, t := GetsExposing(c, s0, k);
    run, t := ThenWorld(Recovery(k), c, s0, run, t, ExposeTry(k, false));
  }

  // ----- a pod that is in the API server

  predicate Ready(s: State, k: Key) {
    k in s.api && s.api[k].ready
  }

  /** The informer has caught up on an unready pod that nobody is about to delete. */
  predicate Steady(c: Config, s: State, k: Key) {
    && k in s.api && Obliged(c, k, s.api[k]) && k in s.store && s.store[k] == s.api[k]
    && s.watch == [] && s.notices == [] && !Condemned(s, k)
  }

  lemma SmoothSteady(c: Config, s: State, k: Key, l: WorkAct)
    requires k in s.sync && Steady(c, s, k) && l == Smooth(s, k) && WorkEnabled(s, k, l)
    ensures Ready(DoWork(c, s, k, l), k) || Steady(c, DoWork(c, s, k, l), k)
  {
  }

  lemma {:induction false} StepOn(c: Config, s0: State, run: seq<Label>, s: State, k: Key)
    returns (run': seq<Label>, t: State)
    requires Leads(Recovery(k), c, s0, run, s) && k in s.sync && Steady(c, s, k)
    ensures Leads(Recovery(k), c, s0, run', t) && (Ready(t, k) || Steady(c, t, k))
    ensures k in t.sync ==> Distance(t.sync[k]) < Distance(s.sync[k])
  {
    var l := Smooth(s, k);
    SmoothAllowed(Recovery(k), c, s, k);
    Closer(c, s, k, l);
    SmoothSteady(c, s, k, l);
    run', t := ThenWork(Recovery(k), c, s0, run, s, k, l);
  }

  /** The worker returns the key, unless it makes the pod ready. */
  lemma {:induction false} ReturnOn(c: Config, s0: State, run: seq<Label>, s: State, k: Key)
    returns (run': seq<Label>, t: State)
    requires Leads(Recovery(k), c, s0, run, s) && Steady(c, s, k)
    ensures Leads(Recovery(k), c, s0, run', t) && (Ready(t, k) || (Steady(c, t, k) && k !in t.sync))
    decreases if k in s.sync then Distance(s.sync[k]) else 0
  {
    if k !in s.sync {
      run', t := run, s;
    } else {
      var r, u := StepOn(c, s0, run, s, k);
      if Ready(u, k) {
        run', t := r, u;
      } else {
        run', t := ReturnOn(c, s0, r, u, k);
      }
    }
  }

  /** A worker takes the key and comes to its ready timer. */
  lemma {:induction false} FoundInStore(c: Config, s0: State, run: seq<Label>, s: State, k: Key)
    returns (run': seq<Label>, t: State)
    requires Leads(Recovery(k), c, s0, run, s) && Steady(c, s, k) && k in s.dirty && k !in s.sync
    ensures Leads(Recovery(k), c, s0, run', t) && At(t, k, AtTimer(None)) && k in t.api
  {
    run', t := ThenWork(Recovery(k), c, s0, run, s, k, Get);
    run', t := ThenWork(Recovery(k), c, s0, run', t, k, ReadStore);
    run', t := ThenWork(Recovery(k), c, s0, run', t, k, CheckApi(false));
  }

  /** It waits for the ready delay to pass. */
  lemma {:induction false} Waited(c: Config, s0: State, run: seq<Label>, s: State, k: Key)
    returns (run': seq<Label>, t: State)
    requires Leads(Recovery(k), c, s0, run, s) && At(s, k, AtTimer(None)) && k in s.api
    ensures Leads(Recovery(k), c, s0, run', t) && k in t.sync && t.sync[k].Waiting? && !t.sync[k].inMem
    ensures t.sync[k].readyTime <= t.clock && k in t.api
  {
    run', t := ThenWork(Recovery(k), c, s0, run, s, k, ReadTimer);
    run', t := ThenWorld(Recovery(k), c, s0, run', t, Tick(Max(0, t.timers[k] - t.clock)));
  }

  /** Then it marks the pod ready. */
  lemma {:induction false} Marked(c: Config, s0: State, run: seq<Label>, s: State, k: Key)
    returns (run': seq<Label>, t: State)
    requires Leads(Recovery(k), c, s0, run, s) && At(s, k, AtTimer(None)) && k in s.api
    ensures Leads(Recovery(k), c, s0, run', t) && Ready(t, k)
  {
    run', t := Waited(c, s0, run, s, k);
    run', t := ThenWork(Recovery(k), c, s0, run', t, k, CheckWait);
    run', t := ThenWork(Recovery(k), c, s0, run', t, k, MarkReady(false));
  }

  lemma {:induction false} GetsReady(c: Config, s0: State, run: seq<Label>, s: State, k: Key)
    returns (run': seq<Label>, t: State)
    requires Leads(Recovery(k), c, s0, run, s) && Inv(c, s0, k)
    requires k in s.api && Obliged(c, k, s.api[k]) && !Condemned(s, k)
    ensures Leads(Recovery(k), c, s0, run', t) && Ready(t, k)
  {
    Relax(Recovery(k), c, s0, run, s);
    RunKept(c, s0, run, s, k);
    run', t := Flush(Recovery(k), c, s0, run, s, k);
    run', t := ReturnOn(c, s0, run', t, k);
    if !Ready(t, k) {
      Relax(Recovery(k), c, s0, run', t);
      RunKept(c, s0, run', t, k);
      run', t := Enqueued(c, s0, run', t, k);
      run', t := FoundInStore(c, s0, run', t, k);
      run', t := Marked(c, s0, run', t, k);
    }
  }

  // ----- the theorem

  /** Progress: whenever a pod is not ready yet, there is a run of the informer, of its worker,
      of pending binds and of its exposure, in which nothing fails and after which it is ready;
      except if the worker is already about to delete its API object. */
  lemma {:induction false} CanBecomeReady(c: Config, run: seq<Label>, s: State, k: Key) returns (more: seq<Label>, t: State)
    requires Leads(SafeBinds, c, Init, run, s) && NotReadyYet(c, s, k) && (k in s.api ==> !Condemned(s, k))
    ensures Leads(Recovery(k), c, s, more, t) && Ready(t, k)
  {
    RunKept(c, Init, run, s, k);
    Stay(Recovery(k), c, s);
    more, t := [], s;
    if k !in s.api {
      more, t := GetsExposed(c, s, k);
    }
    more, t := GetsReady(c, s, more, t, k);
  }

  // ----- the exception

  /** The object is as it was, and the worker is going to delete it. */
  predicate Dying(pod: ApiPod, t: State, k: Key) {
    k in t.api && t.api[k] == pod && Condemned(t, k)
  }

  lemma DyingWork(c: Config, pod: ApiPod, t: State, l: WorkAct, k: Key)
    requires Dying(pod, t, k) && WorkEnabled(t, k, l) && Recovers(t, k, Work(k, l)) && c.responsible(k)
    ensures l == ForceDelete(false) || Dying(pod, DoWork(c, t, k, l), k)
  {
  }

  /** Condemnation only looks at these. */
  lemma DyingSame(pod: ApiPod, t: State, u: State, k: Key)
    requires Dying(pod, t, k) && u.sync == t.sync && k in u.api && u.api[k] == t.api[k]
    ensures Dying(pod, u, k)
  {
  }

  lemma DyingWorld(pod: ApiPod, t: State, l: WorldAct, k: Key)
    requires Dying(pod, t, k) && WorldEnabled(t, l) && Recovers(t, k, World(l))
    ensures Dying(pod, DoWorld(t, l), k)
  {
    DyingSame(pod, t, DoWorld(t, l), k);
  }

  lemma DyingInform(pod: ApiPod, t: State, l: InformAct, k: Key)
    requires Dying(pod, t, k) && InformEnabled(t, l)
    ensures Dying(pod, DoInform(t, l), k)
  {
    DyingSame(pod, t, DoInform(t, l), k);
  }

  lemma DyingEnqueue(pod: ApiPod, t: State, id: nat, k: Key)
    requires Dying(pod, t, k) && RpcEnabled(t, BindEnqueue(id))
    ensures Dying(pod, DoRpc(t, BindEnqueue(id)), k)
  {
    DyingSame(pod, t, DoRpc(t, BindEnqueue(id)), k);
  }

  lemma DyingStep(c: Config, pod: ApiPod, t: State, l: Label, k: Key)
    requires Dying(pod, t, k) && Enabled(t, l) && Recovers(t, k, l) && c.responsible(k)
    ensures l == Work(k, ForceDelete(false)) || Dying(pod, Do(c, t, l), k)
  {
    match l
    case World(a) => DyingWorld(pod, t, a, k);
    case Inform(a) => DyingInform(pod, t, a, k);
    case Rpc(a) => DyingEnqueue(pod, t, a.id, k);
    case Work(_, a) => DyingWork(c, pod, t, a, k);
  }

  /** The deletion takes effect at once. */
  lemma DyingGone(c: Config, t: State, k: Key)
    requires Enabled(t, Work(k, ForceDelete(false)))
    ensures k !in Do(c, t, Work(k, ForceDelete(false))).api
  {
  }

  /** The run has deleted the object: right after one of its actions it is gone. */
  ghost predicate Deletes(c: Config, s: State, more: seq<Label>, k: Key) {
    exists n, u :: 0 < n <= |more| && more[n - 1] == Work(k, ForceDelete(false))
      && Leads(Recovery(k), c, s, more[..n], u) && k !in u.api
  }

  lemma {:induction false} DeletesFirst(c: Config, s: State, more: seq<Label>, k: Key)
    requires more != [] && more[0] == Work(k, ForceDelete(false)) && Enabled(s, more[0]) && Allowed(Recovery(k), c, s, more[0])
    ensures Deletes(c, s, more, k)
  {
    One(Recovery(k), c, s, more[0]);
    DyingGone(c, s, k);
    assert more[..1] == [more[0]];
  }

  lemma {:induction false} DeletesLater(c: Config, s: State, more: seq<Label>, k: Key)
    requires more != [] && Enabled(s, more[0]) && Allowed(Recovery(k), c, s, more[0])
    requires Deletes(c, Do(c, s, more[0]), more[1..], k)
    ensures Deletes(c, s, more, k)
  {
    var s1, rest := Do(c, s, more[0]), more[1..];
    var n, u :| 0 < n <= |rest| && rest[n - 1] == Work(k, ForceDelete(false))
      && Leads(Recovery(k), c, s1, rest[..n], u) && k !in u.api;
    One(Recovery(k), c, s, more[0]);
    Extend(Recovery(k), c, s, [more[0]], s1, rest[..n], u);
    assert [more[0]] + rest[..n] == more[..n + 1] && more[n] == rest[n - 1];
  }

  /** The exception is exact: while the worker is about to delete the object, every such run
      deletes it, so that it is gone, or leaves it as it is, unready. */
  lemma {:induction false} CondemnedDies(c: Config, s: State, pod: ApiPod, more: seq<Label>, t: State, k: Key)
    requires k in s.api && s.api[k] == pod && Condemned(s, k) && c.responsible(k) && Leads(Recovery(k), c, s, more, t)
    ensures Deletes(c, s, more, k) || (k in t.api && t.api[k] == pod && Condemned(t, k))
    decreases |more|
  {
    if more != [] {
      Tail(Recovery(k), c, s, more, t);
      DyingStep(c, pod, s, more[0], k);
      if more[0] == Work(k, ForceDelete(false)) {
        DeletesFirst(c, s, more, k);
      } else {
        CondemnedDies(c, Do(c, s, more[0]), pod, more[1..], t, k);
        if Deletes(c, Do(c, s, more[0]), more[1..], k) {
          DeletesLater(c, s, more, k);
        }
      }
    }
  }
}
