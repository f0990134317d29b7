/**
  The two conditions of KubeletFencing.SnapshotAnswersAll are needed: a bind that finds another
  entry under its name, and an event of another pod with the same name.
*/
module KubeletFencingRuns {
  import opened Wrappers
  import opened Kubelet
  import opened KubeletDrive

  ghost predicate Comes(c: Config, run: seq<Label>, s: State) {
    Leads(Anything, c, Init, run, s)
  }

  /** The history after a handshake of a source for a node with an empty answer. */
  function Shaken(source: string, node: string): seq<Entry> {
    [Installed(source, "epoch"), Snapshot(source, "epoch", node, {})]
  }

  /** A scheduler shakes hands, and locks for a bind. */
  lemma {:induction false} Locks(c: Config, info: PodInfo) returns (run: seq<Label>, s: State)
    ensures Comes(c, run, s)
    ensures s == Init.(hub := map["scheduler" := Hub("epoch", None)], history := Shaken("scheduler", info.node),
                       binders := map[0 := Binder("scheduler", "epoch", info, Locked)])
  {
    Stay(Anything, c, Init);
    run, s := ShakeHands(Anything, c, Init, [], Init, "scheduler", info.node);
    assert OnNode(map[], info.node) == {} && s.history == Shaken("scheduler", info.node);
    run, s := OnRpc(Anything, c, Init, run, s, BindLock(0, "scheduler", "epoch", info));
  }

  /** It binds a pod, which is cached. */
  lemma {:induction false} Binds(c: Config, info: PodInfo) returns (run: seq<Label>, s: State)
    ensures Comes(c, run, s)
    ensures s.hub == map["scheduler" := Hub("epoch", None)] && s.cache == map[info.key.name := info]
    ensures s.binders == map[0 := Binder("scheduler", "epoch", info, Inserted)] && s.watch == [] && s.notices == []
    ensures s.history == Shaken("scheduler", info.node) + [Accepted("scheduler", "epoch", info, info)]
    ensures s.api == map[] && !s.midNotice
  {
    run, s := Locks(c, info);
    run, s := ThenRpc(Anything, c, Init, run, s, BindInsert(0));
  }

  lemma {:induction false} LocksAgain(c: Config, k: Key, a: string, b: string) returns (run: seq<Label>, s: State)
    ensures Comes(c, run, s) && s.cache == map[k.name := PodInfo(k, a)] && "controller" !in s.hub
    ensures s.binders == map[0 := Binder("scheduler", "epoch", PodInfo(k, a), Inserted),
                             1 := Binder("scheduler", "epoch", PodInfo(k, b), Locked)]
    ensures s.history == Shaken("scheduler", a) + [Accepted("scheduler", "epoch", PodInfo(k, a), PodInfo(k, a))]
  {
    run, s := Binds(c, PodInfo(k, a));
    run, s := ThenRpc(Anything, c, Init, run, s, BindLock(1, "scheduler", "epoch", PodInfo(k, b)));
  }

  /** A second bind of the name, for another node, finds that entry and succeeds as well. */
  lemma {:induction false} BindsAgain(c: Config, k: Key, a: string, b: string) returns (run: seq<Label>, s: State)
    ensures Comes(c, run, s) && s.cache == map[k.name := PodInfo(k, a)] && "controller" !in s.hub
    ensures forall id | id in s.binders :: s.binders[id].source == "scheduler"
    ensures s.history == Shaken("scheduler", a) + [Accepted("scheduler", "epoch", PodInfo(k, a), PodInfo(k, a)),
                                                   Accepted("scheduler", "epoch", PodInfo(k, b), PodInfo(k, a))]
  {
    run, s := LocksAgain(c, k, a, b);
    run, s := ThenRpc(Anything, c, Init, run, s, BindInsert(1));
  }

  /** Two nodes: the second bind succeeds, is never dropped, and is missing in the snapshot. */
  lemma {:induction false} TwoNodes(c: Config, k: Key, a: string, b: string) returns (run: seq<Label>, s: State)
    requires a != b
    ensures Leads(Anything, c, Init, run, s) && |s.history| == 6
    ensures s.history[3] == Accepted("scheduler", "epoch", PodInfo(k, b), PodInfo(k, a))
    ensures s.history[5] == Snapshot("controller", "epoch", b, {})
    ensures forall m | 0 <= m < |s.history| :: !s.history[m].Dropped?
  {
    run, s := BindsAgain(c, k, a, b);
    var cache := s.cache;
    run, s := ShakeHands(Anything, c, Init, run, s, "controller", b);
    assert OnNode(cache, b) == {};
  }

  /** A managed pod with the same name appears in another namespace. */
  lemma {:induction false} Appears(c: Config, info: PodInfo, k: Key) returns (run: seq<Label>, s: State)
    ensures Comes(c, run, s)
    ensures s.hub == map["scheduler" := Hub("epoch", None)] && s.cache == map[info.key.name := info]
    ensures s.binders == map[0 := Binder("scheduler", "epoch", info, Inserted)]
    ensures s.notices == [Notice(k, Exposed, false)] && !s.midNotice
    ensures s.history == Shaken("scheduler", info.node) + [Accepted("scheduler", "epoch", info, info), Born(k)]
  {
    run, s := Binds(c, info);
    run, s := ThenWorld(Anything, c, Init, run, s, ApiCreate(k, Exposed));
    run, s := OnInform(Anything, c, Init, run, s, Deliver);
  }

  /** Its event drops the bound pod from the cache. */
  lemma {:induction false} Evicts(c: Config, info: PodInfo, k: Key) returns (run: seq<Label>, s: State)
    requires k.name == info.key.name
    ensures Comes(c, run, s) && s.hub == map["scheduler" := Hub("epoch", None)] && s.cache == map[]
    ensures s.binders == map[0 := Binder("scheduler", "epoch", info, Inserted)]
    ensures s.history == Shaken("scheduler", info.node) + [Accepted("scheduler", "epoch", info, info), Born(k), Dropped(k)]
  {
    run, s := Appears(c, info, k);
    run, s := OnInform(Anything, c, Init, run, s, HandleFirst);
    run, s := OnInform(Anything, c, Init, run, s, HandleSecond);
    assert s.cache == map[];
  }

  /** Two namespaces: the bind succeeds, no event of its pod is delivered, and it is missing in
      the snapshot for its node. */
  lemma {:induction false} TwoNamespaces(c: Config, info: PodInfo, ns: string) returns (run: seq<Label>, s: State)
    requires ns != info.key.ns
    ensures Leads(Anything, c, Init, run, s) && |s.history| == 7
    ensures s.history[2] == Accepted("scheduler", "epoch", info, info)
    ensures s.history[6] == Snapshot("controller", "epoch", info.node, {})
    ensures forall m | 0 <= m < |s.history| :: s.history[m] != Dropped(info.key)
  {
    run, s := Evicts(c, info, Key(ns, info.key.name));
    run, s := ShakeHands(Anything, c, Init, run, s, "controller", info.node);
  }
}
