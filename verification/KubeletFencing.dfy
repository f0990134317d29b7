/**
  Epoch fencing of BindPod by Handshake, what a handshake answers, and the ready delay across
  the hand-off.  All of it holds on every run, whatever the outside world does, except where
  names are said to be unique.
*/
module KubeletFencing {
  import opened Wrappers
  import opened Kubelet
  import opened KubeletNames

  // ----- epochs

  /** The epoch most recently installed for a source. */
  function LastEpoch(h: seq<Entry>, source: string): Option<string> {
    if h == [] then None
    else
      var e := h[|h| - 1];
      if e.Installed? && e.source == source then Some(e.epoch) else LastEpoch(h[..|h| - 1], source)
  }

  /** Entries that carry an epoch carry the one in force. */
  ghost predicate EpochsInForce(h: seq<Entry>, source: string) {
    forall j | 0 <= j < |h| && (h[j].Accepted? || h[j].Snapshot?) && h[j].source == source ::
      LastEpoch(h[..j], source) == Some(h[j].epoch)
  }

  ghost predicate BindersInForce(binders: map<nat, Binder>, hub: map<string, Hub>) {
    forall id | id in binders ::
      && binders[id].source in hub && hub[binders[id].source].epoch == binders[id].epoch
      && hub[binders[id].source].holder.None?
  }

  ghost predicate HubInForce(h: seq<Entry>, hub: map<string, Hub>, source: string) {
    source in hub ==> LastEpoch(h, source) == Some(hub[source].epoch)
  }

  ghost predicate EpochInv(s: State, source: string) {
    BindersInForce(s.binders, s.hub) && HubInForce(s.history, s.hub, source) && EpochsInForce(s.history, source)
  }

  lemma {:induction false} EpochsAppend(h: seq<Entry>, e: Entry, source: string)
    requires EpochsInForce(h, source)
    requires (e.Accepted? || e.Snapshot?) && e.source == source ==> LastEpoch(h, source) == Some(e.epoch)
    ensures EpochsInForce(h + [e], source)
    ensures LastEpoch(h + [e], source) == if e.Installed? && e.source == source then Some(e.epoch) else LastEpoch(h, source)
  {
    assert (h + [e])[..|h|] == h;
    forall j | 0 <= j < |h| ensures (h + [e])[j] == h[j] && (h + [e])[..j] == h[..j] {}
  }

  /** At most one entry is added, and it is not about epochs. */
  predicate Unrelated(h: seq<Entry>, h': seq<Entry>) {
    h' == h || (h' != [] && h' == h + [h'[|h'| - 1]] && !h'[|h'| - 1].Installed? && !h'[|h'| - 1].Snapshot? && !h'[|h'| - 1].Accepted?)
  }

  lemma EpochSame(s: State, s': State, source: string)
    requires EpochInv(s, source) && s'.binders == s.binders && s'.hub == s.hub && Unrelated(s.history, s'.history)
    ensures EpochInv(s', source)
  {
    if s'.history != s.history {
      EpochsAppend(s.history, s'.history[|s'.history| - 1], source);
    }
  }

  lemma EpochRpc(s: State, l: RpcAct, source: string)
    requires RpcEnabled(s, l) && EpochInv(s, source)
    ensures EpochInv(DoRpc(s, l), source)
  {
    if l.BindInsert? || l.HandshakeLock? || l.HandshakeSnapshot? {
      EpochsAppend(s.history, DoRpc(s, l).history[|s.history|], source);
    }
  }

  lemma EpochInform(s: State, l: InformAct, source: string)
    requires InformEnabled(s, l) && EpochInv(s, source)
    ensures EpochInv(DoInform(s, l), source)
  {
    EpochSame(s, DoInform(s, l), source);
  }

  lemma EpochMark(c: Config, s: State, k: Key, l: WorkAct, source: string)
    requires WorkEnabled(s, k, l) && (l.MarkReady? || l.ReadTimer? || l.ForceDelete?) && EpochInv(s, source)
    ensures EpochInv(DoWork(c, s, k, l), source)
  {
    EpochSame(s, DoWork(c, s, k, l), source);
  }

  lemma EpochWork(c: Config, s: State, k: Key, l: WorkAct, source: string)
    requires WorkEnabled(s, k, l) && EpochInv(s, source)
    ensures EpochInv(DoWork(c, s, k, l), source)
  {
    if l.MarkReady? || l.ReadTimer? || l.ForceDelete? {
      EpochMark(c, s, k, l, source);
    }
  }

  lemma EpochWorld(s: State, l: WorldAct, source: string)
    requires WorldEnabled(s, l) && EpochInv(s, source)
    ensures EpochInv(DoWorld(s, l), source)
  {
    EpochSame(s, DoWorld(s, l), source);
  }

  lemma EpochStep(c: Config, s: State, l: Label, source: string)
    requires Enabled(s, l) && EpochInv(s, source)
    ensures EpochInv(Do(c, s, l), source)
  {
    match l
    case World(a) => EpochWorld(s, a, source);
    case Inform(a) => EpochInform(s, a, source);
    case Rpc(a) => EpochRpc(s, a, source);
    case Work(k, a) => EpochWork(c, s, k, a, source);
  }

  lemma {:induction false} EpochRun(c: Config, s: State, run: seq<Label>, t: State, source: string)
    requires Leads(Anything, c, s, run, t) && EpochInv(s, source)
    ensures EpochInv(t, source)
    decreases |run|
  {
    if run != [] {
      Tail(Anything, c, s, run, t);
      EpochStep(c, s, run[0], source);
      EpochRun(c, Do(c, s, run[0]), run[1..], t, source);
    }
  }

  lemma {:induction false} EpochUnchanged(h: seq<Entry>, source: string, i: nat, j: nat)
    requires i <= j <= |h|
    requires forall m | i <= m < j :: !(h[m].Installed? && h[m].source == source)
    ensures LastEpoch(h[..j], source) == LastEpoch(h[..i], source)
  {
    if i < j {
      assert h[..j][..j - 1] == h[..j - 1] && h[..j][j - 1] == h[j - 1];
      EpochUnchanged(h, source, i, j - 1);
    }
  }

  /** Epoch fencing: after a handshake of a source has answered with its snapshot, every bind
      accepted from that source carries the handshake's epoch, until a further handshake of the
      source installs another one. */
  lemma {:induction false} EpochFencing(c: Config, run: seq<Label>, s: State, i: nat, j: nat)
    requires Leads(Anything, c, Init, run, s) && i < j < |s.history|
    requires s.history[i].Snapshot? && s.history[j].Accepted? && s.history[j].source == s.history[i].source
    requires forall m | i < m < j :: !(s.history[m].Installed? && s.history[m].source == s.history[i].source)
    ensures s.history[j].epoch == s.history[i].epoch
  {
    EpochRun(c, Init, run, s, s.history[i].source);
    EpochUnchanged(s.history, s.history[i].source, i, j);
  }

  // ----- snapshots

  predicate DropOf(e: Entry, name: string) {
    e.Dropped? && e.key.name == name
  }

  predicate DroppedBetween(h: seq<Entry>, name: string, i: int, j: int) {
    exists m | i < m < j && 0 <= m < |h| :: DropOf(h[m], name)
  }

  /** A bind that was accepted on this entry finds it there until the name is dropped. */
  predicate Cached(h: seq<Entry>, cache: map<string, PodInfo>, i: int)
    requires 0 <= i < |h| && h[i].Accepted?
  {
    || (h[i].info.key.name in cache && cache[h[i].info.key.name] == h[i].found)
    || DroppedBetween(h, h[i].info.key.name, i, |h|)
  }

  ghost predicate StillCached(h: seq<Entry>, cache: map<string, PodInfo>) {
    forall i | 0 <= i < |h| && h[i].Accepted? :: Cached(h, cache, i)
  }

  /** Unless the name was dropped in between, the snapshot has the bound pod exactly if the bind
      created its entry or found an equal one, on the snapshot's node. */
  ghost predicate Answers(h: seq<Entry>, i: int, j: int)
    requires 0 <= i < j < |h| && h[i].Accepted? && h[j].Snapshot?
  {
    DroppedBetween(h, h[i].info.key.name, i, j)
    || (h[i].info in h[j].pods <==> h[i].found == h[i].info && h[i].info.node == h[j].node)
  }

  ghost predicate SnapshotsExact(h: seq<Entry>) {
    forall i, j | 0 <= i < j < |h| && h[i].Accepted? && h[j].Snapshot? :: Answers(h, i, j)
  }

  ghost predicate CacheByName(cache: map<string, PodInfo>) {
    forall n | n in cache :: cache[n].key.name == n
  }

  ghost predicate CacheInv(s: State) {
    CacheByName(s.cache) && StillCached(s.history, s.cache) && SnapshotsExact(s.history)
  }

  lemma DroppedAppend(h: seq<Entry>, e: Entry, name: string, i: int, j: int)
    requires j <= |h|
    ensures DroppedBetween(h, name, i, j) ==> DroppedBetween(h + [e], name, i, j)
    ensures DroppedBetween(h, name, i, |h|) ==> DroppedBetween(h + [e], name, i, |h| + 1)
    ensures DropOf(e, name) && 0 <= i < |h| ==> DroppedBetween(h + [e], name, i, |h| + 1)
  {
    assert (h + [e])[|h|] == e;
    forall m | 0 <= m < |h| ensures (h + [e])[m] == h[m] {}
  }

  lemma CachedAppend(h: seq<Entry>, e: Entry, before: map<string, PodInfo>, after: map<string, PodInfo>)
    requires StillCached(h, before)
    requires forall n | n in before :: DropOf(e, n) || (n in after && after[n] == before[n])
    requires e.Accepted? ==> e.info.key.name in after && after[e.info.key.name] == e.found
    ensures StillCached(h + [e], after)
  {
    var h' := h + [e];
    forall i | 0 <= i < |h'| && h'[i].Accepted? ensures Cached(h', after, i) {
      if i < |h| {
        assert h'[i] == h[i] && Cached(h, before, i);
        DroppedAppend(h, e, h[i].info.key.name, i, |h|);
      }
    }
  }

  lemma SnapshotOf(cache: map<string, PodInfo>, node: string, info: PodInfo)
    requires CacheByName(cache)
    ensures info in OnNode(cache, node) <==> info.key.name in cache && cache[info.key.name] == info && info.node == node
  {
  }

  lemma ExactAppend(h: seq<Entry>, e: Entry, cache: map<string, PodInfo>)
    requires SnapshotsExact(h) && StillCached(h, cache) && CacheByName(cache)
    requires e.Snapshot? ==> e.pods == OnNode(cache, e.node)
    ensures SnapshotsExact(h + [e])
  {
    var h' := h + [e];
    forall i, j | 0 <= i < j < |h'| && h'[i].Accepted? && h'[j].Snapshot? ensures Answers(h', i, j) {
      assert h'[i] == h[i];
      if j < |h| {
        assert h'[j] == h[j] && Answers(h, i, j);
        DroppedAppend(h, e, h[i].info.key.name, i, j);
      } else {
        assert Cached(h, cache, i);
        DroppedAppend(h, e, h[i].info.key.name, i, |h|);
        SnapshotOf(cache, e.node, h[i].info);
      }
    }
  }

  lemma CacheAppend(s: State, s': State, e: Entry)
    requires CacheInv(s) && s'.history == s.history + [e] && CacheByName(s'.cache)
    requires forall n | n in s.cache :: DropOf(e, n) || (n in s'.cache && s'.cache[n] == s.cache[n])
    requires e.Accepted? ==> e.info.key.name in s'.cache && s'.cache[e.info.key.name] == e.found
    requires e.Snapshot? ==> e.pods == OnNode(s.cache, e.node)
    ensures CacheInv(s')
  {
    CachedAppend(s.history, e, s.cache, s'.cache);
    ExactAppend(s.history, e, s.cache);
  }

  lemma CacheSame(s: State, s': State)
    requires CacheInv(s) && s'.cache == s.cache && Unrelated(s.history, s'.history)
    ensures CacheInv(s')
  {
    if s'.history != s.history {
      CacheAppend(s, s', s'.history[|s'.history| - 1]);
    }
  }

  lemma CacheInform(s: State, l: InformAct)
    requires InformEnabled(s, l) && CacheInv(s)
    ensures CacheInv(DoInform(s, l))
  {
    if l.HandleSecond? && s.notices[0].pod.managed {
      CacheAppend(s, DoInform(s, l), Dropped(s.notices[0].key));
    } else {
      CacheSame(s, DoInform(s, l));
    }
  }

  lemma CacheRpc(s: State, l: RpcAct)
    requires RpcEnabled(s, l) && CacheInv(s)
    ensures CacheInv(DoRpc(s, l))
  {
    var s' := DoRpc(s, l);
    if l.BindInsert? || l.HandshakeLock? || l.HandshakeSnapshot? {
      CacheAppend(s, s', s'.history[|s.history|]);
    } else {
      CacheSame(s, s');
    }
  }

  lemma CacheWork(c: Config, s: State, k: Key, l: WorkAct)
    requires WorkEnabled(s, k, l) && CacheInv(s)
    ensures CacheInv(DoWork(c, s, k, l))
  {
    CacheSame(s, DoWork(c, s, k, l));
  }

  lemma CacheWorld(s: State, l: WorldAct)
    requires WorldEnabled(s, l) && CacheInv(s)
    ensures CacheInv(DoWorld(s, l))
  {
    CacheSame(s, DoWorld(s, l));
  }

  lemma CacheStep(c: Config, s: State, l: Label)
    requires Enabled(s, l) && CacheInv(s)
    ensures CacheInv(Do(c, s, l))
  {
    match l
    case World(a) => CacheWorld(s, a);
    case Inform(a) => CacheInform(s, a);
    case Rpc(a) => CacheRpc(s, a);
    case Work(k, a) => CacheWork(c, s, k, a);
  }

  lemma {:induction false} CacheRun(c: Config, s: State, run: seq<Label>, t: State)
    requires Leads(Anything, c, s, run, t) && CacheInv(s)
    ensures CacheInv(t)
    decreases |run|
  {
    if run != [] {
      Tail(Anything, c, s, run, t);
      CacheStep(c, s, run[0]);
      CacheRun(c, Do(c, s, run[0]), run[1..], t);
    }
  }

  /** What a handshake answers: a pod whose bind succeeded earlier, and whose name no delivered
      event has dropped since, is in the snapshot if and only if the snapshot is for its node
      and the bind created its cache entry or found an equal one. */
  lemma {:induction false} SnapshotExact(c: Config, run: seq<Label>, s: State, i: nat, j: nat)
    requires Leads(Anything, c, Init, run, s) && i < j < |s.history| && s.history[i].Accepted? && s.history[j].Snapshot?
    requires !DroppedBetween(s.history, s.history[i].info.key.name, i, j)
    ensures s.history[i].info in s.history[j].pods <==>
      s.history[i].found == s.history[i].info && s.history[i].info.node == s.history[j].node
  {
    CacheRun(c, Init, run, s);
    assert Answers(s.history, i, j);
  }

  // ----- drops and names

  predicate EntryNamed(c: Config, e: Entry) {
    (e.Dropped? ==> WellNamed(c, e.key)) && (e.Accepted? ==> WellNamed(c, e.info.key))
  }

  ghost predicate HistoryNamed(c: Config, h: seq<Entry>) {
    forall i | 0 <= i < |h| :: EntryNamed(c, h[i])
  }

  lemma NamedInform(c: Config, s: State, l: InformAct)
    requires InformEnabled(s, l) && NoticesNamed(c, s.notices) && HistoryNamed(c, s.history)
    ensures HistoryNamed(c, DoInform(s, l).history)
  {
  }

  lemma NamedRpc(c: Config, s: State, l: RpcAct)
    requires RpcEnabled(s, l) && BindersNamed(c, s.binders) && HistoryNamed(c, s.history)
    ensures HistoryNamed(c, DoRpc(s, l).history)
  {
  }

  lemma NamedWork(c: Config, s: State, k: Key, l: WorkAct)
    requires WorkEnabled(s, k, l) && HistoryNamed(c, s.history)
    ensures HistoryNamed(c, DoWork(c, s, k, l).history)
  {
  }

  lemma NamedWorld(c: Config, s: State, l: WorldAct)
    requires WorldEnabled(s, l) && HistoryNamed(c, s.history)
    ensures HistoryNamed(c, DoWorld(s, l).history)
  {
  }

  lemma NamedStep(c: Config, s: State, l: Label)
    requires Enabled(s, l) && NamesInv(c, s) && HistoryNamed(c, s.history)
    ensures HistoryNamed(c, Do(c, s, l).history)
  {
    match l
    case World(a) => NamedWorld(c, s, a);
    case Inform(a) => NamedInform(c, s, a);
    case Rpc(a) => NamedRpc(c, s, a);
    case Work(k, a) => NamedWork(c, s, k, a);
  }

  lemma {:induction false} NamedRun(c: Config, s: State, run: seq<Label>, t: State)
    requires Leads(Named, c, s, run, t) && Basic(c, s) && HistoryNamed(c, s.history)
    ensures HistoryNamed(c, t.history)
    decreases |run|
  {
    if run != [] {
      Tail(Named, c, s, run, t);
      BasicStep(c, s, run[0]);
      NamedStep(c, s, run[0]);
      NamedRun(c, Do(c, s, run[0]), run[1..], t);
    }
  }

  /** Snapshot completeness: with unique names, every bind that created its entry or found an
      equal one before a handshake's snapshot for its node is in the answer, or a delivered event
      of that very pod dropped it. */
  lemma {:induction false} SnapshotAnswersAll(c: Config, run: seq<Label>, s: State, i: nat, j: nat)
    requires Leads(Named, c, Init, run, s) && i < j < |s.history| && s.history[i].Accepted? && s.history[j].Snapshot?
    requires s.history[i].found == s.history[i].info && s.history[i].info.node == s.history[j].node
    ensures s.history[i].info in s.history[j].pods || exists m | i < m < j :: s.history[m] == Dropped(s.history[i].info.key)
  {
    Relax(Named, c, Init, run, s);
    NamedRun(c, Init, run, s);
    if !DroppedBetween(s.history, s.history[i].info.key.name, i, j) {
      SnapshotExact(c, run, s, i, j);
    } else {
      var m :| i < m < j && DropOf(s.history[m], s.history[i].info.key.name);
      assert EntryNamed(c, s.history[m]) && EntryNamed(c, s.history[i]);
    }
  }

  // ----- the ready delay

  /** A ready mark comes at least the delay after a timer was created for the same key. */
  ghost predicate Preceded(c: Config, h: seq<Entry>, i: int)
    requires 0 <= i < |h| && h[i].MarkedReady?
  {
    exists j | 0 <= j < i :: h[j].TimerCreated? && h[j].key == h[i].key && h[j].at + c.readyDelay <= h[i].at
  }

  ghost predicate MarksDelayed(c: Config, h: seq<Entry>) {
    forall i | 0 <= i < |h| && h[i].MarkedReady? :: Preceded(c, h, i)
  }

  predicate TimerKnown(c: Config, h: seq<Entry>, k: Key, readyTime: int) {
    TimerCreated(k, readyTime - c.readyDelay) in h
  }

  ghost predicate TimersKnown(c: Config, h: seq<Entry>, timers: map<Key, int>) {
    forall k | k in timers :: TimerKnown(c, h, k, timers[k])
  }

  predicate PointKnown(c: Config, h: seq<Entry>, k: Key, p: SyncPoint, clock: int) {
    && (p.Waiting? || p.Marking? ==> TimerKnown(c, h, k, p.readyTime))
    && (p.Marking? ==> p.readyTime <= clock)
  }

  ghost predicate WaitsKnown(c: Config, h: seq<Entry>, sync: map<Key, SyncPoint>, clock: int) {
    forall k | k in sync :: PointKnown(c, h, k, sync[k], clock)
  }

  ghost predicate TimerInv(c: Config, s: State) {
    TimersKnown(c, s.history, s.timers) && WaitsKnown(c, s.history, s.sync, s.clock) && MarksDelayed(c, s.history)
  }

  lemma MarksAppend(c: Config, h: seq<Entry>, e: Entry, readyTime: int)
    requires MarksDelayed(c, h)
    requires e.MarkedReady? ==> TimerKnown(c, h, e.key, readyTime) && readyTime <= e.at
    ensures MarksDelayed(c, h + [e])
  {
    var h' := h + [e];
    forall i | 0 <= i < |h'| && h'[i].MarkedReady? ensures Preceded(c, h', i) {
      if i < |h| {
        assert h'[i] == h[i] && Preceded(c, h, i);
        var j :| 0 <= j < i && h[j].TimerCreated? && h[j].key == h[i].key && h[j].at + c.readyDelay <= h[i].at;
        assert h'[j] == h[j];
      } else {
        var j :| 0 <= j < |h| && h[j] == TimerCreated(e.key, readyTime - c.readyDelay);
        assert h'[j] == h[j];
      }
    }
  }

  /** Timers and waiting workers stay known when the history and the clock go on. */
  lemma KnownOn(c: Config, h: seq<Entry>, e: Entry, timers: map<Key, int>, sync: map<Key, SyncPoint>, clock: int)
    requires TimersKnown(c, h, timers) && WaitsKnown(c, h, sync, clock)
    ensures TimersKnown(c, h + [e], timers) && WaitsKnown(c, h + [e], sync, clock)
  {
    forall x | x in h ensures x in h + [e] {}
    forall k | k in sync ensures PointKnown(c, h + [e], k, sync[k], clock) {
      assert PointKnown(c, h, k, sync[k], clock);
    }
  }

  /** The history grows by an entry that is no ready mark; timers are only lost. */
  lemma TimerSame(c: Config, s: State, s': State)
    requires TimerInv(c, s) && s'.sync == s.sync && s.clock <= s'.clock
    requires forall k | k in s'.timers :: k in s.timers && s'.timers[k] == s.timers[k]
    requires s'.history == s.history
      || (s'.history != [] && s'.history == s.history + [s'.history[|s'.history| - 1]] && !s'.history[|s'.history| - 1].MarkedReady?)
    ensures TimerInv(c, s')
  {
    if s'.history != s.history {
      var e := s'.history[|s'.history| - 1];
      MarksAppend(c, s.history, e, 0);
      KnownOn(c, s.history, e, s.timers, s.sync, s.clock);
    }
    forall k | k in s'.sync ensures PointKnown(c, s'.history, k, s'.sync[k], s'.clock) {
      assert PointKnown(c, s.history, k, s.sync[k], s.clock);
    }
  }

  lemma TimerInform(c: Config, s: State, l: InformAct)
    requires InformEnabled(s, l) && TimerInv(c, s)
    ensures TimerInv(c, DoInform(s, l))
  {
    TimerSame(c, s, DoInform(s, l));
  }

  lemma TimerRpc(c: Config, s: State, l: RpcAct)
    requires RpcEnabled(s, l) && TimerInv(c, s)
    ensures TimerInv(c, DoRpc(s, l))
  {
    TimerSame(c, s, DoRpc(s, l));
  }

  /** A fresh timer is recorded; an old one was recorded before. */
  lemma TimerRead(c: Config, s: State, k: Key)
    requires WorkEnabled(s, k, ReadTimer) && TimerInv(c, s)
    ensures TimerInv(c, DoWork(c, s, k, ReadTimer))
  {
    var s' := DoWork(c, s, k, ReadTimer);
    if k !in s.timers {
      var e := TimerCreated(k, s.clock);
      MarksAppend(c, s.history, e, 0);
      KnownOn(c, s.history, e, s.timers, s.sync, s.clock);
      assert s'.history == s.history + [e] && e in s'.history;
    }
    assert TimerKnown(c, s'.history, k, s'.timers[k]);
    forall j | j in s'.sync ensures PointKnown(c, s'.history, j, s'.sync[j], s'.clock) {
      assert j != k ==> PointKnown(c, s'.history, j, s.sync[j], s.clock);
    }
  }

  lemma TimerMark(c: Config, s: State, k: Key, err: bool)
    requires WorkEnabled(s, k, MarkReady(err)) && TimerInv(c, s)
    ensures TimerInv(c, DoWork(c, s, k, MarkReady(err)))
  {
    var s' := DoWork(c, s, k, MarkReady(err));
    if !err {
      assert PointKnown(c, s.history, k, s.sync[k], s.clock);
      MarksAppend(c, s.history, MarkedReady(k, s.clock), s.sync[k].readyTime);
      KnownOn(c, s.history, MarkedReady(k, s.clock), s.timers, s.sync, s.clock);
    }
    forall j | j in s'.sync ensures PointKnown(c, s'.history, j, s'.sync[j], s'.clock) {
      assert j != k ==> PointKnown(c, s'.history, j, s.sync[j], s.clock);
    }
  }

  lemma TimerErase(c: Config, s: State, k: Key, err: bool)
    requires WorkEnabled(s, k, ForceDelete(err)) && TimerInv(c, s)
    ensures TimerInv(c, DoWork(c, s, k, ForceDelete(err)))
  {
    var s' := DoWork(c, s, k, ForceDelete(err));
    if !err && k in s.api {
      MarksAppend(c, s.history, Died(k), 0);
      KnownOn(c, s.history, Died(k), s.timers, s.sync, s.clock);
    }
    forall j | j in s'.sync ensures PointKnown(c, s'.history, j, s'.sync[j], s'.clock) {
      assert j != k ==> PointKnown(c, s'.history, j, s.sync[j], s.clock);
    }
  }

  lemma TimerMove(c: Config, s: State, k: Key, l: WorkAct)
    requires WorkEnabled(s, k, l) && !l.ReadTimer? && !l.MarkReady? && !l.ForceDelete? && TimerInv(c, s)
    ensures TimerInv(c, DoWork(c, s, k, l))
  {
    var s' := DoWork(c, s, k, l);
    forall j | j in s'.sync ensures PointKnown(c, s'.history, j, s'.sync[j], s'.clock) {
      assert j in s.sync ==> PointKnown(c, s.history, j, s.sync[j], s.clock);
    }
  }

  lemma TimerWorld(c: Config, s: State, l: WorldAct)
    requires WorldEnabled(s, l) && TimerInv(c, s)
    ensures TimerInv(c, DoWorld(s, l))
  {
    TimerSame(c, s, DoWorld(s, l));
  }

  lemma TimerWork(c: Config, s: State, k: Key, l: WorkAct)
    requires WorkEnabled(s, k, l) && TimerInv(c, s)
    ensures TimerInv(c, DoWork(c, s, k, l))
  {
    match l
    case ReadTimer => TimerRead(c, s, k);
    case MarkReady(err) => TimerMark(c, s, k, err);
    case ForceDelete(err) => TimerErase(c, s, k, err);
    case _ => TimerMove(c, s, k, l);
  }

  lemma TimerStep(c: Config, s: State, l: Label)
    requires Enabled(s, l) && TimerInv(c, s)
    ensures TimerInv(c, Do(c, s, l))
  {
    match l
    case World(a) => TimerWorld(c, s, a);
    case Inform(a) => TimerInform(c, s, a);
    case Rpc(a) => TimerRpc(c, s, a);
    case Work(k, a) => TimerWork(c, s, k, a);
  }

  lemma {:induction false} TimerRun(c: Config, s: State, run: seq<Label>, t: State)
    requires Leads(Anything, c, s, run, t) && TimerInv(c, s)
    ensures TimerInv(c, t)
    decreases |run|
  {
    if run != [] {
      Tail(Anything, c, s, run, t);
      TimerStep(c, s, run[0]);
      TimerRun(c, Do(c, s, run[0]), run[1..], t);
    }
  }

  /** Ready-delay safety: every status write that marks a pod ready comes at least the delay
      after a timer was created for the same namespace and name, in whichever form the pod was. */
  lemma {:induction false} ReadyDelaySafe(c: Config, run: seq<Label>, s: State, i: nat)
    requires Leads(Anything, c, Init, run, s) && i < |s.history| && s.history[i].MarkedReady?
    ensures Preceded(c, s.history, i)
  {
    TimerRun(c, Init, run, s);
  }
}
