# A verified model of the Kubedirect benchmark's control and data plane

The repository drives serverless workloads against a Kubernetes fork with direct message passing.
This project models four of its parts in Dafny and proves what their interplay relies on.

**The custom kubelet** (`cmd/kubelet`). Pods arrive by the direct RPC BindPod into an in-memory
cache, are exposed to the API server in the background, and come back through the informer.
`Kubelet.dfy` is a labelled transition system: every label is one atomic action of the API server,
the informer, the event handler, an RPC handler, the work queue, a sync worker or an exposure
goroutine, so the runs are all interleavings. The code's functions are cut where they touch shared
state: `DoInform` is handlePodEvent (`cmd/kubelet/kubelet.go:202-225`) behind an informer that
updates its store first; `DoWork` is SyncPod and processNextItem (`cmd/kubelet/kubelet.go:227-356`)
behind a work queue with a dirty and a processing set and one worker per key; `DoRpc` is Handshake
and BindPod (`cmd/kubelet/kubedirect.go:51-101`) behind a hub whose Lock installs an epoch
exclusively and whose RLock fails on a mismatch; `DoWorld` is the API server and ExposeManagedPod
(`cmd/kubelet/kubedirect.go:103-124`).

- `KubeletNoStuck.dfy` proves that no pod gets stuck, and `KubeletHandoff.dfy` that the two lookups
  of SyncPod never both lose one. Both follow a key through all its lives, with binds after its
  deletion and objects created anew. First binds and redelivered ones need no assumption. For a
  bind of a deleted key both properties can fail: no stuckness needs the bind to be `SafeBind`
  unless the key has an API object again, no loss needs it to be `InStep` with the informer; both
  look only at the state in which the bind is about to succeed. The code's comment that late binds
  are harmless (`cmd/kubelet/kubedirect.go:94-97`) is right for redelivered binds of a living pod,
  but not for these.
- `KubeletRebind.dfy` and `KubeletHandoffExact.dfy` prove that these two conditions are exact: from
  every reachable state in which such a bind is about to succeed, the property holds on all
  continuations if and only if the condition holds. `KubeletRebindRuns.dfy` has runs that meet each
  way of violating `SafeBind` alone (a ready timer left behind, a worker with a copy of the deleted
  object, an undelivered event, an unhandled notice), and one in which a bind is out of step
  although the key has a new object.
- `KubeletRecovery.dfy` proves progress: a pod that is not ready can be made ready by the kubelet's
  own parties.
- `KubeletFencing.dfy` has the epochs, the handshakes' answers and the ready delay. A bind that
  finds another entry under its name succeeds, but its pod is not answered; and an event of a pod
  with the same name in another namespace drops an entry. `KubeletFencingRuns.dfy` shows both.
- `KubeletTimers.dfy` counts the ready delay from the current life of a pod. A timer left behind by
  a deleted pod makes the next one ready too early; for a key at rest, that is the only way.
- `KubeletServer.dfy` writes the functions as methods of a class and proves that each of them, run
  without interference, performs exactly the actions of its own program points; `KubeletOutcome.dfy`
  says field by field what SyncPod comes to in each of its cases.

**The gateway's data plane** (`pkg/gateway`, `pkg/backend`). `Gateway.dfy` is a second transition
system: the relay loop with its counters and the request metric (`DoRelay`), the dispatch
goroutines and the token channel (`DoDispatch`), and Reconcile changing the endpoints at the same
time (`DoReconcile`). `GatewayTokens.dfy` and `GatewayFlow.dfy` prove conservation of tokens and of
requests, `GatewayStatus.dfy` accounts for the status of every answer, `GatewayOrder.dfy` has the
order of the channels, `GatewayMetric.dfy` ties the metric to the request statistics, and
`GatewayProgress.dfy` proves that nobody starves. `GatewayServer.dfy` holds the sequential code, and
`GrpcPool.dfy` models the connection pool.

**The KPA autoscaler** (`pkg/autoscaler`). `Stats.dfy` is the request metric with its
time-weighted integral, `Kpa.dfy` the decider, both as classes proved against functions;
`KpaMeaning.dfy` says what the decider's quantities mean, `KpaRuns.dfy` has the properties of call
sequences, and `Autoscaler.dfy` joins gateway, metric and
decider in the scale pass. The promise that no cold start is refused fails with a delay window
whose values wrap in 32 bits; `Autoscaler.ColdStartExact` says exactly when.

**Trace replay** (`pkg/workload`, `pkg/replay`). `Trace.dfy` translates a trace into arrival times,
`Replay.dfy` deals it out to senders, `RequestIds.dfy` has the identifiers they print.

## Conventions

- Integers are unbounded. Where 32 bits matter, in the decider's delay window, the wrap is written
  out (`Kpa.Int32`), and `Autoscaler.ColdStartExact` shows when it bites.
- float64 is `real`; instants are integers, with 0 for the zero time where the code asks IsZero.
- The Knative maximum window enters as one number, the largest other value still inside; with the
  value just recorded, that is exactly the contract that Current is at least what was recorded.
  `KpaMeaning.Windowed` adds what it keeps: all values recorded less than the delay ago.
- Errors of listers, the API server, dialing and backends are labels or arguments and can happen
  at any time.
- A run is a sequence of labels under a rule (`Kubelet.Rule`): anything at all; unique managed
  names; unique names and binds of deleted keys that are in step or safe; or recovery, in which only
  the kubelet's own parties act and nothing fails. Each theorem names its rule.
- `gone` holds the keys whose API object was deleted and that have not been bound since; every
  successful bind, with or without an API object, takes its key out of it.
- A request counts as unanswered in `Autoscaler.NoColdStartRefusal` until the relay has taken its
  response and called ReqOut; the instant between that and the reply is not included, since the
  metric no longer has the request then.

## Model

| member | source | states |
|---|---|---|
| KubeletNoStuck.NoPodStuck | cmd/kubelet/kubelet.go:202-356 | in every reachable state, a bound pod that was not deleted since and is not in the API yet, and an unready API pod of this kubelet, has a continuation: a bind about to enqueue, a queued or delayed key, a worker that has not finished, a running exposure, or an undelivered event; binds of deleted keys without an API object are safe ones, all others arbitrary |
| KubeletNoStuck.SettledWhenQuiet | cmd/kubelet/kubelet.go:310-316 | once nothing is in flight for a pod that is in the API, or bound and undeleted since, it is in the API server, the informer agrees with the API server, and no work on it is left, although an expired in-memory pod is dropped without a requeue |
| KubeletNoStuck.StepKept | cmd/kubelet/kubelet.go:202-356 | every action of every party keeps the invariant of an arbitrary key |
| KubeletNoStuck.RunKept | cmd/kubelet/kubelet.go:202-356 | so does every run with safe binds |
| KubeletNoStuck.ApiInform | cmd/kubelet/kubelet.go:202-225 | delivery and handling of events keep an unready pod of the store followed up |
| KubeletNoStuck.BoundInsertOwn | cmd/kubelet/kubedirect.go:88-99 | a successful bind of a key, fresh or not, first, redelivered or safe, puts its pod on the way to exposure |
| KubeletNoStuck.BoundTimer | cmd/kubelet/kubelet.go:296-303 | at the ready timer, the exposure of a bound pod starts or is already running |
| KubeletNames.ReplayAppend | cmd/kubelet/kubelet.go:113-143 | the informer store with the undelivered events replayed follows each new API write, and only existing objects are deleted |
| KubeletNames.ReplayUntouched | cmd/kubelet/kubelet.go:233-237 | without an undelivered event for a key, the informer store and the API server agree on it |
| KubeletNames.BasicStep | cmd/kubelet/kubelet.go:202-356 | every action keeps names in one namespace, wherever they are in flight, and the informer consistent with the API server |
| KubeletHandoff.HandoffNeverLoses | cmd/kubelet/kubelet.go:208-243 | if SyncPod's two separate lookups both miss a pod that is bound and undeleted since, its key is already dirty and the pod is in the informer store; binds of deleted keys, with or without a new API object, are in step, all others arbitrary |
| KubeletHandoff.StepKept | cmd/kubelet/kubelet.go:202-243 | every action keeps the hand-off invariant of an arbitrary key |
| KubeletHandoff.HandoffLook | cmd/kubelet/kubelet.go:233-237 | when the first lookup misses a bound pod, its entry is in the cache and nothing is going to drop it unnoticed |
| KubeletRecovery.CanBecomeReady | cmd/kubelet/kubelet.go:227-356 | from every reachable state in which a pod is bound or in the API but not ready, a run of the informer, its worker, pending binds and its exposure, in which nothing fails, makes it ready, unless its worker is already about to delete it |
| KubeletRecovery.CondemnedDies | cmd/kubelet/kubelet.go:272-282 | in that case every such run deletes the object, which is gone right after the deletion, or leaves it as it is, unready and about to be deleted |
| KubeletDrive.Flush | cmd/kubelet/kubelet.go:202-225 | the informer and the handler can always catch up with the API server |
| KubeletDrive.Drain | cmd/kubelet/kubelet.go:202-225 | the handler can always catch up with the informer; pending drops are done by then, and the key is queued exactly if it was or an add was pending |
| KubeletRebind.RebindExact | cmd/kubelet/kubedirect.go:88-99 | when a bind of a deleted key without an API object is about to succeed in a reachable state, the new pod never gets stuck on any continuation if and only if the bind is safe: its exposure is under way, or nothing of an earlier object, managed or not, can drop its cache entry, swallow its key or pass for its timer |
| KubeletRebind.UnsafeGetsStuck | cmd/kubelet/kubelet.go:296-316 | after any unsafe bind there is a run that leaves the pod stuck |
| KubeletHandoffExact.HandoffExact | cmd/kubelet/kubelet.go:208-243 | when a bind of a deleted key is about to succeed in a reachable state, whether or not the key has a new API object, the two lookups never lose the new pod on any continuation if and only if the bind is in step: no cache entry is dropped while the store has no object of the key, nor behind a worker between the lookups |
| KubeletHandoffExact.OutOfStepIsMissed | cmd/kubelet/kubelet.go:208-243 | after any bind out of step there is a run in which both lookups miss the pod |
| KubeletRebindRuns.EachWaySticks | cmd/kubelet/kubelet.go:202-316 | for every configuration and key, each of the four ways to be unsafe is met alone in a run, and the pod bound then ends up stuck |
| KubeletRebindRuns.RecreatedIsMissed | cmd/kubelet/kubelet.go:208-243 | for every configuration and key, a run in which a bind succeeds while a new object of a deleted key exists, nothing is deleted afterwards, and both lookups miss the pod |
| KubeletRebindRuns.TimerLeft | cmd/kubelet/kubelet.go:209-215 | a run in which the timer of a deleted pod stays behind |
| KubeletFencing.EpochFencing | cmd/kubelet/kubedirect.go:51-99 | after a handshake's snapshot, every bind accepted from its source carries its epoch until the source's next handshake |
| KubeletFencing.EpochRpc | cmd/kubelet/kubedirect.go:51-101 | Handshake and BindPod keep every recorded epoch the one in force |
| KubeletFencing.SnapshotExact | cmd/kubelet/kubedirect.go:57-63 | a pod whose bind succeeded and whose name was not dropped since is in the snapshot if and only if the snapshot is for its node and the bind created its entry or found an equal one |
| KubeletFencing.SnapshotAnswersAll | cmd/kubelet/kubedirect.go:57-63 | with unique names, every such bind accepted earlier for the snapshot's node is in the answer, or a delivered event of that very namespace and name dropped it |
| KubeletFencing.ReadyDelaySafe | cmd/kubelet/kubelet.go:296-335 | every ready mark comes at least the delay after a timer was created for the same namespace and name, in whichever form the pod was |
| KubeletTimers.ReadyDelayOfLife | cmd/kubelet/kubelet.go:209-215 | if lives of a key begin without an old timer, every ready mark comes at least the delay after a timer that was created in the same life of the pod |
| KubeletTimers.ReadyDelayExact | cmd/kubelet/kubelet.go:296-335 | when a deleted key is at rest in a reachable state, an object created now is never marked ready before a timer of its own life has run out if and only if no timer is left |
| KubeletTimers.TimerCanBeLeft | cmd/kubelet/kubelet.go:209-215 | such a timer can be left, in a run that has been fresh so far |
| KubeletFencingRuns.TwoNodes | cmd/kubelet/kubedirect.go:88-92 | a run in which a second bind of a name, for another node, succeeds, is never dropped, and is missing in that node's snapshot |
| KubeletFencingRuns.TwoNamespaces | cmd/kubelet/kubelet.go:218-220 | a run in which an event of another namespace's pod drops a bound pod of the same name |
| KubeletServer.KubedirectServer.HandlePodEvent | cmd/kubelet/kubelet.go:202-225 | the handler changes the server exactly as its two actions do |
| KubeletServer.HandledMeaning | cmd/kubelet/kubelet.go:202-225 | field by field: the handler enqueues the key, or removes its timer after a deletion, and drops the name of a managed pod |
| KubeletServer.KubedirectServer.SyncPod | cmd/kubelet/kubelet.go:227-338 | from its start to its return, SyncPod changes the server exactly as the actions of its worker do, with the errors it meets, and it returns an error only after one of them |
| KubeletServer.SyncedIsRun | cmd/kubelet/kubelet.go:227-338 | these are a run that consists of SyncPod's own actions on its own key, each with the given errors |
| KubeletServer.SyncedFrame | cmd/kubelet/kubelet.go:227-338 | SyncPod leaves other workers, the queue, the store and the cache alone |
| KubeletOutcome.FromStart | cmd/kubelet/kubelet.go:227-338 | SyncPod, run through its single actions, comes to the outcome of an API pod if the store has one and of an in-memory pod otherwise |
| KubeletOutcome.DeletesDoomed | cmd/kubelet/kubelet.go:272-282 | a pod whose deletion is requested is gone from the API server and its timer removed; exposures and delays are untouched |
| KubeletOutcome.ForgetsIdle | cmd/kubelet/kubelet.go:283-294 | an inactive or ready pod only loses its timer |
| KubeletOutcome.TimesFresh | cmd/kubelet/kubelet.go:296-308 | an unready API pod without a timer gets one that runs out after the delay, and is delayed until then, without any exposure |
| KubeletOutcome.AwaitsRunning | cmd/kubelet/kubelet.go:296-308 | one whose timer still runs keeps it and is delayed |
| KubeletOutcome.MarksDue | cmd/kubelet/kubelet.go:304-337 | one whose time has come is active and ready in the API server, where nothing else changes |
| KubeletOutcome.FailsDue | cmd/kubelet/kubelet.go:329-334 | if marking fails, the API server is as before and the key has failed |
| KubeletOutcome.LeavesAlone | cmd/kubelet/kubelet.go:262-279 | a failing node lister, another kubelet's pod and a failing deletion change nothing |
| KubeletOutcome.ExposesCached | cmd/kubelet/kubelet.go:296-308 | an in-memory pod without a timer gets one, and its exposure starts |
| KubeletOutcome.AwaitsCached | cmd/kubelet/kubelet.go:296-316 | one with a timer is neither exposed again nor marked ready |
| KubeletOutcome.IgnoresOthers | cmd/kubelet/kubelet.go:237-266 | a key found nowhere, a pod without template and another kubelet's in-memory pod are ignored |
| KubeletOutcome.FailsLookup | cmd/kubelet/kubelet.go:243-264 | a failing lister of an in-memory pod changes nothing |
| KubeletServer.KubedirectServer.ProcessNextItem | cmd/kubelet/kubelet.go:340-356 | taking a key, SyncPod, the requeue after an error and giving the key back, as actions |
| KubeletServer.ProcessedFrame | cmd/kubelet/kubelet.go:340-356 | afterwards the same keys are being processed as before and the queue lacks just this key |
| KubeletServer.KubedirectServer.BindPod | cmd/kubelet/kubedirect.go:68-101 | it answers NotFound without a template and a mismatch under another epoch, both without effect, and otherwise performs exactly its own actions |
| KubeletServer.BoundByMeaning | cmd/kubelet/kubedirect.go:88-100 | these cache and enqueue a fresh pod, and change neither cache nor queue for a known name |
| KubeletServer.KubedirectServer.Handshake | cmd/kubelet/kubedirect.go:51-65 | it installs the epoch and answers the cached pods of the node |
| KubeletServer.KubedirectServer.ExposeManagedPod | cmd/kubelet/kubedirect.go:103-124 | it polls until the first answer that is no error, after which the object exists and the exposure has ended |
| KubeletServer.PolledFields | cmd/kubelet/kubedirect.go:111-123 | polling creates the object unless it exists, and ends the exposure, exactly if some answer is no error |
| GatewayTokens.TokenConservation | pkg/gateway/dispatcher/pod.go:57-151 | per key, tokens queued, held and still to be pushed are the concurrency times the additions minus the discards; a live endpoint keeps the tokens of its last addition; a key added once never runs more requests at a time than the concurrency |
| GatewayTokens.ReconcileExact | pkg/gateway/dispatcher/pod.go:95-161 | when Reconcile can return, the endpoints are the ready keys minus the failed additions, and kept keys have their old executor |
| GatewayTokens.RepeatIsNoOp | pkg/gateway/dispatcher/pod.go:104-151 | after a Reconcile in which no backend failed, repeating it with the same ready set changes no endpoint and no endpoint's tokens, adds nothing, and has nothing left to do but to return, whatever requests do in between and meanwhile |
| GatewayTokens.TokensLookUp | pkg/gateway/dispatcher/pod.go:64-71 | a lookup discards the token exactly if its endpoint is absent, and keeps the token balance |
| GatewayTokens.RunKept | pkg/gateway/dispatcher/pod.go:57-161 | the token and Reconcile invariants hold after every run |
| GatewayFlow.RequestConservation | pkg/gateway/interface.go:90-121 | every relayed request is at exactly one place before its answer or was answered once with itself as source; requests for other targets are never relayed |
| GatewayFlow.MetricIsOutstanding | pkg/gateway/interface.go:102-112 | the autoscaler's concurrency is nSend minus nRecv, the number of requests between ReqIn and ReqOut, hence never negative |
| GatewayFlow.PendingIsOutstanding | pkg/gateway/interface.go:102-112 | an unanswered relayed request counts as outstanding |
| GatewayFlow.RunKept | pkg/gateway/dispatcher/pod.go:76-93 | the balance of a request holds after every run |
| GatewayFlow.MetricKept | pkg/gateway/interface.go:90-121 | the balance of the metric holds after every run |
| GatewayStatus.StatusConservation | pkg/gateway/dispatcher/pod.go:76-93 | in every run, the answers to a request with a status are exactly as many as its executions with that status, plus its dispatch timeouts for FAIL_DISPATCH and the relay's refusals for INVALID_TARGET |
| GatewayStatus.ForeignRefused | pkg/gateway/interface.go:92-101 | a request for another target is refused with INVALID_TARGET as often as it is taken, and never answered otherwise |
| GatewayStatus.OwnRelayed | pkg/gateway/interface.go:92-109 | a request for this target is relayed as often as it is taken, and never refused by the relay |
| GatewayMetric.MetricIsStatistics | pkg/gateway/interface.go:102-112 | the gateway's metric after any run is that of the request statistics after the run's arrivals, departures and reports in order, so the area law holds for it |
| GatewayOrder.FirstInFirstOut | pkg/gateway/interface.go:90-121 | requests, responses and tokens are taken in the order in which they were sent, and the output has the relay's answers in order |
| GatewayOrder.GoroutinesServe | pkg/gateway/dispatcher/pod.go:163-175 | the i-th dispatch goroutine works on the i-th relayed request |
| GatewayOrder.EndpointExecutor | pkg/gateway/dispatcher/pod.go:134-139 | an endpoint has the executor of its last addition |
| GatewayProgress.CanAnswerAll | pkg/gateway/interface.go:90-121 | from every reachable state, the relay loop and the dispatchers alone can answer every relayed request exactly as often as it was relayed, and bring the metric back to 0 |
| GatewayProgress.CanBeRun | pkg/gateway/dispatcher/pod.go:57-93 | whatever endpoints have come and gone, a request waiting for a token while some endpoint is live can be run by the dispatchers alone on a live endpoint with its executor |
| GatewayServer.GatewayRelay.OnRequest | pkg/gateway/interface.go:92-109 | one loop iteration on a request: for another target the output grows by its INVALID_TARGET answer and nothing else changes; otherwise it is counted, told to the metric and passed on; both as the transition system's two actions |
| GatewayServer.GatewayRelay.OnResponse | pkg/gateway/interface.go:110-117 | one iteration on a response: it is counted, told to the metric and passed on, as the transition system's two actions |
| GatewayServer.PlanReconcile | pkg/gateway/dispatcher/pod.go:106-121 | additions and removals are found once each, never both, and are those the transition system starts |
| GatewayServer.MissingIn | pkg/gateway/dispatcher/pod.go:110-119 | the loop collects exactly the keys missing in the other map |
| GatewayServer.PodDispatcher.TakeLive | pkg/gateway/dispatcher/pod.go:57-74 | dispatch takes the first token of a live endpoint and discards those before it; without one it times out |
| GatewayServer.PodDispatcher.Dispatch | pkg/gateway/dispatcher/pod.go:76-93 | a request is executed by that endpoint's executor, its token goes to the end of the queue and the answer has the execution's status; without a live token the answer is FAIL_DISPATCH |
| GatewayServer.PodDispatcher.Reconcile | pkg/gateway/dispatcher/pod.go:95-161 | afterwards the endpoints are the ready keys minus the failed additions, kept ones have their executor, new ones their backend, and each new one has exactly its tokens |
| GrpcPool.PoolConservation | pkg/backend/grpc.go:48-105 | pooled and borrowed copies of a connection never exceed 50, are 50 once its newClient has finished, and so no connection carries more than 50 calls |
| GrpcPool.RunKept | pkg/backend/grpc.go:82-105 | the copies of every connection are conserved by every run |
| GrpcPool.BlockedServed | pkg/backend/grpc.go:94-105 | a call that waits for a copy can get one at once or after one action of somebody else |
| GrpcPool.GrpcBackend.NewClient | pkg/backend/grpc.go:82-92 | 50 copies of one new connection are appended, or nothing after a failed dial, as the call's own actions |
| GrpcPool.GrpcBackend.GetOrCreateClient | pkg/backend/grpc.go:94-105 | a pooled copy is taken, or the first of 50 new ones, as the call's own actions |
| GrpcPool.OpenMeaning | pkg/backend/grpc.go:30-39 | a new backend has 50 copies of one new connection |
| GrpcPool.GrpcBackend.Execute | pkg/backend/grpc.go:48-80 | the borrowed copy is back in the pool whatever the end of the call, and the status is FAIL_CONNECT, FAIL_TIMEOUT, FAIL_SEND or success accordingly |
| Stats.RequestStats.Move | pkg/autoscaler/metric/stats.go:34-45 | the integral advances as the specification says, and only forwards in time |
| Stats.RequestStats.ReqIn | pkg/autoscaler/metric/stats.go:47-55 | an arrival in terms of the specification |
| Stats.RequestStats.ReqOut | pkg/autoscaler/metric/stats.go:57-64 | a departure in terms of the specification |
| Stats.RequestStats.Report | pkg/autoscaler/metric/stats.go:66-82 | the average and count of the window, which is then cleared |
| Stats.RequestStats.Reset | pkg/autoscaler/metric/stats.go:90-94 | clears the window and keeps concurrency and clock |
| Stats.AreaLaw | pkg/autoscaler/metric/stats.go:34-94 | over any run with timestamps in any order, reported averages times their seconds plus the unreported integral are the total in-flight time on the running-maximum clock, and reported plus pending counts are the arrivals |
| Stats.ReportBetween | pkg/autoscaler/metric/stats.go:66-82 | a report over positive time averages between the least and the greatest concurrency held in its window |
| Stats.StateMeaning | pkg/autoscaler/metric/stats.go:34-64 | concurrency is arrivals minus departures, lastChange the latest timestamp so far |
| Stats.WindowMeaning | pkg/autoscaler/metric/stats.go:34-55 | the pending count is the arrivals since the latest report, and the seconds in use are the nanoseconds since then on the running-maximum clock |
| Stats.ReportMeaning | pkg/autoscaler/metric/stats.go:66-82 | a report answers the arrivals since the report before it, and the average 0 over a window in which no time has passed |
| Stats.StayLonger | pkg/autoscaler/metric/stats.go:39-44 | in-flight time grows by the current level times the time that passes |
| Kpa.KPADecider.Reconcile | pkg/autoscaler/decider/kpa.go:71-161 | a call computes the specified decision and next state |
| KpaMeaning.WantedMeaning | pkg/autoscaler/decider/kpa.go:89-90 | the wanted count is the least one that brings the value per pod down to the target |
| KpaMeaning.UpperMeaning | pkg/autoscaler/decider/kpa.go:80-84 | the upper bound is the scaled-up count rounded up, as inequalities |
| KpaMeaning.LowerMeaning | pkg/autoscaler/decider/kpa.go:81-85 | the lower bound is the scaled-down count rounded down, and at least 1 from zero with requests in flight |
| KpaMeaning.CountMeaning | pkg/autoscaler/decider/kpa.go:92-93 | a count is the wanted one, or the bound it violates, the upper one first |
| KpaMeaning.OverMeaning | pkg/autoscaler/decider/kpa.go:95-95 | a call is over the threshold exactly if the panic value wants at least threshold times the ready pods |
| KpaMeaning.PreMeaning | pkg/autoscaler/decider/kpa.go:110-132 | before the delay, the decision is the maximum of the episode's counts in panic and the stable count otherwise |
| KpaMeaning.DelayMeaning | pkg/autoscaler/decider/kpa.go:141-148 | with a delay window the decision is the larger one of that and of the window's other values, without one it is that |
| KpaMeaning.ScaleDownDelayed | pkg/autoscaler/decider/kpa.go:141-148 | over a run with recorded values, a decision is never below one recorded less than the delay ago, and is one recorded now or earlier |
| KpaMeaning.DesiredIsLast | pkg/autoscaler/decider/kpa.go:158-165 | the desired scale is the last decision, in 32 bits |
| KpaRuns.PanicIsRecentOverload | pkg/autoscaler/decider/kpa.go:95-108 | for calls in time order, the decider panics exactly if the latest over-threshold call is at most the stable window ago, and panicTime is its time |
| KpaRuns.EpisodeMaximum | pkg/autoscaler/decider/kpa.go:103-128 | maxPanicPods is the maximum of all stable and panic counts of the episode, and 0 outside |
| KpaRuns.NoFallInEpisode | pkg/autoscaler/decider/kpa.go:121-128 | decisions before the delay never fall within an episode |
| KpaRuns.DecisionBounds | pkg/autoscaler/decider/kpa.go:78-132 | with rates of at least 1, stable decisions lie in the clamp interval, panic decisions between the current lower bound and the largest upper bound of the episode |
| KpaRuns.Converges | pkg/autoscaler/decider/kpa.go:76-93 | in stable mode with constant demand, feeding decisions back comes one closer each step, never overshoots, arrives within the initial distance and stays |
| KpaRuns.DecaysToZero | pkg/autoscaler/decider/kpa.go:76-93 | without load the ready count decays geometrically with the scale-down rate and reaches 0 |
| KpaRuns.StepTowards | pkg/autoscaler/decider/kpa.go:79-92 | one stable decision moves strictly towards the demand |
| Autoscaler.ScalePass | pkg/autoscaler/interface.go:75-109 | the pass counts the pods of the list that are ready and asks for the decider's decision on them and the current metric; a failed list decides nothing |
| Autoscaler.NoColdStartRefusal | pkg/autoscaler/interface.go:87-106 | in every reachable gateway state with an unanswered relayed request, a pass that lists no ready pod asks for at least one replica, through clamp, panic and, as long as the upper bounds fit in 32 bits, delay |
| Autoscaler.KickServed | pkg/autoscaler/decider/kpa.go:79-148 | any call from zero with concurrency in flight decides at least one, if there is no delay window or the upper bounds so far fit in 32 bits |
| Autoscaler.ColdStartExact | pkg/autoscaler/decider/kpa.go:95-143 | over all runs with up to so many ready pods, every cold start is served if and only if there is no delay window or the largest upper bound fits in 32 bits |
| Autoscaler.BurstRefused | pkg/autoscaler/decider/kpa.go:95-143 | if only larger counts of ready pods exceed 32 bits, a burst of load on the least of them followed by a cold start is a run that asks for no replica |
| Autoscaler.FreshColdStartExact | pkg/autoscaler/decider/kpa.go:141-143 | with a delay window, a fresh decider serves every cold start if and only if the scale-up rate rounds to at most the largest 32-bit count, whatever the panic threshold |
| Autoscaler.ColdStartWraps | pkg/autoscaler/decider/kpa.go:141-143 | beyond that, a cold start of a fresh decider with a load of 2^31 pods decides less than one |
| Trace.Translate | pkg/workload/conversion.go:51-76 | panics exactly if the per-minute counts ask for a missing entry, is refused exactly if they fall short, and otherwise gives invocation k the arrival 60 times its minute plus the minute's prefix sum and runtime k |
| Trace.ArrivalMeaning | pkg/workload/conversion.go:59-64 | an invocation arrives as many microseconds after the start of its minute as the gaps up to its own add up to |
| Trace.ArrivalsInOrder | pkg/workload/conversion.go:57-74 | with nonnegative gaps of at most 60 seconds per minute, arrivals are nondecreasing |
| Trace.FaithfulOneMore | pkg/workload/conversion.go:61-70 | appending the next invocation keeps the translation faithful |
| Replay.NewWorker | pkg/replay/worker.go:27-42 | item i of shard j is item j + i·n of the trace, for the specified number n of senders |
| Replay.SendersMeaning | pkg/replay/worker.go:28-28 | there are just enough senders for 60000 invocations each |
| Replay.ShardingPreservesTrace | pkg/replay/worker.go:28-34 | read back in turn the shards are the trace; none has more than 60000 items, and sizes differ by at most one |
| Replay.SchedulesInOrder | pkg/replay/worker.go:49-51 | translated and sharded, every sender's schedule is nondecreasing |
| RequestIds.Send | pkg/replay/worker.go:49-63 | one request per invocation, in order, with the sender's identifiers |
| RequestIds.DecimalReads | pkg/replay/worker.go:53-53 | printed numbers are decimal digits that read as the number, without leading zeros |
| RequestIds.IdParses | pkg/replay/worker.go:53-53 | round trip: an identifier reads back as its target, sender and index, whatever the target contains |
| RequestIds.IdDecodes | pkg/replay/worker.go:53-53 | an identifier determines target, sender and index for all targets and all numbers |
| RequestIds.ReplayTrace | pkg/replay/worker.go:66-80 | a worker's senders send their shards of the trace |
| RequestIds.IdsUnique | pkg/replay/worker.go:49-54 | no two requests share an identifier, across all senders of all workers |
| RequestIds.EveryInvocationSent | pkg/replay/worker.go:27-63 | every invocation of the trace is sent, as request i of sender j for the k that is i times the senders plus j |

## Left out

- KubeletHandoffExact.HandoffExact: a bind that finds a cache entry is covered only if its key is queued, about to be enqueued or held by a worker that may return to it; otherwise nobody looks for the pod because of the bind. That binds in step suffice is proved without this restriction.
- KubeletTimers.ReadyDelayExact: for keys at rest, that is with an idle informer and no worker, or one that has read its timer; otherwise a leftover timer may be removed in time. That fresh lives suffice is proved for all runs.
- Autoscaler.ColdStartExact: scale-down rates below 1 and negative stable windows are not covered.
- Event filter changes: a pod that starts or stops passing enqueueFilter during its life; in the model a pod passes it from its creation to its deletion.
- Delays of the work queue: AddAfter and AddRateLimited make a key due at some later time, not at a given one, and FIFO order among queued keys is not modelled.
- Update conflicts: a ready mark may succeed whenever the object exists; resource versions and UIDs, which only forbid some of these, are not modelled.
- Nodes, client pools and delegation: whether this kubelet is responsible for a pod and whether the pod has a template are fixed per run; a missing API client is not modelled.
- Missed watch events: the informer delivers every event in order; relists and unknown final states are not modelled.
- Functions of the kubelet and the gateway that run concurrently are step functions on values, so that their actions interleave; the classes in KubeletServer and GatewayServer have the in-place form without interference.
- Status construction, patch marshalling and the choice of a reference pod: field copying.
- Shutdown: closing of channels and pools, cancellation of contexts; runs are before it.
- The Knative metric buckets: window averages are arguments of the decider.
- Rounding of float64, infinite or zero rates and targets: the model uses real numbers and positive rates.
- The one-time autoscaler, the Knative gateway and the fake backend: wiring without further properties.
- Activation of deciders, ticking and the immediate enqueue of ReqIn: they only decide when a scale pass happens.
- Endpoint addresses: an endpoint is its key, and the executor made for it is any value.
- Loading and parsing of trace configurations, warm-up durations and the busy-loop workload handler.
