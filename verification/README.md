# Hydrat failover controller: a model of its core and proofs about it

Hydrat keeps clients connected by moving them between upstream routes. This project
models the parts of it that hold real invariants, each in its own module, and proves
what those parts are for. `dafny verify dfyconfig.toml` checks everything.

## What is modelled

**Driving Xray by calls whose replies can be lost** (`Plan`, `XrayRuntime`,
`SortOutbounds`, `Strings`, `Dataplane` in Reconciler.dfy). The reconciler is a class
with the source's fields. The remote Xray is ghost state: a table of handlers and the
set of rules that may be installed. Every adapter call succeeds, fails without effect,
or fails after its effect; a failed replacement of the route table leaves any mixture
of old and new rules. `Valid` says in every reachable state that the books and Xray agree
on every handler that is not in doubt, that no installed rule uses a handler in doubt,
and that no call of this process ever removed or changed a handler under an installed
rule. The contract of `ApplyWithRecovery` adds convergence, the reason for every
refusal, the soundness of the same-generation no-op, and what survives a restart. DNS
handlers dial through other handlers; that they always find them is part of the
invariant except from a plan that redirects a DNS handler whose addition is in doubt
(`Redirects`) until a plan is reached again; `RedirectsIsDangling` shows this to be the
exact condition. A failure always names a call or a write made by the very application
that reports it.

**Resetting the flows of a failed route** (`FlowRecovery`, and the same class). Tokens
are saved before they are used and never exchanged, and the backlog is bounded with
unique keys. The reconciler carries the history of its queue, which every method extends
by what it did: plans applied, and passes with the resets they sent and how each capture
and write they made went. Over that history a wanted job is sent to Xray in time, however
many plans are applied and passes fail in between (`WaitingJobIsTried`); only passes count
whose two writes were acknowledged, and the capture if they needed one.

**The supervisor of the Xray process** (`Supervisor`). Starter, late registration and
rehydration worker are three goroutines over a few shared fields. Runs are sequences of
their atomic steps; the theorems are about the trace of events of any run, among them
when a rehydration finds the reconciler as it needs it.

**Resumable route-cover planning** (`PoolKey`, `CoverSpec`, `CoverPlanner`). The search
specification is a recursion over index-increasing pools; the session with its phases,
cursor, cache and frame stack refines it, for an arbitrary fixed evaluation function and
however the work is cut into slices. Only an evaluation that is cut off or fails keeps a
slice from its verdict. Each pool has one key, so a cached evaluation is
never mistaken for another.

**Locks, caches and leases** (`ProbeControl`, `RouteCache`, `ProbeRuntime`,
`TorCoordinator`). Each class method is one critical section and is proved equal to a
function on a state value; a step machine over that function and the program counters of
all callers gives the runs, and the theorems hold in every state of every run. The Tor
agent also changes without its coordinator: a candidate probe borrows the explorer slot at
any time, and a mutation whose reply was lost may take effect later.

**The placement worker** (`PlacementQueue`, `PlacementWorker`). One loop with
preemption, retries, deadlines and deferred work. A ledger says where every published
hard failure is waiting or what became of it; `Valid` bounds the running placements by
one and keeps work from being overlooked.

**Scheduling arithmetic and lists** (`ProbeJobs`, `ActiveOverlap`, `QoE`,
`SchedulerLoad`). Interleavings that are fair and keep order, the checked durations and
the overlap bound they give, hysteresis over whole runs of samples, counts kept up to
date against counts from scratch, and a choice that does not depend on listing order.

## What the proofs found

Where the code falls short of what one would expect of it, the model follows the code,
a lemma shows an input, and the exact condition is proved.

- A plan that gives another dialer to a DNS handler whose addition is in doubt makes the
  retry run before that dialer is added (`Dataplane.RetriedAddCanDangle`,
  `XrayRuntime.RetriedAddReaches`).
- A hard placement that ends with a cancelled or expired context before its own deadline
  is neither retried nor reported, because such errors count as an expected stop. A
  failure is forgotten so if and only if nobody else has it and no hard placement starts
  for another one (`PlacementWorker.Worker.OnResult`);
  `PlacementWorker.HaltedAttemptIsForgotten` is such a run.
- An announced hard failure that interrupts a running placement leaves the queue, and a
  failure is pending afterwards if and only if the worker, a retry or the mailbox held an
  event (`PlacementWorker.Worker.OnPlacementWake`). Without a mailbox the running
  placement is cancelled nevertheless, and afterwards the worker is idle with nothing
  queued: the hard placement never started, and the cancelled one stays due until another
  hard placement succeeds (`PlacementWorker.AnnouncementIsForgotten`). With a mailbox only
  the announcement is dropped (`PlacementWorker.Announce`).
- A reconciliation of Tor profiles whose reply was lost may take effect while a plan holds
  the fence. The warm profiles stay still behind the fence, whatever else happens, if and
  only if no such mutation is loose (`TorCoordinator.NothingMovesBehindFence`,
  `TorCoordinator.LooseBehindFence`). The coordinator does not ask whether an error was
  ambiguous. What a caller can see are the replies: as long as every lost reply belongs to
  an exploration the fence keeps its whole promise (`TorCoordinator.NothingIsLoose`,
  `TorCoordinator.FenceHoldsUnambiguously`, `TorCoordinator.CommitsTheTruthUnambiguously`),
  and the first other lost reply may end it whatever the fetch after it answers
  (`TorCoordinator.LostReplyEndsTheGuarantee`).
- A rehydration meant for one process of Xray may begin only after the next one was
  started, and succeed there. The next rehydration of that process then empties the books
  although handlers are installed. It finds the reconciler fit for it if and only if none
  has succeeded in that process yet (`Supervisor.RehydrationFits`,
  `Supervisor.RehydratesTwice`), and empty books are right if and only if no handler runs
  (`XrayRuntime.EmptyBooksAreRight`).
- An outage of `availability_failures` samples in a row leaves the route degraded in all
  runs exactly when availability_failures + 1 is at least bad_samples or exceeds
  window_size - recovery_good_samples. Other accepted policies let the next failure of
  the same outage recover the route (`QoE.OutagesDegradeIfSteady`,
  `QoE.OutageRecovers`). The default policy is steady.

## What is assumed

- `InvalidateRuntime` is one atomic step. `Rehydrate` is called when a process was started
  after the last invalidation and recovery is required, or nothing has been installed in it;
  `Supervisor.RehydrationFits` says when that is so.
- The whole-table route adapters are used. Outbound configs are parsed values, the
  recovery normaliser is the identity, and plan digests are plan equality.
- A write of the state file succeeds, fails before, or fails after reaching the disk; a
  saved token is one whose write was acknowledged.
- The cover evaluation is one fixed function during a session; physical route identity,
  the rendezvous hash, medians and moving averages are parameters.
- An active run that reaches the end of its window has released its slot by then, and
  its critical limit is the configured route limit. Times of quality samples strictly
  increase where a lemma says so.
- A publication to the mailbox and its wake-up signal are one step. Within one turn of
  the placement loop the clock reads the same value.
- The Tor agent carries out one mutation at a time, and one that it has begun is over
  before it answers a fetch. Probes and explorations change explorer profiles only.

## Model

| member | source | states |
|---|---|---|
| Plan.Validate | internal/dataplane/reconciler.go:434-568 | accepts a plan if and only if it is valid: positive generation, fail-closed, unique IDs, every DNS handler dials a TCP-capable handler of the plan, every client route names handlers that can carry it |
| Plan.IndexOutbounds | internal/dataplane/reconciler.go:459-470 | accepts exactly unique, named handlers of a known protocol, and then returns the table by ID |
| Plan.IndexProxies | internal/dataplane/reconciler.go:471-490 | accepts exactly the plans whose DNS handlers all dial another, TCP-capable handler, and records the dialer of each |
| Plan.CheckRoute | internal/dataplane/reconciler.go:491-566 | accepts a client route exactly when the recorded handlers and dialers make it valid |
| Plan.ValidPlanServesItsRules | internal/xrayapi/adapter.go:342-459 | every rule rendered from a valid plan finds its handlers in the plan, and its DNS handler dials through the TCP handler of the same client |
| XrayRuntime.Xray.AddOutbound | internal/xrayapi/adapter.go:138-198 | an addition succeeds, fails without effect, or fails after its effect, and is logged with the worlds before and after |
| XrayRuntime.Xray.RemoveOutbound | internal/xrayapi/adapter.go:467-472 | the same for a removal |
| XrayRuntime.Xray.DrainOutbound | internal/xrayapi/adapter.go:461-465 | draining may be refused and changes nothing in Xray |
| XrayRuntime.Xray.ReplaceRoutes | internal/xrayapi/adapter.go:304-310 | a failed replacement of the route table may leave any mixture of old and new rules |
| XrayRuntime.Xray.ReplaceRoutesStaged | internal/xrayapi/adapter.go:312-340 | the staged replacement skips the call when both route lists render alike, which is right when the old list is what is installed |
| XrayRuntime.TrackedIsLive | internal/dataplane/reconciler.go:157-295 | books that are right imply that every installed rule finds its handlers in Xray and none of them is in doubt |
| XrayRuntime.Touch | internal/dataplane/reconciler.go:354-409 | a call about one handler that no rule uses keeps the books right and disturbs no route, whatever the call did, as long as the books are right about that handler |
| XrayRuntime.QuietCall | internal/dataplane/reconciler.go:368-372 | a handler that no installed rule uses can be added, replaced or removed without disturbing traffic |
| XrayRuntime.Reroute | internal/dataplane/reconciler.go:241-256 | any mixture of old and new rules is live once all handlers of the new rules are settled |
| XrayRuntime.DialedIsReachable | internal/dataplane/reconciler.go:1051-1085 | when the dial books are right every DNS handler in Xray finds the handler it dials through |
| XrayRuntime.TouchDial | internal/dataplane/reconciler.go:1051-1085 | one call about one handler keeps the dial layering if that handler has its dialer afterwards and is not taken from under another one |
| XrayRuntime.DoubtHasNoDialer | internal/dataplane/reconciler.go:354-409 | nothing dials through a handler that is in doubt |
| XrayRuntime.RetriedAddReaches | internal/dataplane/reconciler.go:367-378 | retrying a doubtful addition of a DNS handler keeps the layering if and only if the dialer the new plan gives it is already running |
| Dataplane.RetriedAddCanDangle | internal/dataplane/reconciler.go:367-378 | two valid plans: the first adds its exit and then fails to add its resolver, the second is admissible and gives the resolver another dialer, and its retried addition leaves the resolver without that dialer |
| Dataplane.RedirectsIsDangling | internal/dataplane/reconciler.go:367-378 | for every admissible plan: it redirects a DNS handler whose addition is in doubt if and only if retrying some addition in doubt would leave a DNS handler of Xray without its dialer |
| XrayRuntime.NewHasNoDialer | internal/dataplane/reconciler.go:229-240 | nothing dials through a handler that does not run yet |
| XrayRuntime.EmptyBooksAreRight | internal/dataplane/reconciler.go:414-420 | emptying the books keeps them right if and only if Xray runs no handler and no rule uses one |
| SortOutbounds.SortFacts | internal/dataplane/reconciler.go:1051-1085 | sorting by layer keeps exactly the given handlers, each once, with DNS handlers last when adding and first when removing |
| Dataplane.Reconciler.constructor | internal/dataplane/reconciler.go:104-127 | a reconciler started from a loadable state file satisfies the invariant, and recovery is required exactly when a plan was saved |
| Dataplane.Reconciler.ApplyWithRecovery | internal/dataplane/reconciler.go:133-143 | success and no-op both mean Xray holds exactly the handlers and rules of the plan with nothing in doubt and every DNS handler reaching its dialer; a no-op made no call; a refusal has exactly the stated reason and changes nothing; the call log only grows, and an adapter failure is a failed call of this very application; the writes made are exactly those of the outcome and of the pass after it, and a failed persist is a failed write of this application that leaves Xray converged; a saved plan is never behind an acknowledged one; the old jobs the plan wants and every recovery whose failed route was in use are queued, and after the pass over them, also that of a no-op, each is finished or still queued; the application and that pass are entered in the history of the queue with the captures and writes they made |
| Dataplane.Reconciler.InvalidateRuntime | internal/dataplane/reconciler.go:147-155 | the dynamic state is declared lost in one step; the invariant holds and nothing acknowledged changes |
| Dataplane.Reconciler.Rehydrate | internal/dataplane/reconciler.go:411-432 | success means a fresh Xray runs exactly the acknowledged plan and recovery is over; otherwise recovery stays required and nothing counts as ready, and the failure is that of a call or a write made by this rehydration; the queue keeps the wanted jobs in order |
| Dataplane.Reconciler.ApplyLocked | internal/dataplane/reconciler.go:157-295 | the same contract for both callers: refused exactly as Admission says with nothing changed, otherwise applied, failed at a call made by this application, or failed to persist with a write made by it |
| Dataplane.Reconciler.Admit | internal/dataplane/reconciler.go:170-217 | the checks before the first call give exactly the reason Admission gives, or the backlog of the new plan with all tokens kept |
| Dataplane.ScopeIsApplicable | internal/dataplane/flow_recovery.go:37-66 | a recovery that is accepted for a plan is wanted by it |
| Dataplane.Reconciler.Commit | internal/dataplane/reconciler.go:218-294 | keeps the invariant through convergence, persistence and the first recovery pass; a failure is that of a call or write made here, and the writes made are exactly those of the outcome and of the pass |
| Dataplane.Reconciler.Persist | internal/dataplane/reconciler.go:284-293 | after a successful write every wanted job of the backlog is queued or finished; the plan counts as applied only once it is saved; the outcome tells how the one write made here went, and a failed one leaves the old record and Xray converged |
| Dataplane.Reconciler.CheckImmutable | internal/dataplane/reconciler.go:932-947 | accepts exactly the plans that redefine no handler known to run |
| Dataplane.Reconciler.Converge | internal/dataplane/reconciler.go:218-282 | keeps the books right between all calls and after any failure; it fails only at a call it made itself, the log of calls only grows, and otherwise Xray ends up exactly as planned, both pending tables are empty, and the layering of DNS handlers is established again |
| Dataplane.Reconciler.NormalizePending | internal/dataplane/reconciler.go:354-409 | settles everything in doubt or stops at a call of its own that failed, with the books right and the rules untouched |
| Dataplane.Reconciler.NormalizeWanted | internal/dataplane/reconciler.go:360-378 | retries the additions the new plan still wants, or stops at a call of its own that failed, and leaves the others as they are |
| Dataplane.Reconciler.NormalizeObsolete | internal/dataplane/reconciler.go:380-390 | discards the additions nobody wants any more, or stops at a call of its own that failed |
| Dataplane.Reconciler.NormalizeRemoves | internal/dataplane/reconciler.go:392-407 | settles the removals that were in doubt, or stops at a call of its own that failed |
| Dataplane.Reconciler.AddMissing | internal/dataplane/reconciler.go:229-240 | afterwards Xray runs the old and the new handlers side by side, or a call made here failed, and no rule has changed |
| Dataplane.Reconciler.DialerComesFirst | internal/dataplane/reconciler.go:1051-1078 | in the order of addition the dialer of a DNS handler comes before it |
| Dataplane.Reconciler.Route | internal/dataplane/reconciler.go:241-256 | routes are replaced only when every handler of the new rules is settled, so every mixture left by a failure of this replacement is live |
| Dataplane.Reconciler.RemoveObsolete | internal/dataplane/reconciler.go:263-282 | only handlers no new rule uses are removed; Xray is exactly as planned afterwards unless a call made here failed |
| Dataplane.Reconciler.NothingDialsFirst | internal/dataplane/reconciler.go:1063-1085 | in the order of removal nothing that stays or is still to be removed dials through the handler removed next |
| Dataplane.Reconciler.AddNew | internal/dataplane/reconciler.go:232-239 | a failed addition is recorded as in doubt, a successful one as running |
| Dataplane.Reconciler.RemoveOld | internal/dataplane/reconciler.go:276-281 | a failed removal is recorded as in doubt, a successful one as gone |
| Dataplane.Reconciler.RetryPendingAdd | internal/dataplane/reconciler.go:367-378 | remove-then-add settles a doubtful addition wherever the earlier attempt had stopped |
| Dataplane.Reconciler.DiscardPendingAdd | internal/dataplane/reconciler.go:381-390 | add-then-remove discards a doubtful addition wherever the earlier attempt had stopped |
| Dataplane.Reconciler.RetryPendingRemove | internal/dataplane/reconciler.go:397-407 | add-then-remove settles a doubtful removal wherever the earlier attempt had stopped |
| Dataplane.Reconciler.RetryFlowRecoveries | internal/dataplane/flow_recovery.go:142-149 | changes nothing at all while the runtime is not ready; otherwise it is one pass, which touches neither Xray nor the plan; its outcome tells exactly whether there was anything to do and anything to do it with, and how the capture and each of the two writes it made went; it is entered in the history with these, and leaves every wanted job finished or queued |
| Dataplane.Reconciler.RetryFlowRecoveriesLocked | internal/dataplane/flow_recovery.go:151-223 | tokens are never exchanged; a wanted job is afterwards finished or still queued; the resets, captures and writes of the pass are exactly what the control and the state file have seen since, the outcome tells how they went, and the pass is entered in the history with them |
| Dataplane.Reconciler.RunPass | internal/dataplane/flow_recovery.go:151-223 | however far a pass gets, it does to the queue what its captures and writes entail: one whose needed capture and both writes were acknowledged has tried the first four wanted jobs and keeps the others in front, any other leaves everything in place |
| Dataplane.Reconciler.SendPass | internal/dataplane/flow_recovery.go:183-223 | every reset carries a token saved before the call, whichever write fails; the outcome is that of the first write that failed |
| Dataplane.WaitingJobIsTried | internal/dataplane/flow_recovery.go:151-223 | over the life of any reconciler, a job that stays wanted is sent to Xray once i / 4 + 1 passes have succeeded, each with the capture it needed and both writes acknowledged, from when it stood at position i, whatever is applied, rehydrated or given up in between |
| Dataplane.Reconciler.Stamp | internal/dataplane/flow_recovery.go:166-186 | the first jobs without a token get the one captured now; no other job or token changes; a capture is made exactly when one of them has none, and it fails exactly when that capture does |
| Dataplane.Reconciler.SendResets | internal/dataplane/flow_recovery.go:192-213 | each of the first jobs is sent with its saved token, and is then finished or among the failed |
| Dataplane.Reconciler.CompletePass | internal/dataplane/flow_recovery.go:192-223 | after the resets every job is finished or still queued, and the pass is completed exactly when the second write was acknowledged |
| Dataplane.Reconciler.PreparedKeepTokens | internal/dataplane/flow_recovery.go:102-138 | a token of a job that stays queued is never replaced by the snapshot of a newer plan |
| FlowRecovery.ValidateFlowRecoveries | internal/dataplane/flow_recovery.go:37-66 | accepts exactly the recoveries whose client is served by their replacement, from one host, one per client and no more than clients |
| FlowRecovery.CurrentFlowRecoveries | internal/dataplane/flow_recovery.go:68-91 | an error exactly when some client had no route before; otherwise keeps exactly the recoveries whose failed route was the one in use |
| FlowRecovery.PrepareFlowRecoveries | internal/dataplane/flow_recovery.go:102-138 | wanted jobs keep place and token, new ones get the current snapshot, keys stay unique, the backlog stays within 2048, and nothing is queued while rehydrating |
| FlowRecovery.KeepApplicable | internal/dataplane/flow_recovery.go:93-111 | keeps exactly the jobs the plan still wants, in order, and their keys |
| FlowRecovery.KeptIsQueue | internal/dataplane/flow_recovery.go:93-111 | dropping unwanted jobs leaves a queue with unique keys within its bound |
| FlowRecovery.KeptPosition | internal/dataplane/flow_recovery.go:93-111 | dropping jobs never moves a wanted one back |
| FlowRecovery.OneRound | internal/dataplane/flow_recovery.go:151-223 | in one round a wanted job is tried, moves up by four in a pass whose writes were acknowledged, and never falls back when a plan is applied or a pass gives up |
| FlowRecovery.TriedInTime | internal/dataplane/flow_recovery.go:151-223 | over any run of applied plans, passes that succeed and passes that give up, a wanted job at position i is tried within i / 4 + 1 passes that succeed |
| Supervisor.Group.BeginStart | cmd/hydrat/xray_supervisor.go:155-164 | the shared fields after the first critical section of a start |
| Supervisor.Group.StartInvalidated | cmd/hydrat/xray_supervisor.go:166-173 | the shared fields after a start has noted its own invalidation |
| Supervisor.Group.FinishStart | cmd/hydrat/xray_supervisor.go:176-187 | the shared fields once a process has been started |
| Supervisor.Group.Register | cmd/hydrat/xray_supervisor.go:189-209 | late registration supplies the callbacks and must invalidate exactly when a process exists or is being started |
| Supervisor.Group.LateInvalidated | cmd/hydrat/xray_supervisor.go:211-219 | the shared fields after a late registration has noted its invalidation |
| Supervisor.Group.MarkReady | cmd/hydrat/xray_supervisor.go:322-333 | a generation is marked ready exactly if it is still current and invalidated |
| Supervisor.Group.SignalStart | cmd/hydrat/xray_supervisor.go:349-354 | the start channel holds one signal afterwards, whether or not it held one before |
| Supervisor.Group.RecordRehydrateError | cmd/hydrat/xray_supervisor.go:335-347 | an error withdraws readiness of the current generation only |
| Supervisor.Group.Readiness | cmd/hydrat/xray_supervisor.go:225-248 | accepts exactly while no start is pending and the current generation is ready |
| Supervisor.InvKept | cmd/hydrat/xray_supervisor.go:155-347 | every step of starter, late registration and worker, in any interleaving, keeps the invariant behind generation safety |
| Supervisor.GenerationSafety | cmd/hydrat/xray_supervisor.go:155-347 | in every run: while readiness is accepted an invalidation has finished since the last start began, a rehydration begun after it has succeeded, and no process was started since that rehydration began |
| Supervisor.ReadinessIsReachable | cmd/hydrat/xray_supervisor.go:155-333 | a run that ends with readiness accepted |
| Supervisor.NoLostWakeUp | cmd/hydrat/xray_supervisor.go:250-294 | in every run: while a process waits to be rehydrated the worker does not sleep without a signal that is there or about to be given |
| Supervisor.RehydrationFits | cmd/hydrat/xray_supervisor.go:250-294 | in every run a rehydration about to begin for the process that runs finds the reconciler fit for it, with nothing lost and recovery required or nothing installed, if and only if none has succeeded in that process yet |
| Supervisor.RehydratesTwice | cmd/hydrat/xray_supervisor.go:250-294 | a run in which a rehydration meant for an earlier process succeeds in the next one, so that the second one for that process finds it filled |
| PoolKey.DecimalInjective | internal/controller/critical_coverage_search.go:201-207 | decimal lengths are unambiguous |
| PoolKey.KeyInjective | internal/controller/critical_coverage_search.go:201-207 | two candidate pools with the same key have the same IDs in the same order |
| CoverSpec.CompleteMeansNothingMissing | internal/controller/critical_coverage_search.go:467-485 | completeness by counting is the absence of missing requirements when the evaluation only reports distinct requirements |
| CoverSpec.Problem.FirstIsFirst | internal/controller/critical_coverage_search.go:156-191 | the search specification finds a covering pool if and only if some index-ordered pool within the limit covers, and it is the first of them in preorder |
| CoverSpec.Problem.BelowIsFirst | internal/controller/critical_coverage_search.go:156-191 | below every node of the search tree the first covering pool is found and none is missed |
| CoverSpec.Problem.AdvancedKeeps | internal/controller/critical_coverage_search.go:173-189 | pushing a child or dropping a frame neither loses nor adds a pool still to be tried, and brings the search nearer its end |
| CoverSpec.Problem.PendingOfRoot | internal/controller/critical_coverage_search.go:142-172 | a fresh stack stands for the whole search |
| CoverPlanner.GreedyVerdictAcceptable | internal/controller/engine_capacity.go:1090-1137 | whatever greedy choices were made, the verdict is a covering pool within the limit or the fact that no index-ordered pool covers |
| CoverPlanner.VerdictAcceptable | internal/controller/engine_capacity.go:1030-1150 | the same for the whole planning run with its full, witness, greedy and search phases, whatever the evaluation function is |
| CoverPlanner.Session.EvaluatePool | internal/controller/critical_coverage_search.go:89-128 | a slice may end before, during or after an evaluation, which may also fail; how one ended that gave no value is recorded; the value returned is the one asked for and the cursor never mismatches |
| CoverPlanner.Session.Stop | internal/controller/critical_coverage_search.go:130-140 | cancelling the evaluation in flight does not change the verdict |
| CoverPlanner.Session.BeginFull | internal/controller/engine_capacity.go:1038-1078 | fixing the requirements and trying the witness pool keeps the verdict of the run |
| CoverPlanner.Session.ChoosePhase | internal/controller/engine_capacity.go:1052-1078 | the phase entered next has the verdict the whole run has |
| CoverPlanner.Session.InitializeGreedy | internal/controller/critical_coverage_search.go:38-68 | the greedy pass starts from the empty pool |
| CoverPlanner.Session.InitializeGreedyFromWitness | internal/controller/critical_coverage_search.go:45-68 | the greedy pass starts from the witness pool and its evaluation |
| CoverPlanner.Session.GreedyStep | internal/controller/engine_capacity.go:1090-1137 | one greedy step keeps the verdict and makes progress |
| CoverPlanner.Session.AdoptBest | internal/controller/engine_capacity.go:1094-1112 | adopting the best candidate keeps the verdict and makes the pool longer |
| CoverPlanner.Session.TryCandidate | internal/controller/engine_capacity.go:1114-1137 | trying a candidate keeps the verdict; an interrupted trial leaves the cursor where it was |
| CoverPlanner.Session.ScoreCandidate | internal/controller/engine_capacity.go:1133-1137 | a candidate that gains more becomes the best one, and the verdict stays that of the greedy state before it was tried |
| CoverPlanner.Session.Remember | internal/controller/critical_coverage_search.go:118-127 | a remembered evaluation is found only by the pool it belongs to |
| CoverPlanner.Session.ResumeSearch | internal/controller/critical_coverage_search.go:156-191 | the stack search returns the verdict, or an interruption that leaves the verdict as it was and has an evaluation that was cut off or failed as its cause |
| CoverPlanner.Session.Advance | internal/controller/critical_coverage_search.go:173-189 | one step of the stack keeps the verdict and shortens the search |
| CoverPlanner.Session.Resume | internal/controller/engine_capacity.go:1030-1150 | a slice returns the verdict the session is bound to reach unless an evaluation was cut off or failed in it, which does not change that verdict; it never ends with a mismatch |
| CoverPlanner.Session.AcrossSlices | internal/controller/engine_capacity.go:1030-1150 | however the work is cut into slices and whichever tasks are cancelled in between, the verdict is the same, and it is reached unless an evaluation was cut off or failed in every slice |
| ProbeControl.PriorityGate.Acquire | internal/probexray/control.go:250-272 | the gate and its queues after asking for it |
| ProbeControl.PriorityGate.EnterReset | internal/probexray/control.go:296-313 | the gate and its queues after a reset has asked for it |
| ProbeControl.PriorityGate.Cancel | internal/probexray/control.go:273-287 | a waiter that leaves passes on a grant it already had, or takes itself out of its queue |
| ProbeControl.PriorityGate.GrantNext | internal/probexray/control.go:315-336 | the next waiter in order of class and arrival, or a free gate |
| ProbeControl.PriorityGate.RemoveWaiter | internal/probexray/control.go:338-346 | the queue without the waiter |
| ProbeControl.InvKept | internal/probexray/control.go:233-346 | every step of every caller, including a cancellation that races a grant, keeps the invariant |
| ProbeControl.OneOwner | internal/probexray/control.go:125-231 | in every run a held gate has exactly one owner, a free one none and nobody waiting, the counters are the queue lengths, and a configure past its epoch check works on the current epoch |
| ProbeControl.FirstComeFirstServed | internal/probexray/control.go:250-336 | over a whole run calls of one class are let in in the order of arrival |
| ProbeControl.UrgentFirst | internal/probexray/control.go:315-336 | whoever is let in, nobody of a more urgent class was waiting |
| ProbeControl.ResetServedInTime | internal/probexray/control.go:296-336 | a waiting reset is let in within as many hand-overs as its place in the queue |
| ProbeControl.EpochKeeps | internal/probexray/control.go:50-57 | only a reset that holds the gate changes the epoch, so no configure is under way |
| RouteCache.RouteCache.Acquire | internal/gateway/prober.go:647-709 | waits exactly when it must; otherwise the cache is as specified and the slot is the entry's |
| RouteCache.RouteCache.TakeSlot | internal/gateway/prober.go:733-753 | the first free slot, else the slot of the least recently used idle entry, else none |
| RouteCache.RouteCache.FinishSetup | internal/gateway/prober.go:711-731 | a setup ends with a configured entry or with its slot free again, and waiters are told |
| RouteCache.RouteCache.Release | internal/gateway/prober.go:755-768 | one user less, touched, and waiters are told |
| RouteCache.InvKept | internal/gateway/prober.go:614-787 | every step of every user of the cache keeps the invariant |
| RouteCache.SlotsAccountedFor | internal/gateway/prober.go:614-787 | in every run free slots and entries partition all slots, users count the handles out, and live handles on one slot are equal |
| RouteCache.LiveSlotsUntouched | internal/gateway/prober.go:647-753 | an acquire never evicts or sets up again a slot with a live handle |
| RouteCache.VictimIsUnique | internal/gateway/prober.go:733-753 | the victim does not depend on the order in which the entries are visited |
| RouteCache.NoLostWakeUp | internal/gateway/prober.go:711-787 | in every run a waiter whose request could be served finds its channel closed |
| RouteCache.AcquireFindsSlot | internal/gateway/prober.go:647-753 | an acquire must wait if and only if there is nothing it may take |
| ProbeRuntime.ReasonIsStrongest | internal/proberuntime/runtime.go:456-470 | the reason found by a release applies, and outranks all others that apply |
| ProbeRuntime.Runtime.Acquire | internal/proberuntime/runtime.go:370-403 | a lease of the current epoch is granted exactly while ready and not draining |
| ProbeRuntime.Runtime.ReleaseBegin | internal/proberuntime/runtime.go:405-424 | the first half of a release: the lease is closed and counted if it is of the current epoch |
| ProbeRuntime.Runtime.ReleaseEnd | internal/proberuntime/runtime.go:443-480 | the second half: a tracked lease may ask for a recycle |
| ProbeRuntime.Runtime.RequestRecycle | internal/proberuntime/runtime.go:830-850 | the effect of a request, with and without one pending |
| ProbeRuntime.Runtime.TakeToken | internal/proberuntime/runtime.go:549-570 | a token is taken and the recycle counted |
| ProbeRuntime.Runtime.DropLeases | internal/proberuntime/runtime.go:751-763 | every lease still out is taken back |
| ProbeRuntime.Runtime.FinishReset | internal/proberuntime/runtime.go:673-712 | how a recycle ends |
| ProbeRuntime.Runtime.RecycleFailed | internal/proberuntime/runtime.go:601-643 | a failed stop or start leaves the manager degraded, neither starting nor draining, and touches no lease |
| ProbeRuntime.Runtime.Close | internal/proberuntime/runtime.go:496-513 | closing takes back every lease |
| ProbeRuntime.StageKept | internal/proberuntime/runtime.go:265-368 | the flags follow the stages of start and recycle in every interleaving |
| ProbeRuntime.CountKept | internal/proberuntime/runtime.go:405-424 | every step keeps the counter equal to the leases counted in the current epoch |
| ProbeRuntime.TraceKept | internal/proberuntime/runtime.go:562-716 | every step keeps: leases are only granted after the manager has become ready since the last request |
| ProbeRuntime.LimitKept | internal/proberuntime/runtime.go:405-480 | every step keeps: beyond the limit some release is still to ask for the recycle |
| ProbeRuntime.LeasesAreCurrent | internal/proberuntime/runtime.go:370-403 | in every run a tracked lease is of the current epoch, and a lease that can still be counted is tracked |
| ProbeRuntime.LateReleaseChangesNothing | internal/proberuntime/runtime.go:405-480 | in every run releasing a lease of an earlier epoch changes nothing of the manager |
| ProbeRuntime.CountedOnceInOwnEpoch | internal/proberuntime/runtime.go:405-424 | in every run no lease is counted twice, each in its own epoch, and the counter is the number counted in the current epoch |
| ProbeRuntime.NoLeaseBetweenRequestAndReady | internal/proberuntime/runtime.go:562-716 | in every run between a recycle request and the next lease the manager has become ready again |
| ProbeRuntime.OneDrainPerRequest | internal/proberuntime/runtime.go:830-850 | in every run until closing, requests that took effect are the drains begun plus the token waiting, and a request never finds the channel full |
| ProbeRuntime.LimitIsEnforced | internal/proberuntime/runtime.go:456-473 | in every run leases are granted beyond the limit of probes only while the release that asks for the recycle is under way |
| ProbeRuntime.OverLimitAsks | internal/proberuntime/runtime.go:456-473 | and that release stops the granting |
| PlacementQueue.LessIsByPlace | internal/controller/placement_queue.go:20-47 | the order of reasons has no ties |
| PlacementQueue.NextIsLeast | internal/controller/placement_queue.go:40-47 | what is taken next is below everything else in the queue |
| PlacementQueue.HardFailureIsNext | internal/controller/placement_queue.go:20-35 | a queued hard failure is always taken next |
| PlacementQueue.PlacementQueue.Enqueue | internal/controller/placement_queue.go:71-79 | the queue holds every reason at most once |
| PlacementQueue.PlacementQueue.Pop | internal/controller/placement_queue.go:81-90 | the least reason leaves the queue |
| PlacementQueue.PlacementQueue.Take | internal/controller/placement_queue.go:92-107 | a given reason leaves the queue, if it is there |
| PlacementQueue.EarlierStandsForBoth | internal/controller/hard_failure_event.go:55-69 | keeping the earlier of two deadlines stands for both sets of failures |
| PlacementQueue.HardFailureMailbox.Publish | internal/controller/hard_failure_event.go:55-69 | the mailbox keeps the most urgent failure; one without a deadline is ignored |
| PlacementQueue.HardFailureMailbox.Pop | internal/controller/hard_failure_event.go:78-90 | the pending failure is taken |
| PlacementWorker.RetryDelay | internal/controller/runtime_events.go:150-167 | the base doubled per attempt and capped |
| PlacementWorker.Worker.ScheduleRetry | internal/controller/runtime.go:604-640 | the retry keeps the earliest deadline and is due no later than it |
| PlacementWorker.Worker.AdmitHard | internal/controller/runtime.go:642-660 | the admitted event is the earliest of pending, retry and mailbox, and stands for all failures they held |
| PlacementWorker.Worker.ExpireHardDeadline | internal/controller/runtime.go:594-598 | a missed deadline withdraws readiness and queues normalization |
| PlacementWorker.Worker.StartHard | internal/controller/runtime.go:661-696 | a hard failure starts strictly before its deadline or is expired |
| PlacementWorker.Worker.StartNext | internal/controller/runtime.go:698-722 | a free worker starts a hard placement exactly when one is asked for and its most urgent failure is in time, for that failure; else it starts the least of the other reasons; nothing queued and no failure is lost or made up |
| PlacementWorker.Worker.PlaceEnds | internal/controller/runtime.go:680-694 | the channel of results is empty when a placement delivers |
| PlacementWorker.Worker.OnResult | internal/controller/runtime.go:732-810 | keeps the invariant (one placement at a time, starts in time, everything published somewhere, work has attention); what was cancelled stays owed until a hard placement succeeds and is then queued or running; accounts for the failures of the attempt; a failure of the attempt is forgotten if and only if the attempt was halted before the deadline, nobody else has the failure, and no hard placement starts for another one; when nobody asks for a hard placement none is started or left queued |
| PlacementWorker.Worker.FinishHard | internal/controller/runtime.go:744-809 | the fate of the failures of a hard attempt for every way it can end |
| PlacementWorker.Worker.FinishOrdinary | internal/controller/runtime.go:755-798 | an ordinary placement stops the worker only if normalization breaks |
| PlacementWorker.Worker.Requeue | internal/controller/runtime.go:801-808 | after a success everything owed is queued |
| PlacementWorker.Worker.OnRetryWake | internal/controller/runtime.go:811-828 | a stale timer does nothing; a current one queues its reason, or expires the hard failure when its deadline is at hand |
| PlacementWorker.Worker.OnPlacementWake | internal/controller/runtime.go:829-855 | an announced hard failure preempts in bounded time and the preempted reason stays owed; a failure is pending afterwards if and only if the mailbox, a retry or the worker held one, and otherwise the announcement is gone; with a mailbox nothing is cancelled then |
| PlacementWorker.Worker.Preempt | internal/controller/runtime.go:829-853 | the pending failure is the most urgent one anybody held, and the placement under way is cancelled exactly when there is one or there is no mailbox |
| PlacementWorker.Worker.OnPreemptDeadline | internal/controller/runtime.go:729-731 | a placement that ignores its cancellation stops the worker; nothing is started beside it |
| PlacementWorker.SettlingKeepsAll | internal/controller/runtime.go:732-810 | however an attempt ends, no published failure disappears from the ledger |
| PlacementWorker.Worker.OnHardResult | internal/controller/runtime.go:732-810 | the fate of every failure of a hard attempt, and exactly when one is forgotten |
| PlacementWorker.Worker.ForgottenIsHeldByNobody | internal/controller/runtime.go:732-810 | a failure the ledger calls forgotten is in no field of the worker, its retries or its mailbox |
| PlacementWorker.HaltedAttemptIsForgotten | internal/controller/runtime.go:732-810 | a run of the worker: a failure is published and announced, its placement starts and is halted before the deadline; afterwards the worker is idle, no field holds the failure, nothing is queued, and readiness was not withdrawn |
| PlacementWorker.Announce | internal/controller/runtime.go:829-853 | a run of the worker: a hard failure announced while another placement runs, without an event, leaves the queue and nobody holds a failure; the placement is cancelled exactly when there is no mailbox |
| PlacementWorker.AnnouncementIsForgotten | internal/controller/runtime.go:732-853 | the run goes on without a mailbox: the worker is idle, no hard placement has ever started, and the cancelled one stays due |
| TorCoordinator.TorCoordinator.AcquirePlanCommit | internal/controller/tor_coordinator.go:87-101 | never waits: granted exactly when nothing is committed or mutated and the version is current |
| TorCoordinator.TorCoordinator.ReleasePlanCommit | internal/controller/tor_coordinator.go:99-100 | releasing the fence frees the commit lock and changes nothing else |
| TorCoordinator.TorCoordinator.PublishLocked | internal/controller/tor_coordinator.go:266-278 | a publication shows the new profiles under the next version |
| TorCoordinator.TorCoordinator.BeginMutation | internal/controller/tor_coordinator.go:245-255 | a mutation is marked, which needs the commit lock |
| TorCoordinator.TorCoordinator.EndMutation | internal/controller/tor_coordinator.go:257-262 | a mutation is unmarked, which needs the commit lock |
| TorCoordinator.ExclusiveKept | internal/controller/tor_coordinator.go:245-262 | every step keeps: one operation at a time is between taking and returning the token |
| TorCoordinator.FaithfulKept | internal/controller/tor_coordinator.go:103-164 | every step, also a probe that borrows the explorer slot, keeps: outside mutations the snapshot shows the warm profiles the agent runs, or nothing, unless a mutation whose reply was lost has taken effect since they were read |
| TorCoordinator.FenceHolds | internal/controller/tor_coordinator.go:84-101 | in every run while the fence for v is held the snapshot is version v and no remote call is in flight; it is true of the warm profiles or empty, unless a lost mutation has taken effect since they were read |
| TorCoordinator.SnapshotStaysBehindFence | internal/controller/tor_coordinator.go:84-101 | whatever happens behind the fence, version and snapshot stay, and nothing becomes loose there |
| TorCoordinator.NothingMovesBehindFence | internal/controller/tor_coordinator.go:84-101 | from taking the fence to releasing it the warm profiles of the agent stay as they are, whatever happens, if and only if no mutation whose reply was lost is loose |
| TorCoordinator.LooseBehindFence | internal/controller/tor_coordinator.go:223-243 | a run in which a plan holds the fence after a reconciliation whose reply was lost, so that it may still take effect |
| TorCoordinator.NothingIsLoose | internal/controller/tor_coordinator.go:213-243 | in every run in which each lost reply belongs to an exploration, nothing is ever loose and the profiles read are never stale |
| TorCoordinator.FenceHoldsUnambiguously | internal/controller/tor_coordinator.go:84-101 | in such a run the fence keeps its whole promise: the snapshot is true and neither it nor the warm profiles of the agent change while the fence is held |
| TorCoordinator.CommitsTheTruthUnambiguously | internal/controller/tor_coordinator.go:72-101 | in such a run a plan commits only against profiles that are the warm ones of the agent, or none |
| TorCoordinator.LostReplyEndsTheGuarantee | internal/controller/tor_coordinator.go:213-243 | from every state that keeps the invariant and in which a called mutation of warm profiles has not begun at the agent, a lost reply leads, whatever the fetch after it answers, to a held fence behind which the warm profiles can still change |
| TorCoordinator.OneMutationAtATime | internal/controller/tor_coordinator.go:245-262 | in every run at most one operation works on the agent |
| TorCoordinator.VersionsGrow | internal/controller/tor_coordinator.go:266-278 | versions never go back, and equal versions show equal profiles |
| TorCoordinator.CapturesAgree | internal/controller/tor_coordinator.go:69-82 | captures with equal versions, taken at any time, are equal |
| TorCoordinator.CommitsWhatWasCaptured | internal/controller/tor_coordinator.go:72-101 | a plan made from a capture commits only against those very profiles, and they are the warm ones of the agent unless a lost mutation has taken effect since they were read |
| ProbeJobs.DomainKeysDoNotMix | internal/controller/qualification_jobs.go:232-236 | two jobs share a bucket exactly when they share a domain, or are the same candidate without one |
| ProbeJobs.InterleaveSourceRun | internal/controller/qualification_jobs.go:181-201 | within a run every source keeps its jobs in order and nobody who has jobs left is more than one behind |
| ProbeJobs.InterleaveFullProbePriorityGroup | internal/controller/qualification_jobs.go:225-263 | the same for failure domains |
| ProbeJobs.InterleaveProbeSources | internal/controller/qualification_jobs.go:174-205 | every priority run keeps its place and its sources take turns |
| ProbeJobs.InterleaveFullProbeJobsByFailureDomain | internal/controller/qualification_jobs.go:207-223 | every priority run keeps its place and its domains take turns |
| ProbeJobs.SameBucketsPermute | internal/controller/qualification_jobs.go:174-263 | a list with the same buckets is a permutation |
| ProbeJobs.RunsPermute | internal/controller/qualification_jobs.go:174-223 | the interleaved list is a permutation of the given one |
| ProbeJobs.NobodyOvertakes | internal/controller/qualification_jobs.go:174-263 | when a bucket launches its job n every other bucket has launched its job n - 1, if it has one |
| ProbeJobs.FairProbeJobs | internal/controller/qualification_jobs.go:265-291 | both lanes keep their order within their caps, and discovery job k comes right after 3(k + 1) maintenance jobs or after all of them |
| ProbeJobs.FairLanes | internal/controller/qualification_jobs.go:268-291 | merging capped lanes keeps both and puts every discovery job in its place |
| ProbeJobs.MergeIsFair | internal/controller/qualification_jobs.go:280-290 | the position of every discovery job |
| ProbeJobs.MergeKeepsLanes | internal/controller/qualification_jobs.go:280-290 | merging keeps each lane as it was |
| ActiveOverlap.CheckedDurationSum | internal/config/config.go:217-226 | refuses exactly negative parts and sums beyond 64 bits, without overflowing on the way |
| ActiveOverlap.CheckedDurationProduct | internal/config/config.go:228-233 | refuses exactly negative factors and products beyond 64 bits |
| ActiveOverlap.OverlapMeansSharedPort | internal/config/config.go:774-781 | port ranges overlap if and only if they share a port |
| ActiveOverlap.ActiveFailureFreshness | internal/config/config.go:238-256 | the length of the failure pipeline, or the largest duration when it does not fit |
| ActiveOverlap.Validate | internal/config/config.go:465-505 | accepts exactly the configurations whose window, overlap, workers and budgets fit together |
| ActiveOverlap.AliveBound | internal/config/config.go:483-492 | runs spaced by the interval that end within the window: at most (W - 1) / I are alive when the next one is due |
| ActiveOverlap.AliveAtAnyTime | internal/config/config.go:483-492 | at any time at most (W - 1) / I + 1 are alive |
| ActiveOverlap.BoundIsTight | internal/config/config.go:489-492 | that many can be alive, so no smaller overlap would do |
| ActiveOverlap.SpacedApart | internal/controller/runtime.go:457-470 | starts at least an interval apart drift apart by as many intervals as there are runs between |
| ActiveOverlap.ActiveRuns.Begin | internal/controller/runtime.go:443-485 | under an accepted configuration a run that is due always finds a slot; at most (W - 1) / I + 1 runs are alive then, and their critical probes fit the workers |
| ActiveOverlap.ActiveRuns.RunEnds | internal/controller/runtime.go:486-490 | a run that ends gives its slot back; the bounds on runs and critical probes hold |
| ActiveOverlap.ActiveRuns.Observe | internal/controller/active_monitor.go:201-212 | a run probes its critical candidates exactly when they are within the limit and otherwise ends without a probe; the critical probes of all runs stay within the workers |
| ActiveOverlap.ActiveRuns.ProbeEnds | internal/controller/active_monitor.go:245-301 | a probe that ends keeps the bounds |
| ActiveOverlap.WorkersSuffice | internal/config/config.go:493-495 | when no run probes more critical candidates than the limit and no more runs than the overlap hold a slot, the critical probes in flight never exceed the workers |
| QoE.Apply | internal/qoe/qoe.go:170-256 | the next state and the sample are as specified; an infrastructure failure changes nothing |
| QoE.LatestWindow | internal/qoe/qoe.go:339-356 | the last valid samples including the new one |
| QoE.WindowCounts | internal/qoe/qoe.go:358-366 | the size of the window and its bad samples |
| QoE.CountAvailabilityFailures | internal/qoe/qoe.go:258-271 | the outage at the end of the window, since the last recovery |
| QoE.LearnBaseline | internal/qoe/qoe.go:382-409 | the baseline is the medians of the first successes, once there are enough |
| QoE.StepOfRun | internal/qoe/qoe.go:170-256 | in a run the status and the last recovery follow from the history of samples alone |
| QoE.BadRunDegrades | internal/qoe/qoe.go:203-214 | in every run the configured number of bad samples in a row leaves the route degraded |
| QoE.GoodRunRecovers | internal/qoe/qoe.go:203-214 | in every run a window of good samples leaves the route not degraded |
| QoE.HealthyHasBaseline | internal/qoe/qoe.go:203-232 | in every run healthy means a complete baseline |
| QoE.BaselineRestsWhileDegraded | internal/qoe/qoe.go:216-232 | in every run the baseline does not move into, during or out of a degradation |
| QoE.RecoversOnGoodSample | internal/qoe/qoe.go:203-214 | under a steady policy a recovery is always decided on a good sample |
| QoE.OutageDegrades | internal/qoe/qoe.go:183-214 | under a steady policy an outage of the configured length leaves the route degraded |
| QoE.BadSampleDoesNotHelp | internal/qoe/qoe.go:203-214 | a bad sample never makes a window look recovered |
| QoE.OutageRecovers | internal/qoe/qoe.go:183-214 | for every other accepted policy a run in which one more failure of an outage recovers the route |
| QoE.OutagesDegradeIfSteady | internal/qoe/qoe.go:183-214 | an outage of the configured length leaves the route degraded in all runs if and only if the policy is steady |
| QoE.HysteresisGap | internal/qoe/qoe.go:203-249 | between a recovery and the next degradation there is a stated number of new bad samples |
| SchedulerLoad.ActiveLoad | internal/scheduler/load.go:183-189 | the counts of active clients per candidate |
| SchedulerLoad.LoadFromAssignments | internal/scheduler/load.go:191-208 | the counts per candidate for given assignments |
| SchedulerLoad.ActiveDomainLoad | internal/scheduler/load.go:113-139 | the counts of active clients per failure domain |
| SchedulerLoad.Loads.Adjust | internal/scheduler/load.go:141-163 | every candidate and domain count changes by exactly what the assignment burdens |
| SchedulerLoad.Loads.Reassign | internal/scheduler/scheduler.go:300-375 | the counts kept up to date client by client are, at every choice, those of all other clients, and at the end those of counting the new assignments from scratch |
| SchedulerLoad.CountsAreNatural | internal/scheduler/scheduler.go:292-308 | counts are never negative, even with one client taken out |
| SchedulerLoad.Exchanged | internal/scheduler/scheduler.go:305-373 | exchanging one client changes each count by what the two burden |
| SchedulerLoad.PreferSpareCapacity | internal/scheduler/load.go:41-59 | those with spare capacity and comparable quality, or everybody if there are none |
| SchedulerLoad.SharedLoad | internal/scheduler/load.go:61-69 | the load of a physical route over all its entries |
| SchedulerLoad.Rendezvous | internal/scheduler/load.go:10-39 | the candidate of highest score among the preferred, the smaller ID on a tie |
| SchedulerLoad.SharedPermuted | internal/scheduler/load.go:61-69 | the load of a route does not depend on the order of the inventory |
| SchedulerLoad.ChoiceIsOrderFree | internal/scheduler/load.go:10-69 | however the candidates are listed the same one is chosen |

## Left out

- The per-client `RouteClient` fallback of the reconciler: it never removes the route of a client that has left the plan.
- The list of affected routes handed to the staged adapter, which the adapter ignores, and the `dormant` flag of a client route.
- The checks of direct suffixes and direct domains in plan validation, JSON parsing, and the validation of DNS resolver addresses.
- Logging, diagnostics windows, metrics endpoints, and the texts of errors.
- XrayRuntime.Xray.ReplaceRoutes: the order of rules inside the routing document and the block rules are not part of this model, only which handlers a client's rule uses.
- Shutdown of the supervisor group, and the last rehydration error, which only changes the text of a refusal.
- Dataplane.Reconciler.Rehydrate: not modelled for a process that an earlier rehydration has already filled (`Supervisor.RehydratesTwice`), because its books then do not describe Xray. The supervisor and the reconciler meet in the precondition, which `Supervisor.Link` follows along the events of a run.
- The order in which candidates are offered to the cover planner, cache keys of planning sessions, their retention between cycles, and the lower-bound helper that nothing calls.
- Retention of planned coverage for incumbents and reserves, which is built from the same planner.
- What a configure installs in the probe Xray: after a failed configure it need not match the recorded slots, so only the gate and the epoch are modelled.
- Processes, watchers by process generation, and stop errors of the probe manager: a child exit may ask for a recycle at any time, and a failed stop or start is any failure of the recycle.
- Liveness of the probe manager after a failed restart: it stays degraded by design.
- PlacementQueue.PlacementQueue.Pop: the layout of the heap is not modelled, only which element it gives up.
- PlacementWorker.Worker.OnRetryWake: which timers have fired is left open, so a stale signal may carry any serial; that a retry does fire is not stated.
- Construction of hard-failure events from probe times, and the start-up sequence before the loops run.
- RouteCache.RouteCache.Acquire: one turn of the loop is modelled; a caller that was woken goes round again. Entries are values in the map, so a handle names its entry by candidate; while it is live that entry cannot be another one.
- TorCoordinator.FaithfulKept: does not cover an agent that restarts on its own, or whose Tor process exits, and forgets profiles, because nothing tells the coordinator until the next repair.
- TorCoordinator.TorCoordinator.ReleasePlanCommit: the release that is called a second time, which does nothing.
- QoE.Apply: median and effective times of the window, its start and gaps, and the reason shown for a degradation are reported but decide nothing, so they are not part of the state.
- The scheduler's choice of assignments and reserves; in the pass over the clients it is an arbitrary function of the client and the counts.
- SchedulerLoad.Rendezvous: scores are reals, so ties caused by rounding are not modelled.
- ActiveOverlap.Validate: only the checks that concern active runs, not the rest of the configuration.
- Storage, HTTP, SOCKS, DNS, QUIC and MTProto exchanges, WireGuard, nftables, the portal, subscriptions and geo assets.
