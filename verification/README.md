# Power management of homelab nodes, verified

The autoscaler turns machines of a home cluster on and off. Each machine is described by a node resource:
its desired power, its observed power and the progress of the current power operation. Several controllers
write that resource at the same time, each through read, change and conditional write, and they keep out of each
other's way with a lock that lives in four annotations of the node and expires by clock. This project models that
protocol in Dafny and proves what it keeps: who can hold the lock, what an operation leaves behind when a step of it
fails, that a transition in flight is not disturbed, and what the group sizing calls do to the nodes.

`dafny verify dfyconfig.toml` checks everything.

## How it is built

| file | what it models |
|---|---|
| `Objects.dfy` | stored objects; what a main-resource write and a status write change |
| `Lease.dfy` | the four annotations, what a reader makes of them, expiry |
| `LeaseProtocol.dfy` | any number of lock calls, other writers and the clock, interleaved step by step |
| `LeaseLimits.dfy` | where the lock does not protect: concrete runs and exact conditions |
| `ApiServer.dfy` | the API server as one controller sees it, with arbitrary interference between requests |
| `Coordination.dfy` | the coordination manager's retry loops, each execution shown to be a run of the protocol |
| `Events.dfy` | the transition table, its lookups, and the histories it accepts |
| `Uncordon.dfy` | cordoning, taints, and the uncordon loop with its growing pauses |
| `Backoff.dfy` | the delay schedule that the reconciler and the state machine share |
| `NodeMachine.dfy` | the state machine: event engine, hooks, power operations, job monitor |
| `PowerRuns.dfy` | runs of power operations on one machine: unfinished jobs, and the lock after a timeout |
| `Reconciler.dfy` | the node reconciler and the core sync, acting on the same node |
| `InFlight.dfy` | any number of reconciles and core syncs as processes, interleaved step by step, during a transition |
| `Registry.dfy`, `Sweep.dfy` | all nodes of the cluster; the sweep over expired locks |
| `GroupSizing.dfy` | target size, increase, deletion and oldest-first decrease of node groups |

The lock is proved correct in two layers. `LeaseProtocol` is a state machine over atomic steps (call, read, check,
stamp, write, and steps of everybody else); a run is any list of steps, and the theorems hold after every run.
`Coordination` holds the loops as methods; every statement of a loop is matched with a step, so each execution is a
run of that state machine, with interference before every request, and what it commits is a legal commit of the protocol.
The methods above it (hooks, power operations, reconciler) are proved against the contracts of those loops.

Time is counted in nanoseconds. Annotation values that the program parses are one of: an instant, a number, other text.

## What is assumed

* A write carries the version it read. It fails without effect if the stored version differs, and otherwise bumps the
  version; a write that changes nothing bumps it too, which can only cause more conflicts.
* A main-resource update leaves status alone and a status update leaves everything else alone
  (`api/infra/v1alpha1/node_types.go:168`).
* An error from a write means that it did not commit.
* `RetryOnConflict` is a loop of at most five attempts that repeats only after a conflict.
* The event engine runs before hook, change of state, enter hook, after hook; a cancel in the before hook leaves the
  state as it was (`internal/fsm/node_state_machine_test.go:262-283`).
* The clock is shared and never goes backwards. An age is computed from one clock reading.

`ApiServer` has three constants that say how tame the surroundings are: `reliable` (no request fails except for a missing
object or a version conflict), `alone` (nobody else writes) and `steady` (nobody else changes the node's progress or
removes the node). Where a contract does not mention them it holds in all surroundings.

`ApiServer` and `Registry` keep ghost logs that only their own requests extend: commits (`mine`, `statuses`), jobs created
and jobs refused, lists of jobs and deletions, requests about the node with their replies, looks at jobs next to the job as
it was stored, reads and writes of the Kubernetes node, pauses, refused requests. The retry loops among the requests are
kept in a `book`: a loop can be entered only if the requests that no other loop accounts for have ended as such a loop does
(`ApiServer.Enter`), that is with a read that failed or left nothing to do, a write that went through or failed for good, or
the fifth conflict. Contracts that speak of what a method has seen, tried,
written or waited for speak of what these logs have gained during the call.

## Findings

Where the code differs from its documents or from what one might expect, the model follows the code.

* `docs/architecture/state.md:105` says that a transition stuck for 15 minutes is cleaned up by force. Cleanup needs a
  backoff record, and a machine has one exactly if it opened the operation itself (`NodeStateMachine.Valid`,
  `CheckStuckState`). The reconciler builds a fresh machine each time, so a stored transition is never cleaned up
  however old it is; it is asked back after a minute (`HandleStateTransitionsWithFSM`).
* `docs/architecture/state.md:48` shows a lock timeout of `5m`. The code writes seconds without a unit; `5m` is not a number
  and reads as the default (`CountsExactlyUntil`).
* A timeout of the job releases nothing. The lock is still in place, but expired at every later instant (`TimedOut`),
  and the next operation gets it (`StartAgain`).
* The sweep decides on the copy it has listed and clears the one it reads afterwards, so it can take away a lock that was
  taken in between (`StaleSweepEndsLiveTerm`). A forced release ends a live term exactly if the lock on the copy that it
  replaces counts (`ForceEndsLiveTermIff`).
* While a transition is on record no job is created unless a reconcile had read the node before it and was past its
  conditional writes; that is the exact condition (`JobsOnlyFromPoised`), and it cannot be met if reconciles of a node do not
  overlap (`LaunchedAndQuiet`). Even then the lock of the operation keeps a second job away as long as it is live
  (`LockedTransitionStands`).
* A release asks for the owner, not for the call. All operations of the reconciler carry the same owner, so a late release
  takes away the live lock of the next operation (`LateReleaseEndsNewerTerm`); a release can end a live term
  exactly if it asks for the owner that the term names (`ReleaseEndsOnlyItsOwner`).
* With an empty owner or operation a lock reads as no lock and excludes nobody (`UnnamedLocksDoNotExclude`).
* Cleanup of pending jobs and cordoning come before the lock, so a refused StartNode or ShutdownNode leaves no pending
  power job of that Kubernetes node, also not that of another operation in flight (`StartNode`, `ShutdownNode`).
* A failed shutdown goes back to Ready and leaves the Kubernetes node cordoned (`ShutdownNode`, which promises the cordon
  for all outcomes).
* A decrease shuts down a number of nodes that is `-delta` only in special cases (`WhenDecreaseIsAsAsked`); an increase
  turns on one node whatever `delta` is.
* Without a recorded start the age of a transition counts as one minute for ever (`Age`).

## Model

| member | source | states |
|---|---|---|
| Lease.LockedReadsBack | internal/fsm/coordination.go:171-219 | what AcquireLock writes is read back by CheckLock with the time floored to the second and the timeout rounded, exactly if both names are non-empty; other annotations stay |
| Lease.ClearedReadsAsNoLock | internal/fsm/coordination.go:151-155 | a removal takes away exactly the four annotations, after which CheckLock finds no lock, and the others stay |
| Lease.LifetimeOfGrant | internal/fsm/coordination.go:100-104 | a lock taken at t for a whole-second T is live up to t + T - 1s and expired after t + T; other timeouts cost half a second more on either side |
| Lease.ExpiryIsForGood | internal/fsm/coordination.go:222-229 | an expired lock stays expired |
| Lease.CountsExactlyUntil | internal/fsm/coordination.go:171-229 | for every annotation map, whoever wrote it: the lock counts exactly up to the instant that its annotations say, which is five minutes after the timestamp if the timeout is missing or not a number, and otherwise that many whole seconds; with an empty name or a timestamp that is no time it never counts |
| Lease.GrantedIsRounded | internal/fsm/coordination.go:59-109 | a lock is written with the start floored to the second and the timeout rounded to the nearest one, half-way cases to even, and five minutes if none is asked for |
| Objects.WritesCommute | api/infra/v1alpha1/node_types.go:166-170 | a write of the main resource and one of the status leave the same node in either order |
| LeaseProtocol.LiveTermStays | internal/fsm/coordination.go:88-93 | while a granted term is live no later acquisition commits and its annotations stay in place, along any history of commits |
| LeaseProtocol.AtMostOneLive | internal/fsm/coordination.go:59-119 | of all granted terms at most one is live, and it is the one the stored annotations name |
| LeaseProtocol.UpdateKeepsInv | internal/fsm/coordination.go:106-109 | a conditional write that goes through replaces exactly the copy that was read, with the commit that the call had drafted; one that does not changes nothing |
| LeaseProtocol.StepKeepsInv | internal/fsm/coordination.go:80-118 | every step of every call and every step of others keeps the protocol invariant |
| LeaseProtocol.RunKeepsInv | internal/fsm/coordination.go:59-253 | the invariant holds after any interleaving |
| LeaseProtocol.RunKeepsAsAsked | internal/fsm/coordination.go:59-253 | after any interleaving every commit of a call is of the kind, for the names and timeout, that the call was made for |
| LeaseProtocol.MutualExclusion | internal/fsm/coordination.go:59-119 | after any interleaving of any number of owners, writers and the clock two live terms are the same term, even for one owner |
| LeaseProtocol.AllOrNothing | internal/fsm/coordination.go:80-168 | after any interleaving a call has committed once if it reported success and never otherwise, and what it committed is what it was asked for; an acquisition replaced no live lock, a release removed no other owner's lock, and only lock annotations changed |
| LeaseLimits.ReleaseEndsOnlyItsOwner | internal/fsm/coordination.go:138-150 | a release can end a live term if and only if it asks for the owner that the term names |
| LeaseLimits.LateReleaseEndsNewerTerm | internal/fsm/coordination.go:122-168 | a run in which the release of an expired operation ends the live lock of the next one |
| LeaseLimits.UnnamedLocksDoNotExclude | internal/fsm/coordination.go:184-186 | with an empty owner or operation two calls can hold live terms at once |
| LeaseLimits.ShownLockWasGranted | internal/fsm/coordination.go:171-219 | where only the protocol writes locks, the lock that is shown is that of a granted term which nothing has ended |
| LeaseLimits.ForceEndsLiveTermIff | internal/controller/infra/node_controller.go:526-546 | a forced release ends a live term if and only if the lock on the copy that it replaces counts |
| LeaseLimits.StaleSweepEndsLiveTerm | internal/controller/infra/node_controller.go:497-508 | a run in which the sweep, having listed an expired lock, takes away the live one that replaced it |
| Coordination.CoordinationManager.AcquireLock | internal/fsm/coordination.go:59-119 | success is one commit that put this lock in place of none that counted, and it is the call's commit in its run of the protocol; a lock on the local copy that counts by its annotations, also one without a readable timeout, refuses the call without any request, and any other refusal names the live lock that the last read showed; otherwise the requests are one booked loop that ended in an error or five conflicts; without success nothing was written; undisturbed and with no live lock it succeeds |
| Coordination.CoordinationManager.TryAcquire | internal/fsm/coordination.go:80-118 | one attempt: commits, refuses for the lock that its read showed, fails on an error, or asks for a retry after a conflict |
| Coordination.CoordinationManager.ReleaseLock | internal/fsm/coordination.go:122-168 | one loop of requests is run and booked; success is one commit that removes a lock of this owner, or the last read showed no owner; another owner's lock, as the last read showed it, is never removed; a failed call met an error or five conflicts and wrote nothing |
| Coordination.CoordinationManager.TryRelease | internal/fsm/coordination.go:125-167 | one attempt of a release |
| Coordination.CoordinationManager.ForceReleaseLock | internal/fsm/coordination.go:232-253 | one loop of requests is run and booked; success clears the four annotations of the version it read, whoever owns them, and nothing else, or the last read showed no annotations; a failed call met an error or five conflicts and wrote nothing |
| Coordination.CoordinationManager.TryForce | internal/fsm/coordination.go:233-252 | one attempt of a forced release |
| Events.ValidateEventTransition | internal/fsm/events.go:70-84 | for any table: true exactly if some entry leads out of the state on the event |
| Events.GetDestinationState | internal/fsm/events.go:114-128 | for any table: finds a destination exactly if the transition is accepted, and it is that of the first such entry |
| Events.GetValidEventsForState | internal/fsm/events.go:87-111 | for any table: lists exactly the accepted events, each once, in order of first occurrence |
| Events.NextIsTheTable | internal/fsm/events.go:24-47 | the transitions of this machine are those of the table, and the table leaves no choice of destination |
| Events.StrictAlternation | internal/fsm/events.go:131-138 | accepted events open and close operations in strict alternation, and an operation is open exactly in a transitional state |
| Events.AbortedOperationsVanish | internal/fsm/events.go:38-42 | leaving out all operations that failed or timed out gives the same final state |
| Uncordon.WithoutKeepsOthers | internal/fsm/node_state_machine.go:665-675 | filtering drops exactly the taints of that key and does nothing if there are none |
| Uncordon.WithoutKeepsOrder | internal/fsm/node_state_machine.go:667-673 | filtering keeps the order of the other taints |
| Uncordon.IntervalStays | internal/fsm/node_state_machine.go:697-713 | the pauses are 2, 4, 8 and then 10 seconds |
| Uncordon.PausesSumUp | internal/fsm/node_state_machine.go:697-713 | the pauses of the schedule add up to the total that is bounded by the timeout |
| Uncordon.AtMostElevenAttempts | internal/fsm/types.go:62 | the default timeout of 90 seconds allows at most eleven attempts |
| Uncordon.KubeNodes.SetNodeUnschedulable | internal/fsm/node_state_machine.go:592-625 | one read, and one write exactly if it showed a schedulable node and the write succeeds; in all surroundings the write only cordons the node that it replaces; undisturbed the node ends up cordoned and otherwise as it was |
| Uncordon.KubeNodes.SetNodeSchedulableInternal | internal/fsm/node_state_machine.go:628-685 | success leaves the node as its one read showed it, but schedulable and without the unschedulable taint, other taints kept in order; in all surroundings every write does just that to the node it replaces |
| Uncordon.KubeNodes.SetNodeSchedulableWithRetry | internal/fsm/node_state_machine.go:689-758 | success means that a logged read showed the node ready and it is open as the next read showed it, unless that found nothing; failure means the timeout has passed; the logged pauses are the schedule, one for each failed attempt, below timeout + 10s; undisturbed it succeeds at once exactly for a ready node |
| Uncordon.KubeNodes.RemoveClusterAutoscalerTaint | internal/fsm/node_state_machine.go:761-804 | one read, and one write exactly if it showed such a taint and the write succeeds; in all surroundings the write takes the first such taint off the node that it replaces and nothing else |
| Uncordon.KubeNodes.FindTaint | internal/fsm/node_state_machine.go:779-788 | finds the first taint of a key, if there is one: that taint has the key and none before it has |
| Backoff.DelayUsesOneUp | internal/controller/infra/node_controller.go:352-391 | waiting as long as asked uses up one of the delays that are left |
| Backoff.AtMostTenDelays | internal/controller/infra/node_controller.go:336-391 | from any age and at any reconcile times at most ten delays are asked for before a transition counts as stuck |
| Backoff.TenDelaysHappen | internal/controller/infra/node_controller.go:336-391 | the bound of ten is reached |
| NodeMachine.NodeStateMachine.constructor | internal/fsm/node_state_machine.go:39-81 | a new machine is starting up, ready or shutting down exactly for these three progress values, and shut down for all others, empty and unknown ones included; it has no backoff record, and the default timeouts are 5 minutes and 90 seconds |
| NodeMachine.NodeStateMachine.UpdateNodeProgress | internal/fsm/node_state_machine.go:555-589 | success is one status write of the progress against the current node, with the last startup set to the second of the write for StartingUp, the last shutdown for ShuttingDown, and neither touched otherwise; otherwise nothing was written; either way its requests are booked as one persisting loop, which gives up only after an error or five conflicts |
| NodeMachine.NodeStateMachine.RunBeforeHook | internal/fsm/hooks.go:34-66 | an opening event goes on only with the lock taken by this call; a refusal is either the live lock that the local copy shows, without any request, or the outcome of one booked loop: the lock that its last read showed, an error, or five conflicts |
| NodeMachine.NodeStateMachine.RunEnterHook | internal/fsm/hooks.go:153-243 | there is a backoff record exactly in a transitional state, started on entry; in all surroundings one persisting loop is run, and it is the only source of status writes, which set the progress of the new state |
| NodeMachine.ProgressReadsBack | internal/fsm/hooks.go:153-243 | the progress that is written for a state is one of the four names, and a machine built from it is in that state |
| NodeMachine.NodeStateMachine.AfterJobCompleted | internal/fsm/hooks.go:69-99 | in all surroundings, after a startup, the uncordoning is tried on schedule to a success or until the timeout, and then one loop for the release and one for the progress are run; undisturbed, a ready Kubernetes node is open by a write older than the one that releases the lock, and an unready one is left alone and the lock kept until the timeout |
| NodeMachine.NodeStateMachine.ReleaseAndPersist | internal/fsm/hooks.go:101-124 | in all surroundings one releasing loop of this owner and then one persisting loop are run; the lock is released, and only that of this owner, exactly if the first has written; any status write sets the progress of the new state, and the hook reports success exactly if there is one |
| NodeMachine.NodeStateMachine.AfterForceCleanup | internal/fsm/hooks.go:126-149 | the same with a forced release: the lock is removed, whoever owns it, exactly if that loop has written |
| NodeMachine.NodeStateMachine.Fire | internal/fsm/events.go:50-67 | an event is refused exactly if the table has no entry for it, and then no request is made; a cancelled event changes nothing and its cause is on the log; an accepted one moves along the table and runs exactly its retry loops (taking the lock, persisting, releasing, persisting again) in order; every status write carries the progress of the new state, and stored progress is in step whenever one of them went through and nobody else writes progress |
| NodeMachine.NodeStateMachine.LifeSoFar | internal/fsm/events.go:24-47 | for every run of a machine built in a stable state: alternation, a backoff record exactly while an operation is open, aborted operations without trace |
| NodeMachine.NodeStateMachine.CleanupPendingJobs | internal/fsm/node_state_machine.go:835-886 | in all surroundings deletion is asked for by exactly the names of the pending jobs listed, in order, whether or not some fail; undisturbed exactly the unfinished power jobs of the node go |
| NodeMachine.ThinnedToPruned | internal/fsm/node_state_machine.go:864-883 | deleting some pending jobs until none is left comes to the same as removing them all |
| NodeMachine.NodeStateMachine.CreatePowerJob | internal/fsm/node_state_machine.go:337-436 | success adds one unfinished job of the type for the Kubernetes node, named after node, type and second of the call, under a name not taken; failure adds none and means that the API server refused a job of that type for that node |
| NodeMachine.JobNamesDiffer | internal/fsm/node_state_machine.go:337-436 | power jobs of one node have the same name only if they are of one type and from the same second |
| NodeMachine.NodeStateMachine.Operate | internal/fsm/node_state_machine.go:112-131 | the three outcomes in all surroundings: under way with lock and job; refused, for the reason on the log, and nothing changed; or rolled back after a refused job, with both events' retry loops run, the lock released exactly if the releasing loop has written, and no status writes but those of the progress of the two states |
| NodeMachine.NodeStateMachine.StartNode | internal/fsm/node_state_machine.go:94-135 | success is StartingUp, this call's scale-up lock and one new startup job, with the start of the transition recorded to the second if it was persisted; a refusal has its cause on the log, changes no state, lock or status and creates no job; a refused job leads back to the old state with release and persisted progress tried in any surroundings; undisturbed, at most one unfinished power job remains, the new one, and the start is on the stored node |
| NodeMachine.NodeStateMachine.ShutdownNode | internal/fsm/node_state_machine.go:138-179 | the same for a shutdown, with the Kubernetes node cordoned whatever the outcome |
| NodeMachine.NodeStateMachine.PrunedHasOnlyNew | internal/fsm/node_state_machine.go:864-883 | after cleanup and creation the unfinished power jobs of the node are exactly the new one |
| NodeMachine.NodeStateMachine.Watch | internal/fsm/node_state_machine.go:261-334 | the loop ends for any looks at the job; completed exactly if the last look shows a succeeded job, failed exactly if it shows a failed one that has not succeeded, and every look before it has failed or shows neither; a timeout comes at the deadline; the first look comes before any pause, no pause is longer than the poll interval, and a look in time shows the job as stored if requests succeed; undisturbed, a job that succeeded or failed gives its event after one look and any other the timeout |
| NodeMachine.NodeStateMachine.MonitorJobCompletion | internal/fsm/node_state_machine.go:261-334 | exactly one event closes an open operation: the one that the log of looks calls for, unless somebody else's forced cleanup was accepted during the wait, and then that cleanup; afterwards the machine is stable; a timeout leaves the lock in place |
| NodeMachine.NodeStateMachine.StartAndMonitor | internal/fsm/node_state_machine.go:112-131 | a startup ends in a stable state by the event that the logged looks at its own job call for, exactly if nobody else forced a cleanup during the wait; undisturbed that is the timeout, after which its lock is still there but expired at every later instant |
| NodeMachine.NodeStateMachine.ShutdownAndMonitor | internal/fsm/node_state_machine.go:156-175 | the same for a shutdown |
| PowerRuns.StartAgain | internal/fsm/types.go:58-63 | in calm surroundings a startup that nobody cleans up by force times out, and the next startup gets the lock, although nothing has released the first |
| PowerRuns.TimedOutLockIsFree | internal/fsm/types.go:59-60 | the lock of an operation that timed out does not count at any later instant |
| PowerRuns.Serial | internal/fsm/node_state_machine.go:835-886 | in every serial run of startups, shutdowns, job completions and closing events there is never more than one unfinished power job of the node, and all other jobs stay |
| PowerRuns.PrunedKeepsRest | internal/fsm/node_state_machine.go:864-883 | cleanup followed by at most one new job keeps all other jobs and leaves at most one pending |
| NodeMachine.NodeStateMachine.CalculateBackoff | internal/fsm/node_state_machine.go:206-228 | a minute without a record; else the shared schedule for the age at an instant during the call, and beyond it a forced cleanup to Shutdown, with its loops for release and progress, and no delay |
| NodeMachine.NodeStateMachine.CheckStuckState | internal/fsm/node_state_machine.go:231-253 | cleans up exactly the operations whose record is older than 15 minutes at an instant during the call, and touches nothing otherwise |
| NodeMachine.Rebuild | internal/fsm/node_state_machine.go:39-81 | a machine rebuilt from the stored node between events is in the same state, if a status write of the last event went through and nobody else writes progress |
| Reconciler.Controllers.ForceReleaseLock | internal/controller/infra/node_controller.go:526-547 | in all surroundings one forced releasing loop is run; a commit, and only if that loop has written, clears the four annotations of the node that it replaces whoever owns the lock and keeps all else; failure exactly after an error or five conflicts |
| Reconciler.Controllers.RespectLock | internal/controller/infra/node_controller.go:311-334 | yields exactly to a live lock of another controller; in all surroundings a forced releasing loop is run exactly if the lock has expired, and clears the lock annotations and keeps the others |
| Reconciler.Controllers.ValidateStateTransition | internal/controller/infra/node_controller.go:288-395 | rejects exactly unknown desired states; a node in transition waits two minutes for a foreign lock, else by the schedule of its age, 30 seconds within two minutes of the recorded start; in all surroundings one forced releasing loop is run for an expired lock and one for the lock of a stuck transition, and no other; status and jobs stay |
| Reconciler.Controllers.HandleStateTransitionsWithFSM | internal/controller/infra/node_controller.go:143-197 | a node that is desired on, off or without power, and not ready or in transition, gets a startup, also one with empty or unknown progress; a ready node that is desired off and on gets a shutdown; every other one is left alone; a success is one new job of the right type, and undisturbed the operation is on record with its start and lock; a node in transition is untouched at any age |
| Reconciler.Controllers.StartAndLookAgain | internal/controller/infra/node_controller.go:336-391 | an operation that a reconcile has just started is left alone: undisturbed, a look within almost two minutes asks back after 30 seconds and leaves its live lock in place |
| Reconciler.Controllers.SweepNode | internal/controller/infra/node_controller.go:488-522 | the sweep on this node: in all surroundings it lists, and runs a forced releasing loop exactly if the listing shows an expired lock; the lock that it takes away does not count unless it was written after the listing; undisturbed an expired lock goes and anything else stays |
| Reconciler.Controllers.SetControllerReference | internal/controller/infra/node_controller.go:396-421 | only ownership is written |
| Reconciler.Controllers.ReconcileOwned | internal/controller/infra/node_controller.go:125-140 | the delay in every case: a node in transition is always asked back within five minutes, by its age and the foreign locks it carries, at any age; a job is created only for a node that asks for it |
| Reconciler.Controllers.Reconcile | internal/controller/infra/node_controller.go:72-140 | while progress is transitional no status is written, no job created and progress kept, whatever locks, times and desired state; a node ripe for an operation gets one new job, and its transition, the start and the lock of it are on record; the reply in every other case, undisturbed and without a live lock |
| Reconciler.Controllers.GetNodeStatus | internal/controller/core/node_controller.go:115-122 | on exactly if some Ready condition is true |
| Reconciler.Controllers.SyncKubernetesNode | internal/controller/core/node_controller.go:49-113 | in all surroundings one read of each node and a status write exactly if they differ in power, errors passed on; the write brings the current node to the observed power, and progress along only outside transitions |
| Reconciler.Controllers.Interleaving | internal/controller/core/node_controller.go:82-101 | any number of reconciles and core syncs, one after another, with interference that keeps the progress, create no job and leave the transition as it is |
| InFlight.TransitionStands | internal/controller/infra/node_controller.go:72-140 | with any number of reconciles and core syncs interleaved at every request, and syncs that began before the transition, the progress stands and no job is created, whatever locks, times and desired states, if no reconcile was poised at the beginning |
| InFlight.LockedTransitionStands | internal/controller/infra/node_controller.go:143-197 | along every interleaving in which the stored node shows a live lock the progress stands and no job is created, even with any number of poised reconciles |
| InFlight.JobsOnlyFromPoised | internal/controller/infra/node_controller.go:143-197 | some interleaving creates a job during a transition if and only if a reconcile was poised when it began: past its conditional writes with a copy from before |
| InFlight.LaunchedAndQuiet | internal/controller/infra/node_controller.go:200-213 | if reconciles of a node do not overlap, none is poised once one has started its operation |
| InFlight.OnceLaunched | internal/fsm/node_state_machine.go:94-131 | the step that creates a job leaves the controller's lock on the node, live until a second before its timeout, and the transition on record; until that lock goes, no other reconcile creates a job however many overlap |
| InFlight.SyncKeeps | internal/controller/core/node_controller.go:82-108 | no step of a core sync, whenever it read the node, changes progress during a transition: its write fails on the version or keeps it |
| InFlight.ClearKeeps | internal/controller/infra/node_controller.go:526-546 | no step of a forced release changes progress |
| InFlight.OwnKeeps | internal/controller/infra/node_controller.go:396-421 | the ownership write goes through only against the copy that was read and hands on a copy in transition |
| InFlight.StepKeeps | internal/controller/infra/node_controller.go:288-395 | every step of every process, and of others that keep the progress, keeps versions, copies and the transition consistent |
| InFlight.RunsAreConsistent | internal/controller/infra/node_controller.go:72-140 | consistency of versions and copies holds in every run |
| Sweep.Sweeper.CleanupExpiredLocks | internal/controller/infra/node_controller.go:488-522 | every lock expired at the start is gone, except on nodes about which a request was refused during the pass, which stops nobody else; all other nodes and all else are as before |
| Sweep.Sweeper.ForceReleaseLock | internal/controller/infra/node_controller.go:526-547 | clears the lock annotations of one node or changes nothing |
| Sweep.SweptOneMore | internal/controller/infra/node_controller.go:497-515 | the turn of one node keeps what the turns before it achieved |
| GroupSizing.OlderIsStrictWeakOrder | internal/grpcserver/server.go:453-461 | the comparator is a strict weak order, missing times last |
| GroupSizing.SortOldestFirst | internal/grpcserver/server.go:453-461 | the sorted list is a permutation in which every recorded start is no later than the ones after it, and nodes without one come last |
| GroupSizing.FilterCounts | internal/grpcserver/server.go:434-443 | filtering a listing of a group gives each qualifying stored node once and no other |
| GroupSizing.WhenDecreaseIsAsAsked | internal/grpcserver/server.go:445-467 | the exact condition under which a decrease shuts down as many nodes as asked |
| GroupSizing.TargetDropsByMarked | internal/grpcserver/server.go:290-299 | the target size drops by exactly the nodes marked in full |
| GroupSizing.GroupServer.NodeGroupTargetSize | internal/grpcserver/server.go:272-305 | the number of nodes of the group that are neither shutting down nor shut down, without 32-bit overflow |
| GroupSizing.GroupServer.NodeGroupIncreaseSize | internal/grpcserver/server.go:308-364 | turns on one node that was off, off and shut down, and nothing else; fails without a change exactly when there is none |
| GroupSizing.GroupServer.IncreaseRepeatedly | internal/grpcserver/server.go:308-364 | repeated calls turn on distinct eligible nodes, one each, until none is left, and the next call fails |
| GroupSizing.GroupServer.NodeGroupDeleteNodes | internal/grpcserver/server.go:367-403 | the named nodes, of whatever group, are desired off; on a failure those before the one that was missing or refused |
| GroupSizing.GroupServer.CountShutdowns | internal/grpcserver/server.go:445-467 | the clamped 32-bit arithmetic gives max(0, starting - max(0, ready + delta)) |
| GroupSizing.GroupServer.MarkOldest | internal/grpcserver/server.go:470-488 | marks the front of the order up to the first failed write, which may leave one node half marked |
| GroupSizing.GroupServer.NodeGroupDecreaseTargetSize | internal/grpcserver/server.go:406-493 | marks as many starting nodes as that count, never a ready one, and every one that it marks started no later than any starting one that it leaves, nodes without a recorded start last; the target size drops by the marked; a refused write leaves fewer marked than the count, again the oldest |

## Left out

- LeaseProtocol.MutualExclusion: for terms with non-empty operation and owner only, because with an empty one it is false (LeaseLimits.UnnamedLocksDoNotExclude).
- Events.GetValidEventsForState: the three lookups take the table as a parameter; the program always passes its own.
- PowerRuns.Serial: in calm surroundings, where requests succeed and only the steps of the run finish jobs.
- NodeMachine.NodeStateMachine.Watch: a look after the deadline may fail or succeed; the select statement picks at random when deadline and tick are both due; how often it may pick the tick is bounded by the parameter `patience`.
- NodeMachine.NodeStateMachine.MonitorJobCompletion: of all concurrent uses of one machine only a forced cleanup during the wait is interleaved; hooks of two events do not run at the same time.
- Reconciler.Controllers.Interleaving: whole calls, one after another; steps interleave in InFlight.TransitionStands.
- InFlight.TransitionStands: others may write the node in any way but for its progress, and do not delete it; the events that close an operation are what ends a transition.
- InFlight.JobsOnlyFromPoised: a power operation inside a reconcile is one step there, which fails without effect or takes the lock, persists the progress and creates the job; its own steps are in NodeMachine.
- InFlight.StepKeeps: that the methods of Reconciler are runs of these processes is not stated; both use the same functions for every decision (Wants, Age, Phase, LiveForeignLock, Synced), and the loops of forced releases are shown to be runs in Coordination.
- Reconciler.Controllers.SyncKubernetesNode: the label on the Kubernetes node is taken to name the one node resource of the model.
- Sweep.Sweeper.CleanupExpiredLocks: for a single writer over all nodes; with interference, SweepNode has it for one node.
- GroupSizing.GroupServer.NodeGroupDecreaseTargetSize: for a single writer, and for fewer than 2^31 nodes, beyond which the counts overflow.
- The reconciler's own copies of CheckLock, IsLockExpired and ForceReleaseLock are line by line those of the coordination manager and are modelled once.
- Node conditions: appended without removing older ones of the same type; what becomes of them depends on the API server's schema validation. Their status writes only add version conflicts.
- Text of times and numbers (RFC 3339, decimal floats): parsed values only. NaN, infinite or huge timeouts, 64-bit overflow of durations and loss of precision in floats are not modelled.
- Cancelled request contexts, including the 30-second limit on job cleanup: a cancelled request is a failed one.
- Job specifications, owner references of jobs, time-to-live: a job is its name, node label, type and counters; TTL deletion is an act of others.
- Labels and provider id patched onto the Kubernetes node by the reconciler: foreign calls whose errors are ignored.
- Deletion of node resources beyond the early return: logging only.
- gRPC transport, pricing, GPU types, options, templates, group listing, the group controller and the admission webhook: lookups and plumbing that would only add easy members.
