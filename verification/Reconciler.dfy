/** The node reconciler and the core sync, the two controllers that act on a node resource. */
module Reconciler {
  import opened Objects
  import opened Lease
  import opened LeaseProtocol
  import opened Events
  import opened ApiServers
  import opened Coordination
  import opened Backoff
  import opened NodeMachine

  const NODE_CONTROLLER := Text("node-controller")

  datatype Result = Requeue(after: nat) | Error

  datatype GroupReply = GroupFound | GroupMissing | GroupError

  /** The start of the current transition, where the node records it. */
  function TransitionStart(status: Status): Option<int> {
    if status.progress == ProgressStartingUp then status.lastStartup
    else if status.progress == ProgressShuttingDown then status.lastShutdown
    else None
  }

  // The age of a transition; without a recorded start it always counts as one minute.
  function Age(status: Status, now: int): int {
    if TransitionStart(status).Some? then now - TransitionStart(status).value else MINUTE
  }

  /** The delay that a node in transition gets unless it is held back by a foreign lock: the schedule, and
      a minute for ever after. */
  function Delay(status: Status, at: int): nat {
    if Phase(Age(status, at)).Some? then Phase(Age(status, at)).value else MINUTE
  }

  predicate LiveForeignLock(node: Node, now: int) {
    !Free(node.annotations, now) && CheckLock(node.annotations).value.owner != Text("node-controller")
  }

  /** The node asks for a power operation that its state allows. */
  predicate Wants(node: Node, event: Event) {
    || (event == StartNode && node.spec.desired == PowerOn && node.status.power in {PowerOff, PowerOther("")}
        && node.status.progress !in {ProgressReady, ProgressStartingUp, ProgressShuttingDown})
    || (event == ShutdownNode && node.spec.desired == PowerOff && node.status.power == PowerOn
        && node.status.progress == ProgressReady)
  }

  /** The node is at rest and asks for nothing that its state allows. */
  predicate Idle(node: Node) {
    && !node.spec.desired.PowerOther? && !InTransition(node.status.progress)
    && !Wants(node, StartNode) && !Wants(node, ShutdownNode)
  }

  /** Progress as the core sync leaves it. */
  function Synced(status: Status, power: PowerState): Status {
    var s := status.(power := power);
    if InTransition(s.progress) then s
    else if power == PowerOff then s.(progress := ProgressShutdown)
    else if power == PowerOn then s.(progress := ProgressReady)
    else s
  }

  class Controllers {
    const api: ApiServer

    constructor (api: ApiServer)
      ensures this.api == api
    {
      this.api := api;
    }

    /** Progress, jobs and the log of jobs are as before; only locks and ownership may have been written. */
    twostate predicate KeptInFlight()
      reads api
    {
      && api.OnlyLocks() && api.statuses == old(api.statuses) && api.created == old(api.created)
    }

    // With nobody else around a lock that does not count is not replaced by one that does.
    twostate predicate StaysFree()
      reads api
    {
      api.alone && old(api.obj).Some? && Free(old(api.obj.value.annotations), old(api.now)) ==>
        api.obj.Some? && Free(api.obj.value.annotations, api.now)
    }

    // Releases the lock of the node by force, whoever owns it.
    method ForceReleaseLock(node: Node) returns (ok: bool)
      requires api.Valid()
      modifies api`obj, api`kube, api`jobs, api`rev, api`now, api`mine, api`requests, api`book
      ensures KeptInFlight() && StaysFree() && old(api.requests) <= api.requests
      ensures Booked([ForceLoop])
      ensures match api.book.endings[|old(api.book.endings)|]
              case Wrote =>
                ok && Gained(old(api.mine), api.mine, Forcer) && api.mine[|old(api.mine)|].at >= old(api.now)
              case Declined => ok && api.mine == old(api.mine)
              case Refused => !ok && api.mine == old(api.mine)
      ensures Calm() && old(api.obj).Some? ==> ok && Unlocked()
    {
      var locks := new CoordinationManager(api, NODE_CONTROLLER);
      var r := locks.ForceReleaseLock(node);
      ok := r.Done?;
      if Calm() && old(api.obj).Some? {
        ClearedReadsAsNoLock(old(api.obj.value.annotations));
      }
    }

    /** These retry loops, and no others, have been booked. */
    twostate predicate Booked(loops: seq<Loop>)
      reads api
    {
      && |api.book.endings| == |api.book.loops| && |old(api.book.endings)| == |old(api.book.loops)|
      && api.book.loops == old(api.book.loops) + loops
    }

    // The one loop of a forced release, if there is to be one.
    function ForceIf(needed: bool): seq<Loop> {
      if needed then [ForceLoop] else []
    }

    // Nobody else writes and no request fails.
    ghost predicate Calm() {
      api.alone && api.reliable
    }

    // The lock annotations are gone and the others are as they were.
    twostate predicate Unlocked()
      reads api
    {
      && old(api.obj).Some? && api.obj.Some? && CheckLock(api.obj.value.annotations).None?
      && api.obj.value.annotations == Cleared(old(api.obj).value.annotations)
    }

    /** This side's commits since `before` are forced releases, so they have cleared the four annotations of the node
        that they replaced and nothing else. */
    ghost predicate OnlyForced(before: seq<Commit>)
      reads api
    {
      && |before| <= |api.mine| && api.mine[..|before|] == before
      && forall k :: |before| <= k < |api.mine| ==> Legal(api.mine[k]) && api.mine[k].who == Forcer
    }

    // Whether another controller holds a live lock; an expired lock is removed.
    method RespectLock(node: Node) returns (foreign: bool)
      requires api.Valid()
      modifies api`obj, api`kube, api`jobs, api`rev, api`now, api`mine, api`requests, api`book
      ensures KeptInFlight() && StaysFree() && (foreign <==> LiveForeignLock(node, old(api.now)))
      ensures OnlyForced(old(api.mine)) && (api.mine != old(api.mine) ==> HasExpiredLock(node, old(api.now)))
      ensures Booked(ForceIf(HasExpiredLock(node, old(api.now))))
      ensures Calm() && old(api.obj).Some? ==>
                if HasExpiredLock(node, old(api.now)) then Unlocked() else api.obj == old(api.obj)
    {
      var existing := CheckLock(node.annotations);
      foreign := false;
      if existing.Some? {
        if !IsLockExpired(existing.value, api.now) {
          foreign := existing.value.owner != NODE_CONTROLLER;
        } else {
          var _ := ForceReleaseLock(node);
        }
      }
    }

    /** Rejects bad specs, and answers for a node in transition: two minutes while another controller holds
        a live lock, else the delay for its age, and no delay once it is stuck. An expired lock is removed, and
        any lock of a stuck transition unless it is foreign and live. No status is ever written. */
    method ValidateStateTransition(node: Node) returns (r: Result, ghost at: nat)
      requires api.Valid()
      modifies api`obj, api`kube, api`jobs, api`rev, api`now, api`mine, api`requests, api`book
      ensures KeptInFlight() && StaysFree() && OnlyForced(old(api.mine)) && old(api.now) <= at <= api.now
      ensures r.Error? <==> node.spec.desired.PowerOther?
      ensures !r.Error? && !InTransition(node.status.progress) ==> r == Requeue(0) && api.obj == old(api.obj)
      ensures !r.Error? && InTransition(node.status.progress) ==>
                r == Requeue(if LiveForeignLock(node, old(api.now)) then 2 * MINUTE
                             else if Phase(Age(node.status, at)).Some? then Phase(Age(node.status, at)).value
                             else 0)
      ensures node.spec.desired in {PowerOn, PowerOff} && !LiveForeignLock(node, old(api.now))
              && node.status.progress == ProgressStartingUp && node.status.lastStartup.Some?
              && at - node.status.lastStartup.value <= 2 * MINUTE ==>
                r == Requeue(30 * SECOND)
      ensures node.spec.desired in {PowerOn, PowerOff} && !LiveForeignLock(node, old(api.now))
              && node.status.progress == ProgressShuttingDown && node.status.lastShutdown.Some?
              && at - node.status.lastShutdown.value <= 2 * MINUTE ==>
                r == Requeue(30 * SECOND)
      ensures Booked(if r.Error? || !InTransition(node.status.progress) then []
                     else ForceIf(HasExpiredLock(node, old(api.now)))
                          + ForceIf(r == Requeue(0) && CheckLock(node.annotations).Some?))
      ensures !r.Error? && InTransition(node.status.progress) && Calm() && old(api.obj).Some? ==>
                if HasExpiredLock(node, old(api.now)) || (r == Requeue(0) && CheckLock(node.annotations).Some?)
                then Unlocked() else api.obj == old(api.obj)
    {
      at := api.now;
      if node.spec.desired != PowerOn && node.spec.desired != PowerOff {
        return Error, at;
      }
      if node.status.progress == ProgressStartingUp || node.status.progress == ProgressShuttingDown {
        var existing := CheckLock(node.annotations);
        var foreign := RespectLock(node);
        if foreign {
          return Requeue(2 * MINUTE), at;
        }
        r, at := WaitByAge(node, existing.Some?);
        return;
      }
      r := Requeue(0);
    }

    // The delay for the age of the transition; a lock of a stuck transition is removed.
    method WaitByAge(node: Node, locked: bool) returns (r: Result, ghost at: nat)
      requires api.Valid() && InTransition(node.status.progress)
      modifies api`obj, api`kube, api`jobs, api`rev, api`now, api`mine, api`requests, api`book
      ensures KeptInFlight() && StaysFree() && OnlyForced(old(api.mine)) && at == old(api.now)
      ensures r == Requeue(if Phase(Age(node.status, at)).Some? then Phase(Age(node.status, at)).value else 0)
      ensures Booked(ForceIf(r == Requeue(0) && locked))
      ensures Calm() && old(api.obj).Some? ==>
                if r == Requeue(0) && locked then Unlocked() else api.obj == old(api.obj)
    {
      at := api.now;
      var transitionStart: int;
      if node.status.progress == ProgressStartingUp && node.status.lastStartup.Some? {
        transitionStart := node.status.lastStartup.value;
      } else if node.status.progress == ProgressShuttingDown && node.status.lastShutdown.Some? {
        transitionStart := node.status.lastShutdown.value;
      } else {
        transitionStart := api.now - MINUTE;
      }
      var transitionDuration := api.now - transitionStart;
      if transitionDuration <= 2 * MINUTE {
        return Requeue(30 * SECOND), at;
      } else if transitionDuration <= 10 * MINUTE {
        return Requeue(2 * MINUTE), at;
      } else if transitionDuration <= 15 * MINUTE {
        return Requeue(5 * MINUTE), at;
      }
      if locked {
        var _ := ForceReleaseLock(node);
      }
      r := Requeue(0);
    }

    // The copy and the stored node have the same name and spec.
    ghost predicate Agrees(node: Node)
      reads api
    {
      api.obj.Some? && api.obj.value.spec == node.spec && api.obj.value.name == node.name
    }

    /** Nothing stands in the way of the operation that the node asks for: nobody else acts, no request fails,
        copy and stored node agree and show no live lock, and the job will get a name that is not taken. */
    ghost predicate Clear(node: Node, event: Event)
      reads api
    {
      && api.alone && api.steady && api.reliable && Wants(node, event) && Unused(api.jobs, node.name, JobKind(event))
      && Agrees(node) && api.obj.value.status == node.status
      && Free(node.annotations, api.now) && Free(api.obj.value.annotations, api.now)
    }

    /** The reply to a node that asks for an operation: no delay exactly if there is one new job, of the right
        type and for the Kubernetes node of the copy; else an error and no new job. */
    twostate predicate Answered(event: Event, r: Result, node: Node)
      reads api
    {
      && (r == Requeue(0) || r == Error)
      && if r == Requeue(0) then
           && |api.created| == |old(api.created)| + 1 && api.created[..|old(api.created)|] == old(api.created)
           && var job := api.created[|old(api.created)|];
           && job.kind == JobKind(event) && job.succeeded == 0 && job.failed == 0
           && (api.alone && old(Agrees(node)) ==> job.node == node.spec.kubernetesName)
         else api.created == old(api.created)
    }

    // A recorded time from `since` on, but for the fraction of the second.
    predicate Recorded(t: Option<int>, since: int, until: int) {
      t.Some? && since - SECOND < t.value <= until
    }

    /** The stored node shows the operation under way since `since`: its progress, its start, and a lock of this
        controller that is live for almost five minutes from then on. */
    ghost predicate UnderWay(event: Event, since: int)
      reads api
    {
      && api.obj.Some?
      && var status, lock := api.obj.value.status, CheckLock(api.obj.value.annotations);
      && (if event == StartNode then
            status.progress == ProgressStartingUp && Recorded(status.lastStartup, since, api.now)
          else
            status.progress == ProgressShuttingDown && Recorded(status.lastShutdown, since, api.now))
      && lock.Some? && lock.value.owner == Text("node-controller")
      && !IsLockExpired(lock.value, since + 5 * MINUTE - SECOND)
    }

    // In calm surroundings that is what the state machine leaves behind.
    lemma StartedIsUnderWay(machine: NodeStateMachine, event: Event, m: Mark)
      requires machine.api == api && machine.locks.owner == NODE_CONTROLLER && api.alone && api.reliable
      requires Opens(event) && machine.Started(event, m)
      ensures UnderWay(event, m.now)
    {
      var taken := api.mine[|m.mine|];
      LockedReadsBack(taken.before.value.annotations, OperationFor(event), NODE_CONTROLLER, taken.who.stamp,
                      DEFAULT_LOCK_TIMEOUT);
      LifetimeOfGrant(OperationFor(event), NODE_CONTROLLER, taken.who.stamp, DEFAULT_LOCK_TIMEOUT,
                      m.now + 5 * MINUTE - SECOND);
      assert SetsProgress(api.statuses[|api.statuses| - 1], ProgressOf(machine.current));
    }

    /** Dispatches into the state machine. A node that asks for nothing its state allows is left alone, also one
        in transition: a machine built for it has no backoff record, so it is asked back after a minute. */
    method HandleStateTransitionsWithFSM(node: Node) returns (r: Result)
      requires api.Valid()
      modifies api`obj, api`kube, api`jobs, api`rev, api`now, api`mine, api`statuses, api`created, api`uncreated
      modifies api`requests, api`book, api`kubeReads, api`kubeWrites, api`naps, api`listings, api`deletions
      ensures api.Later()
      ensures InTransition(node.status.progress) ==> r == Requeue(MINUTE) && unchanged(api)
      ensures Idle(node) ==> r == Requeue(5 * MINUTE) && unchanged(api)
      ensures Wants(node, StartNode) ==> Answered(StartNode, r, node)
      ensures Wants(node, ShutdownNode) ==> Answered(ShutdownNode, r, node)
      ensures node.spec.desired == PowerOn && node.status.power in {PowerOff, PowerOther("")}
              && node.status.progress !in {ProgressReady, ProgressStartingUp, ProgressShuttingDown} ==>
                Answered(StartNode, r, node)
      ensures node.spec.desired == PowerOff && node.status.power == PowerOn && node.status.progress == ProgressReady ==>
                Answered(ShutdownNode, r, node)
      ensures old(api.alone && api.steady && api.reliable && Agrees(node) && api.obj.value.status == node.status
                  && Free(node.annotations, api.now) && Free(api.obj.value.annotations, api.now)
                  && Unused(api.jobs, node.name, StartupJob))
              && node.spec.desired == PowerOn && node.status.power in {PowerOff, PowerOther("")}
              && node.status.progress !in {ProgressReady, ProgressStartingUp, ProgressShuttingDown} ==>
                r == Requeue(0) && UnderWay(StartNode, old(api.now))
      ensures old(Clear(node, StartNode)) ==> r == Requeue(0) && UnderWay(StartNode, old(api.now))
      ensures old(Clear(node, ShutdownNode)) ==> r == Requeue(0) && UnderWay(ShutdownNode, old(api.now))
    {
      var locks := new CoordinationManager(api, NODE_CONTROLLER);
      var machine := new NodeStateMachine(node, api, locks);
      if node.spec.desired == PowerOn && (node.status.power == PowerOff || node.status.power == PowerOther(""))
         && machine.CanTransition(StartNode) {
        r := PowerUp(machine);
      } else if node.spec.desired == PowerOff && node.status.power == PowerOn && machine.CanTransition(ShutdownNode) {
        r := PowerDown(machine);
      } else {
        r := StayPut(machine);
      }
    }

    /** An operation that has just been started is left alone: in calm surroundings, for almost two minutes, a look at
        the stored node finds it in the first phase, asks back after 30 seconds and leaves its live lock in place. */
    method StartAndLookAgain(node: Node) returns (first: Result, second: Result, ghost at: nat)
      requires api.Valid() && (Clear(node, StartNode) || Clear(node, ShutdownNode))
      modifies api`obj, api`kube, api`jobs, api`rev, api`now, api`mine, api`statuses, api`created, api`uncreated
      modifies api`requests, api`book, api`kubeReads, api`kubeWrites, api`naps, api`listings, api`deletions
      ensures first == Requeue(0) && old(api.now) <= at
      ensures at <= old(api.now) + 2 * MINUTE - SECOND ==>
                second == Requeue(30 * SECOND) && api.obj.Some? && !Free(api.obj.value.annotations, at)
    {
      first := HandleStateTransitionsWithFSM(node);
      var act := api.Others();
      second, at := ValidateStateTransition(api.obj.value);
    }

    // For a machine just built: nothing is stuck that it knows of.
    method StayPut(machine: NodeStateMachine) returns (r: Result)
      requires machine.api == api && machine.Valid() && machine.InStep() && machine.backoff.None?
      modifies machine, machine.locks
      modifies api`obj, api`kube, api`jobs, api`rev, api`now, api`mine, api`statuses
      modifies api`requests, api`book, api`kubeReads, api`kubeWrites, api`naps, api`listings, api`deletions
      ensures unchanged(api) && r == Requeue(if IsTransitional(old(machine.current)) then MINUTE else 5 * MINUTE)
    {
      var _ := machine.CheckStuckState();
      if IsTransitional(machine.current) {
        var delay, _ := machine.CalculateBackoff();
        return Requeue(delay);
      }
      r := Requeue(5 * MINUTE);
    }

    // The reply after a power operation; one that did not get under way has its backoff looked at.
    method Settle(machine: NodeStateMachine, reply: OpReply) returns (r: Result)
      requires machine.api == api && machine.Valid() && machine.InStep()
      modifies machine, machine.locks
      modifies api`obj, api`kube, api`jobs, api`rev, api`now, api`mine, api`statuses
      modifies api`requests, api`book, api`kubeReads, api`kubeWrites, api`naps
      ensures api.Later() && r == if reply == Initiated then Requeue(0) else Error
      ensures reply == Initiated ==> unchanged(api)
    {
      if reply != Initiated {
        var _, _ := machine.CalculateBackoff();
        return Error;
      }
      r := Requeue(0);
    }

    // What makes an operation ripe leaves nothing in the way of a machine that was built for it.
    lemma ClearIsFree(machine: NodeStateMachine, event: Event)
      requires machine.api == api && Clear(machine.node, event)
      ensures machine.LockFree() && machine.NameFree(JobKind(event)) && api.obj.Some?
    {
    }

    // The jobs that an operation has created.
    lemma CreatedByOutcome(machine: NodeStateMachine, event: Event, reply: OpReply, m: Mark, midway: Mark)
      requires machine.api == api && machine.Outcome(event, reply, m, midway)
      ensures api.created == m.created + if reply != Initiated then []
                                         else [Job(machine.currentJob, machine.node.spec.kubernetesName,
                                                   if event == StartNode then StartupJob else ShutdownJob, 0, 0)]
    {
    }

    method PowerUp(machine: NodeStateMachine) returns (r: Result)
      requires machine.api == api && machine.Valid() && machine.InStep() && machine.locks.owner == NODE_CONTROLLER
      modifies machine, machine.locks
      modifies api`obj, api`kube, api`jobs, api`rev, api`now, api`mine, api`statuses, api`created, api`uncreated
      modifies api`requests, api`book, api`kubeReads, api`kubeWrites, api`naps, api`listings, api`deletions
      ensures api.Later() && Answered(StartNode, r, old(machine.node))
      ensures old(machine.synced && machine.CanTransition(StartNode) && Clear(machine.node, StartNode)) ==>
                r == Requeue(0) && UnderWay(StartNode, old(api.now))
    {
      if Clear(machine.node, StartNode) {
        ClearIsFree(machine, StartNode);
      }
      ghost var m := machine.Here();
      var reply, _, midway := machine.StartNode();
      CreatedByOutcome(machine, StartNode, reply, m, midway);
      if reply == Initiated && api.alone && api.reliable {
        StartedIsUnderWay(machine, StartNode, m);
      }
      r := Settle(machine, reply);
    }

    method PowerDown(machine: NodeStateMachine) returns (r: Result)
      requires machine.api == api && machine.Valid() && machine.InStep() && machine.locks.owner == NODE_CONTROLLER
      modifies machine, machine.locks
      modifies api`obj, api`kube, api`jobs, api`rev, api`now, api`mine, api`statuses, api`created, api`uncreated
      modifies api`requests, api`book, api`kubeReads, api`kubeWrites, api`naps, api`listings, api`deletions
      ensures api.Later() && Answered(ShutdownNode, r, old(machine.node))
      ensures old(machine.synced && machine.CanTransition(ShutdownNode) && Clear(machine.node, ShutdownNode)) ==>
                r == Requeue(0) && UnderWay(ShutdownNode, old(api.now))
    {
      if Clear(machine.node, ShutdownNode) {
        ClearIsFree(machine, ShutdownNode);
      }
      ghost var m := machine.Here();
      var reply, _, midway := machine.ShutdownNode();
      CreatedByOutcome(machine, ShutdownNode, reply, m, midway);
      if reply == Initiated && api.alone && api.reliable {
        StartedIsUnderWay(machine, ShutdownNode, m);
      }
      r := Settle(machine, reply);
    }

    /** A sweep acts on a listing with an expired lock. The lock that it takes away does not count either, unless
        it was written after the listing. */
    ghost predicate SweptFrom(listed: Node, c: Commit) {
      && HasExpiredLock(listed, c.at) && c.before.Some?
      && (FieldsOf(listed.annotations) == FieldsOf(c.before.value.annotations) ==>
            Free(c.before.value.annotations, c.at))
    }

    // The turn of this node in the sweep over expired locks, which lists it and then looks at its lock at `at`.
    method SweepNode() returns (ghost listed: Option<Node>, ghost at: nat)
      requires api.Valid()
      modifies api`obj, api`kube, api`jobs, api`rev, api`now, api`mine, api`requests, api`book
      ensures KeptInFlight() && StaysFree() && old(api.now) <= at <= api.now
      ensures |api.requests| > |old(api.requests)| && api.requests[|old(api.requests)|].Got?
              && listed == Shown(api.requests[|old(api.requests)|].reply)
      ensures Booked(ForceIf(listed.Some? && HasExpiredLock(listed.value, at)))
      ensures api.mine != old(api.mine) ==>
                && Gained(old(api.mine), api.mine, Forcer)
                && listed.Some? && SweptFrom(listed.value, api.mine[|old(api.mine)|])
      ensures Calm() && old(api.obj).Some? ==>
                && (old(HasExpiredLock(api.obj.value, api.now)) ==> Unlocked())
                && (!HasExpiredLock(old(api.obj.value), api.now) ==> api.obj == old(api.obj))
    {
      var act := api.Others();
      var got := api.Get();
      listed, at := Shown(got), api.now;
      if got.Ok? {
        var lock := CheckLock(got.value.annotations);
        if lock.Some? && IsLockExpired(lock.value, api.now) {
          var _ := ForceReleaseLock(got.value);
        }
      }
    }

    // The sweep, and then the node as it is now.
    method SweepAndGet() returns (got: Reply<Node>)
      requires api.Valid()
      modifies api`obj, api`kube, api`jobs, api`rev, api`now, api`mine, api`requests, api`book
      ensures KeptInFlight() && StaysFree() && (got.Ok? ==> api.obj == Some(got.value))
      ensures api.reliable && api.obj.Some? ==> got.Ok?
    {
      var _, _ := SweepNode();
      var act := api.Others();
      got := api.Get();
    }

    // Makes the group the owner of the node.
    method SetControllerReference(node: Node) returns (ok: bool, updated: Node)
      requires api.Valid() && node.version <= api.rev
      requires api.obj.Some? && api.obj.value.version == node.version ==> api.obj.value == node
      modifies api`obj, api`kube, api`jobs, api`rev, api`now, api`mine, api`requests
      ensures KeptInFlight()
      ensures ok && InTransition(node.status.progress) ==> InTransition(updated.status.progress)
      ensures api.alone && api.reliable && old(api.obj) == Some(node) ==>
                && ok && api.obj == Some(updated) && SameButLocks(node, updated)
                && updated.annotations == node.annotations
    {
      if node.owned {
        return true, node;
      }
      var act := api.Others();
      var put := api.Update(node.(owned := true), Outsider);
      if !put.Ok? {
        return false, node;
      }
      ok, updated := true, put.value;
    }

    /** A reconcile is bound to start `event`: the node is whole, its group exists, and nothing stands in the way. */
    ghost predicate Ripe(group: GroupReply, event: Event)
      reads api
    {
      && api.obj.Some? && Clear(api.obj.value, event)
      && group == GroupFound && api.obj.value.group.Some? && !api.obj.value.deleting
    }

    /** One reconcile of the node. While the stored progress is transitional, and nobody else ends the
        transition meanwhile, it writes no status, creates no job and leaves the progress as it is, whatever
        the locks, timestamps and desired state. A node that is ripe for an operation gets it: one new job,
        and the transition is on record. */
    method Reconcile(group: GroupReply) returns (r: Result, ghost at: nat)
      requires api.Valid()
      modifies api`obj, api`kube, api`jobs, api`rev, api`now, api`mine, api`statuses, api`created, api`uncreated
      modifies api`requests, api`book, api`kubeReads, api`kubeWrites, api`naps, api`listings, api`deletions
      ensures api.Later() && AtMostOneJob()
      ensures api.steady && old(api.obj).Some? && InTransition(old(api.obj).value.status.progress) ==>
                KeptInFlight()
      ensures old(Ripe(group, StartNode)) ==>
                r == Requeue(0) && UnderWay(StartNode, old(api.now)) && Answered(StartNode, r, old(api.obj.value))
      ensures old(Ripe(group, ShutdownNode)) ==>
                r == Requeue(0) && UnderWay(ShutdownNode, old(api.now)) && Answered(ShutdownNode, r, old(api.obj.value))
      ensures old(api.now) <= at <= api.now
      ensures Calm() && old(api.obj).Some? && Free(old(api.obj.value.annotations), old(api.now)) ==>
                Replied(group, old(api.obj.value), at, r)
    {
      var got := SweepAndGet();
      if !got.Ok? {
        return Error, api.now;
      }
      var node := got.value;
      if node.group.None? || group == GroupError {
        return Error, api.now;
      }
      if group == GroupMissing {
        return Requeue(5 * SECOND), api.now;
      }
      r, at := ReconcileGrouped(node);
    }

    // The rest of a reconcile, for the copy just read of a node whose group exists.
    method ReconcileGrouped(node: Node) returns (r: Result, ghost at: nat)
      requires api.Valid() && api.obj == Some(node)
      modifies api`obj, api`kube, api`jobs, api`rev, api`now, api`mine, api`statuses, api`created, api`uncreated
      modifies api`requests, api`book, api`kubeReads, api`kubeWrites, api`naps, api`listings, api`deletions
      ensures api.Later() && AtMostOneJob() && old(api.now) <= at <= api.now
      ensures InTransition(node.status.progress) ==> KeptInFlight()
      ensures !node.deleting && old(Clear(node, StartNode)) ==>
                r == Requeue(0) && UnderWay(StartNode, old(api.now)) && Answered(StartNode, r, node)
      ensures !node.deleting && old(Clear(node, ShutdownNode)) ==>
                r == Requeue(0) && UnderWay(ShutdownNode, old(api.now)) && Answered(ShutdownNode, r, node)
      ensures Calm() && Free(node.annotations, old(api.now)) && node.group.Some? ==>
                Replied(GroupFound, node, at, r)
    {
      var owned, updated := SetControllerReference(node);
      if !owned {
        return Error, api.now;
      }
      r, at := ReconcileOwned(updated);
    }

    /** The reply to a node without a live lock that does not get an operation. */
    predicate Replied(group: GroupReply, node: Node, at: int, r: Result) {
      if node.group.None? || group == GroupError then r == Error
      else if group == GroupMissing then r == Requeue(5 * SECOND)
      else if node.deleting then r == Requeue(0)
      else if node.spec.desired.PowerOther? then r == Error
      else if InTransition(node.status.progress) then r == Requeue(Delay(node.status, at))
      else Idle(node) ==> r == Requeue(5 * MINUTE)
    }

    twostate predicate AtMostOneJob()
      reads api
    {
      || api.created == old(api.created)
      || (|api.created| == |old(api.created)| + 1 && api.created[..|old(api.created)|] == old(api.created))
    }

    // The part of a reconcile that looks at states, for a copy of the node.
    method ReconcileOwned(node: Node) returns (r: Result, ghost at: nat)
      requires api.Valid()
      modifies api`obj, api`kube, api`jobs, api`rev, api`now, api`mine, api`statuses, api`created, api`uncreated
      modifies api`requests, api`book, api`kubeReads, api`kubeWrites, api`naps, api`listings, api`deletions
      ensures api.Later() && (InTransition(node.status.progress) ==> KeptInFlight())
      ensures old(api.now) <= at <= api.now
      ensures node.deleting ==> r == Requeue(0)
      ensures !node.deleting && node.spec.desired.PowerOther? ==> r == Error
      ensures !node.deleting && !node.spec.desired.PowerOther? && InTransition(node.status.progress) ==>
                r == Requeue(if LiveForeignLock(node, old(api.now)) then 2 * MINUTE else Delay(node.status, at))
      ensures !node.deleting && Idle(node) ==> r == Requeue(5 * MINUTE)
      ensures api.created != old(api.created) ==>
                && !node.deleting && r == Requeue(0)
                && ((Wants(node, StartNode) && Answered(StartNode, r, node))
                    || (Wants(node, ShutdownNode) && Answered(ShutdownNode, r, node)))
      ensures !node.deleting && old(Clear(node, StartNode)) ==>
                r == Requeue(0) && UnderWay(StartNode, old(api.now)) && Answered(StartNode, r, node)
      ensures !node.deleting && old(Clear(node, ShutdownNode)) ==>
                r == Requeue(0) && UnderWay(ShutdownNode, old(api.now)) && Answered(ShutdownNode, r, node)
    {
      if node.deleting {
        return Requeue(0), api.now;
      }
      var valid;
      valid, at := ValidateStateTransition(node);
      if valid.Error? || valid.after > 0 {
        return valid, at;
      }
      r := HandleStateTransitionsWithFSM(node);
    }

    // ---------------------------------------------------------------- core sync

    function PowerShown(node: KubeNode): PowerState {
      if KubeCondition("Ready", "True") in node.conditions then PowerOn else PowerOff
    }

    // On if any Ready condition is true.
    method GetNodeStatus(node: KubeNode) returns (power: PowerState)
      ensures power == PowerShown(node)
    {
      for i := 0 to |node.conditions|
        invariant KubeCondition(READY, TRUE) !in node.conditions[..i]
      {
        if node.conditions[i].kind == READY && node.conditions[i].status == TRUE {
          return PowerOn;
        }
      }
      power := PowerOff;
    }

    /** The status write of a core sync, if there was one: the observed power, and progress only where the
        stored node was not in transition; whatever was read before, the write is against the current node. */
    twostate predicate SyncedOnly()
      reads api
    {
      && api.mine == old(api.mine) && api.created == old(api.created)
      && (api.statuses != old(api.statuses) ==>
            && |api.statuses| == |old(api.statuses)| + 1
            && var c := api.statuses[|old(api.statuses)|];
            && c.before.Some? && c.after.Some?
            && var was, status := c.before.value.status, c.after.value.status;
            && c.after.value == c.before.value.(version := c.after.value.version, status := status)
            && status == was.(power := status.power, progress := status.progress)
            && status.power in {PowerOn, PowerOff}
            && status.progress == if was.progress in {ProgressStartingUp, ProgressShuttingDown} then was.progress
                                  else if status.power == PowerOff then ProgressShutdown else ProgressReady)
    }

    // The stored node is as the sync should leave it.
    twostate predicate InSync(power: PowerState)
      reads api
    {
      && old(api.obj).Some? && api.obj.Some?
      && if old(api.obj).value.status.power == power then api.obj == old(api.obj)
         else api.obj.value == old(api.obj).value.(version := api.obj.value.version,
                                                   status := Synced(old(api.obj).value.status, power))
    }

    /** One core sync. With nobody else around the stored node then has the power that the Kubernetes node's
        conditions show, and the progress that goes with it; if its power was right already nothing is written. */
    method SyncKubernetesNode() returns (ok: bool)
      requires api.Valid()
      modifies api`obj, api`kube, api`jobs, api`rev, api`now, api`statuses, api`requests, api`kubeReads
      ensures api.Later() && SyncedOnly()
      ensures Calm() && old(api.obj).Some? ==>
                if old(api.kube).Some? && old(api.kube).value.node.Some? then InSync(PowerShown(old(api.kube).value))
                else api.obj == old(api.obj)
      ensures Calm() ==> ok
      ensures |api.kubeReads| == |old(api.kubeReads)| + 1
              && var read := api.kubeReads[|old(api.kubeReads)|];
              if read.Ok? && read.value.node.Some? then Requested(PowerShown(read.value), ok, old(api.requests))
              else api.requests == old(api.requests) && (ok <==> !read.Failure?)
      ensures api.steady && old(api.obj).Some? && InTransition(old(api.obj).value.status.progress) ==>
                api.KeptProgress()
    {
      var act := api.Others();
      var got := api.GetKube();
      if !got.Ok? || got.value.node.None? {
        return !got.Failure?;
      }
      var power := GetNodeStatus(got.value);
      ok := SyncNode(power);
    }

    /** What a sync has asked for and answered, by its requests since `before`: it reads the node, and writes its
        status once if the copy shows another power; it is content with a missing node but not with a failure. */
    ghost predicate Requested(power: PowerState, ok: bool, before: seq<Exchange>)
      reads api
    {
      && |api.requests| > |before| && api.requests[..|before|] == before && api.requests[|before|].Got?
      && var got := api.requests[|before|].reply;
      if !got.Ok? then |api.requests| == |before| + 1 && (ok <==> got.NotFound?)
      else if got.value.status.power == power then |api.requests| == |before| + 1 && ok
      else
        && |api.requests| == |before| + 2 && api.requests[|before| + 1].PutStatus?
        && (ok <==> api.requests[|before| + 1].reply.Ok?)
    }

    // Brings the node resource up to date with the observed power.
    method SyncNode(power: PowerState) returns (ok: bool)
      requires api.Valid() && !power.PowerOther?
      modifies api`obj, api`kube, api`jobs, api`rev, api`now, api`statuses, api`requests
      ensures api.Later() && SyncedOnly()
      ensures Calm() ==> ok && (old(api.obj).Some? ==> InSync(power))
      ensures Requested(power, ok, old(api.requests))
      ensures api.steady && old(api.obj).Some? && InTransition(old(api.obj).value.status.progress) ==>
                api.KeptProgress()
    {
      var act := api.Others();
      var got := api.Get();
      if !got.Ok? {
        return got.NotFound?;
      }
      var node := got.value;
      if node.status.power == power {
        return true;
      }
      var copy := node.(status := node.status.(power := power));
      if copy.status.progress != ProgressStartingUp && copy.status.progress != ProgressShuttingDown {
        var progress := if power == PowerOff then ProgressShutdown else ProgressReady;
        copy := copy.(status := copy.status.(progress := progress));
      }
      ok := PutSynced(copy, node);
    }

    method PutSynced(copy: Node, ghost seen: Node) returns (ok: bool)
      requires api.Valid() && !copy.status.power.PowerOther? && api.obj == Some(seen)
      requires copy == seen.(status := Synced(seen.status, copy.status.power))
      modifies api`obj, api`kube, api`jobs, api`rev, api`now, api`statuses, api`requests
      ensures api.Later() && SyncedOnly()
      ensures Calm() ==> ok && api.obj.Some? && api.obj.value == copy.(version := api.obj.value.version)
      ensures |api.requests| == |old(api.requests)| + 1 && api.requests[..|old(api.requests)|] == old(api.requests)
      ensures api.requests[|old(api.requests)|].PutStatus? && ok == api.requests[|old(api.requests)|].reply.Ok?
      ensures api.steady && InTransition(seen.status.progress) ==> api.KeptProgress()
    {
      var act := api.Others();
      var put := api.UpdateStatus(copy);
      ok := put.Ok?;
    }

    /** Any number of reconciles and core syncs in any order: no job is created and the transition stands. */
    method Interleaving(rounds: nat, group: GroupReply)
      requires api.Valid() && api.steady && api.obj.Some? && InTransition(api.obj.value.status.progress)
      modifies api`obj, api`kube, api`jobs, api`rev, api`now, api`mine, api`statuses, api`created, api`uncreated
      modifies api`requests, api`book, api`kubeReads, api`kubeWrites, api`naps, api`listings, api`deletions
      ensures api.KeptProgress() && api.created == old(api.created)
      ensures api.obj.Some? && api.obj.value.status.progress == old(api.obj.value.status.progress)
    {
      for i := 0 to rounds
        invariant api.KeptProgress() && api.created == old(api.created)
      {
        var reconcile: bool := *;
        if reconcile {
          var _, _ := Reconcile(group);
        } else {
          var _ := SyncKubernetesNode();
        }
      }
    }
  }
}
