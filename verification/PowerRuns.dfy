/** Runs of power operations, one after another, on one machine. */
module PowerRuns {
  import opened Objects
  import opened Lease
  import opened LeaseProtocol
  import opened Events
  import opened ApiServers
  import opened Coordination
  import opened NodeMachine

  // ---------------------------------------------------------------- unfinished jobs

  /** At most one unfinished power job of the node. */
  ghost predicate AtMostOnePending(jobs: map<string, Job>, node: string) {
    forall a, b :: a in jobs && b in jobs && Pending(jobs[a], node) && Pending(jobs[b], node) ==> a == b
  }

  /** Jobs other than the unfinished power jobs of the node are as they were. */
  ghost predicate RestKept(before: map<string, Job>, after: map<string, Job>, node: string) {
    forall n :: n in before && !Pending(before[n], node) ==> n in after && after[n] == before[n]
  }

  lemma RestKeptOn(before: map<string, Job>, mid: map<string, Job>, after: map<string, Job>, node: string)
    requires RestKept(before, mid, node) && RestKept(mid, after, node)
    ensures RestKept(before, after, node)
  {
  }

  lemma PrunedKeepsRest(jobs: map<string, Job>, node: string, job: Option<Job>)
    requires job.Some? ==> job.value.name !in Pruned(jobs, node) && Pending(job.value, node)
    ensures var after := if job.Some? then Pruned(jobs, node)[job.value.name := job.value] else Pruned(jobs, node);
            RestKept(jobs, after, node) && AtMostOnePending(after, node)
  {
  }

  /** Calm surroundings, in which the machine and the stored node agree on the Kubernetes node `name`. */
  ghost predicate Steady(machine: NodeStateMachine, name: string)
    reads machine, machine.api
  {
    && machine.Valid() && machine.InStep() && machine.Aligned() && machine.api.alone && machine.api.reliable
    && machine.node.spec.kubernetesName == name && name != ""
  }

  // One power operation.
  method Operate(machine: NodeStateMachine, start: bool, ghost name: string) returns (r: OpReply)
    requires Steady(machine, name)
    modifies machine, machine.locks, machine.api
    ensures Steady(machine, name)
    ensures RestKept(old(machine.api.jobs), machine.api.jobs, name) && AtMostOnePending(machine.api.jobs, name)
    ensures machine.OnlyNewPending(r, name)
  {
    ghost var cleaned, midway;
    if start {
      r, cleaned, midway := machine.StartNode();
    } else {
      r, cleaned, midway := machine.ShutdownNode();
    }
    PrunedKeepsRest(old(machine.api.jobs), name,
                    if r == Initiated then Some(machine.api.jobs[machine.currentJob]) else None);
  }

  // The end of a job: a pending power job of the node succeeds or fails.
  method Finish(machine: NodeStateMachine, jobName: string, success: bool, ghost name: string)
    requires Steady(machine, name) && AtMostOnePending(machine.api.jobs, name)
    requires jobName in machine.api.jobs && Pending(machine.api.jobs[jobName], name)
    modifies machine.api`jobs
    ensures Steady(machine, name)
    ensures RestKept(old(machine.api.jobs), machine.api.jobs, name) && AtMostOnePending(machine.api.jobs, name)
  {
    machine.api.FinishJob(jobName, success);
  }

  // A closing event, from the monitor or by force.
  method Close(machine: NodeStateMachine, event: Event, ghost name: string)
    requires Steady(machine, name) && !Opens(event)
    modifies machine, machine.locks, machine.api
    ensures Steady(machine, name) && machine.api.jobs == old(machine.api.jobs)
  {
    var reply := machine.Fire(event);
  }

  /** Every serial run of StartNode, ShutdownNode, job completions and closing events, in any order: there is never
      more than one unfinished power job of the node, and finished jobs, other types and other nodes' jobs stay. */
  method Serial(machine: NodeStateMachine, steps: nat)
    requires Steady(machine, machine.node.spec.kubernetesName)
    requires AtMostOnePending(machine.api.jobs, machine.node.spec.kubernetesName)
    modifies machine, machine.locks, machine.api
    ensures AtMostOnePending(machine.api.jobs, old(machine.node.spec.kubernetesName))
    ensures RestKept(old(machine.api.jobs), machine.api.jobs, old(machine.node.spec.kubernetesName))
  {
    ghost var name := machine.node.spec.kubernetesName;
    for i := 0 to steps
      invariant Steady(machine, name) && AtMostOnePending(machine.api.jobs, name)
      invariant RestKept(old(machine.api.jobs), machine.api.jobs, name)
    {
      ghost var jobs := machine.api.jobs;
      SerialStep(machine, name);
      RestKeptOn(old(machine.api.jobs), jobs, machine.api.jobs, name);
    }
  }

  method SerialStep(machine: NodeStateMachine, ghost name: string)
    requires Steady(machine, name) && AtMostOnePending(machine.api.jobs, name)
    modifies machine, machine.locks, machine.api
    ensures Steady(machine, name) && AtMostOnePending(machine.api.jobs, name)
    ensures RestKept(old(machine.api.jobs), machine.api.jobs, name)
  {
    var flag: bool, event: Event, jobName: string, choice: nat := *, *, *, *;
    if choice == 0 {
      var _ := Operate(machine, flag, name);
    } else if choice == 1 && !Opens(event) {
      Close(machine, event, name);
    } else if jobName in machine.api.jobs && Pending(machine.api.jobs[jobName], machine.node.spec.kubernetesName) {
      Finish(machine, jobName, flag, name);
    }
  }

  // ---------------------------------------------------------------- after a timeout

  // The lock of an operation that timed out does not count any more.
  lemma TimedOutLockIsFree(machine: NodeStateMachine, m: Mark, fired: nat, lock: Lock, annotations: map<Key, Value>,
                           now: int)
    requires machine.TimedOut(m, fired, lock) && now > fired
    requires machine.api.mine[|m.mine|].after.Some? && annotations == machine.api.mine[|m.mine|].after.value.annotations
    ensures Free(annotations, now)
  {
  }

  /** The first two commits of this side since `before` have both taken the lock; there was no release in between. */
  ghost predicate TakenTwice(before: seq<Commit>, after: seq<Commit>) {
    && |after| > |before| + 1 && Legal(after[|before|]) && Legal(after[|before| + 1])
    && after[|before|].who.Acquirer? && after[|before| + 1].who.Acquirer?
  }

  // A startup adds to the history.
  lemma HistoryGrows(machine: NodeStateMachine, n: Mark, r: OpReply, midway: Mark)
    requires machine.Outcome(Event.StartNode, r, n, midway)
    ensures n.history <= machine.history
  {
  }

  // An operation that was opened at the moment `t` took the lock again.
  lemma TookAgain(machine: NodeStateMachine, before: seq<Commit>, n: Mark, r: OpReply, midway: Mark)
    requires |n.mine| == |before| + 1 && Legal(n.mine[|before|]) && n.mine[|before|].who.Acquirer?
    requires machine.Outcome(Event.StartNode, r, n, midway) && !r.TransitionFailed?
    ensures TakenTwice(before, machine.api.mine)
  {
  }

  // The next startup; `timedOut` says that the one before it timed out.
  method StartOnceMore(machine: NodeStateMachine, ghost timedOut: bool, ghost m: Mark, ghost fired: nat,
                       ghost lock: Lock)
    returns (r: OpReply)
    requires machine.Valid() && machine.InStep() && machine.api.alone && machine.api.reliable
    requires timedOut ==> machine.TimedOut(m, fired, lock) && machine.api.now > fired && machine.current == Shutdown
    modifies machine, machine.locks, machine.api
    ensures machine.Valid() && machine.InStep()
    ensures machine.forced == old(machine.forced) && old(machine.history) <= machine.history
    ensures timedOut ==> !r.TransitionFailed? && TakenTwice(m.mine, machine.api.mine)
  {
    if timedOut {
      TimedOutLockIsFree(machine, m, fired, lock, machine.api.obj.value.annotations, machine.api.now);
    }
    ghost var n := machine.Here();
    ghost var cleaned, midway;
    r, cleaned, midway := machine.StartNode();
    HistoryGrows(machine, n, r, midway);
    if timedOut {
      TookAgain(machine, m.mine, n, r, midway);
    }
  }

  /** A timeout cannot wedge the lock: in calm surroundings a startup that nobody cleans up by force times out, and the
      next startup after any pause gets the lock, although nothing has released the first one. */
  method StartAgain(machine: NodeStateMachine, patience: nat, pause: nat) returns (first: OpReply, second: OpReply)
    requires machine.Valid() && machine.InStep() && machine.jobTimeout == DEFAULT_JOB_TIMEOUT && pause > 0
    requires machine.api.alone && machine.api.reliable && machine.api.obj.Some?
    modifies machine, machine.locks, machine.api
    ensures machine.Valid() && machine.InStep()
    ensures first == Initiated ==> |machine.history| >= |old(machine.history)| + 2
    ensures first == Initiated ==>
              machine.history[|old(machine.history)| + 1]
              == if machine.forced == old(machine.forced) then JobTimeout else ForceCleanup
    ensures first == Initiated && machine.forced == old(machine.forced) ==>
              !second.TransitionFailed? && TakenTwice(old(machine.api.mine), machine.api.mine)
  {
    ghost var m := machine.Here();
    ghost var fired, lock;
    var verdict;
    first, verdict, fired, lock := machine.StartAndMonitor(patience);
    second := first;
    if first == Initiated {
      ghost var history := machine.history;
      machine.api.Sleep(pause);
      second := StartOnceMore(machine, machine.forced == old(machine.forced), m, fired, lock);
      assert machine.history[|m.history| + 1] == machine.history[..|history|][|m.history| + 1];
    }
  }
}
