/** Reconciles and core syncs of one node as processes that interleave at every request, while a power
    operation is in flight. */
module InFlight {
  import opened Objects
  import opened Lease
  import opened LeaseProtocol
  import opened Events
  import opened Backoff
  import opened NodeMachine
  import opened Reconciler

  /** Where a reconcile or a sync stands, with the copy of the node that it holds. */
  datatype Proc =
    | Sweeping                                            // about to list
    | SweepHolds(copy: Node)
    | Clearing(left: nat, next: Proc)                     // in a forced release, about to read
    | ClearHolds(left: nat, copy: Node, next: Proc)
    | Fetching                                            // about to read the node
    | Grouping(copy: Node)                                // about to look at its group and owner
    | Owning(copy: Node)
    | Validating(copy: Node)
    | Ageing(copy: Node)                                  // lock respected, about to look at the age
    | Dispatching(copy: Node)
    | Operating(copy: Node, event: Event)                 // in StartNode or ShutdownNode
    | Observing                                           // a sync, about to read the Kubernetes node
    | Syncing(power: PowerState)
    | SyncHolds(power: PowerState, copy: Node)
    | SyncWrites(power: PowerState, copy: Node)
    | Over

  /** `launched` lists the power jobs that were created, by the event that asked for them. */
  datatype World = World(obj: Option<Node>, rev: nat, now: int, procs: map<nat, Proc>, launched: seq<Event>)

  /** What a step depends on besides the state: whether its request fails, what the lookup of the group says,
      and whether the Kubernetes node shows itself ready. */
  datatype Choice = Choice(fails: bool, group: GroupReply, ready: bool)

  /** In `Others` time passes, other objects are written, and possibly somebody else writes this node, in any way but
      for its progress: takes or drops locks, changes the desired state, the labels, the owner. */
  datatype Act =
    | Others(d: nat, skip: nat, write: Option<Node>)
    | Begin(id: nat, sync: bool)
    | Step(id: nat, choice: Choice)

  function Stored(w: World, o: Node): World {
    w.(obj := Some(o), rev := w.rev + 1)
  }

  function Goto(w: World, id: nat, pc: Proc): World {
    w.(procs := w.procs[id := pc])
  }

  // The stored node is still the version that the copy was read at.
  predicate Fresh(w: World, copy: Node) {
    w.obj.Some? && w.obj.value.version == copy.version
  }

  /** One step of a forced release. Its errors are logged and ignored. */
  function Clear(w: World, id: nat, pc: Proc, c: Choice): World
    requires pc.Clearing? || pc.ClearHolds?
  {
    match pc
    case Clearing(left, next) =>
      if left == 0 || c.fails || w.obj.None? || w.obj.value.annotations == map[] then Goto(w, id, next)
      else Goto(w, id, ClearHolds(left, w.obj.value, next))
    case ClearHolds(left, copy, next) =>
      if c.fails || w.obj.None? then Goto(w, id, next)
      else if Fresh(w, copy) then
        var sent := copy.(annotations := Cleared(copy.annotations));
        Goto(Stored(w, MainWritten(w.obj.value, sent, w.rev + 1)), id, next)
      else if left > 1 then Goto(w, id, Clearing(left - 1, next))
      else Goto(w, id, next)
  }

  /** One step of a reconcile outside forced releases. */
  function Reconciled(w: World, id: nat, pc: Proc, c: Choice): World {
    match pc
    case Sweeping =>
      if c.fails || w.obj.None? then Goto(w, id, Fetching) else Goto(w, id, SweepHolds(w.obj.value))
    case SweepHolds(copy) =>
      Goto(w, id, if HasExpiredLock(copy, w.now) then Clearing(ATTEMPTS, Fetching) else Fetching)
    case Fetching =>
      if c.fails || w.obj.None? then Goto(w, id, Over) else Goto(w, id, Grouping(w.obj.value))
    case Grouping(copy) =>
      Goto(w, id, if copy.group.None? || c.group != GroupFound then Over
                  else if copy.owned then Validating(copy) else Owning(copy))
    case Owning(copy) =>
      if !c.fails && Fresh(w, copy) then
        var o := MainWritten(w.obj.value, copy.(owned := true), w.rev + 1);
        Goto(Stored(w, o), id, Validating(o))
      else Goto(w, id, Over)
    case Validating(copy) =>
      Goto(w, id, Validated(copy, w.now))
    case Ageing(copy) =>
      Goto(w, id, if Phase(Age(copy.status, w.now)).Some? then Over
                  else if CheckLock(copy.annotations).Some? then Clearing(ATTEMPTS, Dispatching(copy))
                  else Dispatching(copy))
    case Dispatching(copy) =>
      Goto(w, id, if Wants(copy, StartNode) then Operating(copy, StartNode)
                  else if Wants(copy, ShutdownNode) then Operating(copy, ShutdownNode)
                  else Over)
    case Operating(copy, event) =>
      if c.fails || w.obj.None? || !Free(copy.annotations, w.now) || !Free(w.obj.value.annotations, w.now) then
        Goto(w, id, Over)
      else
        Goto(Stored(w, Started(w.obj.value, event, w.now, w.rev + 1)).(launched := w.launched + [event]), id, Over)
    case _ => w
  }

  /** A power operation has got under way: the lock is taken, and the progress set. */
  function Started(o: Node, event: Event, now: int, version: nat): Node {
    var p := if event == StartNode then ProgressStartingUp else ProgressShuttingDown;
    o.(annotations := Locked(o.annotations, OperationFor(event), NODE_CONTROLLER, now, DEFAULT_LOCK_TIMEOUT),
       status := WithProgress(o.status, p, now), version := version)
  }

  /** Where validation leads for a copy. */
  function Validated(copy: Node, now: int): Proc {
    var lock := CheckLock(copy.annotations);
    if copy.deleting || copy.spec.desired.PowerOther? then Over
    else if !InTransition(copy.status.progress) then Dispatching(copy)
    else if LiveForeignLock(copy, now) then Over
    else if lock.Some? && IsLockExpired(lock.value, now) then Clearing(ATTEMPTS, Ageing(copy))
    else Ageing(copy)
  }

  /** One step of a core sync. */
  function SyncStep(w: World, id: nat, pc: Proc, c: Choice): World {
    match pc
    case Observing =>
      Goto(w, id, if c.fails then Over else Syncing(if c.ready then PowerOn else PowerOff))
    case Syncing(power) =>
      if c.fails || w.obj.None? then Goto(w, id, Over) else Goto(w, id, SyncHolds(power, w.obj.value))
    case SyncHolds(power, copy) =>
      Goto(w, id, if copy.status.power == power then Over else SyncWrites(power, copy))
    case SyncWrites(power, copy) =>
      if !c.fails && Fresh(w, copy) then
        var sent := copy.(status := Synced(copy.status, power));
        Goto(Stored(w, StatusWritten(w.obj.value, sent, w.rev + 1)), id, Over)
      else Goto(w, id, Over)
    case _ => w
  }

  predicate IsSync(pc: Proc) {
    pc.Observing? || pc.Syncing? || pc.SyncHolds? || pc.SyncWrites?
  }

  function Do(w: World, act: Act): World {
    match act
    case Others(d, skip, write) =>
      var later := w.(now := w.now + d, rev := w.rev + skip);
      if write.Some? && w.obj.Some? then
        var kept := write.value.status.(progress := w.obj.value.status.progress);
        Stored(later, write.value.(status := kept, version := later.rev + 1))
      else later
    case Begin(id, sync) =>
      if id in w.procs then w else Goto(w, id, if sync then Observing else Sweeping)
    case Step(id, c) =>
      if id !in w.procs then w
      else
        var pc := w.procs[id];
        if pc.Clearing? || pc.ClearHolds? then Clear(w, id, pc, c)
        else if IsSync(pc) then SyncStep(w, id, pc, c)
        else Reconciled(w, id, pc, c)
  }

  /** A run is any list of steps, so any interleaving of any number of processes. */
  function Run(w: World, acts: seq<Act>): World
    decreases |acts|
  {
    if acts == [] then w else Run(Do(w, acts[0]), acts[1..])
  }

  // ---------------------------------------------------------------- what makes it safe

  function CopyOf(pc: Proc): Option<Node> {
    match pc
    case SweepHolds(copy) => Some(copy)
    case ClearHolds(_, copy, _) => Some(copy)
    case Grouping(copy) => Some(copy)
    case Owning(copy) => Some(copy)
    case SyncHolds(_, copy) => Some(copy)
    case SyncWrites(_, copy) => Some(copy)
    case _ => None
  }

  /** A copy is as old as its version says. */
  predicate Dated(copy: Node, w: World) {
    && copy.version <= w.rev
    && (w.obj.Some? && w.obj.value.version == copy.version ==> w.obj.value == copy)
  }

  predicate Eager(copy: Node) {
    !copy.deleting && (Wants(copy, StartNode) || Wants(copy, ShutdownNode))
  }

  /** A reconcile that is going to create a job unless something fails: it has read the node before the transition,
      with an operation to be started, and has no conditional write ahead of it. */
  predicate Poised(pc: Proc) {
    match pc
    case Clearing(_, next) => Poised(next)
    case ClearHolds(_, _, next) => Poised(next)
    case Grouping(copy) => copy.group.Some? && copy.owned && Eager(copy)
    case Validating(copy) => Eager(copy)
    case Dispatching(copy) => Wants(copy, StartNode) || Wants(copy, ShutdownNode)
    case Operating(_, _) => true
    case _ => false
  }

  // The age is only looked at for copies in transition, and a forced release leads back to where it came from.
  predicate Sound(pc: Proc) {
    match pc
    case Ageing(copy) => InTransition(copy.status.progress)
    case Clearing(_, next) => Resumes(next)
    case ClearHolds(_, _, next) => Resumes(next)
    case _ => true
  }

  predicate Resumes(next: Proc) {
    next.Fetching? || (next.Ageing? && InTransition(next.copy.status.progress)) || next.Dispatching?
  }

  /** The stored node and the copies are as old as their versions say. */
  ghost predicate Consistent(w: World) {
    && (w.obj.Some? ==> w.obj.value.version <= w.rev)
    && forall id :: id in w.procs ==>
         Sound(w.procs[id]) && (CopyOf(w.procs[id]).Some? ==> Dated(CopyOf(w.procs[id]).value, w))
  }

  /** A transition is on record. */
  predicate InProgress(w: World, p: Progress) {
    InTransition(p) && w.obj.Some? && w.obj.value.status.progress == p
  }

  /** The stored node shows a live lock. */
  predicate Live(w: World) {
    w.obj.Some? && !Free(w.obj.value.annotations, w.now)
  }

  /** A transition is on record; reconciles and syncs may be under way, also ones that began before it; but no
      reconcile is poised. */
  ghost predicate Quiet(w: World, p: Progress) {
    InProgress(w, p) && forall id :: id in w.procs ==> !Poised(w.procs[id])
  }

  // What a step does during a transition: without poised reconciles it leaves none; and then, or while the lock is
  // live, it keeps the progress and creates no job.
  ghost predicate KeepsQuiet(w: World, t: World, p: Progress) {
    && (Quiet(w, p) ==> Quiet(t, p))
    && (InProgress(w, p) && (Live(w) || Quiet(w, p)) ==> InProgress(t, p) && t.launched == w.launched)
  }

  // ---------------------------------------------------------------- every step keeps it

  // Moving one process and leaving the store alone.
  lemma MoveKeeps(w: World, p: Progress, id: nat, pc: Proc)
    requires Consistent(w) && Sound(pc) && (CopyOf(pc).Some? ==> Dated(CopyOf(pc).value, w))
    ensures Consistent(Goto(w, id, pc))
    ensures (Poised(pc) ==> id in w.procs && Poised(w.procs[id])) ==> KeepsQuiet(w, Goto(w, id, pc), p)
  {
  }

  lemma ClearKeeps(w: World, p: Progress, id: nat, c: Choice)
    requires Consistent(w) && id in w.procs && (w.procs[id].Clearing? || w.procs[id].ClearHolds?)
    ensures Consistent(Do(w, Step(id, c))) && KeepsQuiet(w, Do(w, Step(id, c)), p)
  {
  }

  lemma OwnKeeps(w: World, p: Progress, id: nat, c: Choice)
    requires Consistent(w) && id in w.procs && w.procs[id].Owning?
    ensures Consistent(Do(w, Step(id, c))) && KeepsQuiet(w, Do(w, Step(id, c)), p)
  {
  }

  predicate Decides(pc: Proc) {
    pc.Grouping? || pc.Ageing? || pc.Dispatching?
  }

  // The steps of a reconcile that read.
  lemma ReadKeeps(w: World, p: Progress, id: nat, c: Choice)
    requires Consistent(w) && id in w.procs
    requires w.procs[id].Sweeping? || w.procs[id].SweepHolds? || w.procs[id].Fetching?
    ensures Consistent(Do(w, Step(id, c))) && KeepsQuiet(w, Do(w, Step(id, c)), p)
  {
    var t := Do(w, Step(id, c));
    MoveKeeps(w, p, id, t.procs[id]);
  }

  // The steps of a reconcile that only decide.
  lemma DecideKeeps(w: World, p: Progress, id: nat, c: Choice)
    requires Consistent(w) && id in w.procs && Decides(w.procs[id])
    ensures Consistent(Do(w, Step(id, c))) && KeepsQuiet(w, Do(w, Step(id, c)), p)
  {
    var pc, t := w.procs[id], Do(w, Step(id, c));
    assert Sound(pc) && t == Goto(w, id, t.procs[id]);
    MoveKeeps(w, p, id, t.procs[id]);
  }

  lemma ValidateKeeps(w: World, p: Progress, id: nat, c: Choice)
    requires Consistent(w) && id in w.procs && w.procs[id].Validating?
    ensures Consistent(Do(w, Step(id, c))) && KeepsQuiet(w, Do(w, Step(id, c)), p)
  {
  }

  // The one step that is not quiet.
  lemma OperateKeeps(w: World, p: Progress, id: nat, c: Choice)
    requires Consistent(w) && id in w.procs && w.procs[id].Operating?
    ensures Consistent(Do(w, Step(id, c))) && KeepsQuiet(w, Do(w, Step(id, c)), p)
  {
  }

  // The version check matters here: a sync that read the node before the transition cannot write any more.
  lemma SyncWriteKeeps(w: World, p: Progress, id: nat, c: Choice)
    requires Consistent(w) && id in w.procs && w.procs[id].SyncWrites?
    ensures Consistent(Do(w, Step(id, c))) && KeepsQuiet(w, Do(w, Step(id, c)), p)
  {
  }

  /** No step of a core sync changes the progress during a transition. */
  lemma SyncKeeps(w: World, p: Progress, id: nat, c: Choice)
    requires Consistent(w) && id in w.procs && IsSync(w.procs[id])
    ensures Consistent(Do(w, Step(id, c))) && KeepsQuiet(w, Do(w, Step(id, c)), p)
  {
    if w.procs[id].SyncWrites? {
      SyncWriteKeeps(w, p, id, c);
    } else {
      MoveKeeps(w, p, id, Do(w, Step(id, c)).procs[id]);
    }
  }

  lemma OthersKeep(w: World, p: Progress, act: Act)
    requires Consistent(w) && act.Others?
    ensures Consistent(Do(w, act)) && KeepsQuiet(w, Do(w, act), p)
  {
  }

  lemma StepKeeps(w: World, p: Progress, act: Act)
    requires Consistent(w)
    ensures Consistent(Do(w, act)) && KeepsQuiet(w, Do(w, act), p)
  {
    match act
    case Others(_, _, _) => OthersKeep(w, p, act);
    case Begin(id, sync) => if id !in w.procs { MoveKeeps(w, p, id, if sync then Observing else Sweeping); }
    case Step(id, c) =>
      if id in w.procs {
        var pc := w.procs[id];
        if pc.Clearing? || pc.ClearHolds? {
          ClearKeeps(w, p, id, c);
        } else if IsSync(pc) {
          SyncKeeps(w, p, id, c);
        } else if pc.Owning? {
          OwnKeeps(w, p, id, c);
        } else if pc.Validating? {
          ValidateKeeps(w, p, id, c);
        } else if Decides(pc) {
          DecideKeeps(w, p, id, c);
        } else if pc.Operating? {
          OperateKeeps(w, p, id, c);
        } else if !pc.Over? {
          ReadKeeps(w, p, id, c);
        }
      }
  }

  // ---------------------------------------------------------------- results over all runs

  /** Whatever is reached from a world without processes is consistent, so that is no restriction. */
  lemma {:induction false} RunsAreConsistent(w: World, acts: seq<Act>)
    requires Consistent(w)
    ensures Consistent(Run(w, acts))
    decreases |acts|
  {
    if acts != [] {
      StepKeeps(w, ProgressReady, acts[0]);
      RunsAreConsistent(Do(w, acts[0]), acts[1..]);
    }
  }

  /** While a transition is on record, whatever reconciles, core syncs, lock owners and the clock do in any
      interleaving, the progress stands and no job is created, unless a reconcile was poised at the beginning. */
  lemma {:induction false} TransitionStands(w: World, p: Progress, acts: seq<Act>)
    requires Consistent(w) && Quiet(w, p)
    ensures InProgress(Run(w, acts), p) && Run(w, acts).launched == w.launched
    decreases |acts|
  {
    if acts != [] {
      StepKeeps(w, p, acts[0]);
      TransitionStands(Do(w, acts[0]), p, acts[1..]);
    }
  }

  /** The lock on the stored node, whoever holds it, is live at every moment of the run. */
  ghost predicate LiveAlong(w: World, acts: seq<Act>)
    decreases |acts|
  {
    Live(w) && (acts == [] || LiveAlong(Do(w, acts[0]), acts[1..]))
  }

  /** As long as the lock is live, even reconciles that were poised when the transition began do no harm, however
      many there are: the progress stands and no job is created. */
  lemma {:induction false} LockedTransitionStands(w: World, p: Progress, acts: seq<Act>)
    requires Consistent(w) && InProgress(w, p) && LiveAlong(w, acts)
    ensures InProgress(Run(w, acts), p) && Run(w, acts).launched == w.launched
    decreases |acts|
  {
    if acts != [] {
      StepKeeps(w, p, acts[0]);
      LockedTransitionStands(Do(w, acts[0]), p, acts[1..]);
    }
  }

  /** The step that creates a job leaves a live lock and a transition on record, so that from then on, until that lock
      is released or expires, the transition stands and no other reconcile creates a job. */
  lemma OnceLaunched(w: World, id: nat, c: Choice, acts: seq<Act>)
    requires Consistent(w) && id in w.procs && w.procs[id].Operating? && Opens(w.procs[id].event)
    requires Do(w, Step(id, c)).launched != w.launched
    ensures var t, event := Do(w, Step(id, c)), w.procs[id].event;
            && t.launched == w.launched + [event] && Live(t) && Live(t.(now := t.now + DEFAULT_LOCK_TIMEOUT - SECOND))
            && CheckLock(t.obj.value.annotations).value.owner == NODE_CONTROLLER
            && InProgress(t, if event == StartNode then ProgressStartingUp else ProgressShuttingDown)
            && (LiveAlong(t, acts) ==>
                  InProgress(Run(t, acts), t.obj.value.status.progress) && Run(t, acts).launched == t.launched)
  {
    var t, event := Do(w, Step(id, c)), w.procs[id].event;
    LockedReadsBack(w.obj.value.annotations, OperationFor(event), NODE_CONTROLLER, w.now, DEFAULT_LOCK_TIMEOUT);
    LifetimeOfGrant(OperationFor(event), NODE_CONTROLLER, w.now, DEFAULT_LOCK_TIMEOUT, w.now);
    LifetimeOfGrant(OperationFor(event), NODE_CONTROLLER, w.now, DEFAULT_LOCK_TIMEOUT,
                    w.now + DEFAULT_LOCK_TIMEOUT - SECOND);
    OperateKeeps(w, ProgressReady, id, c);
    if LiveAlong(t, acts) {
      LockedTransitionStands(t, t.obj.value.status.progress, acts);
    }
  }

  /** Reconciles of the node do not overlap, as the work queue of the controller has it. */
  ghost predicate OneAtATime(w: World) {
    forall i, j :: i in w.procs && j in w.procs && Reconciling(w.procs[i]) && Reconciling(w.procs[j]) ==> i == j
  }

  predicate Reconciling(pc: Proc) {
    !IsSync(pc) && !pc.Over?
  }

  /** If reconciles do not overlap, none is poised once one of them has started its operation: the results
      above then hold from that step on. */
  lemma LaunchedAndQuiet(w: World, id: nat, c: Choice)
    requires Consistent(w) && OneAtATime(w) && id in w.procs && w.procs[id].Operating? && Opens(w.procs[id].event)
    requires Do(w, Step(id, c)).launched != w.launched
    ensures var t := Do(w, Step(id, c));
            && Consistent(t) && t.obj.Some? && Quiet(t, t.obj.value.status.progress)
            && t.launched == w.launched + [w.procs[id].event]
  {
    var t := Do(w, Step(id, c));
    OperateKeeps(w, ProgressReady, id, c);
    forall k | k in t.procs
      ensures !Poised(t.procs[k])
    {
      assert k != id ==> t.procs[k] == w.procs[k];
    }
  }

  // How far a poised reconcile is from its job.
  function Distance(pc: Proc): nat {
    match pc
    case Clearing(_, next) => 1 + Distance(next)
    case ClearHolds(_, _, next) => 1 + Distance(next)
    case Grouping(_) => 4
    case Validating(_) => 3
    case Dispatching(_) => 2
    case _ => 1
  }

  // The copy that a poised reconcile is going to act on.
  function Aim(pc: Proc): Node
    requires Poised(pc)
  {
    match pc
    case Clearing(_, next) => Aim(next)
    case ClearHolds(_, _, next) => Aim(next)
    case Grouping(copy) => copy
    case Validating(copy) => copy
    case Dispatching(copy) => copy
    case Operating(copy, _) => copy
  }

  // A poised reconcile launches if neither its copy nor the stored node shows a live lock.
  lemma {:induction false} PoisedLaunches(w: World, id: nat) returns (acts: seq<Act>)
    requires w.obj.Some? && id in w.procs && Poised(w.procs[id])
    requires Free(w.obj.value.annotations, w.now) && Free(Aim(w.procs[id]).annotations, w.now)
    ensures Run(w, acts).launched != w.launched && |Run(w, acts).launched| == |w.launched| + 1
    decreases Distance(w.procs[id])
  {
    var pc := w.procs[id];
    var act := Step(id, Choice(pc.Clearing? || pc.ClearHolds?, GroupFound, false));
    var t := Do(w, act);
    if pc.Operating? {
      acts := [act];
      assert Run(t, acts[1..]) == t;
    } else {
      var rest := PoisedLaunches(t, id);
      acts := [act] + rest;
      assert acts[1..] == rest;
    }
  }

  // Every lock expires.
  lemma ExpiresAfter(annotations: map<Key, Value>, now: int) returns (d: nat)
    ensures forall later :: later >= now + d ==> Free(annotations, later)
  {
    var lock := CheckLock(annotations);
    d := 0;
    if lock.Some? && lock.value.at + lock.value.timeout >= now {
      d := lock.value.at + lock.value.timeout - now + 1;
    }
  }

  // Once enough time has passed, it does.
  lemma PoisedLaunchesLater(w: World, id: nat) returns (acts: seq<Act>)
    requires w.obj.Some? && id in w.procs && Poised(w.procs[id])
    ensures Run(w, acts).launched != w.launched
  {
    var d := ExpiresAfter(w.obj.value.annotations, w.now);
    var e := ExpiresAfter(Aim(w.procs[id]).annotations, w.now);
    var act := Act.Others(d + e, 0, None);
    var rest := PoisedLaunches(Do(w, act), id);
    acts := [act] + rest;
    assert acts[1..] == rest;
  }

  /** Exactly when: some run creates a job while the transition is on record if and only if a reconcile was already
      poised when it began. */
  lemma JobsOnlyFromPoised(w: World, p: Progress)
    requires Consistent(w) && InTransition(p) && w.obj.Some? && w.obj.value.status.progress == p
    ensures (exists acts :: Run(w, acts).launched != w.launched) <==> exists id :: id in w.procs && Poised(w.procs[id])
  {
    if acts :| Run(w, acts).launched != w.launched {
      if Quiet(w, p) {
        TransitionStands(w, p, acts);
      }
    }
    if id :| id in w.procs && Poised(w.procs[id]) {
      var acts := PoisedLaunchesLater(w, id);
    }
  }
}
