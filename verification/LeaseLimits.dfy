/** Where the protection of the lease ends: runs of the protocol that a reader might not expect. */
module LeaseLimits {
  import opened Objects
  import opened Lease
  import opened LeaseProtocol

  /** A release is possible against a live term exactly when it asks for the owner that the term names:
      the owner, not the call, is what a release checks. */
  lemma ReleaseEndsOnlyItsOwner(log: seq<Commit>, first: Option<Node>, last: Option<Node>, now: int, i: nat,
                                owner: Value, version: nat)
    requires History(log, first, last, now) && Live(log, i, now) && Named(log[i].who)
    requires last.Some? && version > last.value.version
    ensures var after := Some(last.value.(annotations := Cleared(last.value.annotations), version := version));
            Legal(Commit(0, Releaser(owner), last, after, now)) <==> owner == log[i].who.owner
  {
    AtMostOneLive(log, first, last, now, i, i);
  }

  // ---- runs, step by step

  lemma {:induction false} RunOn(s: System, a: seq<Action>, b: seq<Action>)
    ensures Run(s, a + b) == Run(Run(s, a), b)
  {
    if b == [] {
      assert a + b == a;
    } else {
      RunOn(s, a, b[..|b| - 1]);
      assert (a + b)[..|a + b| - 1] == a + b[..|b| - 1];
    }
  }

  lemma RunOne(s: System, a: Action)
    ensures Run(s, [a]) == Do(s, a)
  {
  }

  // An acquisition that nobody disturbs.
  function AcquireSteps(id: nat, req: Request, local: Node): seq<Action> {
    CheckSteps(id, req, local) + ([Stamp(id)] + [Update(id)])
  }

  function CheckSteps(id: nat, req: Request, local: Node): seq<Action> {
    [Call(id, req, local)] + ([Get(id)] + [Check(id)])
  }

  lemma UndisturbedCheck(s: System, id: nat, req: Request, local: Node)
    requires s.obj.Some? && req.Acquire? && id !in s.calls
    requires Free(local.annotations, s.now) && Free(s.obj.value.annotations, s.now)
    ensures Run(s, CheckSteps(id, req, local)) ==
            Goto(s.(asked := s.asked[id := req]), id, Checked(req, ATTEMPTS, s.obj.value))
  {
    RunOn(s, [Call(id, req, local)], [Get(id)] + [Check(id)]);
    RunOne(s, Call(id, req, local));
    var s1 := Goto(s.(asked := s.asked[id := req]), id, Reading(req, ATTEMPTS));
    RunOn(s1, [Get(id)], [Check(id)]);
    RunOne(s1, Get(id));
    var s2 := Goto(s1, id, Holding(req, ATTEMPTS, s.obj.value));
    RunOne(s2, Check(id));
    assert Goto(s2, id, Checked(req, ATTEMPTS, s.obj.value)) ==
           Goto(s.(asked := s.asked[id := req]), id, Checked(req, ATTEMPTS, s.obj.value));
  }

  /** The only commit of the steps that led from `s` to `t` is an acquisition by call `id`. */
  ghost predicate JustAcquired(s: System, t: System, id: nat, req: Request)
    requires req.Acquire? && s.obj.Some?
  {
    && t.now == s.now && t.calls == s.calls[id := Finished(true)]
    && |t.log| == |s.log| + 1 && t.log[..|s.log|] == s.log
    && t.log[|s.log|].call == id
    && t.log[|s.log|].who == Acquirer(req.operation, req.owner, s.now, req.timeout)
    && t.obj.Some?
    && t.obj.value.annotations == Locked(s.obj.value.annotations, req.operation, req.owner, s.now, req.timeout)
  }

  lemma UndisturbedAcquire(s: System, id: nat, req: Request, local: Node)
    requires s.obj.Some? && req.Acquire? && id !in s.calls
    requires Free(local.annotations, s.now) && Free(s.obj.value.annotations, s.now)
    ensures JustAcquired(s, Run(s, AcquireSteps(id, req, local)), id, req)
  {
    RunOn(s, CheckSteps(id, req, local), [Stamp(id)] + [Update(id)]);
    UndisturbedCheck(s, id, req, local);
    var s3 := Goto(s.(asked := s.asked[id := req]), id, Checked(req, ATTEMPTS, s.obj.value));
    UndisturbedWrite(s3, id, req);
    assert s3.calls[id := Finished(true)] == s.calls[id := Finished(true)];
  }

  lemma UndisturbedWrite(s: System, id: nat, req: Request)
    requires s.obj.Some? && req.Acquire? && id in s.calls && s.calls[id] == Checked(req, ATTEMPTS, s.obj.value)
    ensures JustAcquired(s, Run(s, [Stamp(id)] + [Update(id)]), id, req)
  {
    RunOn(s, [Stamp(id)], [Update(id)]);
    RunOne(s, Stamp(id));
    var t := Do(s, Stamp(id));
    RunOne(t, Update(id));
    assert t.calls[id := Finished(true)] == s.calls[id := Finished(true)];
  }

  function ReleaseSteps(id: nat, owner: Value, local: Node): seq<Action> {
    [Call(id, Release(owner), local)] + ([Get(id)] + ([Check(id)] + [Update(id)]))
  }

  lemma UndisturbedRelease(s: System, id: nat, owner: Value, local: Node)
    requires s.obj.Some? && id !in s.calls
    requires s.obj.value.annotations != map[] && Read(s.obj.value.annotations, LockOwner) == owner
    ensures var t := Run(s, ReleaseSteps(id, owner, local));
            && t.now == s.now && |t.log| == |s.log| + 1 && t.log[..|s.log|] == s.log
            && t.log[|s.log|].who == Releaser(owner) && t.log[|s.log|].call == id
  {
    RunOn(s, [Call(id, Release(owner), local)], [Get(id)] + ([Check(id)] + [Update(id)]));
    RunOne(s, Call(id, Release(owner), local));
    var s1 := Do(s, Call(id, Release(owner), local));
    RunOn(s1, [Get(id)], [Check(id)] + [Update(id)]);
    RunOne(s1, Get(id));
    var s2 := Do(s1, Get(id));
    RunOn(s2, [Check(id)], [Update(id)]);
    RunOne(s2, Check(id));
    RunOne(Do(s2, Check(id)), Update(id));
  }

  function ForceSteps(id: nat, local: Node): seq<Action> {
    [Call(id, Force, local)] + ([Get(id)] + ([Check(id)] + [Update(id)]))
  }

  lemma UndisturbedForce(s: System, id: nat, local: Node)
    requires s.obj.Some? && id !in s.calls && s.obj.value.annotations != map[]
    ensures var t := Run(s, ForceSteps(id, local));
            && t.now == s.now && |t.log| == |s.log| + 1 && t.log[..|s.log|] == s.log
            && t.log[|s.log|].who == Forcer && t.log[|s.log|].call == id
  {
    RunOn(s, [Call(id, Force, local)], [Get(id)] + ([Check(id)] + [Update(id)]));
    RunOne(s, Call(id, Force, local));
    var s1 := Do(s, Call(id, Force, local));
    RunOn(s1, [Get(id)], [Check(id)] + [Update(id)]);
    RunOne(s1, Get(id));
    var s2 := Do(s1, Get(id));
    RunOn(s2, [Check(id)], [Update(id)]);
    RunOne(s2, Check(id));
    RunOne(Do(s2, Check(id)), Update(id));
  }

  function Bare(): Node {
    Node("n", 0, None, false, false, map[], Spec(PowerOff, ""), Status(PowerOff, ProgressShutdown, None, None))
  }

  function Initial(): System {
    System(Some(Bare()), 0, 0, map[], map[], [])
  }

  // Two acquisitions in a row, `pause` apart, of which the second finds no live lock.
  lemma AcquireTwice(req: Request, pause: nat) returns (actions: seq<Action>)
    requires req.Acquire? && req.timeout == DEFAULT_LOCK_TIMEOUT
    requires pause > DEFAULT_LOCK_TIMEOUT || req.owner == BLANK || req.operation == BLANK
    ensures var t := Run(Initial(), actions);
            && t.now == pause && t.calls.Keys == {1, 2} && t.obj.Some?
            && |t.log| == 2 && t.log[0].call == 1 && t.log[1].call == 2
            && t.log[0].who == Acquirer(req.operation, req.owner, 0, req.timeout)
            && t.log[1].who == Acquirer(req.operation, req.owner, pause, req.timeout)
            && FieldsOf(t.obj.value.annotations).owner == req.owner && t.obj.value.annotations != map[]
  {
    var s, wait := Initial(), [Others(pause, 0, None)];
    var one, two := AcquireSteps(1, req, Bare()), AcquireSteps(2, req, Bare());
    UndisturbedAcquire(s, 1, req, Bare());
    var s1 := Run(s, one);
    RunOne(s1, wait[0]);
    var s2 := Do(s1, wait[0]);
    LockedReadsBack(Bare().annotations, req.operation, req.owner, 0, req.timeout);
    LifetimeOfGrant(req.operation, req.owner, 0, req.timeout, pause);
    UndisturbedAcquire(s2, 2, req, Bare());
    actions := (one + wait) + two;
    RunOn(s, one, wait);
    RunOn(s, one + wait, two);
    assert OperationLock in Run(s2, two).obj.value.annotations;
  }

  lemma JustGrantedIsLive(log: seq<Commit>, i: nat, now: int)
    requires i < |log| && log[i].who.Acquirer? && log[i].who.stamp == now
    requires log[i].who.timeout == DEFAULT_LOCK_TIMEOUT && forall j :: i < j < |log| ==> log[j].who.Acquirer?
    ensures Live(log, i, now)
  {
  }

  /** The releasing hook of an operation whose lock has expired takes away the live lock of the next operation,
      because both carry the name of the node controller: call 1 acquires, its lock expires, call 2 acquires,
      and the release made on behalf of call 1 (call 3) ends the term of call 2. */
  lemma LateReleaseEndsNewerTerm(owner: Value, operation: Value)
    returns (before: seq<Action>, release: seq<Action>)
    requires owner != BLANK && operation != BLANK
    ensures Start(Initial()) && release == ReleaseSteps(3, owner, Bare())
    ensures var t, u := Run(Initial(), before), Run(Initial(), before + release);
            && |t.log| == 2 && t.log[0].call == 1 && t.log[1].call == 2
            && t.log[0].who.Acquirer? && t.log[1].who.Acquirer? && t.log[0].who.owner == t.log[1].who.owner == owner
            && Live(t.log, 1, t.now)
            && u.now == t.now && |u.log| == 3 && u.log[..2] == t.log && !Live(u.log, 1, u.now)
  {
    before := AcquireTwice(Acquire(operation, owner, DEFAULT_LOCK_TIMEOUT), 6 * MINUTE);
    var t := Run(Initial(), before);
    JustGrantedIsLive(t.log, 1, t.now);
    release := ReleaseSteps(3, owner, Bare());
    UndisturbedRelease(t, 3, owner, Bare());
    RunOn(Initial(), before, release);
    assert Ends(Run(Initial(), before + release).log[2]);
  }

  /** With an empty owner or operation a lock reads as no lock, so two calls can hold it at once. */
  lemma UnnamedLocksDoNotExclude(req: Request) returns (actions: seq<Action>)
    requires req.Acquire? && req.timeout == DEFAULT_LOCK_TIMEOUT && (req.owner == BLANK || req.operation == BLANK)
    ensures Start(Initial())
    ensures var t := Run(Initial(), actions); Live(t.log, 0, t.now) && Live(t.log, 1, t.now)
  {
    actions := AcquireTwice(req, 0);
    var t := Run(Initial(), actions);
    JustGrantedIsLive(t.log, 0, t.now);
    JustGrantedIsLive(t.log, 1, t.now);
  }

  // ---- forced release

  /** Since `first`, which showed no lock that still counts, locks have only been written by the protocol. */
  ghost predicate OnlyProtocol(log: seq<Commit>, first: Option<Node>, now: int) {
    && (first.Some? ==> Free(first.value.annotations, now))
    && forall j :: 0 <= j < |log| && log[j].who.Outsider? ==>
         log[j].after.Some? ==> log[j].before.Some? && FieldsOfObject(log[j].before) == FieldsOfObject(log[j].after)
  }

  // The acquisition that the stored lock comes from.
  lemma {:induction false} ShownLockWasGranted(log: seq<Commit>, first: Option<Node>, last: Option<Node>, now: int)
    returns (i: nat)
    requires History(log, first, last, now) && OnlyProtocol(log, first, now)
    requires last.Some? && !Free(last.value.annotations, now)
    ensures i < |log| && Named(log[i].who) && Term(log[i].who) == CheckLock(last.value.annotations).value
    ensures forall j :: i < j < |log| ==> !Ends(log[j])
  {
    var c := log[|log| - 1];
    match c.who
    case Acquirer(operation, owner, stamp, timeout) =>
      LockedReadsBack(c.before.value.annotations, operation, owner, stamp, timeout);
      i := |log| - 1;
    case Releaser(_) => assert false;
    case Forcer => assert false;
    case Outsider =>
      var front := log[..|log| - 1];
      assert front != [] ==> front[|front| - 1].after == c.before;
      i := ShownLockWasGranted(front, first, c.before, now);
  }

  /** A forced release against the stored node takes away a live term if and only if the lock on that node counts:
      the copy to look at is the one that is written, not an earlier one. */
  lemma ForceEndsLiveTermIff(log: seq<Commit>, first: Option<Node>, last: Option<Node>, now: int)
    requires History(log, first, last, now) && OnlyProtocol(log, first, now) && last.Some?
    ensures (exists i :: 0 <= i < |log| && Live(log, i, now) && Named(log[i].who)) <==>
            !Free(last.value.annotations, now)
  {
    if i :| 0 <= i < |log| && Live(log, i, now) && Named(log[i].who) {
      AtMostOneLive(log, first, last, now, i, i);
    }
    if !Free(last.value.annotations, now) {
      var i := ShownLockWasGranted(log, first, last, now);
      assert Live(log, i, now);
    }
  }

  // A node with a lock that was taken at time 0, six minutes later.
  function Neglected(operation: Value, owner: Value): System {
    System(Some(Bare().(annotations := Locked(map[], operation, owner, 0, DEFAULT_LOCK_TIMEOUT))), 0, 6 * MINUTE,
           map[], map[], [])
  }

  /** The sweep decides on the copy it has listed and clears the one it reads afterwards: the listing shows an
      expired lock, call 1 acquires, and the forced release (call 2) takes away the live lock of call 1. */
  lemma StaleSweepEndsLiveTerm(operation: Value, owner: Value)
    returns (listed: Node, before: seq<Action>, release: seq<Action>)
    requires owner != BLANK && operation != BLANK
    ensures var s := Neglected(operation, owner);
            && Start(s) && s.obj == Some(listed) && HasExpiredLock(listed, s.now)
            && release == ForceSteps(2, listed)
            && var t, u := Run(s, before), Run(s, before + release);
            && Live(t.log, 0, t.now) && t.log[0].call == 1 && OnlyProtocol(t.log, s.obj, t.now)
            && u.now == t.now && |u.log| == |t.log| + 1 && u.log[..|t.log|] == t.log && !Live(u.log, 0, u.now)
  {
    var s := Neglected(operation, owner);
    listed := s.obj.value;
    LockedReadsBack(map[], operation, owner, 0, DEFAULT_LOCK_TIMEOUT);
    LifetimeOfGrant(operation, owner, 0, DEFAULT_LOCK_TIMEOUT, s.now);
    var req := Acquire(operation, owner, DEFAULT_LOCK_TIMEOUT);
    before := AcquireSteps(1, req, listed);
    UndisturbedAcquire(s, 1, req, listed);
    var t := Run(s, before);
    JustGrantedIsLive(t.log, 0, t.now);
    assert OperationLock in t.obj.value.annotations;
    release := ForceSteps(2, listed);
    UndisturbedForce(t, 2, listed);
    RunOn(s, before, release);
    assert Ends(Run(s, before + release).log[|t.log|]);
  }
}
