/** The coordination manager: lock operations as loops of read, check and conditional write. */
module Coordination {
  import opened Objects
  import opened Lease
  import opened LeaseProtocol
  import opened ApiServers

  datatype LockReply = Done(committed: bool) | Held(lock: Lock) | NotOwner(owner: Value) | Failed

  predicate Shows(obj: Option<Node>, lock: Lock) {
    obj.Some? && CheckLock(obj.value.annotations) == Some(lock)
  }

  /** What the last request of a call says about its reply. */
  predicate Answers(r: LockReply, last: Exchange) {
    match r
    case Done(committed) => last.reply.Ok? && (committed <==> !last.Got?)
    case Held(lock) => last.Got? && Shows(Shown(last.reply), lock)
    case NotOwner(other) => last.Got? && last.reply.Ok? && Read(last.reply.value.annotations, LockOwner) == other
    case Failed => !last.reply.Ok?
  }

  /** The requests since `before` are one loop of this kind, which ended as the reply says. */
  ghost predicate RanAs(before: seq<Exchange>, after: seq<Exchange>, r: LockReply, loop: Loop) {
    before <= after && Ended(after, |before|, |after|, loop) && Answers(r, after[|after| - 1])
  }

  function EndingFor(r: LockReply): Ending {
    if r == Done(true) then Wrote else if r.Failed? then Refused else Declined
  }

  /** The same, and the loop is booked. */
  ghost predicate Looped(before: seq<Exchange>, book: Book, after: seq<Exchange>, book': Book, r: LockReply,
                         loop: Loop)
  {
    && RanAs(before, after, r, loop)
    && book' == Book(book.loops + [loop], book.endings + [EndingFor(r)], |after|)
  }

  class CoordinationManager {
    const api: ApiServer
    const owner: Value

    // The run of the protocol that the current call has been through, as call number 1.
    ghost var entry: System
    ghost var steps: seq<Action>
    ghost var sys: System

    constructor (api: ApiServer, owner: Value)
      ensures this.api == api && this.owner == owner
    {
      this.api, this.owner := api, owner;
    }

    // The protocol's view of the store, before any call has begun.
    ghost function Fresh(): System
      reads api
    {
      System(api.obj, api.rev, api.now, map[], map[], [])
    }

    /** The call so far is a run of the protocol that has led to the store as it is. */
    ghost predicate Follows()
      reads this, api
    {
      && api.Valid()
      && sys == Run(entry, steps)
      && sys.obj == api.obj && sys.rev == api.rev && sys.now == api.now
    }

    ghost predicate At(pc: Pc)
      reads this
    {
      1 in sys.calls && sys.calls[1] == pc
    }

    ghost method Step(action: Action)
      requires sys == Run(entry, steps)
      modifies this
      ensures sys == Run(entry, steps) == Do(old(sys), action)
      ensures entry == old(entry) && steps == old(steps) + [action]
    {
      steps, sys := steps + [action], Do(sys, action);
      assert steps[..|steps| - 1] == old(steps);
    }

    ghost method Enter(req: Request, local: Node)
      requires api.Valid()
      modifies this
      ensures Follows() && Start(entry)
      ensures entry == Fresh()
      ensures At(if req.Acquire? && !Free(local.annotations, api.now) then Finished(false)
                 else Reading(req, ATTEMPTS))
      ensures sys.log == []
    {
      entry := Fresh();
      steps, sys := [], entry;
      Step(Call(1, req, local));
    }

    // A pause: others may act before the call goes on.
    method Preempt()
      requires Follows()
      modifies this, api`obj, api`kube, api`jobs, api`rev, api`now
      ensures Follows() && entry == old(entry) && sys.calls == old(sys).calls
      ensures api.OnlyLocks() && (api.alone ==> api.obj == old(api.obj))
    {
      var act := api.Others();
      Step(act);
    }

    // Reads the node, as the next step of the call.
    method Fetch(ghost req: Request, ghost left: nat) returns (got: Reply<Node>)
      requires Follows() && At(Reading(req, left))
      modifies this, api`obj, api`kube, api`jobs, api`rev, api`now, api`requests
      ensures Follows() && entry == old(entry)
      ensures api.OnlyLocks() && (api.alone ==> api.obj == old(api.obj))
      ensures At(if got.Ok? then Holding(req, left, got.value) else Finished(false))
      ensures got.Ok? ==> api.obj == Some(got.value)
      ensures api.reliable && api.obj.Some? ==> got.Ok?
      ensures !got.Conflict? && api.requests == old(api.requests) + [Got(got)]
    {
      Preempt();
      got := api.Get();
      Step(if got.Ok? then Action.Get(1) else GetFails(1));
    }

    /** This side has made exactly one more commit, a legal one, and it is the call's commit in its run. */
    ghost predicate Wrote(before: seq<Commit>)
      reads this, api
    {
      && |api.mine| == |before| + 1 && api.mine[..|before|] == before
      && var c := api.mine[|before|];
      && Legal(c) && !c.who.Outsider? && c.after == api.obj && c.at == api.now
      && sys.log != [] && sys.log[|sys.log| - 1] == c
    }

    ghost predicate OnlyAnnotationsOf(before: Option<Node>)
      reads api
    {
      before.Some? && api.obj.Some? && SameButLocks(before.value, api.obj.value)
    }

    // The write itself, as the last step of an attempt.
    method Commit(copy: Node, ghost pc: Pc) returns (put: Reply<Node>)
      requires Follows() && Start(entry) && At(pc) && pc.Drafted? && !pc.who.Outsider?
      requires copy == pc.copy.(annotations := pc.draft)
      modifies this, api`obj, api`rev, api`mine, api`requests
      ensures Follows() && entry == old(entry)
      ensures put.Ok? ==> OnlyAnnotationsOf(old(api.obj)) && api.rev == old(api.rev) + 1 == api.obj.value.version
      ensures !put.Ok? ==> api.rev == old(api.rev)
      ensures put.Ok? ==>
                && At(Finished(true)) && Wrote(old(api.mine)) && api.mine[|old(api.mine)|].who == pc.who
                && api.mine[|old(api.mine)|].before == old(api.obj)
      ensures !put.Ok? ==> api.mine == old(api.mine) && api.obj == old(api.obj)
      ensures put.Conflict? ==> At(if pc.left > 1 then Reading(pc.req, pc.left - 1) else Finished(false))
      ensures put.NotFound? || put.Failure? ==> At(Finished(false))
      ensures api.reliable && old(api.obj) == Some(pc.copy) ==> put.Ok?
      ensures api.requests == old(api.requests) + [Exchange.Put(pc.who, put)]
    {
      put := api.Update(copy, pc.who);
      Step(if put.Failure? then UpdateFails(1) else Action.Update(1));
      if put.Ok? {
        LastIsLegal(entry, steps);
      }
    }

    // Writes the drafted annotations, after a pause.
    method Put(copy: Node, ghost pc: Pc) returns (put: Reply<Node>)
      requires Follows() && Start(entry) && At(pc) && pc.Drafted? && !pc.who.Outsider?
      requires copy == pc.copy.(annotations := pc.draft)
      modifies this, api`obj, api`kube, api`jobs, api`rev, api`now, api`mine, api`requests
      ensures Follows() && entry == old(entry) && api.OnlyLocks()
      ensures put.Ok? ==> At(Finished(true)) && Wrote(old(api.mine)) && api.mine[|old(api.mine)|].who == pc.who
      ensures put.Ok? && api.alone ==> api.mine[|old(api.mine)|].before == old(api.obj)
      ensures !put.Ok? ==> api.mine == old(api.mine) && (api.alone ==> api.obj == old(api.obj))
      ensures put.Conflict? ==> At(if pc.left > 1 then Reading(pc.req, pc.left - 1) else Finished(false))
      ensures put.NotFound? || put.Failure? ==> At(Finished(false))
      ensures api.alone && api.reliable && old(api.obj) == Some(pc.copy) ==> put.Ok?
      ensures api.requests == old(api.requests) + [Exchange.Put(pc.who, put)]
    {
      Preempt();
      put := Commit(copy, pc);
    }

    // The second check of an acquisition, on the copy just read.
    method CheckAgain(copy: Node, ghost req: Request, ghost left: nat) returns (existing: Option<Lock>)
      requires Follows() && At(Holding(req, left, copy)) && req.Acquire?
      modifies this, api`obj, api`kube, api`jobs, api`rev, api`now
      ensures Follows() && entry == old(entry)
      ensures api.OnlyLocks() && (api.alone ==> api.obj == old(api.obj))
      ensures existing.None? ==> At(Checked(req, left, copy))
      ensures existing.Some? ==> At(Finished(false)) && !IsLockExpired(existing.value, old(api.now))
                                 && existing == CheckLock(copy.annotations)
      ensures old(Free(copy.annotations, api.now)) ==> existing.None?
    {
      Preempt();
      existing := CheckLock(copy.annotations);
      Step(Check(1));
      if existing.Some? && IsLockExpired(existing.value, api.now) {
        existing := None;
      }
    }

    // Stamps the lock and writes it.
    method StampAndPut(copy: Node, operation: Value, timeout: int, ghost left: nat) returns (put: Reply<Node>)
      requires Follows() && Start(entry) && left > 0
      requires At(Checked(Acquire(operation, owner, timeout), left, copy))
      modifies this, api`obj, api`kube, api`jobs, api`rev, api`now, api`mine, api`requests
      ensures Follows() && entry == old(entry) && api.OnlyLocks()
      ensures put.Conflict? ==> At(if left > 1 then Reading(Acquire(operation, owner, timeout), left - 1)
                                   else Finished(false))
      ensures !put.Conflict? ==> At(Finished(put.Ok?))
      ensures AcquireOutcome(if put.Ok? then Done(true) else Failed, operation, timeout,
                             old(api.now), old(api.obj), old(api.mine))
      ensures api.alone && api.reliable && old(api.obj) == Some(copy) ==> put.Ok?
      ensures exists stamp :: api.requests == old(api.requests)
                                              + [Exchange.Put(Acquirer(operation, owner, stamp, timeout), put)]
    {
      Preempt();
      var stamp := api.now;
      var draft := Locked(copy.annotations, operation, owner, stamp, timeout);
      Step(Stamp(1));
      put := Put(copy.(annotations := draft),
                 Drafted(Acquire(operation, owner, timeout), left, copy, draft,
                         Acquirer(operation, owner, stamp, timeout)));
    }

    // One attempt of the retry loop of AcquireLock.
    method TryAcquire(operation: Value, timeout: int, ghost left: nat) returns (r: LockReply, conflict: bool)
      requires Follows() && Start(entry) && left > 0 && At(Reading(Acquire(operation, owner, timeout), left))
      modifies this, api`obj, api`kube, api`jobs, api`rev, api`now, api`mine, api`requests
      ensures Follows() && entry == old(entry) && api.OnlyLocks()
      ensures conflict ==> r == Failed
      ensures conflict ==> At(if left > 1 then Reading(Acquire(operation, owner, timeout), left - 1)
                              else Finished(false))
      ensures !conflict ==> At(Finished(r == Done(true)))
      ensures AcquireOutcome(r, operation, timeout, old(api.now), old(api.obj), old(api.mine))
      ensures api.alone && api.reliable && old(Obtainable()) ==> r == Done(true)
      ensures r.Held? && api.alone ==> Shows(api.obj, r.lock)
      ensures Tried(old(api.requests), api.requests, conflict, TakeLoop(owner))
      ensures Answers(r, api.requests[|api.requests| - 1])
      ensures api.alone && api.reliable && api.obj.Some? ==> !r.Failed?
    {
      conflict, r := false, Failed;
      var got := Fetch(Acquire(operation, owner, timeout), left);
      if !got.Ok? {
        TriedByRead(old(api.requests), api.requests, Got(got), TakeLoop(owner));
        return;
      }
      var existing := CheckAgain(got.value, Acquire(operation, owner, timeout), left);
      if existing.Some? {
        r := Held(existing.value);
        TriedByRead(old(api.requests), api.requests, Got(got), TakeLoop(owner));
        return;
      }
      var put := StampAndPut(got.value, operation, timeout, left);
      ghost var stamp :| api.requests == old(api.requests) + [Got(got)]
                                         + [Exchange.Put(Acquirer(operation, owner, stamp, timeout), put)];
      TriedByWrite(old(api.requests), api.requests, Got(got),
                   Exchange.Put(Acquirer(operation, owner, stamp, timeout), put), TakeLoop(owner));
      conflict := put.Conflict?;
      r := if put.Ok? then Done(true) else Failed;
    }

    ghost predicate Obtainable()
      reads api
    {
      api.obj.Some? && Free(api.obj.value.annotations, api.now)
    }

    /** What a reply of AcquireLock means for a call that began at `began` with the node as `was`:
        success is one commit that put this lock in place of none that counted; a refusal names
        a lock that was live during the call; and without success nothing was written. */
    ghost predicate AcquireOutcome(r: LockReply, operation: Value, timeout: int, began: int,
                                   was: Option<Node>, before: seq<Commit>)
      reads this, api
    {
      match r
      case Done(committed) =>
        && committed && Wrote(before)
        && var c := api.mine[|before|];
        && c.who.Acquirer? && c.who == Acquirer(operation, owner, c.who.stamp, timeout) && began <= c.who.stamp
        && (api.alone ==> c.before == was)
      case Held(lock) =>
        !IsLockExpired(lock, began) && api.mine == before && (api.alone ==> api.obj == was)
      case Failed => api.mine == before && (api.alone ==> api.obj == was)
      case NotOwner(_) => false
    }

    method AcquireLock(local: Node, operation: Value, timeout: int) returns (r: LockReply)
      requires api.Valid()
      modifies this, api`obj, api`kube, api`jobs, api`rev, api`now, api`mine, api`requests, api`book
      ensures api.OnlyLocks() && AcquireOutcome(r, operation, timeout, old(api.now), old(api.obj), old(api.mine))
      ensures Follows() && entry == old(Fresh()) && At(Finished(r == Done(true)))
      ensures api.alone && api.reliable && old(Free(local.annotations, api.now) && Obtainable()) ==> r == Done(true)
      ensures r.Held? ==> Shows(Some(local), r.lock) || (api.alone ==> Shows(old(api.obj), r.lock))
      ensures api.requests == old(api.requests) ==>
                r.Held? && Shows(Some(local), r.lock) && api.book == old(api.book)
      ensures forall end :: CountsUntil(local.annotations, end) && old(api.now) <= end ==>
                r.Held? && api.requests == old(api.requests)
      ensures api.requests != old(api.requests) ==>
                Looped(old(api.requests), old(api.book), api.requests, api.book, r, TakeLoop(owner))
      ensures api.alone && api.reliable && api.obj.Some? ==> !r.Failed?
    {
      Enter(Acquire(operation, owner, timeout), local);
      CountsExactlyUntil(local.annotations, api.now);
      var existing := CheckLock(local.annotations);
      if existing.Some? && !IsLockExpired(existing.value, api.now) {
        return Held(existing.value);
      }
      r := RetryAcquire(operation, timeout);
      api.Enter(TakeLoop(owner), |old(api.requests)|);
    }

    // The retry loop of AcquireLock.
    method RetryAcquire(operation: Value, timeout: int) returns (r: LockReply)
      requires Follows() && Start(entry) && At(Reading(Acquire(operation, owner, timeout), ATTEMPTS))
      modifies this, api`obj, api`kube, api`jobs, api`rev, api`now, api`mine, api`requests
      ensures api.OnlyLocks() && AcquireOutcome(r, operation, timeout, old(api.now), old(api.obj), old(api.mine))
      ensures Follows() && entry == old(entry) && At(Finished(r == Done(true)))
      ensures api.alone && api.reliable && old(Obtainable()) ==> r == Done(true)
      ensures r.Held? && api.alone ==> Shows(old(api.obj), r.lock)
      ensures RanAs(old(api.requests), api.requests, r, TakeLoop(owner))
      ensures api.alone && api.reliable && api.obj.Some? ==> !r.Failed?
    {
      var left, conflict := ATTEMPTS, true;
      r := Failed;
      while conflict && left > 0
        invariant 0 <= left <= ATTEMPTS && api.OnlyLocks()
        invariant Follows() && entry == old(entry)
        invariant conflict && left > 0 ==> At(Reading(Acquire(operation, owner, timeout), left))
        invariant conflict && left == 0 ==> At(Finished(false))
        invariant !conflict ==> At(Finished(r == Done(true)))
        invariant conflict ==> r == Failed
        invariant AcquireOutcome(r, operation, timeout, old(api.now), old(api.obj), old(api.mine))
        invariant left == ATTEMPTS ==> conflict && Obtainable() == old(Obtainable())
        invariant api.alone && api.reliable && old(Obtainable()) && left < ATTEMPTS ==> r == Done(true)
        invariant api.alone && api.reliable && api.obj.Some? && left < ATTEMPTS ==> !r.Failed?
        invariant r.Held? && api.alone ==> Shows(api.obj, r.lock)
        invariant Retrying(old(api.requests), api.requests, left, conflict, TakeLoop(owner))
        invariant left < ATTEMPTS ==> Answers(r, api.requests[|api.requests| - 1])
      {
        ghost var requests := api.requests;
        r, conflict := TryAcquire(operation, timeout, left);
        RetryingOn(old(api.requests), requests, api.requests, left, conflict, TakeLoop(owner));
        left := left - 1;
      }
    }

    // Where a call that clears the lock stands once it has looked at its copy.
    ghost function ToClear(req: Request, left: nat, copy: Node): Pc
      requires !req.Acquire?
    {
      if copy.annotations == map[] || (req.Release? && Read(copy.annotations, LockOwner) != req.owner) then
        Finished(false)
      else
        Drafted(req, left, copy, Cleared(copy.annotations), if req.Release? then Releaser(req.owner) else Forcer)
    }

    // Reads the node and looks at the lock, as the next steps of the call.
    method FetchToClear(ghost req: Request, ghost left: nat) returns (got: Reply<Node>)
      requires Follows() && At(Reading(req, left)) && !req.Acquire?
      modifies this, api`obj, api`kube, api`jobs, api`rev, api`now, api`requests
      ensures Follows() && entry == old(entry)
      ensures api.OnlyLocks() && (api.alone ==> api.obj == old(api.obj))
      ensures At(if got.Ok? then ToClear(req, left, got.value) else Finished(false))
      ensures got.Ok? ==> api.obj == Some(got.value)
      ensures api.reliable && api.obj.Some? ==> got.Ok?
      ensures !got.Conflict? && api.requests == old(api.requests) + [Got(got)]
    {
      got := Fetch(req, left);
      if got.Ok? {
        Step(Check(1));
      }
    }

    // One attempt of the retry loop of ReleaseLock.
    method TryRelease(ghost left: nat) returns (r: LockReply, conflict: bool)
      requires Follows() && Start(entry) && left > 0 && At(Reading(Release(owner), left))
      modifies this, api`obj, api`kube, api`jobs, api`rev, api`now, api`mine, api`requests
      ensures Follows() && entry == old(entry) && api.OnlyLocks()
      ensures conflict ==> r == Failed
      ensures conflict ==> At(if left > 1 then Reading(Release(owner), left - 1) else Finished(false))
      ensures !conflict ==> At(Finished(r == Done(true)))
      ensures ReleaseOutcome(r, old(api.obj), old(api.mine))
      ensures Tried(old(api.requests), api.requests, conflict, ReleaseLoop(owner))
      ensures Answers(r, api.requests[|api.requests| - 1])
      ensures api.alone && api.reliable && api.obj.Some? ==> !r.Failed?
    {
      conflict, r := false, Failed;
      var got := FetchToClear(Release(owner), left);
      if !got.Ok? {
        return;
      }
      var copy := got.value;
      if copy.annotations == map[] {
        r := Done(false);
        return;
      }
      var currentOwner := Read(copy.annotations, LockOwner);
      if currentOwner != owner {
        r := if currentOwner == BLANK then Done(false) else NotOwner(currentOwner);
        return;
      }
      ghost var pc := ToClear(Release(owner), left, copy);
      copy := copy.(annotations := Cleared(copy.annotations));
      var put := Put(copy, pc);
      conflict := put.Conflict?;
      r := if put.Ok? then Done(true) else Failed;
    }

    /** What a reply of ReleaseLock means: a commit removes a lock of this owner (the commit is legal);
        otherwise nothing was written, either because no owner or another owner was named or because
        the call failed. */
    ghost predicate ReleaseOutcome(r: LockReply, was: Option<Node>, before: seq<Commit>)
      reads this, api
    {
      match r
      case Done(committed) =>
        if committed then
          && Wrote(before) && api.mine[|before|].who == Releaser(owner)
          && (api.alone ==> api.mine[|before|].before == was)
        else api.mine == before && api.obj.Some? && Read(api.obj.value.annotations, LockOwner) == BLANK
             && (api.alone ==> api.obj == was)
      case NotOwner(other) =>
        && api.mine == before && other != owner && other != BLANK && api.obj.Some?
        && Read(api.obj.value.annotations, LockOwner) == other && (api.alone ==> api.obj == was)
      case Failed => api.mine == before && (api.alone ==> api.obj == was)
      case Held(_) => false
    }

    method ReleaseLock(local: Node) returns (r: LockReply)
      requires api.Valid()
      modifies this, api`obj, api`kube, api`jobs, api`rev, api`now, api`mine, api`requests, api`book
      ensures api.OnlyLocks() && ReleaseOutcome(r, old(api.obj), old(api.mine))
      ensures Looped(old(api.requests), old(api.book), api.requests, api.book, r, ReleaseLoop(owner))
      ensures Follows() && entry == old(Fresh()) && At(Finished(r == Done(true)))
      ensures api.alone && api.reliable && api.obj.Some? ==> !r.Failed?
    {
      Enter(Release(owner), local);
      r := RetryRelease();
      api.Enter(ReleaseLoop(owner), |old(api.requests)|);
    }

    // The retry loop of ReleaseLock.
    method RetryRelease() returns (r: LockReply)
      requires Follows() && Start(entry) && At(Reading(Release(owner), ATTEMPTS))
      modifies this, api`obj, api`kube, api`jobs, api`rev, api`now, api`mine, api`requests
      ensures api.OnlyLocks() && ReleaseOutcome(r, old(api.obj), old(api.mine))
      ensures RanAs(old(api.requests), api.requests, r, ReleaseLoop(owner))
      ensures Follows() && entry == old(entry) && At(Finished(r == Done(true)))
      ensures api.alone && api.reliable && api.obj.Some? ==> !r.Failed?
    {
      var left, conflict := ATTEMPTS, true;
      r := Failed;
      while conflict && left > 0
        invariant 0 <= left <= ATTEMPTS && api.OnlyLocks()
        invariant Follows() && entry == old(entry)
        invariant conflict && left > 0 ==> At(Reading(Release(owner), left))
        invariant conflict && left == 0 ==> At(Finished(false))
        invariant !conflict ==> At(Finished(r == Done(true)))
        invariant conflict ==> r == Failed
        invariant ReleaseOutcome(r, old(api.obj), old(api.mine))
        invariant Retrying(old(api.requests), api.requests, left, conflict, ReleaseLoop(owner))
        invariant left < ATTEMPTS ==> Answers(r, api.requests[|api.requests| - 1])
        invariant left == ATTEMPTS ==> conflict
        invariant api.alone && api.reliable && api.obj.Some? && left < ATTEMPTS ==> !r.Failed?
      {
        ghost var requests := api.requests;
        r, conflict := TryRelease(left);
        RetryingOn(old(api.requests), requests, api.requests, left, conflict, ReleaseLoop(owner));
        left := left - 1;
      }
    }

    // One attempt of the retry loop of ForceReleaseLock.
    method TryForce(ghost left: nat) returns (r: LockReply, conflict: bool)
      requires Follows() && Start(entry) && left > 0 && At(Reading(Force, left))
      modifies this, api`obj, api`kube, api`jobs, api`rev, api`now, api`mine, api`requests
      ensures Follows() && entry == old(entry) && api.OnlyLocks()
      ensures conflict ==> r == Failed
      ensures conflict ==> At(if left > 1 then Reading(Force, left - 1) else Finished(false))
      ensures !conflict ==> At(Finished(r == Done(true)))
      ensures ForceOutcome(r, old(api.obj), old(api.mine))
      ensures Tried(old(api.requests), api.requests, conflict, ForceLoop)
      ensures Answers(r, api.requests[|api.requests| - 1])
      ensures api.alone && api.reliable && api.obj.Some? ==> !r.Failed?
    {
      conflict, r := false, Failed;
      var got := FetchToClear(Force, left);
      if !got.Ok? {
        return;
      }
      var copy := got.value;
      if copy.annotations == map[] {
        r := Done(false);
        return;
      }
      ghost var pc := ToClear(Force, left, copy);
      copy := copy.(annotations := Cleared(copy.annotations));
      var put := Put(copy, pc);
      conflict := put.Conflict?;
      r := if put.Ok? then Done(true) else Failed;
    }

    ghost predicate ForceOutcome(r: LockReply, was: Option<Node>, before: seq<Commit>)
      reads this, api
    {
      match r
      case Done(committed) =>
        if committed then
          && Wrote(before) && api.mine[|before|].who == Forcer
          && (api.alone ==> api.mine[|before|].before == was)
        else api.mine == before && api.obj.Some? && api.obj.value.annotations == map[]
             && (api.alone ==> api.obj == was)
      case Failed => api.mine == before && (api.alone ==> api.obj == was)
      case _ => false
    }

    method ForceReleaseLock(local: Node) returns (r: LockReply)
      requires api.Valid()
      modifies this, api`obj, api`kube, api`jobs, api`rev, api`now, api`mine, api`requests, api`book
      ensures api.OnlyLocks() && ForceOutcome(r, old(api.obj), old(api.mine))
      ensures Looped(old(api.requests), old(api.book), api.requests, api.book, r, ForceLoop)
      ensures Follows() && entry == old(Fresh()) && At(Finished(r == Done(true)))
      ensures api.alone && api.reliable && api.obj.Some? ==> !r.Failed?
    {
      Enter(Force, local);
      r := RetryForce();
      api.Enter(ForceLoop, |old(api.requests)|);
    }

    // The retry loop of ForceReleaseLock.
    method RetryForce() returns (r: LockReply)
      requires Follows() && Start(entry) && At(Reading(Force, ATTEMPTS))
      modifies this, api`obj, api`kube, api`jobs, api`rev, api`now, api`mine, api`requests
      ensures api.OnlyLocks() && ForceOutcome(r, old(api.obj), old(api.mine))
      ensures RanAs(old(api.requests), api.requests, r, ForceLoop)
      ensures Follows() && entry == old(entry) && At(Finished(r == Done(true)))
      ensures api.alone && api.reliable && api.obj.Some? ==> !r.Failed?
    {
      var left, conflict := ATTEMPTS, true;
      r := Failed;
      while conflict && left > 0
        invariant 0 <= left <= ATTEMPTS && api.OnlyLocks()
        invariant Follows() && entry == old(entry)
        invariant conflict && left > 0 ==> At(Reading(Force, left))
        invariant conflict && left == 0 ==> At(Finished(false))
        invariant !conflict ==> At(Finished(r == Done(true)))
        invariant conflict ==> r == Failed
        invariant ForceOutcome(r, old(api.obj), old(api.mine))
        invariant Retrying(old(api.requests), api.requests, left, conflict, ForceLoop)
        invariant left < ATTEMPTS ==> Answers(r, api.requests[|api.requests| - 1])
        invariant left == ATTEMPTS ==> conflict
        invariant api.alone && api.reliable && api.obj.Some? && left < ATTEMPTS ==> !r.Failed?
      {
        ghost var requests := api.requests;
        r, conflict := TryForce(left);
        RetryingOn(old(api.requests), requests, api.requests, left, conflict, ForceLoop);
        left := left - 1;
      }
    }
  }
}
