/** The API server as one side of the program sees it: atomic requests against versioned objects,
    between which anybody else may act. */
module ApiServers {
  import opened Objects
  import opened Lease
  import opened LeaseProtocol

  datatype Reply<+T> = Ok(value: T) | NotFound | Conflict | Failure

  // What the logs of this side record.

  /** A request about the node resource. */
  datatype Exchange = Got(reply: Reply<Node>) | Put(who: Writer, reply: Reply<Node>) | PutStatus(reply: Reply<Node>)

  /** A look at a job: the reply, the job as it was stored, when, and after how many pauses. */
  datatype Look = Look(name: string, reply: Reply<Job>, stored: Option<Job>, at: nat, naps: nat)

  /** A request to delete a job, with the job that is gone if it took effect. */
  datatype Deletion = Deletion(name: string, gone: Option<Job>)

  /** A write to the Kubernetes node that took effect. */
  datatype KubeWrite = KubeWrite(before: KubeNode, after: KubeNode)

  function Shown<T>(reply: Reply<T>): Option<T> {
    if reply.Ok? then Some(reply.value) else None
  }

  // ---- retry loops, as the log of requests shows them

  /** What a retry loop is for. An attempt is a read and, unless the copy declines it, a write. */
  datatype Loop = TakeLoop(owner: Value) | ReleaseLoop(owner: Value) | ForceLoop | PersistLoop

  predicate IsWrite(e: Exchange, loop: Loop) {
    match loop
    case TakeLoop(owner) => e.Put? && e.who.Acquirer? && e.who.owner == owner
    case ReleaseLoop(owner) => e.Put? && e.who == Releaser(owner)
    case ForceLoop => e.Put? && e.who == Forcer
    case PersistLoop => e.PutStatus?
  }

  /** A copy for which the loop writes nothing. */
  predicate Declines(copy: Node, loop: Loop) {
    match loop
    case TakeLoop(_) => CheckLock(copy.annotations).Some?
    case ReleaseLoop(owner) => copy.annotations == map[] || Read(copy.annotations, LockOwner) != owner
    case ForceLoop => copy.annotations == map[]
    case PersistLoop => false
  }

  /** The requests from number `from` up to `to` end as such a loop does: with a read that failed or declined, with a
      write that went through or failed for good, or with the conflict of the fifth attempt. */
  predicate Ended(requests: seq<Exchange>, from: nat, to: nat, loop: Loop) {
    && from < to <= |requests| && to <= from + 10
    && var last := requests[to - 1];
    if last.Got? then last.reply.Ok? ==> Declines(last.reply.value, loop)
    else IsWrite(last, loop) && (last.reply.Conflict? ==> to == from + 10)
  }

  // One attempt.
  predicate Tried(before: seq<Exchange>, after: seq<Exchange>, conflict: bool, loop: Loop) {
    && before <= after && |before| < |after| <= |before| + 2
    && var last := after[|after| - 1];
    if last.Got? then !conflict && (last.reply.Ok? ==> Declines(last.reply.value, loop))
    else |after| == |before| + 2 && IsWrite(last, loop) && (last.reply.Conflict? <==> conflict)
  }

  lemma TriedByRead(before: seq<Exchange>, after: seq<Exchange>, read: Exchange, loop: Loop)
    requires after == before + [read] && read.Got? && (read.reply.Ok? ==> Declines(read.reply.value, loop))
    ensures Tried(before, after, false, loop) && after[|after| - 1] == read
  {
  }

  lemma TriedByWrite(before: seq<Exchange>, after: seq<Exchange>, read: Exchange, write: Exchange, loop: Loop)
    requires after == before + [read] + [write] && !write.Got? && IsWrite(write, loop)
    ensures Tried(before, after, write.reply.Conflict?, loop) && after[|after| - 1] == write
  {
  }

  // Where a loop stands.
  predicate Retrying(before: seq<Exchange>, after: seq<Exchange>, left: int, conflict: bool, loop: Loop) {
    && before <= after && 0 <= left <= ATTEMPTS
    && if conflict then
         && |after| == |before| + 2 * (ATTEMPTS - left)
         && (left < ATTEMPTS ==> IsWrite(after[|after| - 1], loop) && after[|after| - 1].reply.Conflict?)
       else left < ATTEMPTS && Ended(after, |before|, |after|, loop)
  }

  lemma RetryingOn(before: seq<Exchange>, mid: seq<Exchange>, after: seq<Exchange>, left: int, conflict: bool,
                   loop: Loop)
    requires Retrying(before, mid, left, true, loop) && left > 0 && Tried(mid, after, conflict, loop)
    ensures Retrying(before, after, left - 1, conflict, loop)
  {
  }

  datatype Ending = Wrote | Declined | Refused

  function EndingOf(last: Exchange): Ending {
    if !last.reply.Ok? then Refused else if last.Got? then Declined else Wrote
  }

  /** The retry loops of this side, in order, and how they ended; `upTo` requests are accounted for. */
  datatype Book = Book(loops: seq<Loop>, endings: seq<Ending>, upTo: nat)

  /** The same node but for annotations, owner and version. */
  predicate SameButLocks(before: Node, after: Node) {
    after == before.(annotations := after.annotations, owned := after.owned, version := after.version)
  }

  class ApiServer {
    // What is assumed of the surroundings; with all three false anything can happen.
    const reliable: bool   // no request fails except on a missing object or a version conflict
    const alone: bool      // nobody else writes
    const steady: bool     // nobody else changes the node's progress or removes the node

    var obj: Option<Node>
    var kube: Option<KubeNode>
    var jobs: map<string, Job>
    var rev: nat
    var now: nat
    ghost var mine: seq<Commit>      // this side's writes to the main resource of the node, in order
    ghost var statuses: seq<Commit>  // this side's writes to its status
    ghost var created: seq<Job>      // the jobs this side has created
    ghost var uncreated: seq<Job>              // the jobs whose creation was refused
    ghost var deletions: seq<Deletion>         // the deletions of jobs it asked for
    ghost var listings: seq<seq<Job>>          // the lists of jobs it got
    ghost var requests: seq<Exchange>          // its requests about the node
    ghost var book: Book                       // the retry loops among them
    ghost var looks: seq<Look>                 // its looks at jobs
    ghost var kubeReads: seq<Reply<KubeNode>>  // the replies to its reads of the Kubernetes node
    ghost var kubeWrites: seq<KubeWrite>       // its writes to the Kubernetes node
    ghost var naps: seq<nat>                   // its pauses

    ghost predicate Valid()
      reads this
    {
      && (obj.Some? ==> obj.value.version <= rev)
      && (kube.Some? ==> kube.value.version <= rev)
      && (forall n :: n in jobs ==> jobs[n].name == n)
      && |book.loops| == |book.endings| && book.upTo <= |requests|
    }

    /** A loop is booked only if the requests since number `from`, which no other loop accounts for, are one. */
    ghost method Enter(loop: Loop, from: nat)
      requires Valid() && book.upTo <= from && Ended(requests, from, |requests|, loop)
      modifies this`book
      ensures Valid()
      ensures book == Book(old(book.loops) + [loop], old(book.endings) + [EndingOf(requests[|requests| - 1])],
                           |requests|)
    {
      book := Book(book.loops + [loop], book.endings + [EndingOf(requests[|requests| - 1])], |requests|);
    }

    /** What every request and every pause in between keeps: time and versions only grow, so an object
        that differs from an earlier one has a version that did not exist then; and since this side
        does not edit specs, the node keeps name and spec while nobody else is around. */
    twostate predicate Later()
      reads this
    {
      && Valid() && old(now) <= now && old(rev) <= rev
      && (obj.Some? && obj.value.version <= old(rev) ==> obj == old(obj))
      && (kube.Some? && kube.value.version <= old(rev) ==> kube == old(kube))
      && (alone && old(obj).Some? ==>
            obj.Some? && obj.value.spec == old(obj.value.spec) && obj.value.name == old(obj.value.name))
    }

    /** What a call that touches only the node, and not its progress, keeps in tame surroundings. */
    twostate predicate KeptProgress()
      reads this
    {
      && Later()
      && (alone ==> jobs == old(jobs) && kube == old(kube))
      && (steady && old(obj).Some? ==> obj.Some? && obj.value.status.progress == old(obj.value.status.progress))
    }

    /** The same for a call that touches only the annotations. */
    twostate predicate OnlyLocks()
      reads this
    {
      && KeptProgress()
      && (alone && old(obj).Some? ==> obj.Some? && SameButLocks(old(obj.value), obj.value))
    }

    /** The same for a call that touches only the Kubernetes node. */
    twostate predicate OnlyKube()
      reads this
    {
      && Later()
      && (alone ==> obj == old(obj) && jobs == old(jobs))
      && (steady && old(obj).Some? ==> obj.Some? && obj.value.status.progress == old(obj.value.status.progress))
    }

    /** The same for a call that touches only jobs. */
    twostate predicate OnlyJobs()
      reads this
    {
      && Later()
      && (alone ==> obj == old(obj) && kube == old(kube))
      && (steady && old(obj).Some? ==> obj.Some? && obj.value.status.progress == old(obj.value.status.progress))
    }

    /** Time passes and others act. */
    method Others() returns (ghost act: Action)
      requires Valid()
      modifies this`obj, this`kube, this`jobs, this`rev, this`now
      ensures OnlyLocks() && act.Others?
      ensures now == old(now) + act.d
      ensures rev == old(rev) + act.skip + if act.write.Some? then 1 else 0
      ensures obj == if act.write.Some? then Versioned(act.write.value, rev) else old(obj)
      ensures alone ==> act.write.None?
    {
      var d: nat, skip: nat := *, *;
      now, rev := now + d, rev + skip;
      ghost var write: Option<Option<Node>> := None;
      var interferes: bool := *;
      if interferes && !alone {
        if skip > 0 {
          WriteKube();
        }
        WriteJobs();
        var other: Option<Option<Node>> := *;
        if other.Some? {
          var kept := Kept(other.value);
          write := Some(kept);
          rev := rev + 1;
          obj := Versioned(kept, rev);
        }
      }
      act := Action.Others(d, skip, write);
    }

    // What somebody else may store instead of the node.
    function Kept(other: Option<Node>): (kept: Option<Node>)
      reads this
      ensures steady && obj.Some? ==> kept.Some? && kept.value.status.progress == obj.value.status.progress
      ensures !steady || obj.None? ==> kept == other
    {
      if !steady || obj.None? then other
      else if other.None? then obj
      else Some(other.value.(status := other.value.status.(progress := obj.value.status.progress)))
    }

    // Somebody else's write to the Kubernetes node, at the latest version.
    method WriteKube()
      requires Valid()
      modifies this`kube
      ensures Valid() && (kube.Some? ==> kube.value.version == rev)
    {
      var other: Option<KubeNode> := *;
      kube := if other.Some? then Some(other.value.(version := rev)) else None;
    }

    // Somebody else's changes to the jobs.
    method WriteJobs()
      requires Valid()
      modifies this`jobs
      ensures Valid()
    {
      var other: map<string, Job> := *;
      jobs := map n | n in other && other[n].name == n :: other[n];
    }

    /** At least `d` passes. */
    method Sleep(d: nat)
      requires Valid()
      modifies this`obj, this`kube, this`jobs, this`rev, this`now, this`naps
      ensures OnlyLocks() && (alone ==> obj == old(obj)) && now >= old(now) + d
      ensures naps == old(naps) + [d]
    {
      var act := Others();
      now := now + d;
      naps := naps + [d];
    }

    method Get() returns (r: Reply<Node>)
      modifies this`requests
      ensures requests == old(requests) + [Got(r)]
      ensures r.Ok? ==> obj == Some(r.value)
      ensures r.NotFound? ==> obj.None?
      ensures !r.Conflict? && (reliable ==> !r.Failure?)
    {
      var fails: bool := *;
      r := if fails && !reliable then Failure else if obj.Some? then Ok(obj.value) else NotFound;
      requests := requests + [Got(r)];
    }

    /** A conditional write of the main resource; a reply other than Ok means that nothing was written. */
    method Update(sent: Node, ghost who: Writer) returns (r: Reply<Node>)
      requires Valid()
      modifies this`obj, this`rev, this`mine, this`requests
      ensures Valid() && requests == old(requests) + [Put(who, r)]
      ensures r.Ok? ==>
                && old(obj).Some? && old(obj).value.version == sent.version
                && rev == old(rev) + 1 && obj == Some(r.value)
                && r.value == MainWritten(old(obj).value, sent, rev)
                && mine == old(mine) + [Commit(1, who, old(obj), obj, now)]
      ensures !r.Ok? ==> obj == old(obj) && rev == old(rev) && mine == old(mine)
      ensures r.Conflict? ==> obj.Some? && obj.value.version != sent.version
      ensures r.NotFound? ==> obj.None?
      ensures reliable ==> !r.Failure?
    {
      r := Refusal(sent);
      if r.Ok? {
        var stored := MainWritten(obj.value, sent, rev + 1);
        mine := mine + [Commit(1, who, obj, Some(stored), now)];
        obj, rev := Some(stored), rev + 1;
        r := Ok(stored);
      }
      requests := requests + [Put(who, r)];
    }

    /** The same for the status subresource. */
    method UpdateStatus(sent: Node) returns (r: Reply<Node>)
      requires Valid()
      modifies this`obj, this`rev, this`statuses, this`requests
      ensures Valid() && requests == old(requests) + [PutStatus(r)]
      ensures r.Ok? ==>
                && old(obj).Some? && old(obj).value.version == sent.version
                && rev == old(rev) + 1 && obj == Some(r.value)
                && r.value == StatusWritten(old(obj).value, sent, rev)
                && statuses == old(statuses) + [Commit(1, Outsider, old(obj), obj, now)]
      ensures !r.Ok? ==> obj == old(obj) && rev == old(rev) && statuses == old(statuses)
      ensures r.Conflict? ==> obj.Some? && obj.value.version != sent.version
      ensures r.NotFound? ==> obj.None?
      ensures reliable ==> !r.Failure?
    {
      r := Refusal(sent);
      if r.Ok? {
        var stored := StatusWritten(obj.value, sent, rev + 1);
        statuses := statuses + [Commit(1, Outsider, obj, Some(stored), now)];
        obj, rev := Some(stored), rev + 1;
        r := Ok(stored);
      }
      requests := requests + [PutStatus(r)];
    }

    // Why a conditional write does not go through, or Ok if it does.
    method Refusal(sent: Node) returns (r: Reply<Node>)
      ensures r.Ok? ==> obj.Some? && obj.value.version == sent.version
      ensures r.Conflict? ==> obj.Some? && obj.value.version != sent.version
      ensures r.NotFound? ==> obj.None?
      ensures reliable ==> !r.Failure?
    {
      var fails: bool := *;
      r := if fails && !reliable then Failure
           else if obj.None? then NotFound
           else if obj.value.version != sent.version then Conflict
           else Ok(sent);
    }

    // ---- the Kubernetes node

    method GetKube() returns (r: Reply<KubeNode>)
      modifies this`kubeReads
      ensures kubeReads == old(kubeReads) + [r]
      ensures r.Ok? ==> kube == Some(r.value)
      ensures r.NotFound? ==> kube.None?
      ensures !r.Conflict? && (reliable ==> !r.Failure?)
    {
      var fails: bool := *;
      r := if fails && !reliable then Failure else if kube.Some? then Ok(kube.value) else NotFound;
      kubeReads := kubeReads + [r];
    }

    method UpdateKube(sent: KubeNode) returns (r: Reply<KubeNode>)
      requires Valid()
      modifies this`kube, this`rev, this`kubeWrites
      ensures Valid() && rev >= old(rev)
      ensures r.Ok? ==>
                && old(kube).Some? && old(kube).value.version == sent.version
                && rev == old(rev) + 1 && r.value == sent.(version := rev) && kube == Some(r.value)
                && kubeWrites == old(kubeWrites) + [KubeWrite(old(kube).value, r.value)]
      ensures !r.Ok? ==> kube == old(kube) && rev == old(rev) && kubeWrites == old(kubeWrites)
      ensures reliable && old(kube).Some? && old(kube).value.version == sent.version ==> r.Ok?
    {
      var fails: bool := *;
      if fails && !reliable {
        return Failure;
      }
      if kube.None? {
        return NotFound;
      }
      if kube.value.version != sent.version {
        return Conflict;
      }
      rev := rev + 1;
      kubeWrites := kubeWrites + [KubeWrite(kube.value, sent.(version := rev))];
      kube := Some(sent.(version := rev));
      r := Ok(sent.(version := rev));
    }

    // ---- jobs

    ghost function Stored(name: string): Option<Job>
      reads this
    {
      if name in jobs then Some(jobs[name]) else None
    }

    /** A request whose context has expired may fail in any surroundings. */
    method GetJob(name: string, expired: bool) returns (r: Reply<Job>)
      modifies this`looks
      ensures r.Ok? || (reliable && !expired) ==> Shown(r) == Stored(name)
      ensures looks == old(looks) + [Look(name, r, Stored(name), now, |naps|)]
    {
      var fails: bool := *;
      r := if fails && (expired || !reliable) then Failure else if name in jobs then Ok(jobs[name]) else NotFound;
      looks := looks + [Look(name, r, Stored(name), now, |naps|)];
    }

    /** The jobs labelled with a node, in some order. */
    method ListJobs(node: string) returns (r: Reply<seq<Job>>)
      requires Valid()
      modifies this`listings
      ensures listings == old(listings) + if r.Ok? then [r.value] else []
      ensures r.Ok? ==> forall n :: n in jobs && jobs[n].node == node ==> jobs[n] in r.value
      ensures r.Ok? ==> forall j :: j in r.value ==> j.node == node && j.name in jobs && jobs[j.name] == j
      ensures reliable ==> r.Ok?
    {
      var fails: bool := *;
      if fails && !reliable {
        return Failure;
      }
      var left, list := jobs.Keys, [];
      while left != {}
        invariant left <= jobs.Keys
        invariant forall n :: n in jobs && jobs[n].node == node && n !in left ==> jobs[n] in list
        invariant forall j :: j in list ==> j.node == node && j.name in jobs && jobs[j.name] == j
        decreases left
      {
        var n :| n in left;
        left := left - {n};
        if jobs[n].node == node {
          list := list + [jobs[n]];
        }
      }
      r := Ok(list);
      listings := listings + [list];
    }

    method DeleteJob(name: string) returns (r: Reply<()>)
      requires Valid()
      modifies this`jobs, this`deletions
      ensures Valid()
      ensures r.Ok? ==> name in old(jobs) && jobs == old(jobs) - {name}
      ensures !r.Ok? ==> jobs == old(jobs)
      ensures reliable && name in old(jobs) ==> r.Ok?
      ensures deletions == old(deletions) + [Deletion(name, if r.Ok? then old(Stored(name)) else None)]
    {
      var fails: bool := *;
      r := if fails && !reliable then Failure else if name !in jobs then NotFound else Ok(());
      deletions := deletions + [Deletion(name, if r.Ok? then Stored(name) else None)];
      if r.Ok? {
        jobs := jobs - {name};
      }
    }

    /** Creation fails if the name is taken. */
    method CreateJob(job: Job) returns (r: Reply<Job>)
      requires Valid()
      modifies this`jobs, this`created, this`uncreated
      ensures Valid()
      ensures r.Ok? ==> job.name !in old(jobs) && r.value == job
      ensures r.Ok? ==> jobs == old(jobs)[job.name := job] && created == old(created) + [job]
      ensures !r.Ok? ==> jobs == old(jobs) && created == old(created)
      ensures uncreated == old(uncreated) + if r.Ok? then [] else [job]
      ensures reliable && job.name !in old(jobs) ==> r.Ok?
    {
      var fails: bool := *;
      r := if fails && !reliable then Failure else if job.name in jobs then Conflict else Ok(job);
      if r.Ok? {
        jobs, created := jobs[job.name := job], created + [job];
      } else {
        uncreated := uncreated + [job];
      }
    }

    /** A job succeeds or fails, by the hand of the cluster. */
    method FinishJob(name: string, success: bool)
      requires Valid() && name in jobs
      modifies this`jobs
      ensures Valid() && name in jobs && jobs == old(jobs)[name := jobs[name]]
      ensures var before, after := old(jobs)[name], jobs[name];
              if success then after == before.(succeeded := before.succeeded + 1)
              else after == before.(failed := before.failed + 1)
    {
      var job := jobs[name];
      jobs := jobs[name := if success then job.(succeeded := job.succeeded + 1) else job.(failed := job.failed + 1)];
    }
  }
}
