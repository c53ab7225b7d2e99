/** The lease protocol as interleaved steps of any number of calls, other writers and the clock. */
module LeaseProtocol {
  import opened Objects
  import opened Lease

  // ---------------------------------------------------------------- commits

  datatype Writer =
    | Acquirer(operation: Value, owner: Value, stamp: int, timeout: int)
    | Releaser(owner: Value)
    | Forcer
    | Outsider

  /** One write that took effect: the object it replaced, the object it left, and when. */
  datatype Commit = Commit(call: nat, who: Writer, before: Option<Node>, after: Option<Node>, at: int)

  /** Nothing but the annotations (and the version) changed. */
  predicate OnlyAnnotations(before: Node, after: Node, annotations: map<Key, Value>) {
    before.version < after.version && after == before.(annotations := annotations, version := after.version)
  }

  /** What a commit of each kind of call is allowed to be. */
  predicate Legal(c: Commit) {
    match c.who
    case Acquirer(operation, owner, stamp, timeout) =>
      && c.before.Some? && c.after.Some? && stamp <= c.at
      && Free(c.before.value.annotations, c.at)
      && OnlyAnnotations(c.before.value, c.after.value,
                         Locked(c.before.value.annotations, operation, owner, stamp, timeout))
    case Releaser(owner) =>
      && c.before.Some? && c.after.Some?
      && Read(c.before.value.annotations, LockOwner) == owner
      && OnlyAnnotations(c.before.value, c.after.value, Cleared(c.before.value.annotations))
    case Forcer =>
      && c.before.Some? && c.after.Some?
      && OnlyAnnotations(c.before.value, c.after.value, Cleared(c.before.value.annotations))
    case Outsider => true
  }

  /** The commits form one history of one object, from `first` to `last`, along the clock. */
  ghost predicate History(log: seq<Commit>, first: Option<Node>, last: Option<Node>, now: int) {
    && (forall i :: 0 <= i < |log| ==> Legal(log[i]) && log[i].at <= now)
    && (forall i :: 0 <= i < |log| - 1 ==> log[i].after == log[i + 1].before)
    && (forall i, j :: 0 <= i < j < |log| ==> log[i].at <= log[j].at)
    && (if log == [] then first == last else log[0].before == first && log[|log| - 1].after == last)
  }

  function FieldsOfObject(o: Option<Node>): Option<Fields> {
    if o.None? then None else Some(FieldsOf(o.value.annotations))
  }

  /** A granted term is ended by a release, by force, or by an outsider touching the lock;
      another acquisition does not end it. */
  predicate Ends(c: Commit) {
    c.who.Releaser? || c.who.Forcer? || (c.who.Outsider? && FieldsOfObject(c.before) != FieldsOfObject(c.after))
  }

  predicate Named(w: Writer) {
    w.Acquirer? && w.operation != BLANK && w.owner != BLANK
  }

  function Term(w: Writer): Lock
    requires w.Acquirer?
  {
    Granted(w.operation, w.owner, w.stamp, w.timeout)
  }

  /** The term granted by commit `i` still holds: never ended and not expired. */
  ghost predicate Live(log: seq<Commit>, i: nat, now: int) {
    && i < |log| && log[i].who.Acquirer?
    && !IsLockExpired(Term(log[i].who), now)
    && forall j :: i < j < |log| ==> !Ends(log[j])
  }

  // A live term has not been acquired over: its four annotations are still in place.
  lemma {:induction false} LiveTermStays(log: seq<Commit>, first: Option<Node>, last: Option<Node>, now: int,
                                         i: nat, k: nat)
    requires History(log, first, last, now)
    requires Live(log, i, now) && Named(log[i].who) && i <= k < |log|
    ensures forall j :: i < j <= k ==> !log[j].who.Acquirer?
    ensures log[k].after.Some?
    ensures CheckLock(log[k].after.value.annotations) == Some(Term(log[i].who))
    decreases k
  {
    var w := log[i].who;
    assert Legal(log[i]) && Legal(log[k]);
    LockedReadsBack(log[i].before.value.annotations, w.operation, w.owner, w.stamp, w.timeout);
    if i < k {
      LiveTermStays(log, first, last, now, i, k - 1);
      assert log[k - 1].after == log[k].before;
      if log[k].who.Acquirer? {
        ExpiryIsForGood(Term(w), log[k].at, now);
        assert false;
      }
      assert !Ends(log[k]);
    }
  }

  /** Mutual exclusion: at most one granted term is live, whoever the owners are,
      and it is the one the stored annotations name. */
  lemma AtMostOneLive(log: seq<Commit>, first: Option<Node>, last: Option<Node>, now: int, i: nat, j: nat)
    requires History(log, first, last, now)
    requires Live(log, i, now) && Live(log, j, now) && Named(log[i].who) && Named(log[j].who)
    ensures i == j
    ensures last.Some? && CheckLock(last.value.annotations) == Some(Term(log[i].who))
  {
    LiveTermStays(log, first, last, now, i, |log| - 1);
    LiveTermStays(log, first, last, now, j, |log| - 1);
  }

  // ---------------------------------------------------------------- calls as processes

  const ATTEMPTS: nat := 5  // attempts of one retry loop

  datatype Request =
    | Acquire(operation: Value, owner: Value, timeout: int)
    | Release(owner: Value)
    | Force

  /** Where a call stands. `left` counts the attempts it still has. */
  datatype Pc =
    | Reading(req: Request, left: nat)
    | Holding(req: Request, left: nat, copy: Node)
    | Checked(req: Request, left: nat, copy: Node)
    | Drafted(req: Request, left: nat, copy: Node, draft: map<Key, Value>, who: Writer)
    | Finished(committed: bool)

  /** `asked` keeps what each call was made for. */
  datatype System = System(obj: Option<Node>, rev: nat, now: int, asked: map<nat, Request>, calls: map<nat, Pc>,
                           log: seq<Commit>)

  /** One atomic step; a step that is not enabled changes nothing. In `Others` time passes, other
      objects are written `skip` times, and possibly this object is written or deleted by someone else. */
  datatype Action =
    | Others(d: nat, skip: nat, write: Option<Option<Node>>)
    | Call(id: nat, req: Request, local: Node)
    | Get(id: nat)
    | GetFails(id: nat)
    | Check(id: nat)
    | Stamp(id: nat)
    | Update(id: nat)
    | UpdateFails(id: nat)

  function Store(s: System, call: nat, who: Writer, o: Option<Node>): System {
    s.(obj := o, rev := s.rev + 1, log := s.log + [Commit(call, who, s.obj, o, s.now)])
  }

  function Goto(s: System, id: nat, pc: Pc): System {
    s.(calls := s.calls[id := pc])
  }

  /** The decision a call takes on the copy it has just read. */
  function Decide(s: System, id: nat, pc: Pc): System
    requires pc.Holding?
  {
    var a := pc.copy.annotations;
    match pc.req
    case Acquire(_, _, _) =>
      if Free(a, s.now) then Goto(s, id, Checked(pc.req, pc.left, pc.copy)) else Goto(s, id, Finished(false))
    case Release(owner) =>
      if a == map[] || Read(a, LockOwner) != owner then Goto(s, id, Finished(false))
      else Goto(s, id, Drafted(pc.req, pc.left, pc.copy, Cleared(a), Releaser(owner)))
    case Force =>
      if a == map[] then Goto(s, id, Finished(false))
      else Goto(s, id, Drafted(pc.req, pc.left, pc.copy, Cleared(a), Forcer))
  }

  function Versioned(o: Option<Node>, version: nat): Option<Node> {
    if o.Some? then Some(o.value.(version := version)) else None
  }

  function Do(s: System, action: Action): System {
    match action
    case Others(d, skip, write) =>
      var later := s.(now := s.now + d, rev := s.rev + skip);
      if write.Some? then Store(later, 0, Outsider, Versioned(write.value, later.rev + 1)) else later
    case Call(id, req, local) =>
      if id in s.calls then s
      else
        var t := s.(asked := s.asked[id := req]);
        if req.Acquire? && !Free(local.annotations, s.now) then Goto(t, id, Finished(false))
        else Goto(t, id, Reading(req, ATTEMPTS))
    case Get(id) =>
      if id in s.calls && s.calls[id].Reading? then
        if s.obj.Some? then Goto(s, id, Holding(s.calls[id].req, s.calls[id].left, s.obj.value))
        else Goto(s, id, Finished(false))
      else s
    case GetFails(id) =>
      if id in s.calls && s.calls[id].Reading? then Goto(s, id, Finished(false)) else s
    case Check(id) =>
      if id in s.calls && s.calls[id].Holding? then Decide(s, id, s.calls[id]) else s
    case Stamp(id) =>
      if id in s.calls && s.calls[id].Checked? && s.calls[id].req.Acquire? then
        var pc := s.calls[id];
        var r := pc.req;
        Goto(s, id, Drafted(r, pc.left, pc.copy,
                            Locked(pc.copy.annotations, r.operation, r.owner, s.now, r.timeout),
                            Acquirer(r.operation, r.owner, s.now, r.timeout)))
      else s
    case Update(id) =>
      if id in s.calls && s.calls[id].Drafted? then
        var pc := s.calls[id];
        if s.obj.Some? && s.obj.value.version == pc.copy.version then
          var sent := pc.copy.(annotations := pc.draft);
          Goto(Store(s, id, pc.who, Some(MainWritten(s.obj.value, sent, s.rev + 1))), id, Finished(true))
        else if s.obj.Some? && pc.left > 1 then Goto(s, id, Reading(pc.req, pc.left - 1))
        else Goto(s, id, Finished(false))
      else s
    case UpdateFails(id) =>
      if id in s.calls && s.calls[id].Drafted? then Goto(s, id, Finished(false)) else s
  }

  /** A run is any list of steps, so any interleaving. */
  function Run(s: System, actions: seq<Action>): System {
    if actions == [] then s else Do(Run(s, actions[..|actions| - 1]), actions[|actions| - 1])
  }

  predicate Start(s: System) {
    s.calls == map[] && s.asked == map[] && s.log == [] && (s.obj.Some? ==> s.obj.value.version <= s.rev)
  }

  /** A copy is as old as its version says: if the stored object still has that version, it is that copy. */
  predicate Current(copy: Node, s: System) {
    copy.version <= s.rev && (s.obj.Some? && s.obj.value.version == copy.version ==> s.obj.value == copy)
  }

  /** The kind of a commit is the one that was asked for. */
  predicate Suits(who: Writer, req: Request) {
    match who
    case Acquirer(operation, owner, _, timeout) => req == Acquire(operation, owner, timeout)
    case Releaser(owner) => req == Release(owner)
    case Forcer => req == Force
    case Outsider => false
  }

  predicate CallInv(pc: Pc, s: System) {
    match pc
    case Holding(_, _, copy) => Current(copy, s)
    case Checked(_, _, copy) => Current(copy, s) && Free(copy.annotations, s.now)
    case Drafted(req, _, copy, draft, who) =>
      && Current(copy, s)
      && Suits(who, req)
      && (match who
          case Acquirer(operation, owner, stamp, timeout) =>
            stamp <= s.now && Free(copy.annotations, s.now)
            && draft == Locked(copy.annotations, operation, owner, stamp, timeout)
          case Releaser(owner) =>
            Read(copy.annotations, LockOwner) == owner && draft == Cleared(copy.annotations)
          case Forcer => draft == Cleared(copy.annotations)
          case Outsider => false)
    case _ => true
  }

  function CommitsOf(log: seq<Commit>, id: nat): nat {
    if log == [] then 0
    else CommitsOf(log[..|log| - 1], id)
         + (if log[|log| - 1].call == id && !log[|log| - 1].who.Outsider? then 1 else 0)
  }

  // How many commits a call has made is told by where it stands.
  predicate Counted(s: System, id: nat) {
    CommitsOf(s.log, id) == if id in s.calls && s.calls[id].Finished? && s.calls[id].committed then 1 else 0
  }

  ghost predicate Inv(s: System, first: Option<Node>) {
    && (s.obj.Some? ==> s.obj.value.version <= s.rev)
    && History(s.log, first, s.obj, s.now)
    && (forall id :: id in s.calls ==> CallInv(s.calls[id], s))
    && (forall id: nat :: Counted(s, id))
  }

  lemma StoreKeepsHistory(s: System, first: Option<Node>, call: nat, who: Writer, o: Option<Node>)
    requires History(s.log, first, s.obj, s.now) && Legal(Commit(call, who, s.obj, o, s.now))
    ensures History(Store(s, call, who, o).log, first, o, s.now)
    ensures forall id: nat ::
              CommitsOf(Store(s, call, who, o).log, id) ==
              CommitsOf(s.log, id) + if call == id && !who.Outsider? then 1 else 0
  {
  }

  // Versions are never reused, so a write cannot make an old copy look current.
  lemma StoreKeepsCall(pc: Pc, s: System, call: nat, who: Writer, o: Option<Node>)
    requires CallInv(pc, s) && (o.Some? ==> o.value.version == s.rev + 1)
    ensures CallInv(pc, Store(s, call, who, o))
  {
  }

  // The commit at the end of an attempt that met no conflict.
  lemma CommitKeepsInv(s: System, first: Option<Node>, id: nat)
    requires Inv(s, first) && id in s.calls && s.calls[id].Drafted?
    requires s.obj == Some(s.calls[id].copy)
    ensures Inv(Do(s, Update(id)), first)
  {
    var pc, t := s.calls[id], Do(s, Update(id));
    assert CallInv(pc, s) && Counted(s, id);
    assert Legal(Commit(id, pc.who, s.obj, t.obj, s.now));
    StoreKeepsHistory(s, first, id, pc.who, t.obj);
    forall k | k in t.calls
      ensures CallInv(t.calls[k], t)
    {
      if k != id {
        StoreKeepsCall(s.calls[k], s, id, pc.who, t.obj);
      }
    }
    forall k: nat
      ensures Counted(t, k)
    {
      assert Counted(s, k);
    }
  }

  /** A write that goes through replaces exactly the copy that was read. */
  lemma UpdateKeepsInv(s: System, first: Option<Node>, id: nat)
    requires Inv(s, first) && id in s.calls && s.calls[id].Drafted?
    ensures Inv(Do(s, Update(id)), first)
    ensures var t := Do(s, Update(id));
            t.log != s.log ==>
              && s.obj == Some(s.calls[id].copy) && t.obj.Some?
              && t.log == s.log + [Commit(id, s.calls[id].who, s.obj, t.obj, s.now)]
  {
    assert CallInv(s.calls[id], s);
    if s.obj.Some? && s.obj.value.version == s.calls[id].copy.version {
      CommitKeepsInv(s, first, id);
    } else {
      LocalStepKeepsInv(s, Do(s, Update(id)), first, id);
    }
  }

  // A step that moves one unfinished call and leaves the store alone.
  lemma LocalStepKeepsInv(s: System, t: System, first: Option<Node>, id: nat)
    requires Inv(s, first)
    requires id in t.calls && t == Goto(s.(asked := t.asked), id, t.calls[id]) && CallInv(t.calls[id], s)
    requires id in s.calls ==> !s.calls[id].Finished?
    requires t.calls[id].Finished? ==> !t.calls[id].committed
    ensures Inv(t, first)
  {
    forall k | k in t.calls
      ensures CallInv(t.calls[k], t)
    {
      if k != id {
        assert CallInv(s.calls[k], s);
      }
    }
    forall k: nat
      ensures Counted(t, k)
    {
      assert Counted(s, k);
    }
  }

  // Time passes and other objects are written.
  lemma WaitKeepsInv(s: System, first: Option<Node>, d: nat, skip: nat)
    requires Inv(s, first)
    ensures Inv(s.(now := s.now + d, rev := s.rev + skip), first)
  {
    var t := s.(now := s.now + d, rev := s.rev + skip);
    forall k | k in t.calls
      ensures CallInv(t.calls[k], t)
    {
      assert CallInv(s.calls[k], s);
    }
    forall k: nat
      ensures Counted(t, k)
    {
      assert Counted(s, k);
    }
  }

  // Somebody else writes or removes the object.
  lemma WriteKeepsInv(s: System, first: Option<Node>, o: Option<Node>)
    requires Inv(s, first) && (o.Some? ==> o.value.version == s.rev + 1)
    ensures Inv(Store(s, 0, Outsider, o), first)
  {
    var t := Store(s, 0, Outsider, o);
    StoreKeepsHistory(s, first, 0, Outsider, o);
    forall k | k in t.calls
      ensures CallInv(t.calls[k], t)
    {
      StoreKeepsCall(s.calls[k], s, 0, Outsider, o);
    }
    forall k: nat
      ensures Counted(t, k)
    {
      assert Counted(s, k);
    }
  }

  lemma OthersKeepInv(s: System, first: Option<Node>, action: Action)
    requires Inv(s, first) && action.Others?
    ensures Inv(Do(s, action), first)
  {
    var later := s.(now := s.now + action.d, rev := s.rev + action.skip);
    WaitKeepsInv(s, first, action.d, action.skip);
    if action.write.Some? {
      var o := Versioned(action.write.value, later.rev + 1);
      WriteKeepsInv(later, first, o);
      assert Do(s, action) == Store(later, 0, Outsider, o);
    } else {
      assert Do(s, action) == later;
    }
  }

  lemma StepKeepsInv(s: System, first: Option<Node>, action: Action)
    requires Inv(s, first)
    ensures Inv(Do(s, action), first)
  {
    var t := Do(s, action);
    match action
    case Others(_, _, _) => OthersKeepInv(s, first, action);
    case Call(id, _, _) => if t != s { LocalStepKeepsInv(s, t, first, id); }
    case Update(id) => if t != s { UpdateKeepsInv(s, first, id); }
    case Get(id) => if t != s { LocalStepKeepsInv(s, t, first, id); }
    case GetFails(id) => if t != s { LocalStepKeepsInv(s, t, first, id); }
    case UpdateFails(id) => if t != s { LocalStepKeepsInv(s, t, first, id); }
    case Check(id) => if t != s { DecisionKeepsInv(s, first, id); }
    case Stamp(id) => if t != s { assert CallInv(s.calls[id], s); LocalStepKeepsInv(s, t, first, id); }
  }

  lemma DecisionIsSound(s: System, id: nat, pc: Pc)
    requires pc.Holding? && CallInv(pc, s)
    ensures var t := Decide(s, id, pc);
            && id in t.calls && t == Goto(s, id, t.calls[id]) && CallInv(t.calls[id], s)
            && (t.calls[id].Finished? ==> !t.calls[id].committed)
  {
  }

  lemma DecisionKeepsInv(s: System, first: Option<Node>, id: nat)
    requires Inv(s, first) && id in s.calls && s.calls[id].Holding?
    ensures Inv(Do(s, Check(id)), first)
  {
    DecisionIsSound(s, id, s.calls[id]);
    LocalStepKeepsInv(s, Decide(s, id, s.calls[id]), first, id);
  }

  lemma {:induction false} RunKeepsInv(s: System, actions: seq<Action>)
    requires Start(s)
    ensures Inv(Run(s, actions), s.obj)
  {
    if actions != [] {
      RunKeepsInv(s, actions[..|actions| - 1]);
      StepKeepsInv(Run(s, actions[..|actions| - 1]), s.obj, actions[|actions| - 1]);
    }
  }

  // The commit that a successful update has just made.
  lemma LastIsLegal(s: System, actions: seq<Action>)
    requires Start(s) && Run(s, actions).log != []
    ensures var log := Run(s, actions).log; Legal(log[|log| - 1])
  {
    RunKeepsInv(s, actions);
  }

  // ---------------------------------------------------------------- commits and requests

  predicate PcSuits(pc: Pc, req: Request) {
    match pc
    case Reading(r, _) => r == req
    case Holding(r, _, _) => r == req
    case Checked(r, _, _) => r == req
    case Drafted(r, _, _, _, who) => r == req && Suits(who, r)
    case Finished(_) => true
  }

  /** Calls go about what they were asked for, and so do the commits they have made. */
  ghost predicate AsAsked(s: System) {
    && (forall id :: id in s.calls ==> id in s.asked && PcSuits(s.calls[id], s.asked[id]))
    && (forall id :: id in s.asked ==> id in s.calls)
    && (forall k :: 0 <= k < |s.log| && !s.log[k].who.Outsider? ==>
          s.log[k].call in s.asked && Suits(s.log[k].who, s.asked[s.log[k].call]))
  }

  lemma MoveKeepsAsAsked(s: System, id: nat, pc: Pc)
    requires AsAsked(s) && id in s.asked && PcSuits(pc, s.asked[id])
    ensures AsAsked(Goto(s, id, pc))
  {
  }

  lemma StoreKeepsAsAsked(s: System, call: nat, who: Writer, o: Option<Node>)
    requires AsAsked(s) && (who.Outsider? || (call in s.asked && Suits(who, s.asked[call])))
    ensures AsAsked(Store(s, call, who, o))
  {
  }

  lemma CallKeepsAsAsked(s: System, id: nat, req: Request, local: Node)
    requires AsAsked(s)
    ensures AsAsked(Do(s, Call(id, req, local)))
  {
  }

  lemma UpdateKeepsAsAsked(s: System, id: nat)
    requires AsAsked(s) && id in s.calls && s.calls[id].Drafted?
    ensures AsAsked(Do(s, Update(id)))
  {
  }

  lemma StepKeepsAsAsked(s: System, action: Action)
    requires AsAsked(s)
    ensures AsAsked(Do(s, action))
  {
    var t := Do(s, action);
    match action
    case Others(d, skip, write) =>
      if write.Some? {
        var later := s.(now := s.now + d, rev := s.rev + skip);
        StoreKeepsAsAsked(later, 0, Outsider, Versioned(write.value, later.rev + 1));
      }
    case Call(id, req, local) => CallKeepsAsAsked(s, id, req, local);
    case Update(id) => if t != s { UpdateKeepsAsAsked(s, id); }
    case Get(id) => if t != s { MoveKeepsAsAsked(s, id, t.calls[id]); }
    case GetFails(id) => if t != s { MoveKeepsAsAsked(s, id, t.calls[id]); }
    case Check(id) => if t != s { MoveKeepsAsAsked(s, id, t.calls[id]); }
    case Stamp(id) => if t != s { MoveKeepsAsAsked(s, id, t.calls[id]); }
    case UpdateFails(id) => if t != s { MoveKeepsAsAsked(s, id, t.calls[id]); }
  }

  lemma {:induction false} RunKeepsAsAsked(s: System, actions: seq<Action>)
    requires Start(s)
    ensures AsAsked(Run(s, actions))
  {
    if actions != [] {
      RunKeepsAsAsked(s, actions[..|actions| - 1]);
      StepKeepsAsAsked(Run(s, actions[..|actions| - 1]), actions[|actions| - 1]);
    }
  }

  // ---------------------------------------------------------------- results over all runs

  /** After any interleaving: two live terms are the same term, and the stored annotations name it. */
  lemma MutualExclusion(s: System, actions: seq<Action>, i: nat, j: nat)
    requires Start(s)
    requires var t := Run(s, actions); Live(t.log, i, t.now) && Live(t.log, j, t.now)
    requires var t := Run(s, actions); Named(t.log[i].who) && Named(t.log[j].who)
    ensures i == j
    ensures var t := Run(s, actions);
            t.obj.Some? && CheckLock(t.obj.value.annotations) == Some(Term(t.log[i].who))
  {
    var t := Run(s, actions);
    RunKeepsInv(s, actions);
    AtMostOneLive(t.log, s.obj, t.obj, t.now, i, j);
  }

  /** After any interleaving: every commit of a call is what its kind allows (in particular an acquisition
      replaced no live lock, and a release removed no other owner's lock) and of the kind, for the names and
      timeout, that the call was made for; and a call has committed once if it finished so and not at all
      otherwise. */
  lemma AllOrNothing(s: System, actions: seq<Action>, id: nat)
    requires Start(s)
    ensures var t := Run(s, actions);
            && (forall k :: 0 <= k < |t.log| ==> Legal(t.log[k]))
            && (forall k :: 0 <= k < |t.log| && t.log[k].call == id && !t.log[k].who.Outsider? ==>
                  id in t.asked && Suits(t.log[k].who, t.asked[id]))
            && CommitsOf(t.log, id) ==
               if id in t.calls && t.calls[id].Finished? && t.calls[id].committed then 1 else 0
  {
    RunKeepsInv(s, actions);
    RunKeepsAsAsked(s, actions);
    assert Counted(Run(s, actions), id);
  }
}
