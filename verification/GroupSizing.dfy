/** Sizing of node groups: target size, increase by one node, and oldest-first decrease. */
module GroupSizing {
  import opened Objects
  import opened ApiServers
  import opened Registries

  newtype int32 = x: int | -0x8000_0000 <= x < 0x8000_0000

  const MAX_NODES := 0x8000_0000  // lists of this length or longer would overflow a 32-bit count

  datatype Sized<+T> = Size(value: T) | InvalidArgument | FailedPrecondition | Internal

  predicate InGroup(node: Node, id: string) {
    node.group == Some(id)
  }

  predicate CountsTowardTarget(node: Node) {
    node.status.progress != ProgressShuttingDown && node.status.progress != ProgressShutdown
  }

  predicate IsPoweredOn(node: Node) {
    node.spec.desired == PowerOn && node.status.power == PowerOn && node.status.progress == ProgressReady
  }

  predicate IsStartingUp(node: Node) {
    node.spec.desired == PowerOn && node.status.power == PowerOff && node.status.progress == ProgressStartingUp
  }

  predicate IsEligible(node: Node) {
    node.spec.desired == PowerOff && node.status.power == PowerOff && node.status.progress == ProgressShutdown
  }

  // ---------------------------------------------------------------- the order of starting nodes

  /** The comparator of the sort: earlier startup first, a missing time last. */
  predicate Older(a: Node, b: Node) {
    if a.status.lastStartup.None? then false
    else if b.status.lastStartup.None? then true
    else a.status.lastStartup.value < b.status.lastStartup.value
  }

  predicate Tied(a: Node, b: Node) {
    !Older(a, b) && !Older(b, a)
  }

  /** The comparator is a strict weak order: what sorting needs, with ties being an equivalence. */
  lemma OlderIsStrictWeakOrder(a: Node, b: Node, c: Node)
    ensures !Older(a, a)
    ensures Older(a, b) && Older(b, c) ==> Older(a, c)
    ensures Tied(a, b) && Tied(b, c) ==> Tied(a, c)
    ensures Older(a, b) && Tied(b, c) ==> Older(a, c)
  {
  }

  /** The start of `a` is recorded and no later than that of `b`, unless `b` has none. */
  predicate StartedNoLater(a: Node, b: Node) {
    b.status.lastStartup.Some? ==>
      a.status.lastStartup.Some? && a.status.lastStartup.value <= b.status.lastStartup.value
  }

  ghost predicate OldestFirst(nodes: seq<Node>) {
    forall i, j :: 0 <= i < j < |nodes| ==> StartedNoLater(nodes[i], nodes[j])
  }

  /** Some sort by that comparator; callers rely on the contract only, which leaves ties open. */
  method SortOldestFirst(nodes: seq<Node>) returns (sorted: seq<Node>)
    ensures OldestFirst(sorted) && multiset(sorted) == multiset(nodes)
  {
    sorted := [];
    for i := 0 to |nodes|
      invariant OldestFirst(sorted) && multiset(sorted) == multiset(nodes[..i])
    {
      sorted := Insert(nodes[i], sorted);
      assert nodes[..i + 1] == nodes[..i] + [nodes[i]];
    }
    assert nodes[..|nodes|] == nodes;
  }

  method Insert(node: Node, sorted: seq<Node>) returns (longer: seq<Node>)
    requires OldestFirst(sorted)
    ensures OldestFirst(longer) && multiset(longer) == multiset(sorted) + multiset{node}
  {
    var i := 0;
    while i < |sorted| && !Older(node, sorted[i])
      invariant i <= |sorted|
      invariant forall k :: 0 <= k < i ==> StartedNoLater(sorted[k], node)
    {
      i := i + 1;
    }
    longer := sorted[..i] + [node] + sorted[i..];
    assert sorted == sorted[..i] + sorted[i..];
  }

  // ---------------------------------------------------------------- arithmetic of a decrease

  /** How many starting nodes a decrease by `delta` shuts down. */
  function ShutdownCount(on: nat, starting: nat, delta: int): nat {
    var desired := if on + delta < 0 then 0 else on + delta;
    if starting - desired < 0 then 0 else starting - desired
  }

  /** The autoscaler asks for a decrease by `-delta`. The count is that number exactly when there are as many
      starting nodes as ready ones and enough ready ones, or when all of the starting nodes are asked for
      and that exceeds the ready ones. */
  lemma WhenDecreaseIsAsAsked(on: nat, starting: nat, delta: int)
    requires delta < 0
    ensures ShutdownCount(on, starting, delta) == -delta <==>
            if on + delta >= 0 then starting == on else starting == -delta
  {
  }

  // ---------------------------------------------------------------- listings and filters

  /** The names of the stored nodes of a group that satisfy `pick`. */
  ghost function Members(nodes: map<string, Node>, id: string, pick: Node -> bool): set<string> {
    set n | n in nodes && InGroup(nodes[n], id) && pick(nodes[n])
  }

  // The names in a list of nodes.
  ghost function Names(list: seq<Node>): set<string> {
    set i | 0 <= i < |list| :: list[i].name
  }

  ghost predicate Distinct(list: seq<Node>) {
    forall i, j :: 0 <= i < j < |list| ==> list[i].name != list[j].name
  }

  lemma {:induction false} CountNames(list: seq<Node>)
    requires Distinct(list)
    ensures |Names(list)| == |list|
  {
    if list != [] {
      var front, last := list[..|list| - 1], list[|list| - 1];
      CountNames(front);
      assert Names(list) == Names(front) + {last.name};
    }
  }

  // The nodes that satisfy `pick`, in order.
  ghost function Filter(list: seq<Node>, pick: Node -> bool): seq<Node> {
    if list == [] then []
    else
      var last := list[|list| - 1];
      Filter(list[..|list| - 1], pick) + if pick(last) then [last] else []
  }

  lemma {:induction false} FilterKeeps(list: seq<Node>, pick: Node -> bool)
    ensures |Filter(list, pick)| <= |list|
    ensures forall n :: n in Filter(list, pick) ==> n in list && pick(n)
    ensures Distinct(list) ==> Distinct(Filter(list, pick))
  {
    if list != [] {
      var front, last := list[..|list| - 1], list[|list| - 1];
      assert list == front + [last];
      FilterKeeps(front, pick);
      if Distinct(list) && pick(last) {
        forall n | n in front
          ensures n.name != last.name
        {
          var i :| 0 <= i < |front| && front[i] == n;
          assert list[i] == n;
        }
      }
    }
  }

  lemma {:induction false} FilterHas(list: seq<Node>, pick: Node -> bool, node: Node)
    requires node in list && pick(node)
    ensures node in Filter(list, pick)
  {
    var front, last := list[..|list| - 1], list[|list| - 1];
    assert list == front + [last];
    if node != last {
      FilterHas(front, pick, node);
    }
  }

  /** Filtering a listing of the group picks exactly the stored nodes of the group that qualify. */
  lemma FilterCounts(nodes: map<string, Node>, list: seq<Node>, id: string, pick: Node -> bool)
    requires IsListing(nodes, list, Some(id)) && forall n :: n in nodes ==> nodes[n].name == n
    ensures Distinct(Filter(list, pick)) && |Filter(list, pick)| <= |list|
    ensures Names(Filter(list, pick)) == Members(nodes, id, pick)
    ensures |Names(Filter(list, pick))| == |Filter(list, pick)|
    ensures forall n :: n in Filter(list, pick) ==>
              n.name in nodes && nodes[n.name] == n && InGroup(n, id) && pick(n)
  {
    var picked := Filter(list, pick);
    FilterKeeps(list, pick);
    CountNames(picked);
    forall n | n in picked
      ensures n.name in nodes && nodes[n.name] == n && InGroup(n, id) && pick(n)
    {
      var i :| 0 <= i < |list| && list[i] == n;
      assert Selected(list[i], Some(id));
    }
    forall n | n in nodes && InGroup(nodes[n], id) && pick(nodes[n])
      ensures n in Names(picked)
    {
      var node := nodes[n];
      FilterHas(list, pick, node);
      var i :| 0 <= i < |picked| && picked[i] == node;
    }
  }

  lemma MemberOfBoth(a: seq<Node>, b: seq<Node>, node: Node)
    requires multiset(a) == multiset(b) && node in a
    ensures node in b
  {
    assert node in multiset(a);
  }

  lemma PermutedNames(a: seq<Node>, b: seq<Node>)
    requires multiset(a) == multiset(b)
    ensures Names(a) <= Names(b)
  {
    forall n | n in Names(a)
      ensures n in Names(b)
    {
      var i :| 0 <= i < |a| && a[i].name == n;
      MemberOfBoth(a, b, a[i]);
      var j :| 0 <= j < |b| && b[j] == a[i];
      assert b[j].name == n;
    }
  }

  lemma PermutedDistinct(a: seq<Node>, b: seq<Node>, i: nat, j: nat)
    requires multiset(a) == multiset(b) && Distinct(b) && i < j < |a|
    ensures a[i].name != a[j].name
  {
    MemberOfBoth(a, b, a[i]);
    MemberOfBoth(a, b, a[j]);
    var p :| 0 <= p < |b| && b[p] == a[i];
    var q :| 0 <= q < |b| && b[q] == a[j];
    DistinctOccurOnce(b, p);
    assert a == a[..i] + [a[i]] + a[i + 1..j] + [a[j]] + a[j + 1..];
    assert a[i] != a[j] && p != q;
  }

  lemma SortingKeepsNames(nodes: seq<Node>, sorted: seq<Node>)
    requires multiset(sorted) == multiset(nodes) && Distinct(nodes)
    ensures |sorted| == |nodes| && Names(sorted) == Names(nodes) && Distinct(sorted)
    ensures forall n :: n in sorted ==> n in nodes
  {
    assert |multiset(sorted)| == |multiset(nodes)|;
    PermutedNames(sorted, nodes);
    PermutedNames(nodes, sorted);
    forall n | n in sorted
      ensures n in nodes
    {
      MemberOfBoth(sorted, nodes, n);
    }
    forall i, j | 0 <= i < j < |sorted|
      ensures sorted[i].name != sorted[j].name
    {
      PermutedDistinct(sorted, nodes, i, j);
    }
  }

  lemma DistinctOccurOnce(nodes: seq<Node>, p: nat)
    requires Distinct(nodes) && p < |nodes|
    ensures multiset(nodes)[nodes[p]] == 1
  {
    assert nodes == nodes[..p] + [nodes[p]] + nodes[p + 1..];
    assert nodes[p] !in nodes[..p] && nodes[p] !in nodes[p + 1..];
  }

  // ---------------------------------------------------------------- what a decrease does to the nodes

  /** Desired off and shutting down; nothing else has changed. */
  predicate Marked(before: Node, after: Node) {
    after == before.(version := after.version, spec := before.spec.(desired := PowerOff),
                     status := before.status.(progress := ProgressShuttingDown))
  }

  predicate HalfMarked(before: Node, after: Node) {
    after == before.(version := after.version, spec := before.spec.(desired := PowerOff))
  }

  /** The first `done` nodes of `order` are marked, the next one is half marked if `half` says so,
      and no other node has changed. */
  ghost predicate Applied(before: map<string, Node>, after: map<string, Node>, order: seq<Node>, done: nat, half: bool)
    requires done <= |order|
  {
    && after.Keys == before.Keys && (half ==> done < |order|)
    && (forall i :: 0 <= i < |order| ==> order[i].name in before && before[order[i].name] == order[i])
    && (forall i :: 0 <= i < done ==> Marked(order[i], after[order[i].name]))
    && (half ==> HalfMarked(order[done], after[order[done].name]))
    && (forall n :: n in before && n !in Names(order[..done]) && (half ==> n != order[done].name) ==>
          after[n] == before[n])
  }

  lemma AppliedOneMore(before: map<string, Node>, mid: map<string, Node>, after: map<string, Node>,
                       order: seq<Node>, i: nat, done: nat, half: bool)
    requires i < |order| && Applied(before, mid, order, i, false) && Distinct(order) && after.Keys == mid.Keys
    requires forall n :: n in mid && n != order[i].name ==> after[n] == mid[n]
    requires (done == i + 1 && !half && Marked(order[i], after[order[i].name]))
             || (done == i && if half then HalfMarked(order[i], after[order[i].name])
                              else after[order[i].name] == order[i])
    ensures Applied(before, after, order, done, half)
  {
  }

  // One node before and after: it stops counting exactly if it was marked in full.
  lemma CountsAfter(before: map<string, Node>, after: map<string, Node>, order: seq<Node>,
                    done: nat, half: bool, id: string, n: string)
    requires done <= |order| && Distinct(order) && Applied(before, after, order, done, half) && n in before
    requires Names(order) == Members(before, id, IsStartingUp)
    ensures n in Names(order[..done]) ==> n in Members(before, id, CountsTowardTarget)
    ensures n in Members(after, id, CountsTowardTarget) <==>
            n in Members(before, id, CountsTowardTarget) && n !in Names(order[..done])
  {
    if n in Names(order[..done]) {
      var i :| 0 <= i < done && order[..done][i].name == n;
      assert Marked(order[i], after[n]);
      assert order[i].name in Names(order);
    } else if half && n == order[done].name {
      assert HalfMarked(order[done], after[n]);
    }
  }

  /** The target size drops by exactly the nodes that were marked in full. */
  lemma TargetDropsByMarked(before: map<string, Node>, after: map<string, Node>, order: seq<Node>,
                            done: nat, half: bool, id: string)
    requires done <= |order| && Distinct(order) && Applied(before, after, order, done, half)
    requires Names(order) == Members(before, id, IsStartingUp)
    ensures |Members(after, id, CountsTowardTarget)| == |Members(before, id, CountsTowardTarget)| - done
  {
    var gone, old' := Names(order[..done]), Members(before, id, CountsTowardTarget);
    forall n | n in before
      ensures n in gone ==> n in old'
      ensures n in Members(after, id, CountsTowardTarget) <==> n in old' && n !in gone
    {
      CountsAfter(before, after, order, done, half, id, n);
    }
    CountNames(order[..done]);
    assert gone <= before.Keys;
    assert old' == Members(after, id, CountsTowardTarget) + gone;
  }

  /** Of the nodes that were starting, every one that was marked in full started no later than any one that was not,
      nodes without a recorded start last. */
  ghost predicate OldestMarked(before: map<string, Node>, after: map<string, Node>, starting: set<string>) {
    forall m, n :: m in starting && n in starting && m in before && n in before && m in after && n in after
                   && after[m].status.progress == ProgressShuttingDown
                   && after[n].status.progress == ProgressStartingUp ==>
                     StartedNoLater(before[m], before[n])
  }

  lemma RestIsUnmarked(before: map<string, Node>, after: map<string, Node>, order: seq<Node>,
                       done: nat, half: bool, i: nat)
    requires done <= i < |order| && Distinct(order) && Applied(before, after, order, done, half)
    ensures order[i].name in after && after[order[i].name].status == order[i].status
  {
    if half && i == done {
      assert HalfMarked(order[done], after[order[done].name]);
    } else {
      assert order[i].name !in Names(order[..done]);
    }
  }

  lemma FrontIsOldest(before: map<string, Node>, after: map<string, Node>, order: seq<Node>,
                      done: nat, half: bool, id: string)
    requires done <= |order| && Distinct(order) && Applied(before, after, order, done, half) && OldestFirst(order)
    requires Names(order) == Members(before, id, IsStartingUp)
    ensures OldestMarked(before, after, Members(before, id, IsStartingUp))
  {
    forall m, n | m in Names(order) && n in Names(order) && m in after && n in after
                  && after[m].status.progress == ProgressShuttingDown
                  && after[n].status.progress == ProgressStartingUp
      ensures StartedNoLater(before[m], before[n])
    {
      var i :| 0 <= i < |order| && order[i].name == m;
      var j :| 0 <= j < |order| && order[j].name == n;
      assert m in Members(before, id, IsStartingUp);
      assert j < done ==> Marked(order[j], after[order[j].name]);
      if i >= done {
        RestIsUnmarked(before, after, order, done, half, i);
      }
    }
  }

  /** The chosen nodes are desired on; nothing else has changed. */
  ghost predicate TurnedOn(before: map<string, Node>, after: map<string, Node>, chosen: set<string>) {
    && after.Keys == before.Keys
    && forall n :: n in before ==>
         after[n] == if n !in chosen then before[n]
                     else before[n].(version := after[n].version, spec := before[n].spec.(desired := PowerOn))
  }

  lemma OneMoreTurnedOn(before: map<string, Node>, mid: map<string, Node>, after: map<string, Node>,
                        chosen: set<string>, name: string)
    requires TurnedOn(before, mid, chosen) && TurnedOn(mid, after, {name})
    ensures TurnedOn(before, after, chosen + {name})
  {
  }

  /** The named nodes are desired off; nothing else has changed. */
  ghost predicate TurnedOff(before: map<string, Node>, after: map<string, Node>, names: seq<string>) {
    && after.Keys == before.Keys
    && forall n :: n in before ==>
         after[n] == if n !in names then before[n]
                     else before[n].(version := after[n].version, spec := before[n].spec.(desired := PowerOff))
  }

  lemma OneMoreChosen(all: set<string>, chosen: set<string>, name: string)
    requires chosen <= all && name in all - chosen
    ensures chosen + {name} <= all && |chosen + {name}| == |chosen| + 1
    ensures all - (chosen + {name}) == all - chosen - {name}
  {
  }

  lemma {:induction false} FewerThan(part: set<string>, whole: set<string>)
    requires part <= whole
    ensures |part| <= |whole| && (|part| == |whole| ==> part == whole)
  {
    if n :| n in whole {
      FewerThan(part - {n}, whole - {n});
    }
  }

  class GroupServer {
    const registry: Registry

    constructor (registry: Registry)
      ensures this.registry == registry
    {
      this.registry := registry;
    }

    /** The names of the nodes that count toward the target size of a group. */
    ghost function Target(id: string): set<string>
      reads registry
    {
      Members(registry.nodes, id, CountsTowardTarget)
    }

    ghost function Starting(id: string): set<string>
      reads registry
    {
      Members(registry.nodes, id, IsStartingUp)
    }

    ghost function PoweredOn(id: string): set<string>
      reads registry
    {
      Members(registry.nodes, id, IsPoweredOn)
    }

    ghost function Eligible(id: string): set<string>
      reads registry
    {
      Members(registry.nodes, id, IsEligible)
    }

    method NodeGroupTargetSize(id: string) returns (r: Sized<int32>)
      requires registry.Valid() && |registry.nodes| < MAX_NODES
      modifies registry`unlisted
      ensures r.Size? ==> r.value as int == |Target(id)|
      ensures r.Size? <==> registry.unlisted == old(registry.unlisted)
      ensures r.Size? || r.Internal?
      ensures registry.reliable ==> r.Size?
    {
      var listed := registry.List(Some(id));
      if !listed.Ok? {
        return Internal;
      }
      var targetSize := CountTarget(listed.value);
      FilterCounts(registry.nodes, listed.value, id, CountsTowardTarget);
      r := Size(targetSize);
    }

    // The loop over a listing.
    method CountTarget(list: seq<Node>) returns (targetSize: int32)
      requires |list| < MAX_NODES
      ensures targetSize as int == |Filter(list, CountsTowardTarget)|
    {
      targetSize := 0;
      for i := 0 to |list|
        invariant targetSize as int == |Filter(list[..i], CountsTowardTarget)| <= i
      {
        if list[i].status.progress != ProgressShuttingDown && list[i].status.progress != ProgressShutdown {
          targetSize := targetSize + 1;
        }
        assert list[..i + 1][..i] == list[..i];
      }
      assert list[..|list|] == list;
    }

    /** Turns on one node that was off, off and shut down, whatever the delta; nothing else changes. Once no
        such node is left the call fails and nothing changes at all. */
    method NodeGroupIncreaseSize(id: string, delta: int32) returns (r: Sized<string>)
      requires registry.Valid()
      modifies registry`nodes, registry`rev, registry`refused, registry`unlisted
      ensures registry.Valid()
      ensures delta <= 0 ==> r == InvalidArgument
      ensures r.Size? ==>
                && r.value in old(Eligible(id)) && Eligible(id) == old(Eligible(id)) - {r.value}
                && TurnedOn(old(registry.nodes), registry.nodes, {r.value})
      ensures !r.Size? ==> registry.nodes == old(registry.nodes)
      ensures r == Internal ==>
                registry.unlisted > old(registry.unlisted) || |registry.refused| > |old(registry.refused)|
      ensures r == FailedPrecondition ==> Eligible(id) == {}
      ensures registry.reliable && delta > 0 ==> r == FailedPrecondition || r.Size?
      ensures registry.reliable && delta > 0 && old(Eligible(id)) != {} ==> r.Size?
    {
      if delta <= 0 {
        return InvalidArgument;
      }
      var listed := registry.List(Some(id));
      if !listed.Ok? {
        return Internal;
      }
      var list := listed.value;
      var i := 0;
      while i < |list| && !(list[i].spec.desired == PowerOff && list[i].status.power == PowerOff
                            && list[i].status.progress == ProgressShutdown)
        invariant i <= |list|
        invariant forall k :: 0 <= k < i ==> !IsEligible(list[k])
      {
        i := i + 1;
      }
      if i == |list| {
        return FailedPrecondition;
      }
      var node := list[i];
      var put := registry.Update(node.(spec := node.spec.(desired := PowerOn)));
      r := if put.Ok? then Size(node.name) else Internal;
    }

    /** Repeated increases with nobody else writing: every call turns on another node that was off, off and shut
        down, until there are none left; the first call after that fails, and nothing else ever changes. */
    method IncreaseRepeatedly(id: string, delta: int32, calls: nat) returns (ghost chosen: set<string>, failed: bool)
      requires registry.Valid() && registry.reliable && delta > 0
      modifies registry`nodes, registry`rev, registry`refused, registry`unlisted
      ensures registry.Valid() && registry.nodes.Keys == old(registry.nodes).Keys
      ensures chosen <= old(Eligible(id)) && Eligible(id) == old(Eligible(id)) - chosen
      ensures |chosen| == if calls < |old(Eligible(id))| then calls else |old(Eligible(id))|
      ensures failed <==> calls > |old(Eligible(id))|
      ensures TurnedOn(old(registry.nodes), registry.nodes, chosen)
    {
      ghost var all := Eligible(id);
      chosen, failed := {}, false;
      var i := 0;
      while i < calls && !failed
        invariant i <= calls && registry.Valid() && TurnedOn(old(registry.nodes), registry.nodes, chosen)
        invariant chosen <= all && Eligible(id) == all - chosen
        invariant |chosen| == if failed then i - 1 else i
        invariant failed ==> all - chosen == {}
      {
        chosen, failed := IncreaseOnce(id, delta, chosen, old(registry.nodes), all);
        i := i + 1;
      }
      assert failed ==> all == chosen + (all - chosen);
      FewerThan(chosen, all);
    }

    // One of a number of increases, after those that have turned on `chosen`.
    method IncreaseOnce(id: string, delta: int32, ghost chosen: set<string>, ghost before: map<string, Node>,
                        ghost all: set<string>)
      returns (ghost more: set<string>, failed: bool)
      requires registry.Valid() && registry.reliable && delta > 0
      requires TurnedOn(before, registry.nodes, chosen) && chosen <= all && Eligible(id) == all - chosen
      modifies registry`nodes, registry`rev, registry`refused, registry`unlisted
      ensures registry.Valid() && TurnedOn(before, registry.nodes, more)
      ensures more <= all && Eligible(id) == all - more
      ensures if failed then more == chosen && all - chosen == {} else |more| == |chosen| + 1
    {
      var r := NodeGroupIncreaseSize(id, delta);
      more, failed := chosen, !r.Size?;
      if r.Size? {
        more := chosen + {r.value};
        OneMoreTurnedOn(before, old(registry.nodes), registry.nodes, chosen, r.value);
        OneMoreChosen(all, chosen, r.value);
      }
    }

    // The last request that was refused was about that node, and it was a new one.
    ghost predicate LastRefused(before: seq<string>, name: string)
      reads registry
    {
      |registry.refused| > |before| && registry.refused[|registry.refused| - 1] == name
    }

    /** Deletion asks for the nodes by name, whatever group they are in: on success all of them are desired
        off, on a failure those before it in the list; nothing else changes. */
    method NodeGroupDeleteNodes(names: seq<string>) returns (r: Sized<()>, ghost done: nat)
      requires registry.Valid()
      modifies registry`nodes, registry`rev, registry`refused
      ensures registry.Valid() && registry.nodes.Keys == old(registry.nodes).Keys
      ensures done <= |names| && (r.Size? <==> done == |names|) && (r.Size? || r.Internal?)
      ensures registry.reliable ==> (r.Size? <==> forall n :: n in names ==> n in registry.nodes)
      ensures r.Internal? ==>
                && done < |names|
                && (names[done] !in registry.nodes || LastRefused(old(registry.refused), names[done]))
      ensures TurnedOff(old(registry.nodes), registry.nodes, names[..done])
    {
      done := 0;
      for i := 0 to |names|
        invariant done == i && registry.Valid() && TurnedOff(old(registry.nodes), registry.nodes, names[..i])
        invariant forall n :: n in names[..i] ==> n in registry.nodes
        invariant |registry.refused| >= |old(registry.refused)|
      {
        var ok := DesireOff(names[i]);
        if !ok {
          return Internal, done;
        }
        assert names[..i + 1] == names[..i] + [names[i]];
        done := i + 1;
      }
      r := Size(());
    }

    // One turn of a deletion.
    method DesireOff(name: string) returns (ok: bool)
      requires registry.Valid()
      modifies registry`nodes, registry`rev, registry`refused
      ensures registry.Valid() && |registry.refused| >= |old(registry.refused)|
      ensures if ok then TurnedOff(old(registry.nodes), registry.nodes, [name])
              else registry.nodes == old(registry.nodes)
      ensures ok ==> name in registry.nodes
      ensures !ok ==> name !in registry.nodes || LastRefused(old(registry.refused), name)
      ensures registry.reliable && name in old(registry.nodes) ==> ok
    {
      var got := registry.Get(name);
      if !got.Ok? {
        return false;
      }
      var node := got.value;
      node := node.(spec := node.spec.(desired := PowerOff));
      var put := registry.Update(node);
      ok := put.Ok?;
    }

    // Splits a listing into ready and starting nodes.
    method Partition(list: seq<Node>) returns (on: seq<Node>, starting: seq<Node>)
      ensures on == Filter(list, IsPoweredOn) && starting == Filter(list, IsStartingUp)
    {
      on, starting := [], [];
      for i := 0 to |list|
        invariant on == Filter(list[..i], IsPoweredOn) && starting == Filter(list[..i], IsStartingUp)
      {
        var node := list[i];
        if node.spec.desired == PowerOn && node.status.power == PowerOn && node.status.progress == ProgressReady {
          on := on + [node];
        } else if node.spec.desired == PowerOn && node.status.power == PowerOff
                  && node.status.progress == ProgressStartingUp {
          starting := starting + [node];
        }
        assert list[..i + 1][..i] == list[..i];
      }
      assert list[..|list|] == list;
    }

    // The ready and the starting nodes of a group.
    method ListByState(id: string) returns (ok: bool, on: seq<Node>, starting: seq<Node>)
      requires registry.Valid() && |registry.nodes| < MAX_NODES
      modifies registry`unlisted
      ensures registry.Valid() && |on| < MAX_NODES && |starting| < MAX_NODES
      ensures ok ==> |on| == |PoweredOn(id)| && Distinct(starting) && Names(starting) == Starting(id)
      ensures forall n :: n in starting ==> n.name in registry.nodes && registry.nodes[n.name] == n
      ensures registry.unlisted == old(registry.unlisted) + if ok then 0 else 1
      ensures registry.reliable ==> ok
    {
      on, starting := [], [];
      var listed := registry.List(Some(id));
      ok := listed.Ok?;
      if ok {
        on, starting := Partition(listed.value);
        FilterCounts(registry.nodes, listed.value, id, IsPoweredOn);
        FilterCounts(registry.nodes, listed.value, id, IsStartingUp);
      }
    }

    // The 32-bit arithmetic of a decrease.
    method CountShutdowns(on: seq<Node>, starting: seq<Node>, delta: int32) returns (count: int32)
      requires delta < 0 && |on| < MAX_NODES && |starting| < MAX_NODES
      ensures count as int == ShutdownCount(|on|, |starting|, delta as int)
    {
      var newDesiredSize := |on| as int32 + delta;
      if newDesiredSize < 0 {
        newDesiredSize := 0;
      }
      count := |starting| as int32 - newDesiredSize;
      if count < 0 {
        count := 0;
      }
    }

    // The two writes for one node.
    method MarkForShutdown(node: Node) returns (ok: bool, ghost half: bool)
      requires registry.Valid() && node.name in registry.nodes && registry.nodes[node.name] == node
      modifies registry`nodes, registry`rev, registry`refused
      ensures registry.Valid() && registry.nodes.Keys == old(registry.nodes).Keys
      ensures forall n :: n in registry.nodes && n != node.name ==> registry.nodes[n] == old(registry.nodes)[n]
      ensures ok ==> Marked(node, registry.nodes[node.name])
      ensures !ok ==> if half then HalfMarked(node, registry.nodes[node.name]) else registry.nodes[node.name] == node
      ensures registry.reliable ==> ok
      ensures |registry.refused| >= |old(registry.refused)| && (!ok ==> LastRefused(old(registry.refused), node.name))
    {
      half := false;
      var put := registry.Update(node.(spec := node.spec.(desired := PowerOff)));
      if !put.Ok? {
        return false, half;
      }
      half := true;
      var updated := put.value;
      put := registry.UpdateStatus(updated.(status := updated.status.(progress := ProgressShuttingDown)));
      ok := put.Ok?;
    }

    // Marks the first `count` nodes in order, up to the first failure.
    method MarkOldest(order: seq<Node>, count: nat) returns (ok: bool, ghost done: nat, ghost half: bool)
      requires registry.Valid() && Distinct(order) && count <= |order|
      requires forall i :: 0 <= i < |order| ==>
                 order[i].name in registry.nodes && registry.nodes[order[i].name] == order[i]
      modifies registry`nodes, registry`rev, registry`refused
      ensures registry.Valid() && done <= count && Applied(old(registry.nodes), registry.nodes, order, done, half)
      ensures if ok then done == count && !half
              else done < count && LastRefused(old(registry.refused), order[done].name)
      ensures registry.reliable ==> ok
    {
      done, half := 0, false;
      for i := 0 to count
        invariant registry.Valid() && done == i && !half && |registry.refused| >= |old(registry.refused)|
        invariant Applied(old(registry.nodes), registry.nodes, order, i, false)
      {
        ghost var mid := registry.nodes;
        assert order[i].name !in Names(order[..i]);
        ok, half := MarkForShutdown(order[i]);
        done, half := if ok then i + 1 else i, half && !ok;
        AppliedOneMore(old(registry.nodes), mid, registry.nodes, order, i, done, half);
        if !ok {
          return;
        }
      }
      ok := true;
    }

    // Sorts the starting nodes of the group and marks as many of them.
    method ShutDownOldest(starting: seq<Node>, count: nat, ghost id: string)
      returns (ok: bool, ghost order: seq<Node>, ghost done: nat, ghost half: bool)
      requires registry.Valid() && Distinct(starting) && count <= |starting| && Names(starting) == Starting(id)
      requires forall n :: n in starting ==> n.name in registry.nodes && registry.nodes[n.name] == n
      modifies registry`nodes, registry`rev, registry`refused
      ensures registry.Valid() && done <= |order| == |starting| && OldestFirst(order) && Distinct(order)
      ensures Names(order) == old(Starting(id)) && Applied(old(registry.nodes), registry.nodes, order, done, half)
      ensures if ok then done == count && !half
              else done < count && LastRefused(old(registry.refused), order[done].name)
      ensures OldestMarked(old(registry.nodes), registry.nodes, old(Starting(id)))
      ensures |Target(id)| == |old(Target(id))| - done
      ensures registry.reliable ==> ok
    {
      var sorted := SortOldestFirst(starting);
      SortingKeepsNames(starting, sorted);
      order := sorted;
      ok, done, half := MarkOldest(sorted, count);
      TargetDropsByMarked(old(registry.nodes), registry.nodes, order, done, half, id);
      FrontIsOldest(old(registry.nodes), registry.nodes, order, done, half, id);
    }

    /** Marks exactly the oldest starting nodes, as many as the arithmetic asks for, and no ready node; if a
        write fails, the marked nodes are those at the front of the order up to the failure. */
    method NodeGroupDecreaseTargetSize(id: string, delta: int32)
      returns (r: Sized<()>, ghost order: seq<Node>, ghost done: nat, ghost half: bool)
      requires registry.Valid() && |registry.nodes| < MAX_NODES
      modifies registry`nodes, registry`rev, registry`refused, registry`unlisted
      ensures registry.Valid()
      ensures delta >= 0 <==> r == InvalidArgument
      ensures r == InvalidArgument ==> registry.nodes == old(registry.nodes)
      ensures done <= |order| && Applied(old(registry.nodes), registry.nodes, order, done, half)
      ensures OldestFirst(order) && Distinct(order)
      ensures r.Size? ==>
                && Names(order) == old(Starting(id)) && !half
                && done == ShutdownCount(|old(PoweredOn(id))|, |order|, delta as int)
      ensures done > 0 || half ==> Names(order) == old(Starting(id))
      ensures r == Internal ==>
                || (done == 0 && !half && registry.unlisted > old(registry.unlisted))
                || (done < ShutdownCount(|old(PoweredOn(id))|, |order|, delta as int)
                    && LastRefused(old(registry.refused), order[done].name))
      ensures OldestMarked(old(registry.nodes), registry.nodes, old(Starting(id)))
      ensures |Target(id)| == |old(Target(id))| - done
      ensures registry.reliable && delta < 0 ==> r.Size?
    {
      order, done, half := [], 0, false;
      if delta >= 0 {
        return InvalidArgument, order, done, half;
      }
      var ok, on, starting := ListByState(id);
      if !ok {
        return Internal, order, done, half;
      }
      var count := CountShutdowns(on, starting, delta);
      ok, order, done, half := ShutDownOldest(starting, count as nat, id);
      r := if ok then Size(()) else Internal;
    }
  }
}
