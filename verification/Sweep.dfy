/** The sweep over expired locks on all nodes. */
module Sweep {
  import opened Objects
  import opened Lease
  import opened LeaseProtocol
  import opened ApiServers
  import opened Registries

  /** The node was left alone, or it lost an expired lock and nothing else. */
  predicate Swept(before: Node, after: Node, now: int) {
    || after == before
    || (CheckLock(before.annotations).Some? && IsLockExpired(CheckLock(before.annotations).value, now)
        && OnlyAnnotations(before, after, Cleared(before.annotations)))
  }

  /** A request about that node has been refused since the log had `from` entries. */
  ghost predicate RefusedSince(refused: seq<string>, from: nat, name: string) {
    exists i :: from <= i < |refused| && refused[i] == name
  }

  lemma RefusalStays(refused: seq<string>, refused': seq<string>, from: nat, name: string)
    requires refused <= refused' && RefusedSince(refused, from, name)
    ensures RefusedSince(refused', from, name)
  {
    var k :| from <= k < |refused| && refused[k] == name;
    assert refused'[k] == name;
  }

  // The log has grown by refusals for one node only.
  ghost predicate OnlyRefused(before: seq<string>, after: seq<string>, name: string) {
    && |before| <= |after| && after[..|before|] == before
    && forall i :: |before| <= i < |after| ==> after[i] == name
  }

  /** The first `count` listed nodes have had their turn: those whose lock had expired are rid of it, but for
      those about which a request was refused. */
  ghost predicate SweptUpTo(stored: map<string, Node>, nodes: map<string, Node>, list: seq<Node>, count: nat,
                            began: int, now: int, refused: seq<string>, from: nat)
    requires count <= |list|
  {
    && nodes.Keys == stored.Keys
    && (forall j :: count <= j < |list| ==> list[j].name in nodes && nodes[list[j].name] == list[j])
    && (forall n :: n in stored ==> Swept(stored[n], nodes[n], now))
    && (forall j :: 0 <= j < count ==> list[j].name in nodes && Rid(list[j], nodes[list[j].name], began, refused, from))
  }

  predicate Unlocked(node: Node) {
    CheckLock(node.annotations).None?
  }

  ghost predicate Rid(before: Node, after: Node, began: int, refused: seq<string>, from: nat) {
    HasExpiredLock(before, began) ==> RefusedSince(refused, from, before.name) || Unlocked(after)
  }

  lemma StaysRid(before: Node, after: Node, began: int, refused: seq<string>, refused': seq<string>, from: nat)
    requires Rid(before, after, began, refused, from) && refused <= refused'
    ensures Rid(before, after, began, refused', from)
  {
    if RefusedSince(refused, from, before.name) {
      RefusalStays(refused, refused', from, before.name);
    }
  }

  lemma SweptOneMore(stored: map<string, Node>, mid: map<string, Node>, after: map<string, Node>, list: seq<Node>,
                     i: nat, began: int, earlier: int, now: int, refused: seq<string>, refused': seq<string>,
                     from: nat)
    requires IsListing(stored, list, None) && i < |list| && began <= earlier <= now && refused <= refused'
    requires SweptUpTo(stored, mid, list, i, began, earlier, refused, from)
    requires after.Keys == mid.Keys && forall n :: n in mid && n != list[i].name ==> after[n] == mid[n]
    requires Swept(list[i], after[list[i].name], now) && Rid(list[i], after[list[i].name], earlier, refused', from)
    ensures SweptUpTo(stored, after, list, i + 1, began, now, refused', from)
  {
    forall n | n in stored
      ensures Swept(stored[n], after[n], now)
    {
      assert Swept(stored[n], mid[n], earlier);
    }
    forall j | 0 <= j < i
      ensures list[j].name in after && Rid(list[j], after[list[j].name], began, refused', from)
    {
      StaysRid(list[j], mid[list[j].name], began, refused, refused', from);
    }
  }

  // All have had their turn.
  lemma SweptAll(stored: map<string, Node>, nodes: map<string, Node>, list: seq<Node>, began: int, now: int,
                 refused: seq<string>, from: nat, n: string)
    requires IsListing(stored, list, None) && n in stored && stored[n].name == n
    requires SweptUpTo(stored, nodes, list, |list|, began, now, refused, from)
    ensures HasExpiredLock(stored[n], began) ==>
              RefusedSince(refused, from, n) || CheckLock(nodes[n].annotations).None?
  {
  }

  class Sweeper {
    const registry: Registry

    constructor (registry: Registry)
      ensures this.registry == registry
    {
      this.registry := registry;
    }

    // One forced release, tried as often as there are conflicts. It fails if a request is refused.
    method ForceReleaseLock(name: string) returns (ok: bool)
      requires registry.Valid() && name in registry.nodes
      modifies registry`nodes, registry`rev, registry`refused
      ensures registry.Valid() && registry.nodes.Keys == old(registry.nodes).Keys
      ensures forall n :: n in registry.nodes && n != name ==> registry.nodes[n] == old(registry.nodes)[n]
      ensures var before, after := old(registry.nodes)[name], registry.nodes[name];
              if ok && before.annotations != map[]
              then OnlyAnnotations(before, after, Cleared(before.annotations)) else after == before
      ensures OnlyRefused(old(registry.refused), registry.refused, name)
      ensures !ok ==> |registry.refused| > |old(registry.refused)|
      ensures registry.reliable ==> ok && registry.refused == old(registry.refused)
    {
      var left := ATTEMPTS;
      while left > 0
        invariant 0 <= left <= ATTEMPTS && registry.Valid() && registry.nodes == old(registry.nodes)
        invariant OnlyRefused(old(registry.refused), registry.refused, name)
        invariant left < ATTEMPTS ==> |registry.refused| > |old(registry.refused)|
        invariant registry.reliable ==> left == ATTEMPTS && registry.refused == old(registry.refused)
      {
        var got := registry.Get(name);
        if !got.Ok? {
          return false;
        }
        var copy := got.value;
        if copy.annotations == map[] {
          return true;
        }
        var put := registry.Update(copy.(annotations := Cleared(copy.annotations)));
        if put.Ok? {
          return true;
        }
        if !put.Conflict? {
          return false;
        }
        left := left - 1;
      }
      ok := false;
    }

    /** Every lock that was expired when the pass began is gone, except on nodes one of whose requests was refused
        during the pass, which stops nobody else; all other nodes, and everything but the lock annotations of these,
        are as before. A pass without a listing changes nothing. */
    method CleanupExpiredLocks() returns (ok: bool)
      requires registry.Valid()
      modifies registry`nodes, registry`rev, registry`now, registry`refused, registry`unlisted
      ensures registry.Valid() && registry.nodes.Keys == old(registry.nodes).Keys
      ensures forall n :: n in registry.nodes ==> Swept(old(registry.nodes)[n], registry.nodes[n], registry.now)
      ensures old(registry.refused) <= registry.refused
      ensures ok ==> forall n :: n in registry.nodes && old(HasExpiredLock(registry.nodes[n], registry.now)) ==>
                       RefusedSince(registry.refused, |old(registry.refused)|, n)
                       || CheckLock(registry.nodes[n].annotations).None?
      ensures ok <==> registry.unlisted == old(registry.unlisted)
      ensures !ok ==> registry.nodes == old(registry.nodes) && registry.refused == old(registry.refused)
      ensures registry.reliable ==> ok && registry.refused == old(registry.refused)
    {
      var listed := registry.List(None);
      if !listed.Ok? {
        return false;
      }
      SweepListed(listed.value);
      ok := true;
    }

    // The loop over the nodes of a listing.
    method SweepListed(list: seq<Node>)
      requires registry.Valid() && IsListing(registry.nodes, list, None)
      modifies registry`nodes, registry`rev, registry`now, registry`refused
      ensures registry.Valid() && registry.nodes.Keys == old(registry.nodes).Keys
      ensures forall n :: n in registry.nodes ==> Swept(old(registry.nodes)[n], registry.nodes[n], registry.now)
      ensures old(registry.refused) <= registry.refused
      ensures forall n :: n in registry.nodes && old(HasExpiredLock(registry.nodes[n], registry.now)) ==>
                RefusedSince(registry.refused, |old(registry.refused)|, n)
                || CheckLock(registry.nodes[n].annotations).None?
      ensures registry.reliable ==> registry.refused == old(registry.refused)
    {
      ghost var stored, began, from := registry.nodes, registry.now, |registry.refused|;
      for i := 0 to |list|
        invariant registry.Valid() && registry.now >= began && old(registry.refused) <= registry.refused
        invariant SweptUpTo(stored, registry.nodes, list, i, began, registry.now, registry.refused, from)
        invariant registry.reliable ==> registry.refused == old(registry.refused)
      {
        ghost var mid, earlier, refused := registry.nodes, registry.now, registry.refused;
        SweepOne(list[i], from);
        SweptOneMore(stored, mid, registry.nodes, list, i, began, earlier, registry.now,
                     refused, registry.refused, from);
      }
      forall n | n in stored && HasExpiredLock(stored[n], began)
        ensures RefusedSince(registry.refused, from, n) || CheckLock(registry.nodes[n].annotations).None?
      {
        SweptAll(stored, registry.nodes, list, began, registry.now, registry.refused, from, n);
      }
    }

    // The turn of one listed node, in a pass that began when the log of refusals had `from` entries.
    method SweepOne(node: Node, ghost from: nat)
      requires registry.Valid() && from <= |registry.refused|
      requires node.name in registry.nodes && registry.nodes[node.name] == node
      modifies registry`nodes, registry`rev, registry`now, registry`refused
      ensures registry.Valid() && registry.now >= old(registry.now)
      ensures registry.nodes.Keys == old(registry.nodes).Keys
      ensures forall n :: n in registry.nodes && n != node.name ==> registry.nodes[n] == old(registry.nodes)[n]
      ensures Swept(node, registry.nodes[node.name], registry.now)
      ensures OnlyRefused(old(registry.refused), registry.refused, node.name)
      ensures HasExpiredLock(node, old(registry.now)) ==>
                RefusedSince(registry.refused, from, node.name)
                || CheckLock(registry.nodes[node.name].annotations).None?
      ensures registry.reliable ==> registry.refused == old(registry.refused)
    {
      registry.Tick();
      var lock := CheckLock(node.annotations);
      if lock.Some? && IsLockExpired(lock.value, registry.now) {
        var ok := ForceReleaseLock(node.name);
        assert !ok ==> registry.refused[|registry.refused| - 1] == node.name;
        ClearedReadsAsNoLock(node.annotations);
      }
    }
  }
}
