/** All node resources of the cluster, as a single writer sees them. */
module Registries {
  import opened Objects
  import opened ApiServers

  predicate Selected(node: Node, group: Option<string>) {
    group.None? || node.group == group
  }

  /** A listing: every selected node once, as it is stored. */
  ghost predicate IsListing(nodes: map<string, Node>, list: seq<Node>, group: Option<string>) {
    && (forall i :: 0 <= i < |list| ==>
          list[i].name in nodes && nodes[list[i].name] == list[i] && Selected(list[i], group))
    && (forall i, j :: 0 <= i < j < |list| ==> list[i].name != list[j].name)
    && (forall n :: n in nodes && Selected(nodes[n], group) ==> nodes[n] in list)
  }

  class Registry {
    const reliable: bool   // no request fails without a reason
    var nodes: map<string, Node>
    var rev: nat
    var now: nat
    ghost var refused: seq<string>   // the names of the nodes whose requests failed or met a conflict
    ghost var unlisted: nat          // how many listings failed

    ghost predicate Valid()
      reads this
    {
      forall n :: n in nodes ==> nodes[n].name == n && nodes[n].version <= rev
    }

    method Tick()
      modifies this`now
      ensures now >= old(now)
    {
      var later: int := *;
      if later > now {
        now := later;
      }
    }

    /** Lists all nodes, or those labelled with a group. */
    method List(group: Option<string>) returns (r: Reply<seq<Node>>)
      requires Valid()
      modifies this`unlisted
      ensures r.Ok? ==> IsListing(nodes, r.value, group) && |r.value| <= |nodes|
      ensures reliable ==> r.Ok?
      ensures unlisted == old(unlisted) + if r.Ok? then 0 else 1
    {
      var fails: bool := *;
      if fails && !reliable {
        unlisted := unlisted + 1;
        return Failure;
      }
      var left: set<string>, list: seq<Node> := nodes.Keys, [];
      while left != {}
        invariant left <= nodes.Keys && |list| + |left| <= |nodes|
        invariant forall i :: 0 <= i < |list| ==>
                    list[i].name in nodes && nodes[list[i].name] == list[i] && Selected(list[i], group)
        invariant forall i :: 0 <= i < |list| ==> list[i].name !in left
        invariant forall i, j :: 0 <= i < j < |list| ==> list[i].name != list[j].name
        invariant forall n :: n in nodes && n !in left && Selected(nodes[n], group) ==> nodes[n] in list
        decreases left
      {
        var n :| n in left;
        left := left - {n};
        if Selected(nodes[n], group) {
          list := list + [nodes[n]];
        }
      }
      r := Ok(list);
    }

    method Get(name: string) returns (r: Reply<Node>)
      modifies this`refused
      ensures r.Ok? ==> name in nodes && nodes[name] == r.value
      ensures reliable && name in nodes ==> r.Ok?
      ensures !r.Conflict? && (r.NotFound? ==> name !in nodes)
      ensures refused == old(refused) + if r.Failure? then [name] else []
    {
      var fails: bool := *;
      r := if fails && !reliable then Failure else if name in nodes then Ok(nodes[name]) else NotFound;
      refused := if r.Failure? then refused + [name] else refused;
    }

    method Update(sent: Node) returns (r: Reply<Node>)
      requires Valid()
      modifies this`nodes, this`rev, this`refused
      ensures Valid() && rev >= old(rev)
      ensures refused == old(refused) + if r.Failure? || r.Conflict? then [sent.name] else []
      ensures r.NotFound? ==> sent.name !in nodes
      ensures r.Ok? ==>
                && sent.name in old(nodes) && old(nodes)[sent.name].version == sent.version
                && r.value == MainWritten(old(nodes)[sent.name], sent, rev) && rev > old(rev)
                && nodes == old(nodes)[sent.name := r.value]
      ensures !r.Ok? ==> nodes == old(nodes)
      ensures reliable && sent.name in old(nodes) && old(nodes)[sent.name].version == sent.version ==> r.Ok?
    {
      var fails: bool := *;
      if fails && !reliable {
        refused := refused + [sent.name];
        return Failure;
      }
      if sent.name !in nodes {
        return NotFound;
      }
      if nodes[sent.name].version != sent.version {
        refused := refused + [sent.name];
        return Conflict;
      }
      rev := rev + 1;
      r := Ok(MainWritten(nodes[sent.name], sent, rev));
      nodes := nodes[sent.name := r.value];
    }

    method UpdateStatus(sent: Node) returns (r: Reply<Node>)
      requires Valid()
      modifies this`nodes, this`rev, this`refused
      ensures Valid() && rev >= old(rev)
      ensures refused == old(refused) + if r.Failure? || r.Conflict? then [sent.name] else []
      ensures r.NotFound? ==> sent.name !in nodes
      ensures r.Ok? ==>
                && sent.name in old(nodes) && old(nodes)[sent.name].version == sent.version
                && r.value == StatusWritten(old(nodes)[sent.name], sent, rev) && rev > old(rev)
                && nodes == old(nodes)[sent.name := r.value]
      ensures !r.Ok? ==> nodes == old(nodes)
      ensures reliable && sent.name in old(nodes) && old(nodes)[sent.name].version == sent.version ==> r.Ok?
    {
      var fails: bool := *;
      if fails && !reliable {
        refused := refused + [sent.name];
        return Failure;
      }
      if sent.name !in nodes {
        return NotFound;
      }
      if nodes[sent.name].version != sent.version {
        refused := refused + [sent.name];
        return Conflict;
      }
      rev := rev + 1;
      r := Ok(StatusWritten(nodes[sent.name], sent, rev));
      nodes := nodes[sent.name := r.value];
    }
  }
}
