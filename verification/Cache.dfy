/** The route cache: routes by grain with an index by node, deleted by grain, node, group or altogether, and switched
    off while the event stream is degraded. */
module Cache {
  import opened Types
  import opened Naming
  import Protocol

  predicate InGroup(identity: string, nodeType: string, nodeGroup: string) {
    nodeType + "/" + nodeGroup + "/" <= identity
  }

  function WithoutNode(entries: map<string, Route>, node: string): map<string, Route> {
    map k | k in entries && entries[k].nodeIdentity != node :: entries[k]
  }

  function WithoutGroup(entries: map<string, Route>, nodeType: string, nodeGroup: string): map<string, Route> {
    map k | k in entries && !InGroup(entries[k].nodeIdentity, nodeType, nodeGroup) :: entries[k]
  }

  class PlacementCache {
    var entries: map<string, Route>
    var byNode: map<string, set<string>>
    var degraded: bool

    /** The two indexes agree, no node keeps an empty set, and a degraded cache is empty. */
    ghost predicate Valid()
      reads this
    {
      && (forall n, k :: k in Protocol.Owned(byNode, n) <==> k in entries && entries[k].nodeIdentity == n)
      && Protocol.NoEmptySet(byNode)
      && (degraded ==> entries == map[])
    }

    constructor ()
      ensures Valid() && entries == map[] && !degraded
    {
      entries, byNode, degraded := map[], map[], false;
    }

    method Get(key: string) returns (r: Option<Route>)
      ensures r == if degraded || key !in entries then None else Some(entries[key])
    {
      if degraded || key !in entries { return None; }
      return Some(entries[key]);
    }

    method Set(key: string, route: Route)
      requires Valid()
      modifies this
      ensures Valid() && degraded == old(degraded)
      ensures entries == if degraded then old(entries) else old(entries)[key := route]
    {
      if degraded { return; }
      if key in entries { DeleteNodeIndex(key, entries[key].nodeIdentity); }
      entries := entries[key := route];
      AddNodeIndex(key, route.nodeIdentity);
    }

    method Delete(key: string)
      requires Valid()
      modifies this
      ensures Valid() && degraded == old(degraded)
      ensures entries == old(entries) - {key}
    {
      if key in entries {
        var node := entries[key].nodeIdentity;
        entries := entries - {key};
        DeleteNodeIndex(key, node);
      }
    }

    /** Drops the entries the node's index lists, then the index. */
    method DeleteByNode(node: string)
      requires Valid()
      modifies this
      ensures Valid() && degraded == old(degraded)
      ensures entries == WithoutNode(old(entries), node)
    {
      assert forall k :: k in entries && entries[k].nodeIdentity == node <==> k in Protocol.Owned(byNode, node);
      if node in byNode { DropNode(node); }
      assert entries == WithoutNode(old(entries), node);
    }

    /** Goes through the node index and drops every node whose identity starts with the group's prefix. */
    method DeleteByGroup(nodeType: string, nodeGroup: string)
      requires Valid()
      modifies this
      ensures Valid() && degraded == old(degraded)
      ensures entries == WithoutGroup(old(entries), nodeType, nodeGroup)
    {
      var prefix := nodeType + "/" + nodeGroup + "/";
      var rest := byNode.Keys;
      ghost var before, indexed := entries, byNode;
      assert forall k :: k in entries ==> k in Protocol.Owned(byNode, entries[k].nodeIdentity);
      while rest != {}
        invariant Valid() && degraded == old(degraded)
        invariant rest <= byNode.Keys
        invariant forall n :: n in byNode <==> n in indexed && !(n !in rest && InGroup(n, nodeType, nodeGroup))
        invariant forall n :: n in byNode ==> byNode[n] == indexed[n]
        invariant forall k :: k in entries <==>
                k in before && (before[k].nodeIdentity in rest || !InGroup(before[k].nodeIdentity, nodeType, nodeGroup))
        invariant forall k :: k in entries ==> entries[k] == before[k]
        decreases |rest|
      {
        var node :| node in rest;
        rest := rest - {node};
        if prefix <= node { DropNode(node); }
      }
      assert entries == WithoutGroup(before, nodeType, nodeGroup);
    }

    method DropNode(node: string)
      requires Valid() && node in byNode
      modifies this
      ensures Valid() && degraded == old(degraded)
      ensures byNode == old(byNode) - {node}
      ensures entries == old(entries) - old(byNode)[node]
      ensures forall k :: k in old(byNode)[node] <==> k in old(entries) && old(entries)[k].nodeIdentity == node
    {
      assert byNode[node] == Protocol.Owned(byNode, node);
      entries := entries - byNode[node];
      byNode := byNode - {node};
      assert forall n :: Protocol.Owned(byNode, n) == if n == node then {} else Protocol.Owned(old(byNode), n);
    }

    method Clear()
      requires Valid()
      modifies this
      ensures Valid() && degraded == old(degraded) && entries == map[]
    {
      entries, byNode := map[], map[];
    }

    method SetDegraded(on: bool)
      requires Valid()
      modifies this
      ensures Valid() && degraded == on
      ensures entries == if on then map[] else old(entries)
    {
      if on { entries, byNode := map[], map[]; }
      degraded := on;
    }

    method AddNodeIndex(key: string, node: string)
      modifies this`byNode
      ensures byNode == Protocol.AddIndex(old(byNode), node, key)
    {
      if node !in byNode { byNode := byNode[node := {}]; }
      byNode := byNode[node := byNode[node] + {key}];
    }

    method DeleteNodeIndex(key: string, node: string)
      modifies this`byNode
      ensures byNode == Protocol.DropIndex(old(byNode), node, key)
    {
      if node in byNode { byNode := byNode[node := byNode[node] - {key}]; }
      if node in byNode && byNode[node] == {} { byNode := byNode - {node}; }
    }
  }

  /** On well-formed identities the group deletion removes exactly the routes whose parsed type and group match. */
  lemma GroupDeletionIsExact(entries: map<string, Route>, nodeType: string, nodeGroup: string, key: string)
    requires key in entries && WellFormedIdentity(entries[key].nodeIdentity)
    requires Lacks(nodeType, '/') && Lacks(nodeGroup, '/')
    ensures key in WithoutGroup(entries, nodeType, nodeGroup)
            <==> GroupOfIdentity(entries[key].nodeIdentity) != Group(nodeType, nodeGroup)
  {
    GroupPrefixExact(entries[key].nodeIdentity, nodeType, nodeGroup);
  }
}
