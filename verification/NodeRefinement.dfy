/** The node and lease scripts refine the in-process registry: on every reachable keyspace, whatever earlier read
    the client derived its keys from, a script succeeds exactly when the registry method would, leaves the
    keyspace of the same world, and answers no fault. */
module NodeRefinement {
  import opened Types
  import opened Naming
  import opened Keyspace
  import opened Protocol
  import opened RedisInvariant
  import NodeScripts

  /** Everything that is not a node record, a nodes set, a lease set or the event stream. */
  predicate OnlyNodeKeys(a: Keys, b: Keys) {
    && a.placement == b.placement && a.invalid == b.invalid && a.index == b.index
    && a.roundRobin == b.roundRobin && a.sequence == b.sequence && a.audit == b.audit
  }

  /** A node write that keeps the node families in step keeps the keyspace reachable. */
  lemma NodeWriteKeepsReachable(k: Keys, k': Keys)
    requires Reachable(k) && OnlyNodeKeys(k, k') && k'.events.Holds?
    requires AllHold(k'.node) && AllHold(k'.nodes) && AllHold(k'.leases) && NoEmptyCellSet(k'.nodes)
    requires NoEmptyZSet(k'.leases)
    requires OwnKeys(k'.node) && Registered(k'.nodes, NodesOf(k'.node)) && Leased(k'.leases, NodesOf(k'.node))
    requires Valid(Abs(k).(nodes := NodesOf(k'.node)))
    ensures Reachable(k') && Abs(k') == Abs(k).(nodes := NodesOf(k'.node))
  {
    hide Valid, Registered, Leased, Scored, AllHold, NoEmptyZSet, NoEmptyCellSet, CounterWithin, OwnKeys;
  }

  /** The stored record of a node, as the scripts and the abstraction see it. */
  lemma StoredNode(k: Keys, id: string)
    requires Reachable(k)
    ensures Load(k.node, id) == if id in Abs(k).nodes then Loaded(RedisNode(Abs(k).nodes[id], id, id)) else Missing
    ensures id in Abs(k).nodes ==> GoodNode(id, Abs(k).nodes[id])
    ensures forall g :: Score(k.leases, g, id) == LeaseScore(Abs(k).nodes, g, id)
  {
    hide Registered, Scored, GoodNode;
  }

  lemma FamiliesHold(k: Keys)
    requires Reachable(k)
    ensures forall id :: StringOk(k.node, id) && StringOk(k.placement, id) && CollectionOk(k.index, id)
    ensures forall g ::
            CollectionOk(k.nodes, g) && CollectionOk(k.leases, g) && CollectionOk(k.invalid, g)
            && StringOk(k.roundRobin, g)
    ensures k.sequence != Some(WrongType) && k.events.Holds? && k.audit.Holds?
  {
    hide Registered, Scored, Valid, Leased, OwnKeys;
  }

  lemma SameIdentitySameGroup(id: string, a: Node, b: Node)
    requires GoodNode(id, a) && GoodNode(id, b)
    ensures a.GroupOf() == b.GroupOf() && NodeScripts.SameName(a, b)
  {
  }

  lemma EnrollIsReachable(k: Keys, n: Node, kind: EventType)
    requires Reachable(k) && GoodNode(n.identity, n) && n.status == Active
    requires CollectionOk(k.nodes, n.GroupOf()) && CollectionOk(k.leases, n.GroupOf()) && k.events.Holds?
    ensures var k' := NodeScripts.Enroll(k, n, kind);
            Reachable(k') && Abs(k') == Abs(k).(nodes := Abs(k).nodes[n.identity := n])
            && Emitted(k.events, k'.events, [NodeEvent(kind, n)])
  {
    hide Valid, Registered, Leased, Scored, GoodNode, SAdd, ZAdd, Emitted, Append;
    StoredNode(k, n.identity);
    var k' := NodeScripts.Enroll(k, n, kind);
    EmittedOne(k.events, NodeEvent(kind, n), NodeEvent(kind, n));
    var id, nodes := n.identity, NodesOf(k.node);
    NodesSet(k.node, id, RedisNode(n, id, id));
    if id in nodes { SameIdentitySameGroup(id, nodes[id], n); }
    RegisteredAdded(k.nodes, nodes, n);
    LeasedSet(k.leases, nodes, id, n);
    NodeUpdateKeepsValid(Abs(k), id, n);
    NodeWriteKeepsReachable(k, k');
  }

  lemma EnrolledNames(node: Node, ttl: int, now: int)
    ensures var n := Enrolled(node, ttl, now);
            && n.identity == node.identity && n.GroupOf() == node.GroupOf() && n.nodeName == node.nodeName
            && n.session == node.session && n.status == Active && GrantOf(n) == Grant(INITIAL_LEASE_VERSION, now + ttl)
  {
  }

  lemma RegisterRefines(k: Keys, ttl: int, now: int, node: Node)
    requires Reachable(k) && ttl > 0
    ensures var r, o := NodeScripts.Register(k, ttl, now, node), RegisterNode(Abs(k), ttl, now, node);
            && Reachable(r.keys) && Abs(r.keys) == o.world && Emitted(k.events, r.keys.events, o.events)
            && Agrees(r.reply, o.reply)
            && (o.reply.Ok? ==> r.reply.value == LeaseReply(o.reply.value.version, o.reply.value.validUntil - now))
  {
    hide Reachable, Abs, GoodNode, NormalizedNode, Emitted, Score, NodeScripts.Enroll, Enrolled, Append;
    EnrolledNames(node, ttl, now);
    FamiliesHold(k);
    EmittedNone(k.events);
    StoredNode(k, node.identity);
    if NormalizedNode(node) {
      EnrolledIsGood(node, ttl, now);
      EnrollIsReachable(k, Enrolled(node, ttl, now), NodeRegistered);
      if node.identity in Abs(k).nodes {
        SameIdentitySameGroup(node.identity, Abs(k).nodes[node.identity], Enrolled(node, ttl, now));
      }
    }
  }

  lemma ReplaceRefines(k: Keys, ttl: int, now: int, node: Node)
    requires Reachable(k) && ttl > 0
    ensures var r, o := NodeScripts.Replace(k, ttl, now, node), ReplaceNodeSession(Abs(k), ttl, now, node);
            && Reachable(r.keys) && Abs(r.keys) == o.world && Emitted(k.events, r.keys.events, o.events)
            && Agrees(r.reply, o.reply)
            && (o.reply.Ok? ==> r.reply.value.0 == o.reply.value.0
                                && r.reply.value.1
                                      == LeaseReply(o.reply.value.1.version, o.reply.value.1.validUntil - now))
  {
    hide Reachable, Abs, GoodNode, NormalizedNode, Emitted, Score, NodeScripts.Enroll, Enrolled, Append;
    EnrolledNames(node, ttl, now);
    FamiliesHold(k);
    EmittedNone(k.events);
    StoredNode(k, node.identity);
    if NormalizedNode(node) {
      EnrolledIsGood(node, ttl, now);
      EnrollIsReachable(k, Enrolled(node, ttl, now), NodeReplaced);
      if node.identity in Abs(k).nodes {
        SameIdentitySameGroup(node.identity, Abs(k).nodes[node.identity], Enrolled(node, ttl, now));
      }
    }
  }

  /** What the client read about a node, at any earlier time: a record that names its group correctly. */
  predicate SeenNode(id: string, seen: Option<Node>) {
    seen.Some? ==> GoodNode(id, seen.value)
  }

  lemma ExtendIsReachable(k: Keys, id: string, n: Node)
    requires Reachable(k) && id in Abs(k).nodes && GoodNode(id, n) && n.status != Offline
    requires CollectionOk(k.leases, n.GroupOf())
    ensures var k' := NodeScripts.Extend(k, id, n.GroupOf(), RedisNode(n, id, id));
            Reachable(k') && Abs(k') == Abs(k).(nodes := Abs(k).nodes[id := n])
  {
    hide Valid, Registered, Leased, Scored, GoodNode, ZAdd;
    StoredNode(k, id);
    var k' := NodeScripts.Extend(k, id, n.GroupOf(), RedisNode(n, id, id));
    var nodes := NodesOf(k.node);
    NodesSet(k.node, id, RedisNode(n, id, id));
    SameIdentitySameGroup(id, nodes[id], n);
    RegisteredKept(k.nodes, nodes, id, n);
    LeasedSet(k.leases, nodes, id, n);
    NodeUpdateKeepsValid(Abs(k), id, n);
    NodeWriteKeepsReachable(k, k');
  }

  /** Renewal: with metrics Redis can store, and unless the earlier read missed a node registered since. */
  lemma RenewNodeRefines(k: Keys, now: int, id: string, session: string, metrics: Option<Metrics>, seen: Option<Node>)
    requires Reachable(k) && SeenNode(id, seen)
    ensures var r, o := NodeScripts.RenewNode(k, now, id, session, metrics, seen),
            RenewNode(Abs(k), now, id, session, metrics);
            && Reachable(r.keys)
            && !r.reply.Faulted?
            && (r.reply.Answer? <==>
                  o.reply.Ok? && seen.Some? && (metrics.Some? ==> NodeScripts.StorableMetrics(metrics.value)))
            && (r.reply.Answer? ==> && Abs(r.keys) == o.world && r.keys.events == k.events
                                    && r.reply.value
                                          == LeaseReply(o.reply.value.version, o.reply.value.validUntil - now))
            && (!r.reply.Answer? ==> r.keys == k)
  {
    hide Reachable, Abs, Score, NodeType, NodeGroup, NodeName, WellFormedIdentity;
    FamiliesHold(k);
    StoredNode(k, id);
    if seen.Some? && id in Abs(k).nodes {
      var n := Abs(k).nodes[id];
      SameIdentitySameGroup(id, n, seen.value);
      if n.status != Offline { ExtendIsReachable(k, id, Renewed(n, now, metrics)); }
    }
  }

  lemma ForgetIsReachable(k: Keys, id: string)
    requires Reachable(k) && id in Abs(k).nodes
    requires CollectionOk(k.leases, Abs(k).nodes[id].GroupOf()) && CollectionOk(k.nodes, Abs(k).nodes[id].GroupOf())
    requires k.events.Holds?
    ensures var n := Abs(k).nodes[id];
            var k' := NodeScripts.Forget(k, id, n.GroupOf(), n);
            Reachable(k') && Abs(k') == Abs(k).(nodes := Abs(k).nodes - {id})
            && Emitted(k.events, k'.events, [NodeEvent(NodeUnregistered, n)])
  {
    hide Valid, Registered, Leased, Scored, GoodNode, ZRem, SRem;
    StoredNode(k, id);
    var n := Abs(k).nodes[id];
    var k' := NodeScripts.Forget(k, id, n.GroupOf(), n);
    var nodes := NodesOf(k.node);
    EmittedOne(k.events, NodeEvent(NodeUnregistered, n), NodeEvent(NodeUnregistered, n));
    NodesDrop(k.node, id);
    RegisteredDropped(k.nodes, nodes, id, n.GroupOf());
    LeasedCleared(k.leases, nodes, id, n.GroupOf(), nodes - {id});
    NodeRemovalKeepsValid(Abs(k), id);
    NodeWriteKeepsReachable(k, k');
  }

  lemma OwnedCount(k: Keys, id: string)
    requires Reachable(k)
    ensures Cardinality(k.index, id) > 0 <==> Owned(Abs(k).byNode, id) != {}
  {
    hide Registered, Scored, Valid, Leased, OwnKeys;
    if id in k.index { assert k.index[id].value != map[]; assert k.index[id].value.Keys != {}; }
  }

  /** Unregister and CompleteDrain. */
  lemma UnregisterRefines(k: Keys, id: string, session: string, guarded: bool, seen: Option<Node>)
    requires Reachable(k) && SeenNode(id, seen)
    ensures var r, o := NodeScripts.Unregister(k, id, session, guarded, seen), Unregister(Abs(k), id, session, guarded);
            && Reachable(r.keys)
            && !r.reply.Faulted?
            && (r.reply.Answer? <==> o.reply.Ok? && seen.Some?)
            && (r.reply.Answer? ==> Abs(r.keys) == o.world && Emitted(k.events, r.keys.events, o.events))
            && (!r.reply.Answer? ==> r.keys == k)
  {
    hide Reachable, Abs, Score, NodeScripts.Forget, GoodNode, Cardinality, Owned, Emitted;
    FamiliesHold(k);
    StoredNode(k, id);
    OwnedCount(k, id);
    if seen.Some? && id in Abs(k).nodes {
      SameIdentitySameGroup(id, Abs(k).nodes[id], seen.value);
      ForgetIsReachable(k, id);
    }
  }

  lemma RestatusIsReachable(k: Keys, id: string, kind: EventType)
    requires Reachable(k) && id in Abs(k).nodes && Abs(k).nodes[id].status != Offline && k.events.Holds?
    ensures var n := Abs(k).nodes[id].(status := Draining);
            var k' := NodeScripts.Restatus(k, id, RedisNode(n, id, id), kind);
            Reachable(k') && Abs(k') == Abs(k).(nodes := Abs(k).nodes[id := n])
            && Emitted(k.events, k'.events, [NodeEvent(kind, n)])
  {
    var n := Abs(k).nodes[id].(status := Draining);
    EmittedOne(k.events, NodeEvent(kind, n), NodeEvent(kind, n));
    var k' := NodeScripts.Restatus(k, id, RedisNode(n, id, id), kind);
    var nodes := NodesOf(k.node);
    NodesSet(k.node, id, RedisNode(n, id, id));
    RegisteredKept(k.nodes, nodes, id, n);
    LeasedKept(k.leases, nodes, id, n);
    assert GoodNode(id, n);
    NodeUpdateKeepsValid(Abs(k), id, n);
    hide Valid, Registered, Leased, Scored, GoodNode;
    NodeWriteKeepsReachable(k, k');
  }

  lemma DrainRefines(k: Keys, id: string, seen: Option<Node>)
    requires Reachable(k) && SeenNode(id, seen)
    ensures var r, o := NodeScripts.Drain(k, id, seen), DrainNode(Abs(k), id);
            && Reachable(r.keys)
            && !r.reply.Faulted?
            && (r.reply.Answer? <==> o.reply.Ok? && seen.Some?)
            && (r.reply.Answer? ==> Abs(r.keys) == o.world && Emitted(k.events, r.keys.events, o.events))
            && (!r.reply.Answer? ==> r.keys == k)
  {
    hide Reachable, Abs, Score, NodeScripts.Restatus, GoodNode, Members, NameInvalid, Emitted;
    FamiliesHold(k);
    StoredNode(k, id);
    if seen.Some? && id in Abs(k).nodes {
      var n := Abs(k).nodes[id];
      SameIdentitySameGroup(id, n, seen.value);
      NamesMatch(k, n.GroupOf(), n.nodeName);
      if n.status != Offline { RestatusIsReachable(k, id, NodeDraining); }
    }
  }

  lemma NamesMatch(k: Keys, g: Group, name: string)
    ensures name in Members(k.invalid, g) <==> NameInvalid(Abs(k), g, name)
  {
  }

  lemma InvalidWriteKeepsReachable(k: Keys, k': Keys)
    requires Reachable(k) && k'.events.Holds? && k' == k.(invalid := k'.invalid, events := k'.events)
    requires AllHold(k'.invalid) && NoEmptyCellSet(k'.invalid)
    requires Valid(Abs(k).(invalid := Values(k'.invalid)))
    ensures Reachable(k') && Abs(k') == Abs(k).(invalid := Values(k'.invalid))
  {
    hide Valid, Registered, Leased, Scored, AllHold, NoEmptyZSet, NoEmptyCellSet, CounterWithin, OwnKeys;
  }

  lemma MarkInvalidRefines(k: Keys, nodeType: string, nodeGroup: string, nodeName: string)
    requires Reachable(k)
    ensures var r, o := NodeScripts.MarkInvalid(k, nodeType, nodeGroup, nodeName),
            MarkNodeInvalid(Abs(k), nodeType, nodeGroup, nodeName);
            Reachable(r.keys) && Abs(r.keys) == o.world && Agrees(r.reply, o.reply)
                && Emitted(k.events, r.keys.events, o.events)
  {
    FamiliesHold(k);
    var g := Group(nodeType, nodeGroup);
    NameAdded(k.invalid, g, nodeName);
    NameChangeKeepsValid(Abs(k), g, nodeName);
    hide Valid, Registered, Leased, Scored, SAdd, AddName, NewNodeIdentity;
    var r := NodeScripts.MarkInvalid(k, nodeType, nodeGroup, nodeName);
    if r.reply.Answer? { InvalidWriteKeepsReachable(k, r.keys); }
  }

  lemma RestoreRefines(k: Keys, nodeType: string, nodeGroup: string, nodeName: string)
    requires Reachable(k)
    ensures var r, o := NodeScripts.Restore(k, nodeType, nodeGroup, nodeName),
            RestoreNode(Abs(k), nodeType, nodeGroup, nodeName);
            Reachable(r.keys) && Abs(r.keys) == o.world && Agrees(r.reply, o.reply)
                && Emitted(k.events, r.keys.events, o.events)
  {
    FamiliesHold(k);
    var g := Group(nodeType, nodeGroup);
    NameDropped(k.invalid, g, nodeName);
    NameChangeKeepsValid(Abs(k), g, nodeName);
    hide Valid, Registered, Leased, Scored, SRem, DropName, NewNodeIdentity;
    var r := NodeScripts.Restore(k, nodeType, nodeGroup, nodeName);
    if r.reply.Answer? { InvalidWriteKeepsReachable(k, r.keys); }
  }

  lemma ExpiredIsReachable(k: Keys, id: string)
    requires Reachable(k) && id in Abs(k).nodes && k.events.Holds?
    requires CollectionOk(k.leases, Abs(k).nodes[id].GroupOf())
    ensures var n := Abs(k).nodes[id].(status := Offline);
            var k' := NodeScripts.Restatus(k, id, RedisNode(n, id, id), NodeLeaseExpiredEvent).(
                        leases := ZRem(k.leases, n.GroupOf(), id));
            Reachable(k') && Abs(k') == Abs(k).(nodes := Abs(k).nodes[id := n])
            && Emitted(k.events, k'.events, [NodeEvent(NodeLeaseExpiredEvent, n)])
  {
    var n := Abs(k).nodes[id].(status := Offline);
    EmittedOne(k.events, NodeEvent(NodeLeaseExpiredEvent, n), NodeEvent(NodeLeaseExpiredEvent, n));
    var k' := NodeScripts.Restatus(k, id, RedisNode(n, id, id), NodeLeaseExpiredEvent).(
                        leases := ZRem(k.leases, n.GroupOf(), id));
    var nodes := NodesOf(k.node);
    NodesSet(k.node, id, RedisNode(n, id, id));
    RegisteredKept(k.nodes, nodes, id, n);
    LeasedCleared(k.leases, nodes, id, n.GroupOf(), nodes[id := n]);
    assert GoodNode(id, n);
    NodeUpdateKeepsValid(Abs(k), id, n);
    hide Valid, Registered, Leased, Scored, GoodNode, ZRem;
    NodeWriteKeepsReachable(k, k');
  }

  /** Expiry of one scanned candidate: whatever the scan saw, a node goes offline only when its own current lease
      is due, and then exactly as the in-process scan takes it offline; otherwise nothing changes, so the clean-up
      writes are never needed. A node is expired exactly when the snapshot and its score are current and its lease is
      due, and not due yet exactly when they are current and it is not. */
  lemma ExpireNodeRefines(k: Keys, now: int, id: string, g: Group, seen: Option<RedisNode>, seenScore: int)
    requires Reachable(k)
    ensures var r, o := NodeScripts.ExpireNode(k, now, id, g, seen, seenScore), ExpireOne(Abs(k), now, id);
            && Reachable(r.keys)
            && r.reply.Answer?
            && (r.reply.value.Expired? ==>
                  o.reply.Ok? && Abs(r.keys) == o.world && Emitted(k.events, r.keys.events, o.events))
            && (!r.reply.value.Expired? ==> r.keys == k)
            && var current := && Score(k.leases, g, id) == Some(seenScore) && id in k.node && k.node[id].Holds?
                              && seen == Some(k.node[id].value);
               && (r.reply.value.Expired? <==> current && o.reply.Ok?)
               && (r.reply.value.NotDue? <==> current && !o.reply.Ok?)
  {
    hide Reachable, Abs, Score, NodeScripts.Restatus, ZRem, Emitted;
    FamiliesHold(k);
    StoredNode(k, id);
    if id in Abs(k).nodes { ExpiredIsReachable(k, id); }
  }
}
