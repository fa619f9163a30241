/** The node and lease scripts as steps over the keyspace, with the client code that runs before each of them:
    argument checks, and the earlier read of the node record (seen) that supplies the group of the keys. */
module NodeScripts {
  import opened Types
  import opened Naming
  import opened Keyspace
  import Protocol

  /** The score a lease set must hold for a stored node. */
  predicate ScoreAgrees(n: Node, score: Option<int>) {
    if n.status == Offline then score.None? || score.value == n.lease.expireAt else score == Some(n.lease.expireAt)
  }

  predicate SameName(a: Node, b: Node) {
    a.identity == b.identity && a.nodeType == b.nodeType && a.nodeGroup == b.nodeGroup && a.nodeName == b.nodeName
  }

  /** SET of a new record, SADD, ZADD and the event of a registration or a session replacement. */
  function Enroll(k: Keys, n: Node, kind: EventType): Keys
    requires CollectionOk(k.nodes, n.GroupOf()) && CollectionOk(k.leases, n.GroupOf()) && k.events.Holds?
  {
    k.(node := k.node[n.identity := Holds(RedisNode(n, n.identity, n.identity))],
       nodes := SAdd(k.nodes, n.GroupOf(), n.identity),
       leases := ZAdd(k.leases, n.GroupOf(), n.identity, n.lease.expireAt),
       events := Append(k.events, NodeEvent(kind, n)))
  }

  predicate EnrollTypesOk(k: Keys, id: string, g: Group) {
    StringOk(k.node, id) && CollectionOk(k.nodes, g) && CollectionOk(k.leases, g) && k.events.Holds?
  }

  function Register(k: Keys, ttl: int, now: int, node: Node): Ran<LeaseReply> {
    var id, g := node.identity, node.GroupOf();
    if !Protocol.NormalizedNode(node) then Ran(k, Refused(InvalidIdentity))
    else if !EnrollTypesOk(k, id, g) then Ran(k, Faulted(WrongTypeFault))
    else match Load(k.node, id)
      case Undecodable => Ran(k, Faulted(InvalidJson))
      case Missing =>
        var added := Protocol.Enrolled(node, ttl, now);
        Ran(Enroll(k, added, NodeRegistered), Answer(LeaseReply(INITIAL_LEASE_VERSION, ttl)))
      case Loaded(rn) =>
        var n := rn.node;
        if rn.nodeKey != id || !SameName(n, node) then Ran(k, Faulted(IdentityMismatch))
        else if n.session != node.session then Ran(k, Refused(InvalidNodeSession))
        else if !ScoreAgrees(n, Score(k.leases, g, id)) then Ran(k, Faulted(LeaseScoreMismatch))
        else if n.status == Offline || n.lease.expireAt <= now then Ran(k, Refused(NodeLeaseExpired))
        else Ran(k, Answer(LeaseReply(n.lease.version, n.lease.expireAt - now)))
  }

  function Replace(k: Keys, ttl: int, now: int, node: Node): Ran<(Option<Node>, LeaseReply)> {
    var id, g := node.identity, node.GroupOf();
    if !Protocol.NormalizedNode(node) then Ran(k, Refused(InvalidIdentity))
    else if !EnrollTypesOk(k, id, g) then Ran(k, Faulted(WrongTypeFault))
    else match Load(k.node, id)
      case Undecodable => Ran(k, Faulted(InvalidJson))
      case Missing =>
        Ran(Enroll(k, Protocol.Enrolled(node, ttl, now), NodeReplaced),
            Answer((None, LeaseReply(INITIAL_LEASE_VERSION, ttl))))
      case Loaded(rn) =>
        var n := rn.node;
        if !SameName(n, node) || rn.nodeKey != id then Ran(k, Faulted(IdentityMismatch))
        else if n.session == node.session then Ran(k, Refused(InvalidNodeSession))
        else if !ScoreAgrees(n, Score(k.leases, g, id)) then Ran(k, Faulted(LeaseScoreMismatch))
        else Ran(Enroll(k, Protocol.Enrolled(node, ttl, now), NodeReplaced),
            Answer((Some(n), LeaseReply(INITIAL_LEASE_VERSION, ttl))))
  }

  /** valid_metric_number for the three metrics of a renewal. */
  predicate StorableMetrics(m: Metrics) {
    0 <= m.cpu <= MAX_EXACT_INTEGER && 0 <= m.memory <= MAX_EXACT_INTEGER && 0 <= m.goroutines <= MAX_EXACT_INTEGER
  }

  function Extend(k: Keys, id: string, g: Group, rn: RedisNode): Keys
    requires CollectionOk(k.leases, g)
  {
    k.(node := k.node[id := Holds(rn)], leases := ZAdd(k.leases, g, id, rn.node.lease.expireAt))
  }

  function RenewNode(k: Keys, now: int, id: string, session: string, metrics: Option<Metrics>,
      seen: Option<Node>): Ran<LeaseReply> {
    if seen.None? then Ran(k, Refused(NodeNotFound))
    else
      var g := seen.value.GroupOf();
      if !(StringOk(k.node, id) && CollectionOk(k.leases, g)) then Ran(k, Faulted(WrongTypeFault))
      else match Load(k.node, id)
        case Missing => Ran(k, Refused(NodeNotFound))
        case Undecodable => Ran(k, Faulted(InvalidJson))
        case Loaded(rn) =>
          var n := rn.node;
          if rn.nodeKey != id || n.lease.version <= 0 || n.lease.ttl <= 0 then Ran(k, Faulted(InvalidNode))
          else if n.session != session then Ran(k, Refused(InvalidNodeSession))
          else if !ScoreAgrees(n, Score(k.leases, g, id)) then Ran(k, Faulted(LeaseScoreMismatch))
          else if n.status == Offline then Ran(k, Refused(NodeNotFound))
          else if n.lease.expireAt <= now then Ran(k, Refused(NodeLeaseExpired))
          else if metrics.Some? && !StorableMetrics(metrics.value) then Ran(k, Refused(ConfigInvalid))
          else
            var renewed := Protocol.Renewed(n, now, metrics);
            Ran(Extend(k, id, g, rn.(node := renewed)),
                Answer(LeaseReply(renewed.lease.version, renewed.lease.expireAt - now)))
  }

  function Forget(k: Keys, id: string, g: Group, n: Node): Keys
    requires CollectionOk(k.nodes, g) && CollectionOk(k.leases, g) && k.events.Holds?
  {
    k.(node := k.node - {id}, nodes := SRem(k.nodes, g, id), leases := ZRem(k.leases, g, id),
       events := Append(k.events, NodeEvent(NodeUnregistered, n)))
  }

  predicate UnregisterTypesOk(k: Keys, id: string, g: Group) {
    && StringOk(k.node, id) && CollectionOk(k.nodes, g) && CollectionOk(k.leases, g) && CollectionOk(k.index, id)
    && k.events.Holds?
  }

  function Unregister(k: Keys, id: string, session: string, guarded: bool, seen: Option<Node>): Ran<()> {
    if seen.None? then Ran(k, Refused(NodeNotFound))
    else
      var g := seen.value.GroupOf();
      if !UnregisterTypesOk(k, id, g) then Ran(k, Faulted(WrongTypeFault))
      else match Load(k.node, id)
        case Missing => Ran(k, Refused(NodeNotFound))
        case Undecodable => Ran(k, Faulted(InvalidJson))
        case Loaded(rn) =>
          if rn.nodeKey != id then Ran(k, Faulted(IdentityMismatch))
          else if rn.node.session != session then Ran(k, Refused(InvalidNodeSession))
          else if guarded && Cardinality(k.index, id) > 0 then Ran(k, Refused(NodeHasPlacements))
          else if !ScoreAgrees(rn.node, Score(k.leases, g, id)) then Ran(k, Faulted(LeaseScoreMismatch))
          else Ran(Forget(k, id, g, rn.node), Answer(()))
  }

  predicate DrainTypesOk(k: Keys, id: string, g: Group) {
    StringOk(k.node, id) && CollectionOk(k.invalid, g) && CollectionOk(k.leases, g) && k.events.Holds?
  }

  function Restatus(k: Keys, id: string, rn: RedisNode, kind: EventType): Keys
    requires k.events.Holds?
  {
    k.(node := k.node[id := Holds(rn)], events := Append(k.events, NodeEvent(kind, rn.node)))
  }

  function Drain(k: Keys, id: string, seen: Option<Node>): Ran<()> {
    if seen.None? then Ran(k, Refused(NodeNotFound))
    else
      var g := seen.value.GroupOf();
      if !DrainTypesOk(k, id, g) then Ran(k, Faulted(WrongTypeFault))
      else match Load(k.node, id)
        case Missing => Ran(k, Refused(NodeNotFound))
        case Undecodable => Ran(k, Faulted(InvalidJson))
        case Loaded(rn) =>
          if seen.value.nodeName !in Members(k.invalid, g) then Ran(k, Refused(NodeNotInvalid))
          else if rn.nodeKey != id then Ran(k, Faulted(IdentityMismatch))
          else if !ScoreAgrees(rn.node, Score(k.leases, g, id)) then Ran(k, Faulted(LeaseScoreMismatch))
          else if rn.node.status == Offline then Ran(k, Refused(NodeNotFound))
          else Ran(Restatus(k, id, rn.(node := rn.node.(status := Draining)), NodeDraining), Answer(()))
  }

  function MarkInvalid(k: Keys, nodeType: string, nodeGroup: string, nodeName: string): Ran<()> {
    var g := Group(nodeType, nodeGroup);
    if NewNodeIdentity(nodeType, nodeGroup, nodeName).None? then Ran(k, Refused(InvalidIdentity))
    else if !(CollectionOk(k.invalid, g) && k.events.Holds?) then Ran(k, Faulted(WrongTypeFault))
    else Ran(k.(invalid := SAdd(k.invalid, g, nodeName),
                events := Append(k.events, Protocol.NameEvent(NodeMarkedInvalid, nodeType, nodeGroup, nodeName))),
          Answer(()))
  }

  function Restore(k: Keys, nodeType: string, nodeGroup: string, nodeName: string): Ran<()> {
    var g := Group(nodeType, nodeGroup);
    if NewNodeIdentity(nodeType, nodeGroup, nodeName).None? then Ran(k, Refused(InvalidIdentity))
    else if !(CollectionOk(k.invalid, g) && k.events.Holds?) then Ran(k, Faulted(WrongTypeFault))
    else Ran(k.(invalid := SRem(k.invalid, g, nodeName),
                events := Append(k.events, Protocol.NameEvent(NodeRestored, nodeType, nodeGroup, nodeName))),
          Answer(()))
  }

  datatype ExpireReply = Expired | Stale | NotDue

  /** One candidate of a lease scan: the record and the score the scan saw are compared with the current ones.
      The two clean-ups that drop a lease score without a change of node answer Stale. */
  function ExpireNode(k: Keys, now: int, id: string, g: Group, seen: Option<RedisNode>,
      seenScore: int): Ran<ExpireReply> {
    if !(StringOk(k.node, id) && CollectionOk(k.leases, g) && k.events.Holds?) then Ran(k, Faulted(WrongTypeFault))
    else
      var score := Score(k.leases, g, id);
      if score != Some(seenScore) then Ran(k, Answer(Stale))
      else match Load(k.node, id)
        case Missing => Ran(k.(leases := ZRem(k.leases, g, id)), Answer(Stale))
        case Undecodable => Ran(k, Answer(Stale))
        case Loaded(rn) =>
          if seen != Some(rn) || rn.node.lease.expireAt != seenScore then Ran(k, Answer(Stale))
          else if rn.nodeKey != id || rn.node.lease.version <= 0 || rn.node.lease.ttl <= 0
          then Ran(k, Faulted(InvalidNode))
          else if rn.node.status == Offline then Ran(k.(leases := ZRem(k.leases, g, id)), Answer(Stale))
          else if seenScore > now then Ran(k, Answer(NotDue))
          else
            var expired := rn.(node := rn.node.(status := Offline));
            Ran(Restatus(k, id, expired, NodeLeaseExpiredEvent).(leases := ZRem(k.leases, g, id)), Answer(Expired))
  }
}
