/** The scripts as programs over the keyspace: reads, checks, early returns and writes in the order a script makes
    them. Each method is one atomic script run and is proved to compute exactly the step the refinement is about. */
module Server {
  import opened Types
  import opened Naming
  import opened Ordering
  import opened Decimal
  import opened Keyspace
  import opened Schedule
  import opened PlacementScripts
  import Protocol
  import NodeScripts

  class Redis {
    var placement: map<string, Cell<Placement>>
    var node: map<string, Cell<RedisNode>>
    var nodes: map<Group, Cell<set<string>>>
    var invalid: map<Group, Cell<set<string>>>
    var leases: map<Group, Cell<map<string, int>>>
    var index: map<string, Cell<map<string, int>>>
    var roundRobin: map<Group, Cell<string>>
    var sequence: Option<Cell<string>>
    var events: Cell<seq<Event>>
    var audit: Cell<seq<Event>>

    function State(): Keys
      reads this
    {
      Keys(placement, node, nodes, invalid, leases, index, roundRobin, sequence, events, audit)
    }

    constructor ()
      ensures State() == EMPTY_KEYS
    {
      placement, node, nodes, invalid, leases, index, roundRobin := map[], map[], map[], map[], map[], map[], map[];
      sequence, events, audit := None, Holds([]), Holds([]);
    }

    method Xadd(e: Event)
      requires events.Holds?
      modifies this`events
      ensures events == Append(old(events), e)
    {
      events := Holds(events.value + [e]);
    }

    // ----------------------------------------------------------------------------------------
    // Node scripts.

    /** The writes of a registration or a session replacement, in script order. */
    method Enroll(added: Node, kind: EventType)
      requires CollectionOk(nodes, added.GroupOf()) && CollectionOk(leases, added.GroupOf()) && events.Holds?
      modifies this
      ensures State() == NodeScripts.Enroll(old(State()), added, kind)
    {
      hide SAdd, ZAdd;
      node := node[added.identity := Holds(RedisNode(added, added.identity, added.identity))];
      nodes := SAdd(nodes, added.GroupOf(), added.identity);
      leases := ZAdd(leases, added.GroupOf(), added.identity, added.lease.expireAt);
      Xadd(NodeEvent(kind, added));
    }

    method Register(ttl: int, now: int, incoming: Node) returns (r: Response<LeaseReply>)
      modifies this
      ensures Ran(State(), r) == NodeScripts.Register(old(State()), ttl, now, incoming)
    {
      hide NewNodeIdentity, Score, StringOk, CollectionOk, NodeScripts.Enroll;
      var id, g := incoming.identity, incoming.GroupOf();
      if incoming.session == ""
          || NewNodeIdentity(incoming.nodeType, incoming.nodeGroup, incoming.nodeName) != Some(id) {
        return Refused(InvalidIdentity);
      }
      if !(StringOk(node, id) && CollectionOk(nodes, g) && CollectionOk(leases, g) && events.Holds?) {
        return Faulted(WrongTypeFault);
      }
      var existing := Load(node, id);
      if existing.Undecodable? { return Faulted(InvalidJson); }
      if existing.Loaded? {
        var n := existing.value.node;
        if existing.value.nodeKey != id || n.identity != id || n.nodeType != incoming.nodeType
            || n.nodeGroup != incoming.nodeGroup
           || n.nodeName != incoming.nodeName
        {
          return Faulted(IdentityMismatch);
        }
        if n.session != incoming.session { return Refused(InvalidNodeSession); }
        var score := Score(leases, g, id);
        if n.status == Offline {
          if score.Some? && score.value != n.lease.expireAt { return Faulted(LeaseScoreMismatch); }
          return Refused(NodeLeaseExpired);
        }
        if score.None? || score.value != n.lease.expireAt { return Faulted(LeaseScoreMismatch); }
        if n.lease.expireAt <= now { return Refused(NodeLeaseExpired); }
        return Answer(LeaseReply(n.lease.version, n.lease.expireAt - now));
      }
      var added := incoming.(metrics := ZERO_METRICS, status := Active,
          lease := Lease(INITIAL_LEASE_VERSION, ttl, now + ttl));
      Enroll(added, NodeRegistered);
      return Answer(LeaseReply(INITIAL_LEASE_VERSION, ttl));
    }

    method Replace(ttl: int, now: int, incoming: Node) returns (r: Response<(Option<Node>, LeaseReply)>)
      modifies this
      ensures Ran(State(), r) == NodeScripts.Replace(old(State()), ttl, now, incoming)
    {
      hide NewNodeIdentity, Score, StringOk, CollectionOk, NodeScripts.Enroll;
      var id, g := incoming.identity, incoming.GroupOf();
      if incoming.session == ""
          || NewNodeIdentity(incoming.nodeType, incoming.nodeGroup, incoming.nodeName) != Some(id) {
        return Refused(InvalidIdentity);
      }
      if !(StringOk(node, id) && CollectionOk(nodes, g) && CollectionOk(leases, g) && events.Holds?) {
        return Faulted(WrongTypeFault);
      }
      var existing := Load(node, id);
      var previous: Option<Node> := None;
      if existing.Undecodable? { return Faulted(InvalidJson); }
      if existing.Loaded? {
        var n := existing.value.node;
        if n.identity != id || n.nodeType != incoming.nodeType || n.nodeGroup != incoming.nodeGroup
            || n.nodeName != incoming.nodeName
           || existing.value.nodeKey != id
        {
          return Faulted(IdentityMismatch);
        }
        if n.session == incoming.session { return Refused(InvalidNodeSession); }
        var score := Score(leases, g, id);
        if n.status == Offline {
          if score.Some? && score.value != n.lease.expireAt { return Faulted(LeaseScoreMismatch); }
        } else if score.None? || score.value != n.lease.expireAt {
          return Faulted(LeaseScoreMismatch);
        }
        previous := Some(n);
      }
      var added := incoming.(metrics := ZERO_METRICS, status := Active,
          lease := Lease(INITIAL_LEASE_VERSION, ttl, now + ttl));
      Enroll(added, NodeReplaced);
      return Answer((previous, LeaseReply(INITIAL_LEASE_VERSION, ttl)));
    }

    method RenewNode(now: int, id: string, session: string, metrics: Option<Metrics>, seen: Option<Node>)
        returns (r: Response<LeaseReply>)
      modifies this
      ensures Ran(State(), r) == NodeScripts.RenewNode(old(State()), now, id, session, metrics, seen)
    {
      hide Score, ZAdd, StringOk, CollectionOk;
      if seen.None? { return Refused(NodeNotFound); }
      var g := seen.value.GroupOf();
      if !(StringOk(node, id) && CollectionOk(leases, g)) { return Faulted(WrongTypeFault); }
      var loaded := Load(node, id);
      if loaded.Missing? { return Refused(NodeNotFound); }
      if loaded.Undecodable? { return Faulted(InvalidJson); }
      var record := loaded.value;
      var n := record.node;
      if record.nodeKey != id || n.lease.version <= 0 || n.lease.ttl <= 0 { return Faulted(InvalidNode); }
      if n.session != session { return Refused(InvalidNodeSession); }
      var score := Score(leases, g, id);
      if n.status == Offline {
        if score.Some? && score.value != n.lease.expireAt { return Faulted(LeaseScoreMismatch); }
        return Refused(NodeNotFound);
      }
      if score.None? || score.value != n.lease.expireAt { return Faulted(LeaseScoreMismatch); }
      if n.lease.expireAt <= now { return Refused(NodeLeaseExpired); }
      if metrics.Some? {
        var m := metrics.value;
        if m.cpu < 0 || m.cpu > MAX_EXACT_INTEGER || m.memory < 0 || m.memory > MAX_EXACT_INTEGER || m.goroutines < 0
           || m.goroutines > MAX_EXACT_INTEGER
        {
          return Refused(ConfigInvalid);
        }
        n := n.(metrics := m.(updatedAt := now));
      }
      n := n.(lease := n.lease.(version := n.lease.version + 1));
      var expiry := now + n.lease.ttl;
      if expiry < score.value { expiry := score.value; }
      n := n.(lease := n.lease.(expireAt := expiry));
      node := node[id := Holds(record.(node := n))];
      leases := ZAdd(leases, g, id, expiry);
      return Answer(LeaseReply(n.lease.version, expiry - now));
    }

    method Unregister(id: string, session: string, guarded: bool, seen: Option<Node>) returns (r: Response<()>)
      modifies this
      ensures Ran(State(), r) == NodeScripts.Unregister(old(State()), id, session, guarded, seen)
    {
      hide Score, SRem, ZRem, Append, Cardinality;
      if seen.None? { return Refused(NodeNotFound); }
      var g := seen.value.GroupOf();
      if !StringOk(node, id) || !CollectionOk(nodes, g) || !CollectionOk(leases, g) || !CollectionOk(index, id)
          || !events.Holds? {
        return Faulted(WrongTypeFault);
      }
      var loaded := Load(node, id);
      if loaded.Missing? { return Refused(NodeNotFound); }
      if loaded.Undecodable? { return Faulted(InvalidJson); }
      var record := loaded.value;
      if record.nodeKey != id { return Faulted(IdentityMismatch); }
      if record.node.session != session { return Refused(InvalidNodeSession); }
      if guarded && Cardinality(index, id) > 0 { return Refused(NodeHasPlacements); }
      var score := Score(leases, g, id);
      if record.node.status == Offline {
        if score.Some? && score.value != record.node.lease.expireAt { return Faulted(LeaseScoreMismatch); }
      } else if score.None? || score.value != record.node.lease.expireAt {
        return Faulted(LeaseScoreMismatch);
      }
      node := node - {id};
      nodes := SRem(nodes, g, id);
      leases := ZRem(leases, g, id);
      Xadd(NodeEvent(NodeUnregistered, record.node));
      return Answer(());
    }

    method Drain(id: string, seen: Option<Node>) returns (r: Response<()>)
      modifies this
      ensures Ran(State(), r) == NodeScripts.Drain(old(State()), id, seen)
    {
      if seen.None? { return Refused(NodeNotFound); }
      var g := seen.value.GroupOf();
      if !StringOk(node, id) || !CollectionOk(invalid, g) || !CollectionOk(leases, g) || !events.Holds? {
        return Faulted(WrongTypeFault);
      }
      var loaded := Load(node, id);
      if loaded.Missing? { return Refused(NodeNotFound); }
      if loaded.Undecodable? { return Faulted(InvalidJson); }
      if seen.value.nodeName !in Members(invalid, g) { return Refused(NodeNotInvalid); }
      var record := loaded.value;
      if record.nodeKey != id { return Faulted(IdentityMismatch); }
      var score := Score(leases, g, id);
      if record.node.status == Offline {
        if score.Some? && score.value != record.node.lease.expireAt { return Faulted(LeaseScoreMismatch); }
        return Refused(NodeNotFound);
      }
      if score.None? || score.value != record.node.lease.expireAt { return Faulted(LeaseScoreMismatch); }
      record := record.(node := record.node.(status := Draining));
      node := node[id := Holds(record)];
      Xadd(NodeEvent(NodeDraining, record.node));
      return Answer(());
    }

    method MarkInvalid(nodeType: string, nodeGroup: string, nodeName: string) returns (r: Response<()>)
      modifies this
      ensures Ran(State(), r) == NodeScripts.MarkInvalid(old(State()), nodeType, nodeGroup, nodeName)
    {
      var g, identity := Group(nodeType, nodeGroup), NewNodeIdentity(nodeType, nodeGroup, nodeName);
      if identity.None? { return Refused(InvalidIdentity); }
      if !(CollectionOk(invalid, g) && events.Holds?) { return Faulted(WrongTypeFault); }
      invalid := SAdd(invalid, g, nodeName);
      Xadd(Event(NodeMarkedInvalid, "", "", identity.value, "", nodeType, nodeGroup, nodeName, 0, 0));
      return Answer(());
    }

    method Restore(nodeType: string, nodeGroup: string, nodeName: string) returns (r: Response<()>)
      modifies this
      ensures Ran(State(), r) == NodeScripts.Restore(old(State()), nodeType, nodeGroup, nodeName)
    {
      var g, identity := Group(nodeType, nodeGroup), NewNodeIdentity(nodeType, nodeGroup, nodeName);
      if identity.None? { return Refused(InvalidIdentity); }
      if !(CollectionOk(invalid, g) && events.Holds?) { return Faulted(WrongTypeFault); }
      invalid := SRem(invalid, g, nodeName);
      Xadd(Event(NodeRestored, "", "", identity.value, "", nodeType, nodeGroup, nodeName, 0, 0));
      return Answer(());
    }

    method ExpireNode(now: int, id: string, g: Group, seen: Option<RedisNode>, seenScore: int)
        returns (r: Response<NodeScripts.ExpireReply>)
      modifies this
      ensures Ran(State(), r) == NodeScripts.ExpireNode(old(State()), now, id, g, seen, seenScore)
    {
      if !(StringOk(node, id) && CollectionOk(leases, g) && events.Holds?) { return Faulted(WrongTypeFault); }
      var score := Score(leases, g, id);
      if score.None? || score.value != seenScore { return Answer(NodeScripts.Stale); }
      var loaded := Load(node, id);
      if loaded.Missing? {
        leases := ZRem(leases, g, id);
        return Answer(NodeScripts.Stale);
      }
      if loaded.Undecodable? || seen != Some(loaded.value) { return Answer(NodeScripts.Stale); }
      var record := loaded.value;
      if record.node.lease.expireAt != score.value { return Answer(NodeScripts.Stale); }
      if record.nodeKey != id || record.node.lease.version <= 0 || record.node.lease.ttl <= 0 {
        return Faulted(InvalidNode);
      }
      if record.node.status == Offline {
        leases := ZRem(leases, g, id);
        return Answer(NodeScripts.Stale);
      }
      if score.value > now { return Answer(NodeScripts.NotDue); }
      record := record.(node := record.node.(status := Offline));
      node := node[id := Holds(record)];
      leases := ZRem(leases, g, id);
      Xadd(NodeEvent(NodeLeaseExpiredEvent, record.node));
      return Answer(NodeScripts.Expired);
    }

    // ----------------------------------------------------------------------------------------
    // Placement scripts.

    method Lookup(now: int, key: string, seen: Option<Placement>) returns (r: Response<RouteReply>)
      ensures Ran(State(), r) == PlacementScripts.Lookup(State(), now, key, seen)
    {
      if seen.None? { return Refused(PlacementNotFound); }
      var p := seen.value;
      var owner := p.nodeIdentity;
      var g := GroupOfIdentity(owner);
      if !(StringOk(placement, key) && StringOk(node, owner) && CollectionOk(leases, g)) {
        return Faulted(WrongTypeFault);
      }
      if Load(placement, key) != Loaded(p) { return Refused(PlacementNotFound); }
      var loaded := Load(node, owner);
      if loaded.Missing? { return Refused(PlacementNotFound); }
      if loaded.Undecodable? { return Faulted(InvalidJson); }
      var n := loaded.value.node;
      var score := Score(leases, g, owner);
      if p.grainKey != key || p.status != PlacementActive || loaded.value.nodeKey != owner
          || p.nodeIdentity != n.identity
         || p.ownerSession != n.session || (n.status != Active && n.status != Draining) || n.lease.version <= 0
               || n.lease.ttl <= 0
         || score.None? || score.value != n.lease.expireAt || score.value <= now
      {
        return Refused(PlacementNotFound);
      }
      return Answer(RouteReply(p, n.lease.version, Max(0, score.value - now)));
    }

    /** The candidate listing loop shared by allocation and resolution. */
    method ListCandidates(now: int, g: Group, checked: bool) returns (r: Gathering)
      ensures r == Gather(State(), now, g, NodeKeys(State(), g), checked)
    {
      var nodeKeys := NodeKeys(State(), g);
      hide Gather, GatherOne, NodeKeys;
      var candidates: seq<Candidate> := [];
      GatherNone(State(), now, g, nodeKeys, checked);
      for i := 0 to |nodeKeys|
        invariant Gather(State(), now, g, nodeKeys[..i], checked) == Gathered(candidates)
      {
        GatherNext(State(), now, g, nodeKeys, i, checked);
        var more := ListCandidate(now, g, nodeKeys[i], checked, candidates);
        if more.Broken? {
          GatherStops(State(), now, g, nodeKeys, i + 1, checked);
          return more;
        }
        candidates := more.candidates;
      }
      assert nodeKeys[..|nodeKeys|] == nodeKeys;
      return Gathered(candidates);
    }

    /** The body of the listing loop. */
    method ListCandidate(now: int, g: Group, key: string, checked: bool, candidates: seq<Candidate>)
        returns (r: Gathering)
      ensures r == GatherOne(State(), now, g, candidates, key, checked)
    {
      if !StringOk(node, key) { return Broken(WrongTypeFault); }
      var loaded := Load(node, key);
      if loaded.Undecodable? { return Broken(InvalidJson); }
      if loaded.Missing? { return Gathered(candidates); }
      var record := loaded.value;
      if !CollectionOk(index, record.indexKey) { return Broken(WrongTypeFault); }
      var score := Score(leases, g, key);
      if record.nodeKey == key && record.node.nodeType == g.nodeType && record.node.nodeGroup == g.nodeGroup
          && record.node.status == Active
         && (!checked || record.node.lease.version > 0) && record.node.nodeName !in Members(invalid, g)
         && score.Some? && score.value == record.node.lease.expireAt && score.value > now
      {
        return Gathered(candidates + [Candidate(record.node, Cardinality(index, record.indexKey), record.indexKey)]);
      }
      return Gathered(candidates);
    }

    method SelectNode(now: int, policy: Policy, g: Group, checked: bool) returns (s: Selection)
      ensures s == PlacementScripts.Select(State(), now, policy, g, checked)
      ensures s.Selected? ==> CollectionOk(index, s.candidate.indexKey)
    {
      SelectedIndexHolds(State(), now, policy, g, checked);
      hide Gather, Choice, NodeKeys;
      var gathered := ListCandidates(now, g, checked);
      if gathered.Broken? { return Failed(gathered.fault); }
      if |gathered.candidates| == 0 { return Unselected(NoAvailableNode); }
      var turn := ReadCounter(CellAt(roundRobin, g), MaxRoundRobin());
      if turn.None? { return Failed(InvalidCounter); }
      var position := ReadCounter(sequence, MaxSequence());
      if position.None? { return Failed(InvalidCounter); }
      var chosen := ChooseCandidate(gathered.candidates, turn.value, policy.mode, now, policy.config);
      if chosen.None? { return Unselected(NoAvailableNode); }
      return Selected(chosen.value, turn.value, position.value);
    }

    /** The type checks of allocation and resolution. */
    method PlacementTypes(key: string, g: Group, owner: string) returns (ok: bool)
      ensures ok == AllocateTypesOk(State(), key, g, owner)
    {
      if !StringOk(placement, key) || !CollectionOk(nodes, g) || !CollectionOk(invalid, g) || !StringOk(roundRobin, g) {
        return false;
      }
      if !CollectionOk(leases, g) || sequence == Some(WrongType) || !events.Holds? { return false; }
      if !CollectionOk(index, owner) || !StringOk(node, owner) { return false; }
      return CollectionOk(leases, GroupOfIdentity(owner));
    }

    /** The type checks of release, transfer and recovery. */
    method MutationTypes(key: string, owner: string, target: string) returns (ok: bool)
      ensures ok == MutateTypesOk(State(), key, owner, target)
    {
      if !StringOk(placement, key) || !StringOk(node, owner) || !StringOk(node, target) { return false; }
      if !CollectionOk(index, owner) || !CollectionOk(index, target) || !CollectionOk(leases, GroupOfIdentity(target)) {
        return false;
      }
      if !events.Holds? || !CollectionOk(leases, GroupOfIdentity(owner)) { return false; }
      return CollectionOk(invalid, GroupOfIdentity(target)) && sequence != Some(WrongType);
    }

    /** The owner checks of allocation, resolution and recovery. */
    method OwnerIsLive(now: int, owner: string, g: Group, record: RedisNode) returns (live: bool)
      ensures live == LiveOwner(State(), now, owner, g, record)
    {
      var n, score := record.node, Score(leases, g, owner);
      if record.nodeKey != owner || n.identity != owner || (n.status != Active && n.status != Draining) {
        return false;
      }
      return score.Some? && score.value == n.lease.expireAt && score.value > now;
    }

    method OwnerIsHealthy(now: int, p: Placement) returns (healthy: bool)
      ensures healthy == Healthy(State(), now, p)
    {
      hide LiveOwner, GroupOfIdentity;
      var loaded := Load(node, p.nodeIdentity);
      if !loaded.Loaded? { return false; }
      var live := OwnerIsLive(now, p.nodeIdentity, GroupOfIdentity(p.nodeIdentity), loaded.value);
      return live && loaded.value.node.session == p.ownerSession;
    }

    /** The target checks of transfer and recovery. */
    method TargetReceives(now: int, to: string, record: RedisNode) returns (ok: bool)
      ensures ok == Receives(State(), now, to, record)
    {
      hide NodeType, NodeGroup, NodeName;
      var n, g := record.node, GroupOfIdentity(to);
      if record.nodeKey != to || record.indexKey != to || n.identity != to { return false; }
      if n.nodeType != NodeType(to) || n.nodeGroup != NodeGroup(to) || n.nodeName != NodeName(to) { return false; }
      if n.status != Active || n.nodeName in Members(invalid, g) { return false; }
      var score := Score(leases, g, to);
      return score.Some? && score.value == n.lease.expireAt && score.value > now;
    }

    /** The writes of a creation or a cross-node recovery, in script order. */
    method CommitSelection(g: Group, s: Selection, prior: Option<string>, p: Placement, e: Event)
      requires s.Selected? && Canonical(s.turn) && Canonical(s.sequence) && events.Holds?
      requires CollectionOk(index, s.candidate.indexKey) && (prior.Some? ==> CollectionOk(index, prior.value))
      modifies this
      ensures State() == Commit(old(State()), g, s, prior, p, e)
    {
      hide ZAdd, ZRem, Increment;
      roundRobin := roundRobin[g := Holds(Increment(s.turn))];
      var next := Increment(s.sequence);
      sequence := Some(Holds(next));
      if prior.Some? { index := ZRem(index, prior.value, p.grainKey); }
      placement := placement[p.grainKey := Holds(p)];
      index := ZAdd(index, s.candidate.indexKey, p.grainKey, Value(next));
      Xadd(e);
    }

    method Allocate(now: int, policy: Policy, t: Protocol.Target, placementId: string, seen: Option<Placement>)
        returns (r: Response<Placement>)
      modifies this
      ensures Ran(State(), r) == PlacementScripts.Allocate(old(State()), now, policy, t, placementId, seen)
    {
      hide PlacementScripts.Select, Commit, NewGrainKey, NodeType, NodeGroup, Score;
      if NewGrainKey(t.kind, t.grainId).None? { return Refused(InvalidIdentity); }
      var key, owner := NewGrainKey(t.kind, t.grainId).value, OwnerOf(seen);
      var typed := PlacementTypes(key, t.GroupOf(), owner);
      if !typed { return Faulted(WrongTypeFault); }
      var existing := Load(placement, key);
      if existing.Undecodable? { return Faulted(InvalidJson); }
      if existing.Loaded? {
        if seen != Some(existing.value) { return Refused(VersionConflict); }
        if existing.value.grainKey != key { return Faulted(IdentityMismatch); }
        if existing.value.status == PlacementActive {
          var loaded := Load(node, owner);
          if loaded.Undecodable? { return Faulted(InvalidJson); }
          if loaded.Missing? { return Refused(OwnerUnavailable); }
          var live := OwnerIsLive(now, owner, GroupOfIdentity(owner), loaded.value);
          if !live || existing.value.ownerSession != loaded.value.node.session { return Refused(OwnerUnavailable); }
          return Answer(existing.value);
        }
      }
      var s := SelectNode(now, policy, t.GroupOf(), false);
      if s.Failed? { return Faulted(s.fault); }
      if s.Unselected? { return Refused(s.error); }
      var n := s.candidate.node;
      var p := Placement(t.grainId, t.kind, key, placementId, n.identity, n.session, INITIAL_PLACEMENT_VERSION,
          PlacementActive, now, now);
      CommitSelection(t.GroupOf(), s, if existing.Loaded? then Some(owner) else None, p,
          PlacementEvent(p, PlacementCreated));
      return Answer(p);
    }

    method ResolveRoute(now: int, policy: Policy, t: Protocol.Target, placementId: string, seen: Option<Placement>)
        returns (r: Response<RouteReply>)
      modifies this
      ensures Ran(State(), r) == PlacementScripts.ResolveRoute(old(State()), now, policy, t, placementId, seen)
    {
      hide PlacementScripts.Select, Commit, NewGrainKey, NodeType, NodeGroup, NodeName, Score, ResolveOwned,
           ResolveNew;
      if NewGrainKey(t.kind, t.grainId).None? || NewNodeIdentity(t.nodeType, t.nodeGroup, "target").None? {
        return Refused(InvalidIdentity);
      }
      var key, owner := NewGrainKey(t.kind, t.grainId).value, OwnerOf(seen);
      if seen.Some? && (NodeType(owner) == "" || NodeGroup(owner) == "" || NodeName(owner) == "") {
        return Faulted(UnparsableIdentity);
      }
      var typed := PlacementTypes(key, t.GroupOf(), owner);
      if !typed { return Faulted(WrongTypeFault); }
      var current := Load(placement, key);
      if current.Undecodable? || (current.Missing? && seen.Some?) || (current.Loaded? && seen != Some(current.value)) {
        return Refused(VersionConflict);
      }
      if seen.Some? && seen.value.grainKey != key { return Faulted(IdentityMismatch); }
      if seen.Some? && seen.value.status == PlacementActive {
        r := ResolvePlaced(now, policy, t, seen.value);
        return;
      }
      r := ResolveUnplaced(now, policy, t, key, placementId, if seen.Some? then Some(owner) else None);
    }

    method ResolvePlaced(now: int, policy: Policy, t: Protocol.Target, existing: Placement)
        returns (r: Response<RouteReply>)
      requires events.Holds? && CollectionOk(index, existing.nodeIdentity)
      modifies this
      ensures Ran(State(), r) == ResolveOwned(old(State()), now, policy, t, existing)
    {
      hide PlacementScripts.Select, Commit, NodeType, NodeGroup, NodeName, Score, Members;
      var p, owner := existing, existing.nodeIdentity;
      var g := GroupOfIdentity(owner);
      if g != t.GroupOf() { return Refused(TargetMismatch); }
      var loaded := Load(node, owner);
      if loaded.Undecodable? { return Faulted(InvalidJson); }
      if loaded.Loaded? {
        var record := loaded.value;
        var n := record.node;
        var live := OwnerIsLive(now, owner, g, record);
        if live && n.nodeType == g.nodeType && n.nodeGroup == g.nodeGroup && n.nodeName == NodeName(owner)
            && n.lease.version > 0 {
          if n.session == p.ownerSession { return Answer(RouteReply(p, n.lease.version, n.lease.expireAt - now)); }
          p := p.(nodeIdentity := n.identity, ownerSession := n.session, version := p.version + 1,
              status := PlacementActive, updateTime := now);
          placement := placement[p.grainKey := Holds(p)];
          Xadd(PlacementEvent(p, PlacementRecovered).(leaseVersion := n.lease.version));
          return Answer(RouteReply(p, n.lease.version, n.lease.expireAt - now));
        }
      }
      if NodeName(owner) !in Members(invalid, t.GroupOf()) { return Refused(OwnerUnavailable); }
      var s := SelectNode(now, policy, t.GroupOf(), true);
      if s.Failed? { return Faulted(s.fault); }
      if s.Unselected? { return Refused(s.error); }
      var n := s.candidate.node;
      p := p.(nodeIdentity := n.identity, ownerSession := n.session, version := p.version + 1,
          status := PlacementActive, updateTime := now);
      CommitSelection(t.GroupOf(), s, Some(owner), p, PlacementEvent(p,
          PlacementRecovered).(leaseVersion := n.lease.version));
      return Answer(RouteReply(p, n.lease.version, n.lease.expireAt - now));
    }

    method ResolveUnplaced(now: int, policy: Policy, t: Protocol.Target, key: string, placementId: string,
        prior: Option<string>)
      returns (r: Response<RouteReply>)
      requires events.Holds? && (prior.Some? ==> CollectionOk(index, prior.value))
      modifies this
      ensures Ran(State(), r) == ResolveNew(old(State()), now, policy, t, key, placementId, prior)
    {
      hide PlacementScripts.Select, Commit;
      var s := SelectNode(now, policy, t.GroupOf(), true);
      if s.Failed? { return Faulted(s.fault); }
      if s.Unselected? { return Refused(s.error); }
      var n := s.candidate.node;
      var p := Placement(t.grainId, t.kind, key, placementId, n.identity, n.session, INITIAL_PLACEMENT_VERSION,
          PlacementActive, now, now);
      CommitSelection(t.GroupOf(), s, prior, p, PlacementEvent(p, PlacementCreated).(leaseVersion := n.lease.version));
      return Answer(RouteReply(p, n.lease.version, n.lease.expireAt - now));
    }

    method Renew(now: int, c: Protocol.Claim, seen: Option<Placement>) returns (r: Response<Placement>)
      modifies this`audit
      ensures Ran(State(), r) == PlacementScripts.Renew(old(State()), now, c, seen)
    {
      hide NodeType, NodeGroup;
      if seen.None? { return Refused(PlacementNotFound); }
      var p := seen.value;
      var owner := p.nodeIdentity;
      var g := GroupOfIdentity(owner);
      if !(StringOk(placement, c.grainKey) && StringOk(node, owner) && CollectionOk(leases, g) && audit.Holds?) {
        return Faulted(WrongTypeFault);
      }
      var current := Load(placement, c.grainKey);
      if current.Missing? { return Refused(PlacementNotFound); }
      if current != Loaded(p) { return Refused(VersionConflict); }
      var loaded := Load(node, owner);
      if loaded.Undecodable? { return Faulted(InvalidJson); }
      if p.grainKey != c.grainKey || p.status != PlacementActive { return Refused(PlacementNotFound); }
      if p.nodeIdentity != c.nodeIdentity { return Refused(InvalidOwner); }
      if p.placementId != c.placementId || p.version != c.version { return Refused(VersionConflict); }
      if loaded.Missing? { return Refused(OwnerUnavailable); }
      var n := loaded.value.node;
      if loaded.value.nodeKey != owner || n.identity != p.nodeIdentity || (n.status != Active && n.status != Draining) {
        return Refused(OwnerUnavailable);
      }
      if p.ownerSession != c.session || n.session != c.session { return Refused(InvalidNodeSession); }
      var score := Score(leases, g, owner);
      if score.None? || score.value != n.lease.expireAt { return Refused(OwnerUnavailable); }
      if score.value <= now { return Refused(NodeLeaseExpired); }
      audit := Holds(audit.value + [PlacementEvent(p, PlacementRenewed)]);
      return Answer(p);
    }

    method Mutate(now: int, key: string, placementId: string, version: int, m: Mutation, seen: Option<Placement>)
        returns (r: Response<Placement>)
      modifies this
      ensures Ran(State(), r) == PlacementScripts.Mutate(old(State()), now, key, placementId, version, m, seen)
    {
      hide NodeType, NodeGroup, NodeName, ReadCounter, MaxSequence, PlacementScripts.Release, MoveTo;
      if seen.None? { return Refused(PlacementNotFound); }
      var p, target := seen.value, TargetOf(m);
      var owner := p.nodeIdentity;
      if target != "" && NodeType(target) == "" { return Faulted(UnparsableIdentity); }
      var typed := MutationTypes(key, owner, target);
      if !typed { return Faulted(WrongTypeFault); }
      var current := Load(placement, key);
      if current.Missing? { return Refused(PlacementNotFound); }
      if current != Loaded(p) { return Refused(VersionConflict); }
      var ownerRecord, targetRecord := Load(node, owner), Load(node, target);
      if ownerRecord.Undecodable? || targetRecord.Undecodable? { return Faulted(InvalidJson); }
      if p.grainKey != key { return Refused(PlacementNotFound); }
      if p.placementId != placementId || p.version != version { return Refused(VersionConflict); }
      if p.status != PlacementActive {
        if m.RecoverMutation? { return Refused(PlacementNotRecoverable); }
        return Refused(PlacementNotFound);
      }
      var position := ReadCounter(sequence, MaxSequence());
      if position.None? { return Faulted(InvalidCounter); }
      if m.ReleaseMutation? {
        r := ReleasePlacement(now, m, p);
      } else {
        r := MovePlacement(now, m, p, position.value);
      }
    }

    /** The release mode of mutate.lua after its common checks. */
    method ReleasePlacement(now: int, m: Mutation, existing: Placement) returns (r: Response<Placement>)
      requires m.ReleaseMutation? && events.Holds? && CollectionOk(index, existing.nodeIdentity)
      modifies this
      ensures Ran(State(), r) == PlacementScripts.Release(old(State()), now, m, existing)
    {
      hide NodeType, NodeGroup, NodeName, ZRem;
      var p, owner := existing, existing.nodeIdentity;
      if owner != m.from { return Refused(InvalidOwner); }
      var loaded := Load(node, owner);
      if loaded.Undecodable? { return Faulted(InvalidJson); }
      if loaded.Missing? { return Refused(OwnerUnavailable); }
      var record := loaded.value;
      if record.nodeKey != owner || record.node.identity != owner || record.node.GroupOf() != GroupOfIdentity(owner)
         || record.node.nodeName != NodeName(owner)
      {
        return Refused(OwnerUnavailable);
      }
      if p.ownerSession != m.session || record.node.session != m.session { return Refused(InvalidNodeSession); }
      p := p.(version := p.version + 1, updateTime := now);
      index := ZRem(index, owner, p.grainKey);
      placement := placement - {p.grainKey};
      Xadd(PlacementEvent(p, PlacementReleasedEvent));
      return Answer(p);
    }

    /** The transfer and recover modes of mutate.lua after its common checks. */
    method MovePlacement(now: int, m: Mutation, existing: Placement, position: string) returns (r: Response<Placement>)
      requires !m.ReleaseMutation? && events.Holds? && Canonical(position)
      requires CollectionOk(index, existing.nodeIdentity) && CollectionOk(index, m.to)
      modifies this
      ensures Ran(State(), r) == MoveTo(old(State()), now, m, existing, position)
    {
      hide NodeType, NodeGroup, NodeName, Score, Members, ZAdd, ZRem, Increment, Receives, Healthy, GroupOfIdentity;
      var p, owner := existing, existing.nodeIdentity;
      if m.TransferMutation? && m.from != "" && owner != m.from { return Refused(InvalidOwner); }
      var healthy := OwnerIsHealthy(now, p);
      if m.RecoverMutation? && healthy { return Refused(PlacementNotRecoverable); }
      var loaded := Load(node, m.to);
      if loaded.Undecodable? { return Faulted(InvalidJson); }
      if loaded.Missing? { return Refused(NoAvailableNode); }
      var available := TargetReceives(now, m.to, loaded.value);
      if !available { return Refused(NoAvailableNode); }
      p := p.(version := p.version + 1, updateTime := now);
      index := ZRem(index, owner, p.grainKey);
      var n := loaded.value.node;
      p := p.(nodeIdentity := n.identity, ownerSession := n.session, status := PlacementActive);
      placement := placement[p.grainKey := Holds(p)];
      var next := Increment(position);
      sequence := Some(Holds(next));
      index := ZAdd(index, m.to, p.grainKey, Value(next));
      Xadd(PlacementEvent(p, if m.TransferMutation? then PlacementTransferred else PlacementRecovered));
      return Answer(p);
    }
  }

  lemma GatherNone(k: Keys, now: int, g: Group, ids: seq<string>, checked: bool)
    ensures Gather(k, now, g, ids[..0], checked) == Gathered([])
  {
    assert ids[..0] == [];
  }

  lemma GatherNext(k: Keys, now: int, g: Group, ids: seq<string>, i: nat, checked: bool)
    requires i < |ids|
    ensures var so, more := Gather(k, now, g, ids[..i], checked), Gather(k, now, g, ids[..i + 1], checked);
            more == if so.Broken? then so else GatherOne(k, now, g, so.candidates, ids[i], checked)
  {
    var upTo := ids[..i + 1];
    assert upTo[..|upTo| - 1] == ids[..i] && upTo[|upTo| - 1] == ids[i];
  }

  lemma {:induction false} GatherStops(k: Keys, now: int, g: Group, ids: seq<string>, i: nat, checked: bool)
    requires i <= |ids| && Gather(k, now, g, ids[..i], checked).Broken?
    ensures Gather(k, now, g, ids, checked) == Gather(k, now, g, ids[..i], checked)
    decreases |ids|
  {
    if i == |ids| {
      assert ids[..i] == ids;
    } else {
      var init := ids[..|ids| - 1];
      assert init[..i] == ids[..i];
      GatherStops(k, now, g, init, i, checked);
    }
  }
}
