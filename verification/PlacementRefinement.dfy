/** The placement scripts refine the in-process directory. On every reachable keyspace and for every earlier read
    of the client, current or stale, a script either changes nothing or does what the directory's method does with
    the same node pick. With a current read and counters below their maxima it succeeds exactly when that method
    does. */
module PlacementRefinement {
  import opened Types
  import opened Naming
  import opened Decimal
  import opened Keyspace
  import opened Protocol
  import opened RedisInvariant
  import opened NodeRefinement
  import opened SelectionRefinement
  import opened PlacementScripts

  // ------------------------------------------------------------------------------------------
  // Writes.

  lemma UnindexKeeps(k: Keys, n: string, key: string)
    requires Bookkept(k) && CollectionOk(k.index, n)
    ensures var k' := Unindex(k, n, key);
            Bookkept(k') && Abs(k') == Abs(k).(byNode := DropIndex(Abs(k).byNode, n, key))
  {
    hide Registered, Leased, Scored, CounterWithin, OwnKeys, ZRem, DropIndex, Ownership;
    IndexDropped(k.index, n, key);
    ScoredDropped(k.index, CounterValue(k.sequence), n, key);
  }

  lemma TurnKeeps(k: Keys, g: Group, turn: string)
    requires Bookkept(k) && Canonical(turn) && Value(turn) <= MAX_INT64
    ensures var k' := k.(roundRobin := k.roundRobin[g := Holds(turn)]); Bookkept(k') && Abs(k') == Abs(k)
  {
    hide Registered, Leased, Scored, OwnKeys, AllHold, NoEmptyZSet, NoEmptyCellSet;
  }

  lemma PlaceKeeps(k: Keys, sequence: string, p: Placement, n: string, e: Event, sent: Event)
    requires Bookkept(k) && CollectionOk(k.index, n) && Canonical(sequence) && k.events.Holds?
    requires Value(sequence) == CounterValue(k.sequence) < MAX_EXACT_INTEGER
    requires e.(leaseVersion := sent.leaseVersion) == sent
    ensures var k' := Place(k, sequence, p, n, e);
            && Bookkept(k')
            && Abs(k')
                  == Abs(k).(placements := Abs(k).placements[p.grainKey := p],
                  byNode := AddIndex(Abs(k).byNode, n, p.grainKey))
            && Emitted(k.events, k'.events, [sent])
  {
    hide Registered, Leased, Scored, OwnKeys, ZAdd, AddIndex, Ownership, Increment, Emitted;
    IndexAdded(k.index, n, p.grainKey, Value(Increment(sequence)));
    ScoredAdded(k.index, CounterValue(k.sequence), n, p.grainKey);
    ValuesSet(k.placement, p.grainKey, p);
    EmittedOne(k.events, e, sent);
  }

  /** The world after a creation or a move, given where the grain was indexed before. */
  function Placed(w: World, prior: Option<string>, p: Placement): World {
    var cleared := if prior.Some? then DropIndex(w.byNode, prior.value, p.grainKey) else w.byNode;
    w.(placements := w.placements[p.grainKey := p], byNode := AddIndex(cleared, p.nodeIdentity, p.grainKey))
  }

  lemma CommitKeeps(k: Keys, g: Group, s: Selection, prior: Option<string>, p: Placement, e: Event, sent: Event)
    requires Bookkept(k) && s.Selected? && Canonical(s.turn) && Canonical(s.sequence) && k.events.Holds?
    requires CollectionOk(k.index, s.candidate.indexKey) && (prior.Some? ==> CollectionOk(k.index, prior.value))
    requires Value(s.sequence) == CounterValue(k.sequence) < MAX_EXACT_INTEGER && Value(Increment(s.turn)) <= MAX_INT64
    requires p.nodeIdentity == s.candidate.indexKey && e.(leaseVersion := sent.leaseVersion) == sent
    ensures var k' := Commit(k, g, s, prior, p, e);
            Bookkept(k') && Abs(k') == Placed(Abs(k), prior, p) && Emitted(k.events, k'.events, [sent])
  {
    hide Bookkept, Abs, Place, ZRem, AddIndex, DropIndex, Increment, Emitted;
    var turned := k.(roundRobin := k.roundRobin[g := Holds(Increment(s.turn))]);
    TurnKeeps(k, g, Increment(s.turn));
    var cleared := if prior.Some? then Unindex(turned, prior.value, p.grainKey) else turned;
    if prior.Some? { UnindexKeeps(turned, prior.value, p.grainKey); }
    BookkeptHolds(cleared);
    PlaceKeeps(cleared, s.sequence, p, s.candidate.indexKey, e, sent);
  }

  lemma BookkeptHolds(k: Keys)
    requires Bookkept(k)
    ensures forall n :: CollectionOk(k.index, n)
    ensures k.events.Holds?
  {
    hide Registered, Leased, Scored, OwnKeys, CounterWithin;
  }

  /** The stored placement of a grain. */
  lemma StoredPlacement(k: Keys, key: string)
    requires Reachable(k)
    ensures Load(k.placement, key) == if key in Abs(k).placements then Loaded(Abs(k).placements[key]) else Missing
    ensures key in Abs(k).placements ==> GoodPlacement(key, Abs(k).placements[key])
  {
    hide Registered, Leased, Scored, OwnKeys, CounterWithin, GoodPlacement;
  }

  lemma LiveIsUsable(k: Keys, now: int, id: string)
    requires Reachable(k) && id in Abs(k).nodes
    ensures var n := Abs(k).nodes[id];
            && (LiveOwner(k, now, id, GroupOfIdentity(id), RedisNode(n, id, id)) <==> SessionUsable(n, now))
            && n.identity == id && n.GroupOf() == GroupOfIdentity(id) && n.nodeName == NodeName(id)
            && n.lease.version > 0 && n.lease.ttl > 0
  {
    hide Reachable, Abs, Score, NodeType, NodeGroup, NodeName;
    StoredNode(k, id);
  }

  lemma ReceivesIsAvailable(k: Keys, now: int, id: string)
    requires Reachable(k) && id in Abs(k).nodes
    ensures Receives(k, now, id, RedisNode(Abs(k).nodes[id], id, id)) <==> Available(Abs(k), Abs(k).nodes[id], now)
  {
    hide Reachable, Abs, Score, NodeType, NodeGroup, NodeName, Members, NameInvalid;
    StoredNode(k, id);
    NamesMatch(k, GroupOfIdentity(id), NodeName(id));
  }

  // ------------------------------------------------------------------------------------------
  // Outcomes.

  /** A script that either changed nothing or did what the in-process command does. */
  ghost predicate Simulates<A(!new), B(!new)>(k: Keys, r: Ran<A>, o: Outcome<B>) {
    && Reachable(r.keys)
    && (r.reply.Answer? ==> o.reply.Ok? && Abs(r.keys) == o.world && Emitted(k.events, r.keys.events, o.events))
    && (!r.reply.Answer? ==> r.keys == k)
  }

  /** A route answered by a script at some server time, against the in-process route. */
  predicate SameRoute(r: RouteReply, route: Route, now: int) {
    route == Route(r.placement.grainKey, r.placement.placementId, r.placement.nodeIdentity, r.placement.ownerSession,
                   r.placement.version, r.placement.status, r.leaseVersion, now + r.remaining)
  }

  predicate Parsable(seen: Option<Placement>) {
    seen.Some? ==> WellFormedIdentity(seen.value.nodeIdentity)
  }

  // ------------------------------------------------------------------------------------------
  // Lookup and renewal.

  lemma LookupRefines(k: Keys, now: int, key: string, seen: Option<Placement>)
    requires Reachable(k)
    ensures var r, o := PlacementScripts.Lookup(k, now, key, seen), Protocol.Lookup(Abs(k), now, key);
            && r.keys == k && !r.reply.Faulted?
            && (r.reply.Answer? <==> o.Ok? && Unmoved(k, key, seen))
            && (r.reply.Answer? ==> SameRoute(r.reply.value, o.value, now))
  {
    hide Reachable, Abs, LiveOwner, NodeType, NodeGroup, NodeName, WellFormedIdentity, Score;
    FamiliesHold(k);
    StoredPlacement(k, key);
    StoredNode(k, OwnerOf(seen));
    if OwnerOf(seen) in Abs(k).nodes { LiveIsUsable(k, now, OwnerOf(seen)); }
  }

  lemma RenewRefines(k: Keys, now: int, c: Claim, seen: Option<Placement>)
    requires Reachable(k)
    ensures var r, o := PlacementScripts.Renew(k, now, c, seen), Protocol.Renew(Abs(k), now, c);
            && !r.reply.Faulted?
            && (r.reply.Answer? <==> o.reply.Ok? && Unmoved(k, c.grainKey, seen))
            && (r.reply.Answer? ==>
                  o.reply == Ok(r.reply.value) && r.keys == k.(audit := r.keys.audit)
                  && Emitted(k.audit, r.keys.audit, o.events))
            && (!r.reply.Answer? ==> r.keys == k)
            && Abs(r.keys) == Abs(k) == o.world && Reachable(r.keys)
  {
    hide Reachable, Abs, NodeType, NodeGroup, NodeName, WellFormedIdentity, Score, Emitted, Append;
    FamiliesHold(k);
    StoredPlacement(k, c.grainKey);
    StoredNode(k, OwnerOf(seen));
    if seen.Some? {
      EmittedOne(k.audit, PlacementEvent(seen.value, PlacementRenewed), PlacementEvent(seen.value, PlacementRenewed));
    }
    if OwnerOf(seen) in Abs(k).nodes { LiveIsUsable(k, now, OwnerOf(seen)); }
    AuditKeeps(k, PlacementScripts.Renew(k, now, c, seen).keys);
  }

  lemma AuditKeeps(k: Keys, k': Keys)
    requires Reachable(k)
    ensures k' == k.(audit := k'.audit) && k'.audit.Holds? ==> Reachable(k') && Abs(k') == Abs(k)
  {
    hide Registered, Leased, Scored, OwnKeys, CounterWithin, Valid;
  }

  // ------------------------------------------------------------------------------------------
  // Allocation.

  /** The in-process allocation when nothing runs between its two phases. */
  function AllocateAtOnce(w: World, now: int, t: Target, placementId: string, pick: Option<Node>): Outcome<Placement> {
    match AllocatePrepare(w, now, t)
    case Existing(p) => Protocol.Reply(w, p)
    case Stopped(e) => Refuse(w, e)
    case Proceed(_) =>
      if pick.None? then Refuse(w, StrategyFailed) else AllocateCommit(w, now, t, placementId, pick.value)
  }

  /** The pick the allocation script makes. */
  ghost function AllocatePick(k: Keys, now: int, policy: Policy, t: Target): Option<Node> {
    PickOf(Select(k, now, policy, t.GroupOf(), false))
  }

  lemma NewGrain(w: World, now: int, t: Target, placementId: string, key: string, c: Node)
    requires Valid(w) && NewGrainKey(t.kind, t.grainId) == Some(key) && key !in w.placements
    requires c.identity in Candidates(w, now, t.GroupOf()) && w.nodes[c.identity] == c
    ensures var p := NewPlacement(t, key, placementId, c, now);
            && Placed(w, None, p) == Create(w, p)
            && Valid(Create(w, p))
            && AllocateCommit(w, now, t, placementId, c)
                  == Outcome(Create(w, p), [PlacementEvent(p, PlacementCreated)], Ok(p))
  {
    var p := NewPlacement(t, key, placementId, c, now);
    assert GoodNode(c.identity, c);
    CreateKeepsValid(w, p);
    hide Valid;
  }

  /** The creating part of both scripts: what it writes when it selects a node. */
  lemma CreationIsReachable(k: Keys, now: int, policy: Policy, t: Target, placementId: string, key: string,
      checked: bool, e: Event)
    requires Reachable(k) && NewGrainKey(t.kind, t.grainId) == Some(key) && key !in Abs(k).placements
    requires Select(k, now, policy, t.GroupOf(), checked).Selected?
    requires var s := Select(k, now, policy, t.GroupOf(), checked);
             e.(leaseVersion := 0)
                 == PlacementEvent(NewPlacement(t, key, placementId, s.candidate.node, now), PlacementCreated)
    ensures var s := Select(k, now, policy, t.GroupOf(), checked);
            var p := NewPlacement(t, key, placementId, s.candidate.node, now);
            && k.events.Holds? && CollectionOk(k.index, s.candidate.indexKey)
            && var k' := Commit(k, t.GroupOf(), s, None, p, e);
               && Reachable(k')
               && s.candidate.node.identity in Candidates(Abs(k), now, t.GroupOf())
               && Abs(k).nodes[s.candidate.node.identity] == s.candidate.node
               && Abs(k') == Create(Abs(k), p)
               && Emitted(k.events, k'.events, [PlacementEvent(p, PlacementCreated)])
  {
    hide Abs, Select, Bookkept, Valid, Candidates, Commit, Increment, Emitted, Create, NewGrainKey;
    var s := Select(k, now, policy, t.GroupOf(), checked);
    var p := NewPlacement(t, key, placementId, s.candidate.node, now);
    FamiliesHold(k);
    SelectionIsAvailable(k, now, policy, t.GroupOf(), checked);
    NewGrain(Abs(k), now, t, placementId, key, s.candidate.node);
    CommitKeeps(k, t.GroupOf(), s, None, p, e, PlacementEvent(p, PlacementCreated));
  }

  lemma AllocateNewRefines(k: Keys, now: int, policy: Policy, t: Target, placementId: string, key: string)
    requires Reachable(k) && NewGrainKey(t.kind, t.grainId) == Some(key) && key !in Abs(k).placements && k.events.Holds?
    ensures var r := AllocateNew(k, now, policy, t, key, placementId, None);
            var o := AllocateAtOnce(Abs(k), now, t, placementId, AllocatePick(k, now, policy, t));
            && Simulates(k, r, o)
            && (r.reply.Answer? ==> o.reply == Ok(r.reply.value))
            && (r.reply.Faulted? ==> r.reply.fault == InvalidCounter && !CountersBelow(k, t.GroupOf()))
            && (r.reply.Answer? <==> o.reply.Ok?)
  {
    hide Reachable, Abs, Select, Commit, Increment, Emitted, Create, NewGrainKey, CountersBelow, Available, InputFor;
    var s := Select(k, now, policy, t.GroupOf(), false);
    SelectionIsAvailable(k, now, policy, t.GroupOf(), false);
    if s.Selected? {
      var p := NewPlacement(t, key, placementId, s.candidate.node, now);
      CreationIsReachable(k, now, policy, t, placementId, key, false, PlacementEvent(p, PlacementCreated));
      ReachableIsValid(k);
      NewGrain(Abs(k), now, t, placementId, key, s.candidate.node);
    }
  }

  lemma ReachableIsValid(k: Keys)
    requires Reachable(k)
    ensures Valid(Abs(k))
  {
  }

  /** Allocation. A stale read of a grain that has a record answers a version conflict; otherwise the script
      succeeds exactly when an uninterrupted in-process allocation with the script's pick does. */
  lemma AllocateRefines(k: Keys, now: int, policy: Policy, t: Target, placementId: string, seen: Option<Placement>)
    requires Reachable(k)
    ensures var r := PlacementScripts.Allocate(k, now, policy, t, placementId, seen);
            var o := AllocateAtOnce(Abs(k), now, t, placementId, AllocatePick(k, now, policy, t));
            var key := NewGrainKey(t.kind, t.grainId);
            && Simulates(k, r, o)
            && (r.reply.Answer? ==> o.reply == Ok(r.reply.value))
            && (r.reply.Faulted? ==> r.reply.fault == InvalidCounter && !CountersBelow(k, t.GroupOf()))
            && (key.Some? && key.value in Abs(k).placements && seen != Some(Abs(k).placements[key.value])
                ==> r.reply == Refused(VersionConflict))
            && (!(key.Some? && key.value in Abs(k).placements && seen != Some(Abs(k).placements[key.value]))
                ==> (r.reply.Answer? <==> o.reply.Ok?))
  {
    hide Reachable, Abs, Select, AllocateNew, Emitted, NewGrainKey, CountersBelow, Available, InputFor, LiveOwner,
         Score, NodeType, NodeGroup, NodeName, WellFormedIdentity, AllocateCommit;
    FamiliesHold(k);
    var named := NewGrainKey(t.kind, t.grainId);
    if named.Some? {
      var key := named.value;
      StoredPlacement(k, key);
      EmittedNone(k.events);
      if key !in Abs(k).placements {
        AllocateNewRefines(k, now, policy, t, placementId, key);
      } else {
        StoredNode(k, OwnerOf(seen));
        if OwnerOf(seen) in Abs(k).nodes { LiveIsUsable(k, now, OwnerOf(seen)); }
      }
    }
  }

  // ------------------------------------------------------------------------------------------
  // Route resolution.

  ghost function ResolvePick(k: Keys, now: int, policy: Policy, t: Target): Option<Node> {
    PickOf(Select(k, now, policy, t.GroupOf(), true))
  }

  lemma ResolveNewRefines(k: Keys, now: int, policy: Policy, t: Target, placementId: string, key: string)
    requires Reachable(k) && TargetNamed(t) && NewGrainKey(t.kind, t.grainId) == Some(key) && key !in Abs(k).placements
    requires k.events.Holds?
    ensures var r := ResolveNew(k, now, policy, t, key, placementId, None);
            var o := Protocol.ResolveRoute(Abs(k), now, t, placementId, ResolvePick(k, now, policy, t));
            && Simulates(k, r, o)
            && (r.reply.Answer? ==> SameRoute(r.reply.value, o.reply.value, now))
            && (r.reply.Faulted? ==> r.reply.fault == InvalidCounter && !CountersBelow(k, t.GroupOf()))
            && (r.reply.Answer? <==> o.reply.Ok?)
  {
    hide Reachable, Abs, Select, Commit, Increment, Emitted, Create, NewGrainKey, TargetNamed, CountersBelow,
         Available, ChooseTarget, Candidates;
    var s := Select(k, now, policy, t.GroupOf(), true);
    SelectionIsAvailable(k, now, policy, t.GroupOf(), true);
    SelectionIsAccepted(k, now, policy, t.GroupOf(), true);
    if s.Selected? {
      var p := NewPlacement(t, key, placementId, s.candidate.node, now);
      CreationIsReachable(k, now, policy, t, placementId, key, true,
          PlacementEvent(p, PlacementCreated).(leaseVersion := s.candidate.node.lease.version));
    }
  }

  /** A placement that moves to another node: the selected one, or the target of a transfer or recovery. */
  lemma MoveIsPlaced(w: World, p: Placement, n: Node, now: int)
    requires Valid(w) && p.grainKey in w.placements && w.placements[p.grainKey] == p
    requires n.identity in w.nodes && w.nodes[n.identity] == n
    ensures Placed(w, Some(p.nodeIdentity), Moved(p, n, now)) == Move(w, p, n, now)
    ensures Valid(Move(w, p, n, now))
  {
    assert GoodNode(n.identity, n);
    MoveKeepsValid(w, p.grainKey, n, now);
  }

  lemma ElsewhereIsReachable(k: Keys, now: int, policy: Policy, t: Target, p: Placement, e: Event)
    requires Reachable(k) && p.grainKey in Abs(k).placements && Abs(k).placements[p.grainKey] == p
    requires Select(k, now, policy, t.GroupOf(), true).Selected?
    requires var s := Select(k, now, policy, t.GroupOf(), true);
             e.(leaseVersion := 0) == PlacementEvent(Moved(p, s.candidate.node, now), PlacementRecovered)
    ensures var s := Select(k, now, policy, t.GroupOf(), true);
            var moved := Moved(p, s.candidate.node, now);
            && k.events.Holds? && CollectionOk(k.index, s.candidate.indexKey) && CollectionOk(k.index, p.nodeIdentity)
            && var k' := Commit(k, t.GroupOf(), s, Some(p.nodeIdentity), moved, e);
               && Reachable(k')
               && Abs(k') == Move(Abs(k), p, s.candidate.node, now)
               && Emitted(k.events, k'.events, [PlacementEvent(moved, PlacementRecovered)])
  {
    hide Abs, Select, Bookkept, Valid, Commit, Increment, Emitted, Move, Placed;
    var s := Select(k, now, policy, t.GroupOf(), true);
    var moved := Moved(p, s.candidate.node, now);
    FamiliesHold(k);
    SelectionIsAvailable(k, now, policy, t.GroupOf(), true);
    MoveIsPlaced(Abs(k), p, s.candidate.node, now);
    CommitKeeps(k, t.GroupOf(), s, Some(p.nodeIdentity), moved, e, PlacementEvent(moved, PlacementRecovered));
  }

  lemma ResolveElsewhereRefines(k: Keys, now: int, policy: Policy, t: Target, p: Placement)
    requires Reachable(k) && p.grainKey in Abs(k).placements && Abs(k).placements[p.grainKey] == p
    requires GroupOfIdentity(p.nodeIdentity) == t.GroupOf() && k.events.Holds? && CollectionOk(k.index, p.nodeIdentity)
    ensures var r := ResolveElsewhere(k, now, policy, t, p);
            var o := RelocateFromBarred(Abs(k), now, t, p, ResolvePick(k, now, policy, t));
            && Simulates(k, r, o)
            && (r.reply.Answer? ==> SameRoute(r.reply.value, o.reply.value, now))
            && (r.reply.Faulted? ==> r.reply.fault == InvalidCounter && !CountersBelow(k, t.GroupOf()))
            && (r.reply.Answer? <==> o.reply.Ok?)
  {
    hide Reachable, Abs, Select, Commit, Increment, Emitted, Move, CountersBelow, Available, ChooseTarget, Candidates,
         Members, NameInvalid, NodeName, NodeType, NodeGroup;
    var s := Select(k, now, policy, t.GroupOf(), true);
    NamesMatch(k, t.GroupOf(), NodeName(p.nodeIdentity));
    SelectionIsAvailable(k, now, policy, t.GroupOf(), true);
    SelectionIsAccepted(k, now, policy, t.GroupOf(), true);
    if s.Selected? {
      var moved := Moved(p, s.candidate.node, now);
      ElsewhereIsReachable(k, now, policy, t, p, PlacementEvent(moved,
          PlacementRecovered).(leaseVersion := s.candidate.node.lease.version));
    }
  }

  /** Session recovery rewrites the record and leaves the index alone; in process the grain is taken out of its
      own index entry and put back. */
  lemma SessionRecoveryIsReachable(k: Keys, now: int, p: Placement, n: Node, e: Event)
    requires Reachable(k) && p.grainKey in Abs(k).placements && Abs(k).placements[p.grainKey] == p && k.events.Holds?
    requires p.nodeIdentity in Abs(k).nodes && Abs(k).nodes[p.nodeIdentity] == n && n.identity == p.nodeIdentity
    requires e.(leaseVersion := 0) == PlacementEvent(Moved(p, n, now), PlacementRecovered)
    ensures var moved := Moved(p, n, now);
            var k' := k.(placement := k.placement[p.grainKey := Holds(moved)], events := Append(k.events, e));
            Reachable(k') && Abs(k') == Move(Abs(k), p, n, now)
                && Emitted(k.events, k'.events, [PlacementEvent(moved, PlacementRecovered)])
  {
    hide Registered, Leased, Scored, OwnKeys, CounterWithin, Emitted, Ownership, GoodNode, NodesOf;
    var moved := Moved(p, n, now);
    ValuesSet(k.placement, p.grainKey, moved);
    EmittedOne(k.events, e, PlacementEvent(moved, PlacementRecovered));
    MoveIsPlaced(Abs(k), p, n, now);
    BackInPlace(Abs(k), p);
  }

  lemma BackInPlace(w: World, p: Placement)
    requires IndexAgrees(w) && NoEmptySet(w.byNode) && p.grainKey in w.placements && w.placements[p.grainKey] == p
    ensures AddIndex(DropIndex(w.byNode, p.nodeIdentity, p.grainKey), p.nodeIdentity, p.grainKey) == w.byNode
  {
    var n := p.nodeIdentity;
    assert p.grainKey in Owned(w.byNode, n);
    assert w.byNode[n] - {p.grainKey} + {p.grainKey} == w.byNode[n];
    var dropped := DropIndex(w.byNode, n, p.grainKey);
    assert Owned(dropped, n) + {p.grainKey} == w.byNode[n];
  }

  lemma ResolveOwnedRefines(k: Keys, now: int, policy: Policy, t: Target, p: Placement)
    requires Reachable(k) && p.grainKey in Abs(k).placements && Abs(k).placements[p.grainKey] == p
    requires p.status == PlacementActive
    requires k.events.Holds? && CollectionOk(k.index, p.nodeIdentity)
    ensures var r := ResolveOwned(k, now, policy, t, p);
            var o := ResolvePlaced(Abs(k), now, t, p, ResolvePick(k, now, policy, t));
            && Simulates(k, r, o)
            && (r.reply.Answer? ==> SameRoute(r.reply.value, o.reply.value, now))
            && (r.reply.Faulted? ==> r.reply.fault == InvalidCounter && !CountersBelow(k, t.GroupOf()))
            && (r.reply.Answer? <==> o.reply.Ok?)
  {
    hide Reachable, Abs, Select, Emitted, Move, CountersBelow, Available, ChooseTarget, Candidates, NameInvalid,
         NodeName, NodeType, NodeGroup, ResolveElsewhere, RelocateFromBarred, LiveOwner, Append, Score;
    var owner := p.nodeIdentity;
    StoredNode(k, owner);
    EmittedNone(k.events);
    if GroupOfIdentity(owner) == t.GroupOf() { ResolveElsewhereRefines(k, now, policy, t, p); }
    if owner in Abs(k).nodes {
      var n := Abs(k).nodes[owner];
      LiveIsUsable(k, now, owner);
      SessionRecoveryIsReachable(k, now, p, n, PlacementEvent(Moved(p, n, now),
          PlacementRecovered).(leaseVersion := n.lease.version));
    }
  }

  lemma TargetNames(w: World, now: int, t: Target, placementId: string, pick: Option<Node>)
    ensures TargetNamed(t) ==> NewGrainKey(t.kind, t.grainId).Some?
    ensures !TargetNamed(t) ==> Protocol.ResolveRoute(w, now, t, placementId, pick) == Refuse(w, InvalidIdentity)
  {
    hide NewGrainKey, NewNodeIdentity;
  }

  /** Route resolution. With a stale read the script answers a version conflict and changes nothing; with a
      current one it succeeds exactly when the in-process resolution with the script's pick does. */
  lemma ResolveRefines(k: Keys, now: int, policy: Policy, t: Target, placementId: string, seen: Option<Placement>)
    requires Reachable(k) && Parsable(seen)
    ensures var r := PlacementScripts.ResolveRoute(k, now, policy, t, placementId, seen);
            var o := Protocol.ResolveRoute(Abs(k), now, t, placementId, ResolvePick(k, now, policy, t));
            && Simulates(k, r, o)
            && (r.reply.Answer? ==> SameRoute(r.reply.value, o.reply.value, now))
            && (r.reply.Faulted? ==> r.reply.fault == InvalidCounter && !CountersBelow(k, t.GroupOf()))
            && (TargetNamed(t) ==>
                  var key := NewGrainKey(t.kind, t.grainId).value;
                  && (!Unmoved(k, key, seen) ==> r.reply == Refused(VersionConflict))
                  && (Unmoved(k, key, seen) ==> (r.reply.Answer? <==> o.reply.Ok?)))
  {
    hide Reachable, Abs, ResolvePick, Emitted, NewGrainKey, CountersBelow, ResolveOwned, ResolveNew, ResolvePlaced,
         NodeType, NodeGroup, NodeName, SameRoute, TargetNamed, Protocol.ResolveRoute;
    TargetNames(Abs(k), now, t, placementId, ResolvePick(k, now, policy, t));
    FamiliesHold(k);
    if TargetNamed(t) {
      var key := NewGrainKey(t.kind, t.grainId).value;
      StoredPlacement(k, key);
      var pick := ResolvePick(k, now, policy, t);
      if key !in Abs(k).placements {
        ResolveNewRefines(k, now, policy, t, placementId, key);
      } else if seen == Some(Abs(k).placements[key]) {
        ResolvePlacedIsResolve(Abs(k), now, t, placementId, pick, key);
        ResolveOwnedRefines(k, now, policy, t, seen.value);
      }
    }
  }
}
