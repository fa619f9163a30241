/** The in-process node registry and placement directory: maps updated in place under a lock. Each method is one
    critical section; the clock reading of the section is its parameter now. */
module Memory {
  import opened Types
  import opened Naming
  import opened Ordering
  import opened Protocol
  import Decimal

  class NodeRegistry {
    var nodes: map<string, Node>
    var invalid: map<Group, set<string>>
    // Events in the order they were handed to the publisher.
    var outbox: seq<Event>
    const ttl: int

    /** The registry as a world without placements. */
    ghost function View(): World
      reads this
    {
      World(map[], map[], nodes, invalid)
    }

    ghost predicate Valid()
      reads this
    {
      ttl > 0 && Protocol.Valid(View())
    }

    constructor (ttl: int)
      requires ttl > 0
      ensures Valid() && View() == EMPTY_WORLD && outbox == [] && this.ttl == ttl
    {
      this.ttl := ttl;
      nodes, invalid, outbox := map[], map[], [];
    }

    method RegisterNode(now: int, node: Node) returns (r: Result<Grant>)
      requires Valid()
      modifies this
      ensures Valid()
      ensures var o := Protocol.RegisterNode(old(View()), ttl, now, node);
              View() == o.world && outbox == old(outbox) + o.events && r == o.reply
    {
      StepKeepsValid(View(), ttl, now, CRegister(node));
      hide Protocol.Valid;
      if !NormalizedNode(node) { return Err(InvalidIdentity); }
      if node.identity in nodes {
        var existing := nodes[node.identity];
        if existing.session != node.session { return Err(InvalidNodeSession); }
        if existing.status == Offline || LeaseExpired(existing, now) { return Err(NodeLeaseExpired); }
        return Ok(GrantOf(existing));
      }
      var added := node.(metrics := ZERO_METRICS, status := Active, lease := NewLease(ttl, now));
      nodes := nodes[added.identity := added];
      outbox := outbox + [NodeEvent(NodeRegistered, added)];
      return Ok(GrantOf(added));
    }

    method RenewNode(now: int, identity: string, session: string, metrics: Option<Metrics>) returns (r: Result<Grant>)
      requires Valid()
      modifies this
      ensures Valid() && outbox == old(outbox)
      ensures var o := Protocol.RenewNode(old(View()), now, identity, session, metrics);
              View() == o.world && r == o.reply
    {
      StepKeepsValid(View(), ttl, now, CRenewNode(identity, session, metrics));
      hide Protocol.Valid, Renewed;
      if identity !in nodes || nodes[identity].status == Offline { return Err(NodeNotFound); }
      var node := nodes[identity];
      if node.session != session { return Err(InvalidNodeSession); }
      if LeaseExpired(node, now) { return Err(NodeLeaseExpired); }
      if metrics.Some? && MetricsNegative(metrics.value) { return Err(ConfigInvalid); }
      node := ExtendLease(node, now, metrics);
      nodes := nodes[identity := node];
      return Ok(GrantOf(node));
    }

    method ExtendLease(n: Node, now: int, metrics: Option<Metrics>) returns (node: Node)
      ensures node == Renewed(n, now, metrics)
    {
      node := n;
      node := node.(lease := node.lease.(version := node.lease.version + 1));
      var newExpiry := now + node.lease.ttl;
      if newExpiry > node.lease.expireAt {
        node := node.(lease := node.lease.(expireAt := newExpiry));
      }
      if metrics.Some? {
        node := node.(metrics := metrics.value.(updatedAt := now));
      }
    }

    method ReplaceNodeSession(now: int, node: Node) returns (r: Result<(Option<Node>, Grant)>)
      requires Valid()
      modifies this
      ensures Valid()
      ensures var o := Protocol.ReplaceNodeSession(old(View()), ttl, now, node);
              View() == o.world && outbox == old(outbox) + o.events && r == o.reply
    {
      StepKeepsValid(View(), ttl, now, CReplace(node));
      hide Protocol.Valid;
      if !NormalizedNode(node) { return Err(InvalidIdentity); }
      var previous: Option<Node> := None;
      if node.identity in nodes {
        previous := Some(nodes[node.identity]);
        if previous.value.session == node.session { return Err(InvalidNodeSession); }
      }
      var added := node.(metrics := ZERO_METRICS, status := Active, lease := NewLease(ttl, now));
      nodes := nodes[added.identity := added];
      outbox := outbox + [NodeEvent(NodeReplaced, added)];
      return Ok((previous, GrantOf(added)));
    }

    /** Removes a node; with a guard it is refused while the node still owns placements. */
    method UnregisterNode(identity: string, session: string, hasPlacements: bool) returns (r: Result<()>)
      requires Valid()
      modifies this
      ensures Valid() && invalid == old(invalid)
      ensures r == if identity !in old(nodes) then Err(NodeNotFound)
                   else if old(nodes)[identity].session != session then Err(InvalidNodeSession)
                   else if hasPlacements then Err(NodeHasPlacements) else Ok(())
      ensures nodes == if r.Ok? then old(nodes) - {identity} else old(nodes)
      ensures outbox == if r.Ok? then old(outbox) + [NodeEvent(NodeUnregistered, old(nodes)[identity])] else old(outbox)
    {
      NodeRemovalKeepsValid(View(), identity);
      if identity !in nodes { return Err(NodeNotFound); }
      var node := nodes[identity];
      if node.session != session { return Err(InvalidNodeSession); }
      if hasPlacements { return Err(NodeHasPlacements); }
      nodes := nodes - {identity};
      outbox := outbox + [NodeEvent(NodeUnregistered, node)];
      return Ok(());
    }

    /** The identities of a group whose lease is due, gathered in whatever order the map yields them. */
    method CollectDue(now: int, g: Group) returns (due: set<string>)
      ensures due == DueIn(View(), now, g)
    {
      due := {};
      var rest := nodes.Keys;
      while rest != {}
        invariant rest <= nodes.Keys
        invariant due == DueIn(View(), now, g) - rest
        decreases |rest|
      {
        var identity :| identity in rest;
        var node := nodes[identity];
        if node.GroupOf() == g && node.status != Offline && LeaseExpired(node, now) {
          due := due + {identity};
        }
        rest := rest - {identity};
      }
    }

    method ExpireNodeLeases(now: int, g: Group, limit: int) returns (count: int)
      requires Valid()
      modifies this
      ensures Valid()
      ensures var o := Protocol.ExpireNodeLeases(old(View()), now, g, limit);
              View() == o.world && outbox == old(outbox) + o.events && o.reply == Ok(count)
    {
      if limit <= 0 { return 0; }
      StringLessTotal();
      var due := CollectDue(now, g);
      var identities := Sorted(due, StringLess);
      if |identities| > limit { identities := identities[..limit]; }
      assert identities == ScanList(View(), now, g, limit);
      var events := ExpireListed(now, identities);
      outbox := outbox + events;
      return |events|;
    }

    /** The mutation loop of a scan: every candidate is read again before it is taken offline. */
    method ExpireListed(now: int, identities: seq<string>) returns (events: seq<Event>)
      requires Valid()
      modifies this`nodes
      ensures Valid()
      ensures var o := ExpireAll(old(View()), now, identities);
              View() == o.world && events == o.events && o.reply == Ok(|events|)
    {
      events := [];
      ghost var whole := ExpireAll(View(), now, identities);
      assert identities[0..] == identities;
      for i := 0 to |identities|
        invariant Valid()
        invariant Continues(whole, events, ExpireAll(View(), now, identities[i..]))
      {
        ghost var before, sent := View(), events;
        ExpireOneKeepsValid(before, now, identities[i]);
        FirstOfMany(before, now, identities, i);
        ghost var step := ExpireOne(before, now, identities[i]);
        hide Protocol.Valid, ExpireAll;
        var event := ExpireListedOne(now, identities[i]);
        events := events + event;
        ContinuesFurther(whole, sent, ExpireAll(before, now, identities[i..]), event,
            ExpireAll(step.world, now, identities[i + 1..]));
      }
    }

    method ExpireListedOne(now: int, identity: string) returns (events: seq<Event>)
      modifies this`nodes
      ensures View() == ExpireOne(old(View()), now, identity).world
      ensures events == ExpireOne(old(View()), now, identity).events
    {
      events := [];
      if identity in nodes {
        var node := nodes[identity];
        if node.status != Offline && LeaseExpired(node, now) {
          node := node.(status := Offline);
          nodes := nodes[identity := node];
          events := [NodeEvent(NodeLeaseExpiredEvent, node)];
        }
      }
    }

    method DrainNode(now: int, identity: string) returns (r: Result<()>)
      requires Valid()
      modifies this
      ensures Valid()
      ensures var o := Protocol.DrainNode(old(View()), identity);
              View() == o.world && outbox == old(outbox) + o.events && r == o.reply
    {
      StepKeepsValid(View(), ttl, now, CDrain(identity));
      if identity !in nodes { return Err(NodeNotFound); }
      var node := nodes[identity];
      var marked := IsInvalid(node.GroupOf(), node.nodeName);
      if !marked { return Err(NodeNotInvalid); }
      if node.status == Offline { return Err(NodeNotFound); }
      node := node.(status := Draining);
      nodes := nodes[identity := node];
      outbox := outbox + [NodeEvent(NodeDraining, node)];
      return Ok(());
    }

    method IsInvalid(g: Group, name: string) returns (marked: bool)
      ensures marked <==> NameInvalid(View(), g, name)
    {
      return g in invalid && name in invalid[g];
    }

    method MarkNodeInvalid(nodeType: string, nodeGroup: string, nodeName: string) returns (r: Result<()>)
      requires Valid()
      modifies this
      ensures Valid()
      ensures var o := Protocol.MarkNodeInvalid(old(View()), nodeType, nodeGroup, nodeName);
              View() == o.world && outbox == old(outbox) + o.events && r == o.reply
    {
      var key := Group(nodeType, nodeGroup);
      NameChangeKeepsValid(View(), key, nodeName);
      var identity := NewNodeIdentity(nodeType, nodeGroup, nodeName);
      if identity.None? { return Err(InvalidIdentity); }
      if key !in invalid { invalid := invalid[key := {}]; }
      invalid := invalid[key := invalid[key] + {nodeName}];
      outbox := outbox + [Event(NodeMarkedInvalid, "", "", identity.value, "", nodeType, nodeGroup, nodeName, 0, 0)];
      return Ok(());
    }

    method RestoreNode(nodeType: string, nodeGroup: string, nodeName: string) returns (r: Result<()>)
      requires Valid()
      modifies this
      ensures Valid()
      ensures var o := Protocol.RestoreNode(old(View()), nodeType, nodeGroup, nodeName);
              View() == o.world && outbox == old(outbox) + o.events && r == o.reply
    {
      var key := Group(nodeType, nodeGroup);
      NameChangeKeepsValid(View(), key, nodeName);
      var identity := NewNodeIdentity(nodeType, nodeGroup, nodeName);
      if identity.None? { return Err(InvalidIdentity); }
      if key in invalid { invalid := invalid[key := invalid[key] - {nodeName}]; }
      if key in invalid && invalid[key] == {} { invalid := invalid - {key}; }
      outbox := outbox + [Event(NodeRestored, "", "", identity.value, "", nodeType, nodeGroup, nodeName, 0, 0)];
      return Ok(());
    }
  }

  /** The whole is what has been done so far followed by the rest. */
  ghost predicate Continues(whole: Outcome<int>, events: seq<Event>, rest: Outcome<int>) {
    && whole.world == rest.world
    && whole.events == events + rest.events
    && (rest.reply.Ok? ==> whole.reply == Ok(|events| + rest.reply.value))
    && (rest.reply.Err? ==> whole.reply == rest.reply)
  }

  lemma FirstOfMany(w: World, now: int, ids: seq<string>, i: nat)
    requires i < |ids|
    ensures var step := ExpireOne(w, now, ids[i]);
            Continues(ExpireAll(w, now, ids[i..]), step.events, ExpireAll(step.world, now, ids[i + 1..]))
  {
    assert ids[i..][0] == ids[i] && ids[i..][1..] == ids[i + 1..];
  }

  lemma ContinuesFurther(whole: Outcome<int>, events: seq<Event>, mid: Outcome<int>, more: seq<Event>,
      rest: Outcome<int>)
    requires Continues(whole, events, mid) && Continues(mid, more, rest)
    ensures Continues(whole, events + more, rest)
  {
  }

  datatype GrainPage = GrainPage(placements: seq<Placement>, nextCursor: string)

  /** The grains indexed under a node, in key order. */
  function GrainsOf(w: World, identity: string): seq<string> {
    StringLessTotal();
    Sorted(Owned(w.byNode, identity), StringLess)
  }

  /** A cursor is the number of grains already passed; the empty cursor is zero. */
  function StartOf(cursor: string): Option<nat> {
    if cursor == "" then Some(0)
    else match Decimal.ParseInt(cursor)
      case None => None
      case Some(v) => if v < 0 then None else Some(v)
  }

  class Directory {
    var placements: map<string, Placement>
    var byNode: map<string, set<string>>
    var outbox: seq<Event>
    const registry: NodeRegistry

    ghost function Current(): World
      reads this, registry
    {
      World(placements, byNode, registry.nodes, registry.invalid)
    }

    ghost predicate Valid()
      reads this, registry
    {
      registry.ttl > 0 && Protocol.Valid(Current())
    }

    constructor (registry: NodeRegistry)
      requires registry.Valid()
      ensures Valid() && this.registry == registry && placements == map[] && byNode == map[] && outbox == []
    {
      this.registry := registry;
      placements, byNode, outbox := map[], map[], [];
    }

    method Lookup(now: int, key: string) returns (r: Result<Route>)
      ensures r == Protocol.Lookup(Current(), now, key)
    {
      if key !in placements { return Err(PlacementNotFound); }
      var routeable := PlacementRouteable(placements[key], now);
      if !routeable { return Err(PlacementNotFound); }
      var placement := placements[key];
      return Ok(RouteOf(placement, registry.nodes[placement.nodeIdentity]));
    }

    method Exists(now: int, key: string) returns (present: bool)
      ensures present <==> Protocol.Lookup(Current(), now, key).Ok?
    {
      present := false;
      if key in placements { present := PlacementRouteable(placements[key], now); }
    }

    method PlacementRouteable(p: Placement, now: int) returns (ok: bool)
      ensures ok <==> Routeable(Current(), p, now)
    {
      if p.status != PlacementActive || p.nodeIdentity !in registry.nodes { return false; }
      var node := registry.nodes[p.nodeIdentity];
      return p.ownerSession == node.session && (node.status == Active || node.status == Draining) && !LeaseExpired(node,
          now);
    }

    method TargetAvailable(node: Node, now: int) returns (ok: bool)
      ensures ok <==> Available(Current(), node, now)
    {
      var invalid := registry.IsInvalid(node.GroupOf(), node.nodeName);
      return node.status == Active && !LeaseExpired(node, now) && !invalid;
    }

    method AddNodeIndex(identity: string, key: string)
      modifies this`byNode
      ensures byNode == AddIndex(old(byNode), identity, key)
    {
      if identity !in byNode { byNode := byNode[identity := {}]; }
      byNode := byNode[identity := byNode[identity] + {key}];
    }

    method DeleteNodeIndex(identity: string, key: string)
      modifies this`byNode
      ensures byNode == DropIndex(old(byNode), identity, key)
    {
      if identity in byNode { byNode := byNode[identity := byNode[identity] - {key}]; }
      if identity in byNode && byNode[identity] == {} { byNode := byNode - {identity}; }
    }

    method MovePlacement(p: Placement, target: Node, now: int) returns (moved: Placement)
      modifies this`placements, this`byNode
      ensures moved == Moved(p, target, now)
      ensures Current() == Move(old(Current()), p, target, now)
    {
      DeleteNodeIndex(p.nodeIdentity, p.grainKey);
      moved := p.(nodeIdentity := target.identity, ownerSession := target.session);
      moved := moved.(version := moved.version + 1, status := PlacementActive, updateTime := now);
      placements := placements[moved.grainKey := moved];
      AddNodeIndex(target.identity, moved.grainKey);
    }

    /** Stores a new placement over whatever record the grain had. */
    method StorePlacement(p: Placement)
      modifies this`placements, this`byNode
      ensures Current() == Create(old(Current()), p)
    {
      if p.grainKey in placements { DeleteNodeIndex(placements[p.grainKey].nodeIdentity, p.grainKey); }
      placements := placements[p.grainKey := p];
      AddNodeIndex(p.nodeIdentity, p.grainKey);
    }

    method CollectCandidates(now: int, g: Group) returns (candidates: set<string>)
      ensures candidates == Candidates(Current(), now, g)
    {
      candidates := {};
      var rest := registry.nodes.Keys;
      while rest != {}
        invariant rest <= registry.nodes.Keys
        invariant candidates == Candidates(Current(), now, g) - rest
        decreases |rest|
      {
        var identity :| identity in rest;
        var node := registry.nodes[identity];
        var available := TargetAvailable(node, now);
        if node.GroupOf() == g && available { candidates := candidates + {identity}; }
        rest := rest - {identity};
      }
    }

    /** The available nodes of a group with their placement counts, as a strategy sees them. */
    method EffectiveNodes(now: int, g: Group) returns (input: StrategyInput)
      ensures input == InputFor(Current(), now, g)
    {
      var candidates := CollectCandidates(now, g);
      StringLessTotal();
      var ids := Sorted(candidates, StringLess);
      assert ids == CandidateOrder(Current(), now, g);
      input := StrategyInput(NodesAt(registry.nodes, ids), CountsOf(byNode, candidates));
    }

    /** Asks a strategy and accepts its answer only if it names a candidate and that candidate's session. */
    method ChooseTarget(now: int, g: Group, strategy: StrategyInput -> Option<Node>) returns (r: Result<Node>)
      requires Valid()
      ensures r == Protocol.ChooseTarget(Current(), now, g, strategy(InputFor(Current(), now, g)))
    {
      var input := EffectiveNodes(now, g);
      CandidateOrderIsComplete(Current(), now, g);
      if |input.nodes| == 0 { return Err(NoAvailableNode); }
      var chosen := strategy(input);
      if chosen.None? { return Err(StrategyFailed); }
      var found := FindSession(input.nodes, chosen.value);
      SearchFindsTheCandidate(Current(), now, g, chosen.value, found);
      return if found.Some? then Ok(found.value) else Err(NoAvailableNode);
    }

    method ResolveRoute(now: int, t: Target, placementId: string, strategy: StrategyInput -> Option<Node>)
      returns (r: Result<Route>)
      requires Valid()
      modifies this
      ensures Valid()
      ensures var before := old(Current());
              var o := Protocol.ResolveRoute(before, now, t, placementId, strategy(InputFor(before, now, t.GroupOf())));
              Current() == o.world && outbox == old(outbox) + o.events && r == o.reply
    {
      ResolveKeepsValid(Current(), now, t, placementId, strategy(InputFor(Current(), now, t.GroupOf())));
      if !TargetNamed(t) { return Err(InvalidIdentity); }
      var key := NewGrainKey(t.kind, t.grainId).value;
      hide *;
      if key in placements && placements[key].status == PlacementActive {
        ResolvePlacedIsResolve(Current(), now, t, placementId, strategy(InputFor(Current(), now, t.GroupOf())), key);
        r := ResolveOwned(now, t, key, strategy);
      } else {
        r := ResolveNew(now, t, key, placementId, strategy);
      }
    }

    /** A grain that has an active placement: reuse, recover on the owner's new session, or recover elsewhere. */
    method ResolveOwned(now: int, t: Target, key: string, strategy: StrategyInput -> Option<Node>)
      returns (r: Result<Route>)
      requires Valid()
      requires key in placements && placements[key].status == PlacementActive
      modifies this
      ensures var before := old(Current());
              var o := ResolvePlaced(before, now, t, before.placements[key],
                  strategy(InputFor(before, now, t.GroupOf())));
              Current() == o.world && outbox == old(outbox) + o.events && r == o.reply
    {
      ChosenIsRegistered(Current(), now, t.GroupOf(), strategy(InputFor(Current(), now, t.GroupOf())));
      KeysMatch(Current());
      hide NodeType, NodeGroup, NodeName, Protocol.Valid, InputFor, Candidates, Protocol.ChooseTarget, Relocate,
           LeaseExpired;
      var placement := placements[key];
      var owner := placement.nodeIdentity;
      if GroupOfIdentity(owner) != t.GroupOf() { return Err(TargetMismatch); }
      var routeable := PlacementRouteable(placement, now);
      if routeable { return Ok(RouteOf(placement, registry.nodes[owner])); }
      if owner in registry.nodes && SessionUsable(registry.nodes[owner], now)
         && registry.nodes[owner].session != placement.ownerSession {
        r := RelocatePlacement(placement, registry.nodes[owner], now);
        return;
      }
      var invalid := registry.IsInvalid(GroupOfIdentity(owner), NodeName(owner));
      if !invalid { return Err(OwnerUnavailable); }
      var target := ChooseTarget(now, t.GroupOf(), strategy);
      if target.Err? { return Err(target.error); }
      r := RelocatePlacement(placement, target.value, now);
    }

    /** The move, the event and the answer of a recovery. */
    method RelocatePlacement(p: Placement, target: Node, now: int) returns (r: Result<Route>)
      requires target.identity in registry.nodes && registry.nodes[target.identity] == target
      modifies this`placements, this`byNode, this`outbox
      ensures var o := Relocate(old(Current()), p, target, now);
              Current() == o.world && outbox == old(outbox) + o.events && r == o.reply
    {
      var placement := MovePlacement(p, target, now);
      outbox := outbox + [PlacementEvent(placement, PlacementRecovered)];
      return Ok(RouteOf(placement, registry.nodes[placement.nodeIdentity]));
    }

    method ResolveNew(now: int, t: Target, key: string, placementId: string, strategy: StrategyInput -> Option<Node>)
      returns (r: Result<Route>)
      requires Valid() && TargetNamed(t) && NewGrainKey(t.kind, t.grainId) == Some(key)
      requires !(key in placements && placements[key].status == PlacementActive)
      modifies this
      ensures var before := old(Current());
              var o := Protocol.ResolveRoute(before, now, t, placementId, strategy(InputFor(before, now, t.GroupOf())));
              Current() == o.world && outbox == old(outbox) + o.events && r == o.reply
    {
      ChosenIsRegistered(Current(), now, t.GroupOf(), strategy(InputFor(Current(), now, t.GroupOf())));
      hide TargetNamed, NewNodeIdentity, NewGrainKey, NodeType, NodeGroup, NodeName, Protocol.Valid, InputFor,
           Candidates, Protocol.ChooseTarget, AddIndex, DropIndex, LeaseExpired;
      var target := ChooseTarget(now, t.GroupOf(), strategy);
      if target.Err? { return Err(target.error); }
      var placement := Placement(t.grainId, t.kind, key, placementId, target.value.identity, target.value.session,
                                 INITIAL_PLACEMENT_VERSION, PlacementActive, now, now);
      StorePlacement(placement);
      outbox := outbox + [PlacementEvent(placement, PlacementCreated)];
      return Ok(RouteOf(placement, registry.nodes[placement.nodeIdentity]));
    }

    /** Other goroutines run between the two phases of an allocation: any directory or registry commands, each with
        its events. */
    method Gap() returns (ghost others: seq<Tick>)
      requires Valid()
      modifies this, registry
      ensures Valid()
      ensures var e := Replayed(old(Current()), others);
              && Current() == e.world
              && outbox == old(outbox) + PlacementEvents(e.events)
              && registry.outbox == old(registry.outbox) + NodeEvents(e.events)
    {
      others := [];
    }

    /** The first critical sections of an allocation and the strategy call outside any lock. */
    method PrepareAllocation(now: int, t: Target, strategy: StrategyInput -> Option<Node>) returns (r: Prepared)
      requires Valid()
      ensures r == PreparedFor(Current(), now, t, strategy)
    {
      hide NewGrainKey, Candidates;
      if NewGrainKey(t.kind, t.grainId).None? { return Answered(Err(InvalidIdentity)); }
      var key := NewGrainKey(t.kind, t.grainId).value;
      if key in placements && placements[key].status == PlacementActive {
        var routeable := PlacementRouteable(placements[key], now);
        if !routeable { return Answered(Err(OwnerUnavailable)); }
        return Answered(Ok(placements[key]));
      }
      var input := EffectiveNodes(now, t.GroupOf());
      CandidateOrderIsComplete(Current(), now, t.GroupOf());
      if |input.nodes| == 0 { return Answered(Err(NoAvailableNode)); }
      var answer := strategy(input);
      return if answer.None? then Answered(Err(StrategyFailed)) else Chosen(answer.value);
    }

    /** Both phases. The commit acts on the world that the commands of others, and nothing else, made of the one the
        allocation began with. */
    method Allocate(now: int, later: int, t: Target, placementId: string, strategy: StrategyInput -> Option<Node>)
      returns (r: Result<Placement>, ghost others: seq<Tick>)
      requires Valid()
      modifies this, registry
      ensures Valid()
      ensures var before := old(Current());
              var e := Replayed(before, others);
              && registry.outbox == old(registry.outbox) + NodeEvents(e.events)
              && match PreparedFor(before, now, t, strategy)
                 case Answered(reply) => others == [] && r == reply && Current() == before && outbox == old(outbox)
                 case Chosen(chosen) =>
                   var o := AllocateCommit(e.world, later, t, placementId, chosen);
                   Current() == o.world && r == o.reply && outbox == old(outbox) + PlacementEvents(e.events) + o.events
      ensures var before := old(Current());
              var found := Replayed(before, others).world;
              Fills(before, now, found, later, t, placementId, strategy, r, Current())
    {
      hide CanFill, FilledBy, Fills;
      AnsweredCannotFill(Current(), now, t, strategy);
      others := [];
      NoEvents();
      var prepared := PrepareAllocation(now, t, strategy);
      if prepared.Answered? { return prepared.reply, others; }
      others := Gap();
      CommitFills(old(Current()), now, Current(), later, t, placementId, strategy, prepared.node);
      AllocateKeepsValid(Current(), later, t, placementId, prepared.node);
      r := CommitAllocation(later, t, placementId, prepared.node);
    }

    /** The commit: everything is checked again on the world it finds. */
    method CommitAllocation(now: int, t: Target, placementId: string, chosen: Node)
        returns (r: Result<Placement>)
      requires Valid()
      modifies this
      ensures Valid()
      ensures var o := AllocateCommit(old(Current()), now, t, placementId, chosen);
              Current() == o.world && outbox == old(outbox) + o.events && r == o.reply
    {
      AllocateKeepsValid(Current(), now, t, placementId, chosen);
      KeysMatch(Current());
      hide Protocol.Valid;
      if NewGrainKey(t.kind, t.grainId).None? { return Err(InvalidIdentity); }
      var key := NewGrainKey(t.kind, t.grainId).value;
      if key in placements && placements[key].status == PlacementActive {
        var routeable := PlacementRouteable(placements[key], now);
        if routeable { return Ok(placements[key]); }
        return Err(OwnerUnavailable);
      }
      if chosen.identity !in registry.nodes { return Err(NoAvailableNode); }
      var current := registry.nodes[chosen.identity];
      var available := TargetAvailable(current, now);
      if current.session != chosen.session || current.GroupOf() != t.GroupOf() || !available {
        return Err(NoAvailableNode);
      }
      var placement := Placement(t.grainId, t.kind, key, placementId, current.identity, current.session,
                                 INITIAL_PLACEMENT_VERSION, PlacementActive, now, now);
      StorePlacement(placement);
      outbox := outbox + [PlacementEvent(placement, PlacementCreated)];
      return Ok(placement);
    }

    method Renew(now: int, c: Claim) returns (r: Result<Placement>)
      modifies this`outbox
      ensures var o := Protocol.Renew(Current(), now, c);
              o.world == Current() && outbox == old(outbox) + o.events && r == o.reply
    {
      if c.grainKey !in placements || placements[c.grainKey].status != PlacementActive {
        return Err(PlacementNotFound);
      }
      var placement := placements[c.grainKey];
      if placement.nodeIdentity != c.nodeIdentity { return Err(InvalidOwner); }
      if placement.placementId != c.placementId { return Err(VersionConflict); }
      if placement.version != c.version { return Err(VersionConflict); }
      if placement.nodeIdentity !in registry.nodes || registry.nodes[placement.nodeIdentity].status == Offline {
        return Err(OwnerUnavailable);
      }
      var node := registry.nodes[placement.nodeIdentity];
      if placement.ownerSession != c.session || node.session != c.session { return Err(InvalidNodeSession); }
      if LeaseExpired(node, now) { return Err(NodeLeaseExpired); }
      outbox := outbox + [PlacementEvent(placement, PlacementRenewed)];
      return Ok(placement);
    }

    method Release(now: int, c: Claim) returns (r: Result<()>)
      requires Valid()
      modifies this
      ensures Valid()
      ensures var o := Protocol.Release(old(Current()), now, c);
              Current() == o.world && outbox == old(outbox) + o.events && r == o.reply
    {
      ReleaseKeepsValid(Current(), now, c);
      hide Protocol.Valid;
      if c.grainKey !in placements || placements[c.grainKey].status != PlacementActive {
        return Err(PlacementNotFound);
      }
      var placement := placements[c.grainKey];
      if placement.nodeIdentity != c.nodeIdentity { return Err(InvalidOwner); }
      if placement.placementId != c.placementId { return Err(VersionConflict); }
      if placement.version != c.version { return Err(VersionConflict); }
      if placement.nodeIdentity !in registry.nodes { return Err(OwnerUnavailable); }
      var node := registry.nodes[placement.nodeIdentity];
      if placement.ownerSession != c.session || node.session != c.session { return Err(InvalidNodeSession); }
      placement := placement.(version := placement.version + 1, updateTime := now);
      placements := placements - {c.grainKey};
      DeleteNodeIndex(placement.nodeIdentity, c.grainKey);
      outbox := outbox + [PlacementEvent(placement, PlacementReleasedEvent)];
      return Ok(());
    }

    method Transfer(now: int, key: string, placementId: string, from: string, to: string, version: int)
      returns (r: Result<Placement>)
      requires Valid()
      modifies this
      ensures Valid()
      ensures var o := Protocol.Transfer(old(Current()), now, key, placementId, from, to, version);
              Current() == o.world && outbox == old(outbox) + o.events && r == o.reply
    {
      TransferKeepsValid(Current(), now, key, placementId, from, to, version);
      if key !in placements || placements[key].status != PlacementActive { return Err(PlacementNotFound); }
      KeysMatch(Current());
      hide Protocol.Valid;
      var placement := placements[key];
      if placement.placementId != placementId { return Err(VersionConflict); }
      if placement.version != version { return Err(VersionConflict); }
      if from != "" && placement.nodeIdentity != from { return Err(InvalidOwner); }
      if to !in registry.nodes { return Err(NoAvailableNode); }
      var target := registry.nodes[to];
      var available := TargetAvailable(target, now);
      if !available { return Err(NoAvailableNode); }
      placement := MovePlacement(placement, target, now);
      outbox := outbox + [PlacementEvent(placement, PlacementTransferred)];
      return Ok(placement);
    }

    method Recover(now: int, key: string, placementId: string, to: string, version: int) returns (r: Result<Placement>)
      requires Valid()
      modifies this
      ensures Valid()
      ensures var o := Protocol.Recover(old(Current()), now, key, placementId, to, version);
              Current() == o.world && outbox == old(outbox) + o.events && r == o.reply
    {
      RecoverKeepsValid(Current(), now, key, placementId, to, version);
      KeysMatch(Current());
      hide Protocol.Valid, AddIndex, DropIndex, LeaseExpired;
      if key !in placements { return Err(PlacementNotFound); }
      var placement := placements[key];
      if placement.placementId != placementId { return Err(VersionConflict); }
      if placement.version != version { return Err(VersionConflict); }
      var routeable := PlacementRouteable(placement, now);
      if placement.status != PlacementActive || routeable { return Err(PlacementNotRecoverable); }
      if to !in registry.nodes { return Err(NoAvailableNode); }
      var target := registry.nodes[to];
      var available := TargetAvailable(target, now);
      if !available { return Err(NoAvailableNode); }
      placement := MovePlacement(placement, target, now);
      outbox := outbox + [PlacementEvent(placement, PlacementRecovered)];
      return Ok(placement);
    }

    /** The registry's completeDrain hook: both locks are held, so the ownership test and the removal are one step. */
    method CompleteDrain(identity: string, session: string) returns (r: Result<()>)
      requires Valid()
      modifies registry
      ensures Valid()
      ensures var o := Unregister(old(Current()), identity, session, true);
              Current() == o.world && registry.outbox == old(registry.outbox) + o.events && r == o.reply
    {
      NodeRemovalKeepsValid(Current(), identity);
      r := registry.UnregisterNode(identity, session, identity in byNode && byNode[identity] != {});
    }

    /** One page of a node's grains in key order, filtered by status (Active when none is asked for). */
    method FindByNode(identity: string, status: Option<PlacementStatus>, cursor: string, limit: int)
      returns (r: Option<GrainPage>)
      requires Valid()
      ensures Indexed(Current(), identity) && r == FindPage(Current(), identity, status, cursor, limit)
      ensures r.None? <==> cursor != "" && (Decimal.ParseInt(cursor).None? || Decimal.ParseInt(cursor).value < 0)
      ensures r.Some? ==> |r.value.placements| <= if limit <= 0 then 100 else limit
      ensures r.Some? ==> forall p :: p in r.value.placements ==>
                && p.grainKey in placements && placements[p.grainKey] == p && p.nodeIdentity == identity
                && p.status == (if status.Some? then status.value else PlacementActive)
    {
      KeysMatch(Current());
      GrainsAreStored(Current(), identity);
      hide Protocol.Valid, GrainsOf, PageOf;
      var keys := ListGrains(identity);
      PageHoldsWanted(placements, keys, status, cursor, limit);
      r := SelectPage(keys, status, cursor, limit);
    }

    method SelectPage(keys: seq<string>, status: Option<PlacementStatus>, cursor: string, limit: int)
        returns (r: Option<GrainPage>)
      requires forall j :: 0 <= j < |keys| ==> keys[j] in placements
      ensures r == PageOf(placements, keys, status, cursor, limit)
    {
      hide Decimal.FormatInt, Decimal.ParseInt;
      var wanted := if status.None? then PlacementActive else status.value;
      var start: nat := 0;
      if cursor != "" {
        var parsed := Decimal.ParseInt(cursor);
        if parsed.None? || parsed.value < 0 { return None; }
        start := parsed.value;
      }
      if start >= |keys| { return Some(GrainPage([], "")); }
      var found, nextIndex := ReadPage(keys, start, wanted, PageLimit(limit));
      var nextCursor := "";
      if nextIndex < |keys| { nextCursor := Decimal.FormatInt(nextIndex); }
      return Some(GrainPage(found, nextCursor));
    }

    method ListGrains(identity: string) returns (keys: seq<string>)
      ensures keys == GrainsOf(Current(), identity)
    {
      StringLessTotal();
      keys := Sorted(if identity in byNode then byNode[identity] else {}, StringLess);
    }

    method ReadPage(keys: seq<string>, start: nat, wanted: PlacementStatus, size: nat)
      returns (found: seq<Placement>, nextIndex: nat)
      requires start <= |keys| && forall j :: 0 <= j < |keys| ==> keys[j] in placements
      ensures found == ScanPage(placements, keys, start, wanted, size).0
      ensures nextIndex == ScanPage(placements, keys, start, wanted, size).1
    {
      found, nextIndex := [], start;
      for i := start to |keys|
        invariant nextIndex == i && |found| <= size
        invariant var rest := ScanPage(placements, keys, i, wanted, size - |found|);
                  && ScanPage(placements, keys, start, wanted, size).0 == found + rest.0
                  && ScanPage(placements, keys, start, wanted, size).1 == rest.1
      {
        if |found| >= size { break; }
        var placement := placements[keys[i]];
        if placement.status == wanted { found := found + [placement]; }
        nextIndex := i + 1;
      }
    }
  }

  /** The answer of the first phase, or the node a strategy chose. */
  datatype Prepared = Answered(reply: Result<Placement>) | Chosen(node: Node)

  function PreparedFor(w: World, now: int, t: Target, strategy: StrategyInput -> Option<Node>): Prepared {
    match AllocatePrepare(w, now, t)
    case Existing(p) => Answered(Ok(p))
    case Stopped(e) => Answered(Err(e))
    case Proceed(input) =>
      var answer := strategy(input);
      if answer.Some? then Chosen(answer.value) else Answered(Err(StrategyFailed))
  }

  /** A node that can take grains of a group: registered under this session, active, unexpired and not marked. */
  ghost predicate TakesGrains(w: World, now: int, g: Group, n: Node) {
    && n.identity in w.nodes && w.nodes[n.identity].session == n.session
    && w.nodes[n.identity].nodeType == g.nodeType && w.nodes[n.identity].nodeGroup == g.nodeGroup
    && w.nodes[n.identity].status == Active && now < w.nodes[n.identity].lease.expireAt
    && !(g in w.invalid && w.nodes[n.identity].nodeName in w.invalid[g])
  }

  /** The strategy's answer can take a new grain, both where the strategy is asked and where its answer is committed. */
  ghost predicate CanFill(seen: World, now: int, found: World, later: int, t: Target, answer: Option<Node>) {
    && NewGrainKey(t.kind, t.grainId).Some? && answer.Some?
    && TakesGrains(seen, now, t.GroupOf(), answer.value) && TakesGrains(found, later, t.GroupOf(), answer.value)
    && t.kind + "/" + t.grainId !in seen.placements && t.kind + "/" + t.grainId !in found.placements
  }

  /** The grain is placed on the answered node's session under the given ID. */
  ghost predicate FilledBy(t: Target, n: Node, later: int, placementId: string, r: Result<Placement>) {
    r == Ok(Placement(t.grainId, t.kind, t.kind + "/" + t.grainId, placementId, n.identity, n.session, 1,
                      PlacementActive, later, later))
  }

  /** An allocation whose strategy answered a node that can take the grain: it is placed there, and a lookup routes
      there. */
  ghost predicate Fills(seen: World, now: int, found: World, later: int, t: Target, placementId: string,
      strategy: StrategyInput -> Option<Node>, r: Result<Placement>, after: World) {
    var answer := strategy(InputFor(seen, now, t.GroupOf()));
    CanFill(seen, now, found, later, t, answer) ==>
      var key, n := t.kind + "/" + t.grainId, answer.value;
      && FilledBy(t, n, later, placementId, r)
      && after.placements == found.placements[key := r.value] && after.nodes == found.nodes
      && Protocol.Lookup(after, later, key)
         == Ok(Route(key, placementId, n.identity, n.session, 1, PlacementActive,
                     found.nodes[n.identity].lease.version, found.nodes[n.identity].lease.expireAt))
  }

  /** An allocation that the first phase answers has no new grain to place, or nowhere to place it. */
  lemma AnsweredCannotFill(w: World, now: int, t: Target, strategy: StrategyInput -> Option<Node>)
    requires Protocol.Valid(w)
    ensures PreparedFor(w, now, t, strategy).Answered? ==>
              forall found, later :: !CanFill(w, now, found, later, t, strategy(InputFor(w, now, t.GroupOf())))
    ensures PreparedFor(w, now, t, strategy).Answered? ==>
              forall found, later, placementId, r, after ::
                Fills(w, now, found, later, t, placementId, strategy, r, after)
  {
    hide Protocol.Valid, InputFor;
    PreparationIsTheStrategys(w, now, t, strategy);
    hide PreparedFor;
    GrainKeyIsJoined(t.kind, t.grainId);
  }

  lemma CommitFills(seen: World, now: int, found: World, later: int, t: Target, placementId: string,
      strategy: StrategyInput -> Option<Node>, chosen: Node)
    requires Protocol.Valid(seen) && Protocol.Valid(found) && PreparedFor(seen, now, t, strategy) == Chosen(chosen)
    ensures var o := AllocateCommit(found, later, t, placementId, chosen);
            Fills(seen, now, found, later, t, placementId, strategy, o.reply, o.world)
  {
    hide Protocol.Valid, InputFor, NewGrainKey;
    PreparationIsTheStrategys(seen, now, t, strategy);
    hide PreparedFor;
    GrainKeyIsJoined(t.kind, t.grainId);
    KeysMatch(found);
  }

  /** The first phase for a placed grain: it is answered while its owner serves its session, and refused otherwise. */
  lemma PreparationAnswersTheServed(w: World, now: int, t: Target, strategy: StrategyInput -> Option<Node>)
    requires Protocol.Valid(w)
    ensures NewGrainKey(t.kind, t.grainId).None? ==> PreparedFor(w, now, t, strategy) == Answered(Err(InvalidIdentity))
    ensures NewGrainKey(t.kind, t.grainId).Some? && NewGrainKey(t.kind, t.grainId).value in w.placements ==>
              var p := w.placements[NewGrainKey(t.kind, t.grainId).value];
              var served := && p.nodeIdentity in w.nodes && w.nodes[p.nodeIdentity].session == p.ownerSession
                            && w.nodes[p.nodeIdentity].status != Offline
                            && now < w.nodes[p.nodeIdentity].lease.expireAt;
              PreparedFor(w, now, t, strategy) == Answered(if served then Ok(p) else Err(OwnerUnavailable))
  {
    PlacedAreActive(w);
    hide Protocol.Valid, NewGrainKey, InputFor, Candidates;
  }

  /** The first phase for a grain without a placement hands on exactly what the strategy answers. */
  lemma PreparationIsTheStrategys(w: World, now: int, t: Target, strategy: StrategyInput -> Option<Node>)
    requires Protocol.Valid(w)
    ensures NewGrainKey(t.kind, t.grainId).Some? && NewGrainKey(t.kind, t.grainId).value !in w.placements ==>
              var input := InputFor(w, now, t.GroupOf());
              var prepared := PreparedFor(w, now, t, strategy);
              if input.nodes == [] then prepared == Answered(Err(NoAvailableNode))
              else prepared == match strategy(input)
                               case Some(n) => Chosen(n)
                               case None => Answered(Err(StrategyFailed))
    ensures forall n :: TakesGrains(w, now, t.GroupOf(), n) ==> InputFor(w, now, t.GroupOf()).nodes != []
  {
    CandidateOrderIsComplete(w, now, t.GroupOf());
    hide Protocol.Valid, NewGrainKey, CandidateOrder;
    forall n | TakesGrains(w, now, t.GroupOf(), n)
      ensures n.identity in Candidates(w, now, t.GroupOf())
    {
    }
  }

  /** A strategy is shown exactly the nodes that can take grains of the group, in identity order, and for each of them
      the number of grains placed on it. */
  lemma StrategySeesTheAvailable(w: World, now: int, g: Group)
    requires Protocol.Valid(w)
    ensures var input := InputFor(w, now, g);
            && (forall i, j :: 0 <= i < j < |input.nodes| ==>
                  StringLess(input.nodes[i].identity, input.nodes[j].identity))
            && (forall n :: n in input.nodes <==>
                  TakesGrains(w, now, g, n) && n.identity in w.nodes && n == w.nodes[n.identity])
            && (forall n :: n in input.nodes ==>
                  n.identity in input.counts && input.counts[n.identity] == |GrainsOn(w, n.identity)|)
  {
    hide Protocol.Valid, CandidateOrder, StringLess, InputFor, TakesGrains, GrainsOn, Candidates;
    var input, ids := InputFor(w, now, g), CandidateOrder(w, now, g);
    InputIsOrder(w, now, g);
    OrderIsSorted(w, now, g);
    CandidateOrderIsComplete(w, now, g);
    forall n
      ensures n in input.nodes <==> TakesGrains(w, now, g, n) && n.identity in w.nodes && n == w.nodes[n.identity]
      ensures n in input.nodes ==>
                n.identity in input.counts && input.counts[n.identity] == |GrainsOn(w, n.identity)|
    {
      CandidatesTakeGrains(w, now, g, n);
      if n in input.nodes {
        var i :| 0 <= i < |input.nodes| && input.nodes[i] == n;
      } else if n.identity in Candidates(w, now, g) {
        var i :| 0 <= i < |ids| && ids[i] == n.identity;
        assert input.nodes[i] == w.nodes[n.identity];
      }
    }
  }

  lemma InputIsOrder(w: World, now: int, g: Group)
    requires Protocol.Valid(w)
    ensures var input, ids := InputFor(w, now, g), CandidateOrder(w, now, g);
            && |input.nodes| == |ids|
            && (forall i :: 0 <= i < |ids| ==>
                  && ids[i] in Candidates(w, now, g) && ids[i] in w.nodes && input.nodes[i] == w.nodes[ids[i]]
                  && input.nodes[i].identity == ids[i]
                  && ids[i] in input.counts && input.counts[ids[i]] == |Owned(w.byNode, ids[i])|)
  {
    KeysMatch(w);
    hide Protocol.Valid, CandidateOrder, Available, Owned;
  }

  lemma CandidatesTakeGrains(w: World, now: int, g: Group, n: Node)
    requires Protocol.Valid(w)
    ensures n.identity in Candidates(w, now, g) ==> n.identity in w.nodes
    ensures n.identity in Candidates(w, now, g) && w.nodes[n.identity] == n <==>
              TakesGrains(w, now, g, n) && n == w.nodes[n.identity]
    ensures Owned(w.byNode, n.identity) == GrainsOn(w, n.identity)
  {
    hide GoodNode, GoodPlacement;
  }

  lemma OrderIsSorted(w: World, now: int, g: Group)
    ensures SortedBy(CandidateOrder(w, now, g), StringLess)
  {
    StringLessTotal();
  }

  predicate AboutPlacement(kind: EventType) {
    kind == PlacementCreated || kind == PlacementRenewed || kind == PlacementReleasedEvent
        || kind == PlacementTransferred
    || kind == PlacementRecovered
  }

  /** The events the directory sends, and those the registry sends, in order. */
  function PlacementEvents(events: seq<Event>): seq<Event> {
    if events == [] then []
    else (if AboutPlacement(events[0].kind) then [events[0]] else []) + PlacementEvents(events[1..])
  }

  function NodeEvents(events: seq<Event>): seq<Event> {
    if events == [] then []
    else (if AboutPlacement(events[0].kind) then [] else [events[0]]) + NodeEvents(events[1..])
  }

  lemma NoEvents()
    ensures PlacementEvents([]) == [] && NodeEvents([]) == []
  {
  }

  lemma KeysMatch(w: World)
    requires Protocol.Valid(w)
    ensures forall k :: k in w.placements ==> w.placements[k].grainKey == k
    ensures forall id :: id in w.nodes ==> w.nodes[id].identity == id
  {
  }

  lemma CandidateOrderIsComplete(w: World, now: int, g: Group)
    ensures |CandidateOrder(w, now, g)| == |Candidates(w, now, g)|
    ensures forall id :: id in Candidates(w, now, g) ==> id in CandidateOrder(w, now, g)
  {
    StringLessTotal();
  }

  /** The first node of a list with the chosen identity and session. */
  method FindSession(nodes: seq<Node>, chosen: Node) returns (r: Option<Node>)
    ensures r.Some? ==> r.value in nodes && r.value.identity == chosen.identity && r.value.session == chosen.session
    ensures r.None? ==> forall n :: n in nodes ==> !(n.identity == chosen.identity && n.session == chosen.session)
  {
    for i := 0 to |nodes|
      invariant forall j :: 0 <= j < i ==> !(nodes[j].identity == chosen.identity && nodes[j].session == chosen.session)
    {
      if nodes[i].identity == chosen.identity && nodes[i].session == chosen.session { return Some(nodes[i]); }
    }
    return None;
  }

  lemma SearchFindsTheCandidate(w: World, now: int, g: Group, chosen: Node, found: Option<Node>)
    requires Protocol.Valid(w)
    requires var nodes := InputFor(w, now, g).nodes;
             && nodes != []
             && (found.Some? ==>
                   found.value in nodes && found.value.identity == chosen.identity
                   && found.value.session == chosen.session)
             && (found.None? ==> forall n :: n in nodes ==>
                   !(n.identity == chosen.identity && n.session == chosen.session))
    ensures Protocol.ChooseTarget(w, now, g, Some(chosen))
            == if found.Some? then Ok(found.value) else Err(NoAvailableNode)
  {
    var nodes, ids := InputFor(w, now, g).nodes, CandidateOrder(w, now, g);
    KeysMatch(w);
    CandidateOrderIsComplete(w, now, g);
    hide Protocol.Valid, CandidateOrder, Available;
    assert ids[0] in Candidates(w, now, g);
    if found.Some? {
      var i :| 0 <= i < |nodes| && nodes[i] == found.value;
      assert ids[i] in Candidates(w, now, g);
    } else if chosen.identity in Candidates(w, now, g) {
      var i :| 0 <= i < |ids| && ids[i] == chosen.identity;
      assert nodes[i] in nodes;
    }
  }

  /** The placements of a wanted status among keys[i..], up to need of them, and the index after the last key read. */
  function ScanPage(placements: map<string, Placement>, keys: seq<string>, i: nat, wanted: PlacementStatus, need: nat)
    : (seq<Placement>, nat)
    requires i <= |keys| && forall j :: 0 <= j < |keys| ==> keys[j] in placements
    decreases |keys| - i
  {
    if i == |keys| || need == 0 then ([], i)
    else
      var p := placements[keys[i]];
      if p.status == wanted then
        var rest := ScanPage(placements, keys, i + 1, wanted, need - 1);
        ([p] + rest.0, rest.1)
      else ScanPage(placements, keys, i + 1, wanted, need)
  }

  /** Every listed grain has a placement, so a page can read each of them. */
  ghost predicate Indexed(w: World, identity: string) {
    forall j :: 0 <= j < |GrainsOf(w, identity)| ==> GrainsOf(w, identity)[j] in w.placements
  }

  lemma GrainsAreOwned(w: World, identity: string)
    ensures forall k :: k in GrainsOf(w, identity) <==> k in Owned(w.byNode, identity)
    ensures SortedBy(GrainsOf(w, identity), StringLess)
  {
    hide Sorted, StringLess;
    StringLessTotal();
  }

  lemma GrainsAreStored(w: World, identity: string)
    requires Protocol.Valid(w)
    ensures Indexed(w, identity)
    ensures forall k :: k in GrainsOf(w, identity) <==> k in w.placements && w.placements[k].nodeIdentity == identity
    ensures forall k :: k in GrainsOf(w, identity) ==> w.placements[k].status == PlacementActive
  {
    GrainsAreOwned(w, identity);
    hide GoodNode, WellFormedIdentity, GrainsOf;
    var keys := GrainsOf(w, identity);
    assert forall j :: 0 <= j < |keys| ==> keys[j] in keys;
    forall k
      ensures k in keys <==> k in w.placements && w.placements[k].nodeIdentity == identity
    {
      assert k in keys <==> k in Owned(w.byNode, identity);
    }
  }

  /** A scan finds only placements of the given keys and the wanted status, and no more than it needs. */
  lemma {:induction false} ScanHoldsWanted(placements: map<string, Placement>, keys: seq<string>, i: nat,
      wanted: PlacementStatus, need: nat)
    requires i <= |keys| && forall j :: 0 <= j < |keys| ==> keys[j] in placements
    ensures var found := ScanPage(placements, keys, i, wanted, need).0;
            && |found| <= need
            && forall p :: p in found ==> p.status == wanted && exists k :: k in keys && placements[k] == p
    decreases |keys| - i
  {
    if i < |keys| && need > 0 {
      assert keys[i] in keys;
      ScanHoldsWanted(placements, keys, i + 1, wanted, if placements[keys[i]].status == wanted then need - 1 else need);
    }
  }

  lemma PageHoldsWanted(placements: map<string, Placement>, keys: seq<string>, status: Option<PlacementStatus>,
      cursor: string, limit: int)
    requires forall j :: 0 <= j < |keys| ==> keys[j] in placements
    ensures var r := PageOf(placements, keys, status, cursor, limit);
            && (r.None? <==> cursor != "" && (Decimal.ParseInt(cursor).None? || Decimal.ParseInt(cursor).value < 0))
            && (r.Some? ==>
                  && |r.value.placements| <= (if limit <= 0 then 100 else limit)
                  && forall p :: p in r.value.placements ==>
                       && p.status == (if status.Some? then status.value else PlacementActive)
                       && exists k :: k in keys && placements[k] == p)
  {
    hide ScanPage, Decimal.ParseInt, Decimal.FormatInt;
    var wanted := if status.None? then PlacementActive else status.value;
    if StartOf(cursor).Some? && StartOf(cursor).value < |keys| {
      ScanHoldsWanted(placements, keys, StartOf(cursor).value, wanted, PageLimit(limit));
    }
  }

  /** The page a cursor and a limit select from a key list. */
  function PageOf(placements: map<string, Placement>, keys: seq<string>, status: Option<PlacementStatus>,
                  cursor: string, limit: int): Option<GrainPage>
    requires forall j :: 0 <= j < |keys| ==> keys[j] in placements
  {
    var start := StartOf(cursor);
    if start.None? then None
    else if start.value >= |keys| then Some(GrainPage([], ""))
    else
      var wanted := if status.None? then PlacementActive else status.value;
      var scan := ScanPage(placements, keys, start.value, wanted, PageLimit(limit));
      Some(GrainPage(scan.0, if scan.1 < |keys| then Decimal.FormatInt(scan.1) else ""))
  }

  ghost function FindPage(w: World, identity: string, status: Option<PlacementStatus>, cursor: string,
      limit: int): Option<GrainPage>
    requires Indexed(w, identity)
  {
    PageOf(w.placements, GrainsOf(w, identity), status, cursor, limit)
  }

  function PlacementsOf(placements: map<string, Placement>, keys: seq<string>): seq<Placement>
    requires forall j :: 0 <= j < |keys| ==> keys[j] in placements
  {
    if keys == [] then [] else [placements[keys[0]]] + PlacementsOf(placements, keys[1..])
  }

  lemma {:induction false} PlacementsOfConcat(placements: map<string, Placement>, a: seq<string>, b: seq<string>)
    requires forall j :: 0 <= j < |a| ==> a[j] in placements
    requires forall j :: 0 <= j < |b| ==> b[j] in placements
    ensures PlacementsOf(placements, a + b) == PlacementsOf(placements, a) + PlacementsOf(placements, b)
  {
    if a == [] {
      assert a + b == b;
    } else {
      PlacementsOfConcat(placements, a[1..], b);
      assert (a + b)[1..] == a[1..] + b;
    }
  }

  lemma {:induction false} ActiveScanTakesEverything(placements: map<string, Placement>, keys: seq<string>, i: nat,
      need: nat)
    requires i <= |keys| && forall j :: 0 <= j < |keys| ==> keys[j] in placements
    requires forall j :: 0 <= j < |keys| ==> placements[keys[j]].status == PlacementActive
    ensures var end := Min(i + need, |keys|);
            ScanPage(placements, keys, i, PlacementActive, need) == (PlacementsOf(placements, keys[i..end]), end)
    decreases |keys| - i
  {
    var end := Min(i + need, |keys|);
    if i < |keys| && need > 0 {
      ActiveScanTakesEverything(placements, keys, i + 1, need - 1);
      assert keys[i..end][1..] == keys[i + 1..end];
    } else {
      assert keys[i..end] == [];
    }
  }

  function CursorAt(start: nat): string {
    if start == 0 then "" else Decimal.FormatInt(start)
  }

  lemma CursorAtRoundTrip(start: nat)
    requires start <= MAX_INT64
    ensures StartOf(CursorAt(start)) == Some(start)
    ensures start > 0 ==> CursorAt(start) != ""
  {
    Decimal.ParseFormatInt(start);
  }

  ghost predicate AllActive(placements: map<string, Placement>, keys: seq<string>) {
    forall j :: 0 <= j < |keys| ==> keys[j] in placements && placements[keys[j]].status == PlacementActive
  }

  /** One unfiltered page is the next limit grains and points behind them. */
  lemma PageIsASlice(placements: map<string, Placement>, keys: seq<string>, start: nat, limit: int)
    requires AllActive(placements, keys) && start <= |keys| <= MAX_INT64
    ensures var end := Min(start + PageLimit(limit), |keys|);
            PageOf(placements, keys, None, CursorAt(start), limit)
            == Some(GrainPage(PlacementsOf(placements, keys[start..end]), if end < |keys| then CursorAt(end) else ""))
  {
    CursorAtRoundTrip(start);
    ActiveScanTakesEverything(placements, keys, start, PageLimit(limit));
    hide StartOf, ScanPage, Decimal.FormatInt, Decimal.ParseInt;
    if start == |keys| { assert keys[start..start] == []; }
  }

  /** The placements on the pages from a cursor on, following each page's cursor until one is empty. */
  function FollowPages(placements: map<string, Placement>, keys: seq<string>, cursor: string, limit: int, fuel: nat)
    : seq<Placement>
    requires forall j :: 0 <= j < |keys| ==> keys[j] in placements
    decreases fuel
  {
    match PageOf(placements, keys, None, cursor, limit)
    case None => []
    case Some(page) =>
      if page.nextCursor == "" || fuel == 0 then page.placements
      else page.placements + FollowPages(placements, keys, page.nextCursor, limit, fuel - 1)
  }

  lemma {:induction false} PagesConcatenate(placements: map<string, Placement>, keys: seq<string>, start: nat,
      limit: int, fuel: nat)
    requires AllActive(placements, keys) && start <= |keys| <= MAX_INT64 && |keys| - start <= fuel
    ensures FollowPages(placements, keys, CursorAt(start), limit, fuel) == PlacementsOf(placements, keys[start..])
    decreases fuel
  {
    hide Decimal.FormatInt, Decimal.ParseInt;
    var end := Min(start + PageLimit(limit), |keys|);
    PageIsASlice(placements, keys, start, limit);
    assert keys[start..] == keys[start..end] + keys[end..];
    PlacementsOfConcat(placements, keys[start..end], keys[end..]);
    CursorAtRoundTrip(end);
    var page, rest := PlacementsOf(placements, keys[start..end]), PlacementsOf(placements, keys[end..]);
    if end < |keys| {
      PagesConcatenate(placements, keys, end, limit, fuel - 1);
    } else {
      assert keys[end..] == [] && rest == [];
    }
    hide PageOf, PlacementsOf, CursorAt, StartOf, PageLimit;
    assert FollowPages(placements, keys, CursorAt(start), limit, fuel) == page + rest;
  }

  /** On an unchanged directory the unfiltered pages concatenate to the placements of exactly the node's grains,
      each once and in key order. */
  lemma PagesCoverTheNode(w: World, identity: string, limit: int)
    requires Protocol.Valid(w) && |GrainsOf(w, identity)| <= MAX_INT64
    ensures Indexed(w, identity)
    ensures var keys := GrainsOf(w, identity);
            && FollowPages(w.placements, keys, "", limit, |keys|) == PlacementsOf(w.placements, keys)
            && SortedBy(keys, StringLess)
            && forall k :: k in keys <==> k in w.placements && w.placements[k].nodeIdentity == identity
  {
    GrainsAreStored(w, identity);
    GrainsAreOwned(w, identity);
    hide Protocol.Valid, GrainsOf, FollowPages;
    var keys := GrainsOf(w, identity);
    assert forall j :: 0 <= j < |keys| ==> keys[j] in keys;
    PagesConcatenate(w.placements, keys, 0, limit, |keys|);
    assert keys[0..] == keys;
  }
}
