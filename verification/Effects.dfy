/** What the registry's and the directory's commands leave behind when they succeed, in the fields of the records and
    events themselves. */
module Effects {
  import opened Types
  import opened Naming
  import opened Protocol

  // ------------------------------------------------------------------------------------------
  // Nodes.

  /** A node as it starts a session: active, without metrics, on the first version of a full lease. */
  function Started(n: Node, ttl: int, now: int): Node {
    Node(n.nodeType, n.nodeGroup, n.nodeName, n.identity, n.session, n.address, n.weight, Metrics(0, 0, 0, 0), Active,
         Lease(1, ttl, now + ttl))
  }

  function Saying(kind: EventType, n: Node): Event {
    Event(kind, "", "", n.identity, n.session, n.nodeType, n.nodeGroup, n.nodeName, 0, n.lease.version)
  }

  /** A registration starts a session for a new node; for a registered one it only answers the lease it has. */
  lemma RegistrationStartsSession(w: World, ttl: int, now: int, node: Node)
    requires RegisterNode(w, ttl, now, node).reply.Ok?
    ensures var o := RegisterNode(w, ttl, now, node);
            && node.session != "" && node.identity == node.nodeType + "/" + node.nodeGroup + "/" + node.nodeName
            && if node.identity in w.nodes then
                 var n := w.nodes[node.identity];
                 && n.session == node.session && n.status != Offline && now < n.lease.expireAt
                 && o == Outcome(w, [], Ok(Grant(n.lease.version, n.lease.expireAt)))
               else
                 o == Outcome(w.(nodes := w.nodes[node.identity := Started(node, ttl, now)]),
                              [Saying(NodeRegistered, Started(node, ttl, now))], Ok(Grant(1, now + ttl)))
  {
  }

  /** A replacement starts a session whatever the node was, and answers what it was. */
  lemma ReplacementStartsSession(w: World, ttl: int, now: int, node: Node)
    requires ReplaceNodeSession(w, ttl, now, node).reply.Ok?
    ensures var o := ReplaceNodeSession(w, ttl, now, node);
            && node.session != "" && node.identity == node.nodeType + "/" + node.nodeGroup + "/" + node.nodeName
            && o.world == w.(nodes := w.nodes[node.identity := Started(node, ttl, now)])
            && o.events == [Saying(NodeReplaced, Started(node, ttl, now))]
            && o.reply.value.1 == Grant(1, now + ttl)
            && (o.reply.value.0.None? <==> node.identity !in w.nodes)
            && (o.reply.value.0.Some? ==>
                  o.reply.value.0.value == w.nodes[node.identity] && w.nodes[node.identity].session != node.session)
  {
  }

  /** The metrics a renewal leaves: the presented ones stamped with the clock, or else the old ones. */
  function Measured(n: Node, now: int, metrics: Option<Metrics>): Metrics {
    match metrics
    case Some(m) => Metrics(m.cpu, m.memory, m.goroutines, now)
    case None => n.metrics
  }

  /** What a renewal makes of a node: one more version, an expiry a full duration after the clock or the old one if that
      is later, and the metrics it presents. Nothing else changes. */
  predicate Extends(n: Node, n': Node, now: int, metrics: Option<Metrics>) {
    && n'.lease.version == n.lease.version + 1 && n'.lease.ttl == n.lease.ttl
    && n'.lease.expireAt >= now + n.lease.ttl && n'.lease.expireAt >= n.lease.expireAt
    && (n'.lease.expireAt == now + n.lease.ttl || n'.lease.expireAt == n.lease.expireAt)
    && n'.metrics == Measured(n, now, metrics)
    && n' == n.(lease := n'.lease, metrics := n'.metrics)
  }

  lemma RenewalExtends(w: World, now: int, identity: string, session: string, metrics: Option<Metrics>)
    requires RenewNode(w, now, identity, session, metrics).reply.Ok?
    ensures var o := RenewNode(w, now, identity, session, metrics);
            && identity in w.nodes && identity in o.world.nodes
            && w.nodes[identity].session == session && now < w.nodes[identity].lease.expireAt
            && Extends(w.nodes[identity], o.world.nodes[identity], now, metrics)
            && o.world == w.(nodes := w.nodes[identity := o.world.nodes[identity]]) && o.events == []
            && o.reply == Ok(Grant(o.world.nodes[identity].lease.version, o.world.nodes[identity].lease.expireAt))
  {
  }

  /** Draining, expiry and removal, each with its event. */
  lemma StatusChanges(w: World, now: int, identity: string, session: string, guarded: bool)
    ensures var o := DrainNode(w, identity);
            o.reply.Ok? ==>
              && identity in w.nodes && w.nodes[identity].status != Offline
              && o.world == w.(nodes := w.nodes[identity := w.nodes[identity].(status := Draining)])
              && o.events == [Saying(NodeDraining, w.nodes[identity])]
    ensures var o := ExpireOne(w, now, identity);
            o.reply.Ok? ==>
              && identity in w.nodes && w.nodes[identity].status != Offline && now >= w.nodes[identity].lease.expireAt
              && o.world == w.(nodes := w.nodes[identity := w.nodes[identity].(status := Offline)])
              && o.events == [Saying(NodeLeaseExpiredEvent, w.nodes[identity])]
    ensures var o := Unregister(w, identity, session, guarded);
            o.reply.Ok? ==>
              && identity in w.nodes && w.nodes[identity].session == session
              && o.world == w.(nodes := w.nodes - {identity})
              && o.events == [Saying(NodeUnregistered, w.nodes[identity])]
  {
  }

  /** The names of a group that are marked invalid. */
  function Marked(w: World, g: Group): set<string> {
    if g in w.invalid then w.invalid[g] else {}
  }

  /** Marking and restoring change one name of one group, and the event carries the identity the name stands for. */
  lemma NameChanges(w: World, t: string, g: string, n: string)
    ensures var o := MarkNodeInvalid(w, t, g, n);
            o.reply.Ok? ==>
              && (forall h :: Marked(o.world, h) == if h == Group(t, g) then Marked(w, h) + {n} else Marked(w, h))
              && o.world == w.(invalid := o.world.invalid)
              && o.events == [Event(NodeMarkedInvalid, "", "", t + "/" + g + "/" + n, "", t, g, n, 0, 0)]
    ensures var o := RestoreNode(w, t, g, n);
            o.reply.Ok? ==>
              && (forall h :: Marked(o.world, h) == if h == Group(t, g) then Marked(w, h) - {n} else Marked(w, h))
              && o.world == w.(invalid := o.world.invalid)
              && o.events == [Event(NodeRestored, "", "", t + "/" + g + "/" + n, "", t, g, n, 0, 0)]
  {
  }

  // ------------------------------------------------------------------------------------------
  // Placements.

  /** A grain placed on a node for the first time. */
  function Placed(t: Target, placementId: string, n: Node, now: int): Placement {
    Placement(t.grainId, t.kind, t.kind + "/" + t.grainId, placementId, n.identity, n.session, 1, PlacementActive, now,
              now)
  }

  /** A placement on another node or another session: the same grain, ID and creation, one more version. */
  function Shifted(p: Placement, n: Node, now: int): Placement {
    Placement(p.grainId, p.kind, p.grainKey, p.placementId, n.identity, n.session, p.version + 1, PlacementActive,
              p.createTime, now)
  }

  function About(kind: EventType, p: Placement): Event {
    Event(kind, p.grainKey, p.placementId, p.nodeIdentity, p.ownerSession, "", "", "", p.version, 0)
  }

  function RouteAt(p: Placement, n: Node): Route {
    Route(p.grainKey, p.placementId, p.nodeIdentity, p.ownerSession, p.version, PlacementActive, n.lease.version,
          n.lease.expireAt)
  }

  /** The grain has this record, is indexed under its node alone, and every other grain is where it was. */
  ghost predicate OnlyChange(w: World, w': World, p: Placement) {
    && w'.placements == w.placements[p.grainKey := p] && w'.nodes == w.nodes && w'.invalid == w.invalid
    && forall n, k :: k in Owned(w'.byNode, n) <==>
         if k == p.grainKey then n == p.nodeIdentity else k in Owned(w.byNode, n)
  }

  /** A commit that creates: the record, the index, the event and the answer. */
  lemma CommitPlaces(w: World, now: int, t: Target, placementId: string, chosen: Node)
    requires Valid(w) && AllocateCommit(w, now, t, placementId, chosen).events != []
    ensures var o, p := AllocateCommit(w, now, t, placementId, chosen), Placed(t, placementId, chosen, now);
            && p.grainKey !in w.placements && OnlyChange(w, o.world, p)
            && o.events == [About(PlacementCreated, p)] && o.reply == Ok(p)
  {
    hide NewNodeIdentity, NoEmptySet, WellFormedIdentity, Available;
  }

  /** A resolution that changes something: it places a new grain on a registered node, or shifts a placed one to a
      registered node. */
  lemma ResolutionPlaces(w: World, now: int, t: Target, placementId: string, pick: Option<Node>)
    requires Valid(w) && ResolveRoute(w, now, t, placementId, pick).events != []
    ensures var o, key := ResolveRoute(w, now, t, placementId, pick), t.kind + "/" + t.grainId;
            && key in o.world.placements && o.world.placements[key].nodeIdentity in w.nodes
            && var n := w.nodes[o.world.placements[key].nodeIdentity];
               var p := if key in w.placements then Shifted(w.placements[key], n, now)
                        else Placed(t, placementId, n, now);
               && OnlyChange(w, o.world, p) && o.reply == Ok(RouteAt(p, n))
               && o.events == [About(if key in w.placements then PlacementRecovered else PlacementCreated, p)]
  {
    hide NewGrainKey, NewNodeIdentity, Valid, Create, Relocate, OnlyChange, NodeType, NodeGroup, NodeName, ChooseTarget;
    GrainKeyIsJoined(t.kind, t.grainId);
    PlacedAreActive(w);
    ChosenIsRegistered(w, now, t.GroupOf(), pick);
    var key, chosen := t.kind + "/" + t.grainId, ChooseTarget(w, now, t.GroupOf(), pick);
    if key in w.placements {
      var owner := w.placements[key].nodeIdentity;
      if owner in w.nodes { RelocationShifts(w, key, w.nodes[owner], now); }
      if chosen.Ok? { RelocationShifts(w, key, chosen.value, now); }
    } else if chosen.Ok? {
      CreationPlaces(w, t, placementId, chosen.value, now);
    }
  }

  lemma RelocationShifts(w: World, key: string, n: Node, now: int)
    requires Valid(w) && key in w.placements && n.identity in w.nodes && w.nodes[n.identity] == n
    ensures var p, o := Shifted(w.placements[key], n, now), Relocate(w, w.placements[key], n, now);
            && OnlyChange(w, o.world, p) && o.reply == Ok(RouteAt(p, n)) && o.events == [About(PlacementRecovered, p)]
            && key in o.world.placements && o.world.placements[key] == p
  {
    hide NoEmptySet, GoodNode, WellFormedIdentity;
  }

  lemma CreationPlaces(w: World, t: Target, placementId: string, n: Node, now: int)
    requires Valid(w) && t.kind + "/" + t.grainId !in w.placements
    ensures var key, p := t.kind + "/" + t.grainId, Placed(t, placementId, n, now);
            && NewPlacement(t, key, placementId, n, now) == p && OnlyChange(w, Create(w, p), p)
            && key in Create(w, p).placements && Create(w, p).placements[key] == p
  {
    hide NoEmptySet, GoodNode, GoodPlacement;
  }

  /** Transfers and recoveries shift the grain to the node they name. */
  lemma MovesShift(w: World, now: int, key: string, placementId: string, from: string, to: string, version: int)
    requires Valid(w)
    ensures var o := Transfer(w, now, key, placementId, from, to, version);
            o.reply.Ok? ==>
              && key in w.placements && to in w.nodes
              && var p := Shifted(w.placements[key], w.nodes[to], now);
                 OnlyChange(w, o.world, p) && o.reply == Ok(p) && o.events == [About(PlacementTransferred, p)]
    ensures var o := Recover(w, now, key, placementId, to, version);
            o.reply.Ok? ==>
              && key in w.placements && to in w.nodes
              && var p := Shifted(w.placements[key], w.nodes[to], now);
                 OnlyChange(w, o.world, p) && o.reply == Ok(p) && o.events == [About(PlacementRecovered, p)]
  {
    hide NoEmptySet, WellFormedIdentity, Available, Routeable;
  }

  /** A release removes the record and its index entry; its event carries the next version. */
  lemma ReleaseRemoves(w: World, now: int, c: Claim)
    requires Valid(w) && Release(w, now, c).reply.Ok?
    ensures var o := Release(w, now, c);
            && c.grainKey in w.placements
            && o.world.placements == w.placements - {c.grainKey}
            && o.world.nodes == w.nodes && o.world.invalid == w.invalid
            && (forall n, k :: k in Owned(o.world.byNode, n) <==> k != c.grainKey && k in Owned(w.byNode, n))
            && o.events == [About(PlacementReleasedEvent, w.placements[c.grainKey].(version := c.version + 1))]
  {
    hide NoEmptySet, WellFormedIdentity;
  }

  /** A placement renewal changes nothing, answers the placement and says so. */
  lemma RenewalConfirms(w: World, now: int, c: Claim)
    requires Renew(w, now, c).reply.Ok?
    ensures var o := Renew(w, now, c);
            && c.grainKey in w.placements
            && o == Outcome(w, [About(PlacementRenewed, w.placements[c.grainKey])], Ok(w.placements[c.grainKey]))
  {
  }
}
