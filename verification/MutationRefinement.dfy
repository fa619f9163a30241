/** Release, transfer and recovery in Redis refine the in-process directory. */
module MutationRefinement {
  import opened Types
  import opened Naming
  import opened Decimal
  import opened Keyspace
  import opened Protocol
  import opened RedisInvariant
  import opened NodeRefinement
  import opened PlacementScripts
  import opened PlacementRefinement

  lemma RemovalIsReachable(k: Keys, p: Placement, e: Event)
    requires Reachable(k) && p.grainKey in Abs(k).placements && Abs(k).placements[p.grainKey] == p
    requires k.events.Holds? && CollectionOk(k.index, p.nodeIdentity)
    ensures var k' := Unindex(k, p.nodeIdentity, p.grainKey).(placement := k.placement - {p.grainKey},
                                                              events := Append(k.events, e));
            var w := Abs(k);
            && Reachable(k')
            && Abs(k')
                  == w.(placements := w.placements - {p.grainKey},
                  byNode := DropIndex(w.byNode, p.nodeIdentity, p.grainKey))
            && Emitted(k.events, k'.events, [e])
  {
    hide Registered, Leased, Scored, OwnKeys, CounterWithin, Emitted, Ownership, NodesOf, GoodPlacement, GoodNode,
         ZRem, DropIndex;
    UnindexKeeps(k, p.nodeIdentity, p.grainKey);
    ValuesDrop(k.placement, p.grainKey);
    EmittedOne(k.events, e, e);
    RemovalKeepsValid(Abs(k), p);
  }

  lemma RemovalKeepsValid(w: World, p: Placement)
    requires Valid(w) && p.grainKey in w.placements && w.placements[p.grainKey] == p
    ensures Valid(w.(placements := w.placements - {p.grainKey},
            byNode := DropIndex(w.byNode, p.nodeIdentity, p.grainKey)))
  {
    var w' := w.(placements := w.placements - {p.grainKey}, byNode := DropIndex(w.byNode, p.nodeIdentity, p.grainKey));
    assert IndexAgrees(w');
  }

  lemma ReleaseStepRefines(k: Keys, now: int, m: Mutation, p: Placement)
    requires Reachable(k) && p.grainKey in Abs(k).placements && Abs(k).placements[p.grainKey] == p
    requires m.ReleaseMutation? && k.events.Holds? && CollectionOk(k.index, p.nodeIdentity)
    ensures var r := PlacementScripts.Release(k, now, m, p);
            var o := Protocol.Release(Abs(k), now, Claim(p.grainKey, p.placementId, m.from, m.session, p.version));
            Simulates(k, r, o) && !r.reply.Faulted? && (r.reply.Answer? <==> o.reply.Ok?)
  {
    hide Reachable, Abs, Unindex, DropIndex, Emitted, Append, NodeType, NodeGroup, NodeName, LeaseExpired, Score;
    StoredPlacement(k, p.grainKey);
    StoredNode(k, p.nodeIdentity);
    if p.nodeIdentity in Abs(k).nodes { LiveIsUsable(k, now, p.nodeIdentity); }
    RemovalIsReachable(k, p, PlacementEvent(p.(version := p.version + 1, updateTime := now), PlacementReleasedEvent));
  }

  lemma RelocationIsReachable(k: Keys, now: int, sequence: string, p: Placement, to: string, kind: EventType)
    requires Reachable(k) && p.grainKey in Abs(k).placements && Abs(k).placements[p.grainKey] == p
    requires to in Abs(k).nodes && Canonical(sequence)
    requires Value(sequence) == CounterValue(k.sequence) < MAX_EXACT_INTEGER
    requires k.events.Holds? && CollectionOk(k.index, p.nodeIdentity) && CollectionOk(k.index, to)
    ensures var n := Abs(k).nodes[to];
            var moved := Moved(p, n, now);
            var k' := Place(Unindex(k, p.nodeIdentity, p.grainKey), sequence, moved, to, PlacementEvent(moved, kind));
            Reachable(k') && Abs(k') == Move(Abs(k), p, n, now)
                && Emitted(k.events, k'.events, [PlacementEvent(moved, kind)])
  {
    hide Bookkept, Abs, Place, ZRem, Increment, Emitted, Valid, Move, Placed;
    var n := Abs(k).nodes[to];
    var moved := Moved(p, n, now);
    StoredNode(k, to);
    UnindexKeeps(k, p.nodeIdentity, p.grainKey);
    var cleared := Unindex(k, p.nodeIdentity, p.grainKey);
    BookkeptHolds(cleared);
    PlaceKeeps(cleared, sequence, moved, to, PlacementEvent(moved, kind), PlacementEvent(moved, kind));
    MoveIsPlaced(Abs(k), p, n, now);
    MovedFrom(Abs(k), p, n, now);
  }

  lemma MovedFrom(w: World, p: Placement, n: Node, now: int)
    ensures Placed(w, Some(p.nodeIdentity), Moved(p, n, now))
            == w.(placements := w.placements[p.grainKey := Moved(p, n, now)],
                  byNode := AddIndex(DropIndex(w.byNode, p.nodeIdentity, p.grainKey), n.identity, p.grainKey))
  {
  }

  /** The in-process transfer or recovery a mutation stands for. */
  function MoveCommand(w: World, now: int, key: string, placementId: string, version: int,
      m: Mutation): Outcome<Placement>
    requires !m.ReleaseMutation?
  {
    match m
    case TransferMutation(from, to) => Protocol.Transfer(w, now, key, placementId, from, to, version)
    case RecoverMutation(to) => Protocol.Recover(w, now, key, placementId, to, version)
  }

  lemma HealthyIsRouteable(k: Keys, now: int, p: Placement)
    requires Reachable(k) && p.status == PlacementActive
    ensures Healthy(k, now, p) <==> Routeable(Abs(k), p, now)
  {
    hide Reachable, Abs, LiveOwner, NodeType, NodeGroup, NodeName;
    StoredNode(k, p.nodeIdentity);
    if p.nodeIdentity in Abs(k).nodes { LiveIsUsable(k, now, p.nodeIdentity); }
  }

  lemma MoveStepRefines(k: Keys, now: int, m: Mutation, p: Placement, sequence: string)
    requires Reachable(k) && p.grainKey in Abs(k).placements && Abs(k).placements[p.grainKey] == p
    requires p.status == PlacementActive
    requires !m.ReleaseMutation? && k.events.Holds? && Canonical(sequence)
    requires Value(sequence) == CounterValue(k.sequence) < MAX_EXACT_INTEGER
    requires CollectionOk(k.index, p.nodeIdentity) && CollectionOk(k.index, m.to)
    ensures var r := MoveTo(k, now, m, p, sequence);
            var o := MoveCommand(Abs(k), now, p.grainKey, p.placementId, p.version, m);
            Simulates(k, r, o) && !r.reply.Faulted? && (r.reply.Answer? <==> o.reply.Ok?)
                && (r.reply.Answer? ==> o.reply == Ok(r.reply.value))
  {
    hide Reachable, Abs, Unindex, Place, Move, Emitted, NodeType, NodeGroup, NodeName, Receives, Available, Healthy,
         Routeable, GoodNode;
    StoredNode(k, m.to);
    HealthyIsRouteable(k, now, p);
    if m.to in Abs(k).nodes {
      ReceivesIsAvailable(k, now, m.to);
      RelocationIsReachable(k, now, sequence, p, m.to,
          if m.TransferMutation? then PlacementTransferred else PlacementRecovered);
    }
  }

  /** Release. Past the sequence maximum even a release is refused, since mutate.lua reads the counter first. */
  lemma ReleaseRefines(k: Keys, now: int, c: Claim, seen: Option<Placement>)
    requires Reachable(k)
    ensures var m := ReleaseMutation(c.nodeIdentity, c.session);
            var r := Mutate(k, now, c.grainKey, c.placementId, c.version, m, seen);
            var o := Protocol.Release(Abs(k), now, c);
            && Simulates(k, r, o)
            && (r.reply.Faulted? ==> r.reply.fault == InvalidCounter && CounterValue(k.sequence) == MAX_EXACT_INTEGER)
            && (r.reply.Answer? <==>
                  o.reply.Ok? && Unmoved(k, c.grainKey, seen) && CounterValue(k.sequence) < MAX_EXACT_INTEGER)
  {
    hide Reachable, Abs, PlacementScripts.Release, Emitted, NodeType, NodeGroup, NodeName, ReadCounter, MaxSequence,
         CounterValue;
    FamiliesHold(k);
    StoredPlacement(k, c.grainKey);
    StoredNode(k, OwnerOf(seen));
    StoredNode(k, "");
    SelectionRefinement.SequenceReads(k);
    SequenceWithin(k);
    var m := ReleaseMutation(c.nodeIdentity, c.session);
    if c.grainKey in Abs(k).placements && seen == Some(Abs(k).placements[c.grainKey]) {
      ReleaseStepRefines(k, now, m, seen.value);
    }
    ReleaseMatches(Abs(k), now, c);
    hide Protocol.Release;
  }

  lemma SequenceWithin(k: Keys)
    requires Reachable(k)
    ensures CounterValue(k.sequence) <= MAX_EXACT_INTEGER
  {
    hide Valid, Registered, Leased, Scored, Intact, OwnKeys;
  }

  /** A release is refused unless it names the stored placement ID and version. */
  lemma ReleaseMatches(w: World, now: int, c: Claim)
    requires c.grainKey in w.placements ==> w.placements[c.grainKey].status == PlacementActive
    ensures Protocol.Release(w, now, c).reply.Ok? ==>
              c.grainKey in w.placements && w.placements[c.grainKey].placementId == c.placementId
                  && w.placements[c.grainKey].version == c.version
  {
  }

  /** Transfer and recovery. */
  lemma MoveRefines(k: Keys, now: int, key: string, placementId: string, version: int, m: Mutation,
      seen: Option<Placement>)
    requires Reachable(k) && !m.ReleaseMutation?
    ensures var r := Mutate(k, now, key, placementId, version, m, seen);
            var o := MoveCommand(Abs(k), now, key, placementId, version, m);
            && Simulates(k, r, o)
            && (r.reply.Answer? ==> o.reply == Ok(r.reply.value))
            && (r.reply.Faulted? ==>
                  || (r.reply.fault == InvalidCounter && CounterValue(k.sequence) == MAX_EXACT_INTEGER)
                                     || (r.reply.fault == UnparsableIdentity && !WellFormedIdentity(m.to)))
            && (r.reply.Answer? <==>
                  o.reply.Ok? && Unmoved(k, key, seen) && CounterValue(k.sequence) < MAX_EXACT_INTEGER)
  {
    hide Reachable, Abs, MoveTo, Emitted, NodeType, NodeGroup, NodeName, ReadCounter, MaxSequence, CounterValue,
         Available, Move;
    FamiliesHold(k);
    StoredPlacement(k, key);
    StoredNode(k, OwnerOf(seen));
    StoredNode(k, m.to);
    SelectionRefinement.SequenceReads(k);
    SequenceWithin(k);
    var sequence := ReadCounter(k.sequence, MaxSequence());
    if key in Abs(k).placements && seen == Some(Abs(k).placements[key]) && sequence.Some? {
      MoveStepRefines(k, now, m, seen.value, sequence.value);
    }
    MoveMatches(Abs(k), now, key, placementId, version, m);
  }

  /** A move is refused unless it names the stored placement ID and version and an existing target. */
  lemma MoveMatches(w: World, now: int, key: string, placementId: string, version: int, m: Mutation)
    requires !m.ReleaseMutation?
    ensures MoveCommand(w, now, key, placementId, version, m).reply.Ok? ==>
              && key in w.placements && w.placements[key].placementId == placementId
              && w.placements[key].version == version
              && w.placements[key].status == PlacementActive && m.to in w.nodes
  {
  }
}
