/** What one request can do to the keyspace, on any keyspace at all: failures change nothing, successes are announced
    by one matching event, and index scores only ever grow. */
module RedisAtomicity {
  import opened Types
  import opened Naming
  import opened Decimal
  import opened Keyspace
  import opened RedisRuns
  import opened RedisInvariant
  import opened PlacementRefinement
  import Protocol
  import NodeScripts
  import opened PlacementScripts
  import Schedule

  /** The record a request wrote or removed is what its one event announces. */
  ghost predicate Announces(k: Keys, r: Keys, c: Request, e: Event) {
    match c
    case RRegister(node) => e.kind == NodeRegistered && NodeAnnounced(r, node.identity, e)
    case RReplace(node) => e.kind == NodeReplaced && NodeAnnounced(r, node.identity, e)
    case RUnregister(id, _, _) => e.kind == NodeUnregistered && NodeAnnounced(k, id, e) && id !in r.node
    case RDrain(id) => e.kind == NodeDraining && NodeAnnounced(r, id, e)
    case RExpire(id, _, _) => e.kind == NodeLeaseExpiredEvent && NodeAnnounced(r, id, e)
    case RMarkInvalid(t, g, n) => e.kind == NodeMarkedInvalid && n in Members(r.invalid, Group(t, g)) && e.nodeName == n
    case RRestore(t, g, n) => e.kind == NodeRestored && n !in Members(r.invalid, Group(t, g)) && e.nodeName == n
    case RAllocate(t, _) => NewGrainKey(t.kind, t.grainId).Some? && e.kind == PlacementCreated
      && PlacementAnnounced(r, NewGrainKey(t.kind, t.grainId).value, e)
    case RResolve(t, _) =>
      NewGrainKey(t.kind, t.grainId).Some? && (e.kind == PlacementCreated || e.kind == PlacementRecovered)
                           && PlacementAnnounced(r, NewGrainKey(t.kind, t.grainId).value, e)
    case RMutate(key, _, _, ReleaseMutation(_, _)) => RemovalAnnounced(k, r, key, e)
    case RMutate(key, _, _, TransferMutation(_, _)) => e.kind == PlacementTransferred && PlacementAnnounced(r, key, e)
    case RMutate(key, _, _, RecoverMutation(_)) => e.kind == PlacementRecovered && PlacementAnnounced(r, key, e)
    case _ => false
  }

  /** A release announces the removed record at its next version. */
  ghost predicate RemovalAnnounced(k: Keys, r: Keys, key: string, e: Event) {
    match Load(k.placement, key)
    case Loaded(p) =>
      r.placement == k.placement - {key} && e == PlacementEvent(p.(version := p.version + 1), PlacementReleasedEvent)
    case _ => false
  }

  ghost predicate NodeAnnounced(k: Keys, id: string, e: Event) {
    match Load(k.node, id) case Loaded(rn) => e == NodeEvent(e.kind, rn.node) case _ => false
  }

  ghost predicate PlacementAnnounced(k: Keys, key: string, e: Event) {
    match Load(k.placement, key)
    case Loaded(p) => p.grainKey == key && e.(leaseVersion := 0) == PlacementEvent(p, e.kind)
    case _ => false
  }

  /** A failed request leaves every key alone, but for the lease score an expiry cleans up. */
  ghost predicate FailureIsAtomic(k: Keys, c: Request, r: Ending) {
    !r.ok ==>
      || r.keys == k
      || (c.RExpire? && CollectionOk(k.leases, c.group) && r.keys == k.(leases := ZRem(k.leases, c.group, c.identity)))
  }

  /** A successful request that wrote a placement, node or invalid name appended exactly one event and that event
      matches the write; nodes are renewed without one, and an unchanged keyspace announces nothing. */
  ghost predicate SuccessIsAnnounced(k: Keys, c: Request, r: Ending) {
    r.ok ==>
      || (r.keys == k && (c.RRegister? || c.RAllocate? || c.RResolve?))
      || (c.RRenewNode? && r.keys == k.(node := r.keys.node, leases := r.keys.leases))
      || (c.RRenew? && k.audit.Holds?
            && exists p :: r.keys == k.(audit := Append(k.audit, PlacementEvent(p, PlacementRenewed))))
      || (k.events.Holds? && exists e ::
            r.keys.events == Append(k.events, e) && r.keys.audit == k.audit && Announces(k, r.keys, c, e))
  }

  lemma Sent(k: Keys, r: Keys, c: Request, e: Event)
    requires k.events.Holds? && r.events == Append(k.events, e) && r.audit == k.audit && Announces(k, r, c, e)
    ensures SuccessIsAnnounced(k, c, Ending(r, true))
  {
  }

  lemma EnrolmentWrites(k: Keys, n: Node, kind: EventType)
    requires CollectionOk(k.nodes, n.GroupOf()) && CollectionOk(k.leases, n.GroupOf()) && k.events.Holds?
    ensures var r := NodeScripts.Enroll(k, n, kind);
            && r.events == Append(k.events, NodeEvent(kind, n)) && r.audit == k.audit
            && Load(r.node, n.identity) == Loaded(RedisNode(n, n.identity, n.identity))
  {
    hide SAdd, ZAdd;
  }

  /** A failure wrote nothing but the clean-up, and a success is announced. */
  ghost predicate AtomicAndAnnounced(k: Keys, c: Request, r: Ending) {
    FailureIsAtomic(k, c, r) && SuccessIsAnnounced(k, c, r)
  }

  lemma RegistrationIsAnnounced(k: Keys, ttl: int, now: int, node: Node)
    ensures AtomicAndAnnounced(k, RRegister(node), Ended(NodeScripts.Register(k, ttl, now, node)))
  {
    hide NodeScripts.Enroll, NewNodeIdentity, Score, StringOk, CollectionOk, NodeScripts.ScoreAgrees,
         Protocol.NormalizedNode;
    var r := Ended(NodeScripts.Register(k, ttl, now, node));
    var added := Protocol.Enrolled(node, ttl, now);
    if r.ok && r.keys != k {
      EnrolmentWrites(k, added, NodeRegistered);
      Sent(k, r.keys, RRegister(node), NodeEvent(NodeRegistered, added));
    }
  }

  lemma ReplacementIsAnnounced(k: Keys, ttl: int, now: int, node: Node)
    ensures AtomicAndAnnounced(k, RReplace(node), Ended(NodeScripts.Replace(k, ttl, now, node)))
  {
    hide NodeScripts.Enroll, NewNodeIdentity, Score, StringOk, CollectionOk, NodeScripts.ScoreAgrees,
         Protocol.NormalizedNode;
    var r := Ended(NodeScripts.Replace(k, ttl, now, node));
    var added := Protocol.Enrolled(node, ttl, now);
    if r.ok {
      EnrolmentWrites(k, added, NodeReplaced);
      Sent(k, r.keys, RReplace(node), NodeEvent(NodeReplaced, added));
    }
  }

  lemma NameChangeIsAnnounced(k: Keys, t: string, g: string, n: string)
    ensures AtomicAndAnnounced(k, RMarkInvalid(t, g, n), Ended(NodeScripts.MarkInvalid(k, t, g, n)))
    ensures AtomicAndAnnounced(k, RRestore(t, g, n), Ended(NodeScripts.Restore(k, t, g, n)))
  {
    hide NewNodeIdentity;
    var marked, restored := Ended(NodeScripts.MarkInvalid(k, t, g, n)), Ended(NodeScripts.Restore(k, t, g, n));
    if marked.ok { Sent(k, marked.keys, RMarkInvalid(t, g, n), Protocol.NameEvent(NodeMarkedInvalid, t, g, n)); }
    if restored.ok { Sent(k, restored.keys, RRestore(t, g, n), Protocol.NameEvent(NodeRestored, t, g, n)); }
  }

  lemma RenewalIsSilent(k: Keys, now: int, id: string, session: string, metrics: Option<Metrics>, seen: Option<Node>)
    ensures AtomicAndAnnounced(k, RRenewNode(id, session, metrics),
                               Ended(NodeScripts.RenewNode(k, now, id, session, metrics, seen)))
  {
  }

  lemma RemovalIsAnnounced(k: Keys, id: string, session: string, guarded: bool, seen: Option<Node>)
    ensures AtomicAndAnnounced(k, RUnregister(id, session, guarded),
                               Ended(NodeScripts.Unregister(k, id, session, guarded, seen)))
  {
    var r := Ended(NodeScripts.Unregister(k, id, session, guarded, seen));
    if r.ok && r.keys != k {
      Sent(k, r.keys, RUnregister(id, session, guarded), NodeEvent(NodeUnregistered, k.node[id].value.node));
    }
  }

  lemma DrainIsAnnounced(k: Keys, id: string, seen: Option<Node>)
    ensures AtomicAndAnnounced(k, RDrain(id), Ended(NodeScripts.Drain(k, id, seen)))
  {
    var r := Ended(NodeScripts.Drain(k, id, seen));
    if r.ok && r.keys != k {
      Sent(k, r.keys, RDrain(id), NodeEvent(NodeDraining, k.node[id].value.node.(status := Draining)));
    }
  }

  lemma ExpiryIsAnnounced(k: Keys, now: int, id: string, g: Group, seen: Option<RedisNode>, score: int)
    ensures var r := NodeScripts.ExpireNode(k, now, id, g, seen, score);
            AtomicAndAnnounced(k, RExpire(id, g, score), Ending(r.keys, r.reply == Answer(NodeScripts.Expired)))
  {
    var r := NodeScripts.ExpireNode(k, now, id, g, seen, score);
    if r.reply == Answer(NodeScripts.Expired) {
      var n := k.node[id].value.node.(status := Offline);
      Sent(k, r.keys, RExpire(id, g, score), NodeEvent(NodeLeaseExpiredEvent, n));
    }
  }

  lemma PlacementRenewalIsAudited(k: Keys, now: int, claim: Protocol.Claim, seen: Option<Placement>)
    ensures AtomicAndAnnounced(k, RRenew(claim), Ended(PlacementScripts.Renew(k, now, claim, seen)))
  {
    hide GroupOfIdentity, Score;
    var r := Ended(PlacementScripts.Renew(k, now, claim, seen));
    if r.ok {
      assert r.keys == k.(audit := Append(k.audit, PlacementEvent(seen.value, PlacementRenewed)));
    }
  }

  lemma MutationIsAnnounced(k: Keys, now: int, key: string, placementId: string, version: int, m: Mutation,
      seen: Option<Placement>, c: Request)
    requires c == RMutate(key, placementId, version, m)
    ensures var r := Ended(Mutate(k, now, key, placementId, version, m, seen));
            FailureIsAtomic(k, c, r) && SuccessIsAnnounced(k, c, r)
  {
    hide GroupOfIdentity, NodeType, NodeName, Score, Members, Receives, Healthy, ReadCounter, MaxSequence, ZAdd, ZRem,
         Increment, Append;
    var r := Mutate(k, now, key, placementId, version, m, seen);
    if r.reply.Answer? {
      var kind :=
        if m.ReleaseMutation? then PlacementReleasedEvent
        else if m.TransferMutation? then PlacementTransferred
        else PlacementRecovered;
      Sent(k, r.keys, c, PlacementEvent(r.reply.value, kind));
    }
  }

  lemma CommitWrites(k: Keys, g: Group, s: Selection, prior: Option<string>, p: Placement, e: Event)
    requires s.Selected? && Canonical(s.turn) && Canonical(s.sequence) && k.events.Holds?
    requires CollectionOk(k.index, s.candidate.indexKey) && (prior.Some? ==> CollectionOk(k.index, prior.value))
    ensures var r := Commit(k, g, s, prior, p, e);
            r.placement == k.placement[p.grainKey := Holds(p)] && r.events == Append(k.events, e) && r.audit == k.audit
                && r != k
  {
    hide ZAdd, ZRem, Increment;
  }

  lemma AllocationIsAnnounced(k: Keys, now: int, policy: Policy, t: Protocol.Target, placementId: string,
      seen: Option<Placement>, c: Request)
    requires c == RAllocate(t, placementId)
    ensures var r := Ended(PlacementScripts.Allocate(k, now, policy, t, placementId, seen));
            FailureIsAtomic(k, c, r) && SuccessIsAnnounced(k, c, r)
  {
    hide GroupOfIdentity, NodeType, NodeName, Score, Members, PlacementScripts.Select, Commit, Append, NewGrainKey,
         LiveOwner, SuccessIsAnnounced;
    var r := PlacementScripts.Allocate(k, now, policy, t, placementId, seen);
    var s := PlacementScripts.Select(k, now, policy, t.GroupOf(), false);
    if r.reply.Answer? && r.keys != k {
      var p := r.reply.value;
      SelectedIndexHolds(k, now, policy, t.GroupOf(), false);
      var prior := if Load(k.placement,
          NewGrainKey(t.kind, t.grainId).value).Missing? then None else Some(OwnerOf(seen));
      CommitWrites(k, t.GroupOf(), s, prior, p, PlacementEvent(p, PlacementCreated));
      Sent(k, r.keys, c, PlacementEvent(p, PlacementCreated));
    }
    AnsweredUnchanged(k, c, Ended(r));
  }

  lemma AnsweredUnchanged(k: Keys, c: Request, r: Ending)
    ensures !r.ok || (r.keys == k && (c.RRegister? || c.RAllocate? || c.RResolve?)) ==> SuccessIsAnnounced(k, c, r)
  {
  }

  /** The event a resolution sends carries the lease version of the node it answers. */
  function ResolvedEvent(r: RouteReply, kind: EventType): Event {
    PlacementEvent(r.placement, kind).(leaseVersion := r.leaseVersion)
  }

  lemma ResolveNewIsAnnounced(k: Keys, now: int, policy: Policy, t: Protocol.Target, key: string, placementId: string,
      prior: Option<string>)
    requires k.events.Holds? && (prior.Some? ==> CollectionOk(k.index, prior.value))
    ensures var r := ResolveNew(k, now, policy, t, key, placementId, prior);
            && (!r.reply.Answer? ==> r.keys == k)
            && (r.reply.Answer? ==>
                  && r.keys.events == Append(k.events, ResolvedEvent(r.reply.value, PlacementCreated))
                  && r.keys.audit == k.audit
                                    && r.keys.placement == k.placement[key := Holds(r.reply.value.placement)]
                                    && r.reply.value.placement.grainKey == key)
  {
    hide GroupOfIdentity, NodeType, NodeName, PlacementScripts.Select, Commit, Append;
    var s := PlacementScripts.Select(k, now, policy, t.GroupOf(), true);
    if s.Selected? {
      SelectedIndexHolds(k, now, policy, t.GroupOf(), true);
      var p := Protocol.NewPlacement(t, key, placementId, s.candidate.node, now);
      CommitWrites(k, t.GroupOf(), s, prior, p, PlacementEvent(p,
          PlacementCreated).(leaseVersion := s.candidate.node.lease.version));
    }
  }

  lemma ResolveOwnedIsAnnounced(k: Keys, now: int, policy: Policy, t: Protocol.Target, p: Placement)
    requires k.events.Holds? && CollectionOk(k.index, p.nodeIdentity)
    ensures var r := ResolveOwned(k, now, policy, t, p);
            && (!r.reply.Answer? ==> r.keys == k)
            && (r.reply.Answer? && r.keys != k ==>
                  && r.keys.events == Append(k.events, ResolvedEvent(r.reply.value, PlacementRecovered))
                  && r.keys.audit == k.audit
                  && r.keys.placement == k.placement[p.grainKey := Holds(r.reply.value.placement)]
                  && r.reply.value.placement.grainKey == p.grainKey)
  {
    hide GroupOfIdentity, NodeType, NodeName, PlacementScripts.Select, Commit, Append, LiveOwner, Members;
    var s := PlacementScripts.Select(k, now, policy, t.GroupOf(), true);
    if s.Selected? {
      SelectedIndexHolds(k, now, policy, t.GroupOf(), true);
      var moved := Protocol.Moved(p, s.candidate.node, now);
      CommitWrites(k, t.GroupOf(), s, Some(p.nodeIdentity), moved,
          PlacementEvent(moved, PlacementRecovered).(leaseVersion := s.candidate.node.lease.version));
    }
  }

  lemma ResolutionIsAnnounced(k: Keys, now: int, policy: Policy, t: Protocol.Target, placementId: string,
      seen: Option<Placement>, c: Request)
    requires c == RResolve(t, placementId)
    ensures var r := Ended(PlacementScripts.ResolveRoute(k, now, policy, t, placementId, seen));
            FailureIsAtomic(k, c, r) && SuccessIsAnnounced(k, c, r)
  {
    hide GroupOfIdentity, NodeType, NodeName, NodeGroup, ResolveNew, ResolveOwned, Append, NewGrainKey,
         SuccessIsAnnounced;
    var r := PlacementScripts.ResolveRoute(k, now, policy, t, placementId, seen);
    if Protocol.TargetNamed(t) && AllocateTypesOk(k, NewGrainKey(t.kind, t.grainId).value, t.GroupOf(), OwnerOf(seen)) {
      var key := NewGrainKey(t.kind, t.grainId).value;
      var placed := seen.Some? && seen.value.status == PlacementActive;
      if placed { ResolveOwnedIsAnnounced(k, now, policy, t, seen.value); }
      else {
        var prior := if seen.Some? then Some(OwnerOf(seen)) else None;
        ResolveNewIsAnnounced(k, now, policy, t, key, placementId, prior);
      }
      if r.reply.Answer? && r.keys != k {
        Sent(k, r.keys, c, ResolvedEvent(r.reply.value, if placed then PlacementRecovered else PlacementCreated));
      }
    }
    AnsweredUnchanged(k, c, Ended(r));
  }

  /** On any keyspace, with any earlier read: a failed request changes nothing, but for the lease score an expiry
      cleans up, and a successful one is announced by exactly one event that matches what it wrote. */
  lemma RequestsAreAtomicAndAnnounced(k: Keys, earlier: Keys, ttl: int, now: int, policy: Policy, c: Request)
    ensures var r := RStep(k, earlier, ttl, now, policy, c); FailureIsAtomic(k, c, r) && SuccessIsAnnounced(k, c, r)
  {
    hide FailureIsAtomic, SuccessIsAnnounced, NodeScripts.Register, NodeScripts.Replace, NodeScripts.RenewNode,
         NodeScripts.Unregister, NodeScripts.Drain, NodeScripts.MarkInvalid, NodeScripts.Restore,
         NodeScripts.ExpireNode, PlacementScripts.Allocate, PlacementScripts.ResolveRoute, PlacementScripts.Renew,
         PlacementScripts.Mutate;
    match c
    case RRegister(node) => RegistrationIsAnnounced(k, ttl, now, node);
    case RReplace(node) => ReplacementIsAnnounced(k, ttl, now, node);
    case RRenewNode(id, session, metrics) =>
      RenewalIsSilent(k, now, id, session, metrics, ReadNode(earlier, id));
    case RUnregister(id, session, guarded) => RemovalIsAnnounced(k, id, session, guarded, ReadNode(earlier, id));
    case RDrain(id) => DrainIsAnnounced(k, id, ReadNode(earlier, id));
    case RMarkInvalid(t, g, n) => NameChangeIsAnnounced(k, t, g, n);
    case RRestore(t, g, n) => NameChangeIsAnnounced(k, t, g, n);
    case RExpire(id, g, score) => ExpiryIsAnnounced(k, now, id, g, ReadRecord(earlier, id), score);
    case RAllocate(t, id) => AllocationIsAnnounced(k, now, policy, t, id, ReadTarget(earlier, t), c);
    case RResolve(t, id) => ResolutionIsAnnounced(k, now, policy, t, id, ReadTarget(earlier, t), c);
    case RRenew(claim) => PlacementRenewalIsAudited(k, now, claim, ReadPlacement(earlier, claim.grainKey));
    case RMutate(key, id, version, m) =>
      MutationIsAnnounced(k, now, key, id, version, m, ReadPlacement(earlier, key), c);
  }

  // ------------------------------------------------------------------------------------------
  // Index scores.

  /** From one keyspace to a later one: the sequence never goes back, and an index score that is not an old one is
      above every score the earlier keyspace had handed out. */
  ghost predicate IndexAdvances(k: Keys, r: Keys) {
    && CounterValue(k.sequence) <= CounterValue(r.sequence)
    && forall n, key :: Score(r.index, n, key).Some? && Score(r.index, n, key) != Score(k.index, n, key)
                        ==> Score(r.index, n, key).value > CounterValue(k.sequence)
  }

  lemma IndexAdvancesTransitively(a: Keys, b: Keys, c: Keys)
    requires IndexAdvances(a, b) && IndexAdvances(b, c)
    ensures IndexAdvances(a, c)
  {
    hide Score, CounterValue;
  }

  lemma ReadIsSequence(k: Keys, sequence: string)
    requires ReadCounter(k.sequence, MaxSequence()) == Some(sequence)
    ensures Value(sequence) == CounterValue(k.sequence)
  {
    if k.sequence.Some? { CounterAcceptedIff(k.sequence.value.value, MaxSequence()); }
  }

  lemma UnindexAdvances(k: Keys, n: string, key: string)
    requires CollectionOk(k.index, n)
    ensures IndexAdvances(k, Unindex(k, n, key)) && Unindex(k, n, key).sequence == k.sequence
    ensures forall m :: CollectionOk(k.index, m) ==> CollectionOk(Unindex(k, n, key).index, m)
  {
  }

  lemma PlaceAdvances(k: Keys, sequence: string, p: Placement, n: string, e: Event)
    requires Canonical(sequence) && CollectionOk(k.index, n) && k.events.Holds?
    requires Value(sequence) == CounterValue(k.sequence)
    ensures IndexAdvances(k, Place(k, sequence, p, n, e))
  {
    hide ZAdd, Score;
  }

  lemma CommitAdvances(k: Keys, now: int, policy: Policy, g: Group, checked: bool, prior: Option<string>, p: Placement,
      e: Event)
    requires PlacementScripts.Select(k, now, policy, g, checked).Selected? && k.events.Holds?
    requires (prior.Some? ==> CollectionOk(k.index, prior.value))
    ensures var s := PlacementScripts.Select(k, now, policy, g, checked);
            CollectionOk(k.index, s.candidate.indexKey) && IndexAdvances(k, Commit(k, g, s, prior, p, e))
  {
    hide Place, IndexAdvances, ZRem, MaxSequence, ReadCounter;
    var s := PlacementScripts.Select(k, now, policy, g, checked);
    SelectedIndexHolds(k, now, policy, g, checked);
    ReadIsSequence(k, s.sequence);
    hide PlacementScripts.Select;
    var turned := k.(roundRobin := k.roundRobin[g := Holds(Increment(s.turn))]);
    var cleared := if prior.Some? then Unindex(turned, prior.value, p.grainKey) else turned;
    if prior.Some? { UnindexAdvances(turned, prior.value, p.grainKey); }
    PlaceAdvances(cleared, s.sequence, p, s.candidate.indexKey, e);
    SameIndexAdvances(k, turned);
    if prior.Some? { IndexAdvancesTransitively(k, turned, cleared); }
    IndexAdvancesTransitively(k, cleared, Commit(k, g, s, prior, p, e));
  }

  /** A selection takes its group's next turn: the turn it used is what the counter held, and the commit leaves the
      next one there, so consecutive selections use consecutive turns. Other groups keep their counters. */
  lemma CommitTakesATurn(k: Keys, now: int, policy: Policy, g: Group, checked: bool, prior: Option<string>,
      p: Placement, e: Event, other: Group)
    requires PlacementScripts.Select(k, now, policy, g, checked).Selected? && k.events.Holds?
    requires (prior.Some? ==> CollectionOk(k.index, prior.value))
    ensures var s := PlacementScripts.Select(k, now, policy, g, checked);
            && CollectionOk(k.index, s.candidate.indexKey)
            && ReadCounter(CellAt(k.roundRobin, g), MaxRoundRobin()) == Some(s.turn)
            && var k' := Commit(k, g, s, prior, p, e);
               && CellAt(k'.roundRobin, g) == Some(Holds(Increment(s.turn)))
               && (Value(s.turn) + 1 < MAX_INT64 ==>
                     ReadCounter(CellAt(k'.roundRobin, g), MaxRoundRobin()) == Some(Increment(s.turn)))
               && (other != g ==> CellAt(k'.roundRobin, other) == CellAt(k.roundRobin, other))
  {
    hide PlacementScripts.Select, ZAdd, ZRem, MaxRoundRobin, MaxSequence, Increment;
    SelectedIndexHolds(k, now, policy, g, checked);
    SelectionReadsItsTurn(k, now, policy, g, checked);
    var s := PlacementScripts.Select(k, now, policy, g, checked);
    CounterAcceptedIff(Increment(s.turn), MaxRoundRobin());
  }

  lemma SelectionReadsItsTurn(k: Keys, now: int, policy: Policy, g: Group, checked: bool)
    requires PlacementScripts.Select(k, now, policy, g, checked).Selected?
    ensures ReadCounter(CellAt(k.roundRobin, g), MaxRoundRobin())
            == Some(PlacementScripts.Select(k, now, policy, g, checked).turn)
  {
    hide Gather, NodeKeys, ReadCounter, MaxRoundRobin, MaxSequence, Schedule.Choice;
  }

  lemma SameIndexAdvances(k: Keys, r: Keys)
    ensures r.index == k.index && r.sequence == k.sequence ==> IndexAdvances(k, r)
  {
  }

  lemma AllocationAdvances(k: Keys, now: int, policy: Policy, t: Protocol.Target, placementId: string,
      seen: Option<Placement>)
    ensures IndexAdvances(k, PlacementScripts.Allocate(k, now, policy, t, placementId, seen).keys)
  {
    hide GroupOfIdentity, NodeType, NodeName, Score, Members, PlacementScripts.Select, Commit, Append, NewGrainKey,
         LiveOwner, IndexAdvances;
    SameIndexAdvances(k, k);
    var r := PlacementScripts.Allocate(k, now, policy, t, placementId, seen);
    if r.keys != k {
      var p := r.reply.value;
      var prior := if Load(k.placement,
          NewGrainKey(t.kind, t.grainId).value).Missing? then None else Some(OwnerOf(seen));
      CommitAdvances(k, now, policy, t.GroupOf(), false, prior, p, PlacementEvent(p, PlacementCreated));
    }
  }

  lemma ResolveNewAdvances(k: Keys, now: int, policy: Policy, t: Protocol.Target, key: string, placementId: string,
      prior: Option<string>)
    requires k.events.Holds? && (prior.Some? ==> CollectionOk(k.index, prior.value))
    ensures IndexAdvances(k, ResolveNew(k, now, policy, t, key, placementId, prior).keys)
  {
    hide PlacementScripts.Select, Commit, IndexAdvances;
    SameIndexAdvances(k, k);
    var s := PlacementScripts.Select(k, now, policy, t.GroupOf(), true);
    if s.Selected? {
      var p := Protocol.NewPlacement(t, key, placementId, s.candidate.node, now);
      CommitAdvances(k, now, policy, t.GroupOf(), true, prior, p,
          PlacementEvent(p, PlacementCreated).(leaseVersion := s.candidate.node.lease.version));
    }
  }

  lemma ResolveOwnedAdvances(k: Keys, now: int, policy: Policy, t: Protocol.Target, p: Placement)
    requires k.events.Holds? && CollectionOk(k.index, p.nodeIdentity)
    ensures IndexAdvances(k, ResolveOwned(k, now, policy, t, p).keys)
  {
    hide GroupOfIdentity, NodeType, NodeName, PlacementScripts.Select, Commit, LiveOwner, Members, IndexAdvances,
         Append;
    var r := ResolveOwned(k, now, policy, t, p);
    SameIndexAdvances(k, r.keys);
    var s := PlacementScripts.Select(k, now, policy, t.GroupOf(), true);
    if s.Selected? {
      var moved := Protocol.Moved(p, s.candidate.node, now);
      CommitAdvances(k, now, policy, t.GroupOf(), true, Some(p.nodeIdentity), moved,
          PlacementEvent(moved, PlacementRecovered).(leaseVersion := s.candidate.node.lease.version));
    }
  }

  lemma ResolutionAdvances(k: Keys, now: int, policy: Policy, t: Protocol.Target, placementId: string,
      seen: Option<Placement>)
    ensures IndexAdvances(k, PlacementScripts.ResolveRoute(k, now, policy, t, placementId, seen).keys)
  {
    hide GroupOfIdentity, NodeType, NodeName, NodeGroup, ResolveNew, ResolveOwned, NewGrainKey, IndexAdvances;
    SameIndexAdvances(k, k);
    if Protocol.TargetNamed(t) && AllocateTypesOk(k, NewGrainKey(t.kind, t.grainId).value, t.GroupOf(), OwnerOf(seen)) {
      if seen.Some? { ResolveOwnedAdvances(k, now, policy, t, seen.value); }
      ResolveNewAdvances(k, now, policy, t, NewGrainKey(t.kind, t.grainId).value, placementId,
          if seen.Some? then Some(OwnerOf(seen)) else None);
    }
  }

  lemma MutationAdvances(k: Keys, now: int, key: string, placementId: string, version: int, m: Mutation,
      seen: Option<Placement>)
    ensures IndexAdvances(k, Mutate(k, now, key, placementId, version, m, seen).keys)
  {
    hide GroupOfIdentity, NodeType, NodeName, Score, Members, Receives, Healthy, ReadCounter, MaxSequence, ZAdd, ZRem,
         Increment, Append, IndexAdvances, Place;
    var r := Mutate(k, now, key, placementId, version, m, seen);
    SameIndexAdvances(k, k);
    if r.reply.Answer? {
      var p := seen.value;
      UnindexAdvances(k, p.nodeIdentity, p.grainKey);
      var cleared := Unindex(k, p.nodeIdentity, p.grainKey);
      if m.ReleaseMutation? {
        SameIndexAdvances(cleared, r.keys);
        IndexAdvancesTransitively(k, cleared, r.keys);
      } else {
        var sequence := ReadCounter(k.sequence, MaxSequence()).value;
        ReadIsSequence(k, sequence);
        var e := PlacementEvent(r.reply.value,
            if m.TransferMutation? then PlacementTransferred else PlacementRecovered);
        PlaceAdvances(cleared, sequence, r.reply.value, m.to, e);
        IndexAdvancesTransitively(k, cleared, r.keys);
      }
    }
  }

  /** No index entry and no counter changed. */
  predicate SameIndex(k: Keys, r: Keys) {
    r.index == k.index && r.sequence == k.sequence && r.roundRobin == k.roundRobin
  }

  lemma RegisterKeepsTheIndex(k: Keys, ttl: int, now: int, node: Node)
    ensures SameIndex(k, NodeScripts.Register(k, ttl, now, node).keys)
  {
    hide Score, SAdd, ZAdd, Append, Protocol.NormalizedNode, Load, NodeScripts.ScoreAgrees;
  }

  lemma ReplaceKeepsTheIndex(k: Keys, ttl: int, now: int, node: Node)
    ensures SameIndex(k, NodeScripts.Replace(k, ttl, now, node).keys)
  {
    hide Score, SAdd, ZAdd, Append, Protocol.NormalizedNode, Load, NodeScripts.ScoreAgrees;
  }

  lemma RenewNodeKeepsTheIndex(k: Keys, now: int, id: string, session: string, metrics: Option<Metrics>,
      seen: Option<Node>)
    ensures SameIndex(k, NodeScripts.RenewNode(k, now, id, session, metrics, seen).keys)
  {
    hide Score, ZAdd, Load, NodeScripts.ScoreAgrees, Protocol.Renewed;
  }

  lemma RemovalKeepsTheIndex(k: Keys, id: string, session: string, guarded: bool, seen: Option<Node>)
    ensures SameIndex(k, NodeScripts.Unregister(k, id, session, guarded, seen).keys)
  {
    hide Score, SRem, ZRem, Append, NodeScripts.ScoreAgrees, Cardinality, StringOk, CollectionOk;
  }

  lemma NameKeepsTheIndex(k: Keys, t: string, g: string, n: string)
    ensures SameIndex(k, NodeScripts.MarkInvalid(k, t, g, n).keys)
    ensures SameIndex(k, NodeScripts.Restore(k, t, g, n).keys)
  {
    hide SAdd, SRem, Append, NewNodeIdentity;
  }

  lemma RestatusKeepsTheIndex(k: Keys, id: string, rn: RedisNode, kind: EventType)
    requires k.events.Holds?
    ensures SameIndex(k, NodeScripts.Restatus(k, id, rn, kind))
  {
    hide Append;
  }

  lemma DrainKeepsTheIndex(k: Keys, id: string, seen: Option<Node>)
    ensures SameIndex(k, NodeScripts.Drain(k, id, seen).keys)
  {
    hide Score, Members, NodeScripts.ScoreAgrees, StringOk, CollectionOk, NodeScripts.Restatus;
    if k.events.Holds? && Load(k.node, id).Loaded? {
      RestatusKeepsTheIndex(k, id, Load(k.node, id).value.(node := Load(k.node, id).value.node.(status := Draining)),
          NodeDraining);
    }
  }

  lemma ExpiryKeepsTheIndex(k: Keys, now: int, id: string, g: Group, seen: Option<RedisNode>, score: int)
    ensures SameIndex(k, NodeScripts.ExpireNode(k, now, id, g, seen, score).keys)
  {
    hide Score, ZRem, StringOk, CollectionOk, NodeScripts.Restatus;
    if k.events.Holds? && Load(k.node, id).Loaded? {
      RestatusKeepsTheIndex(k, id, Load(k.node, id).value.(node := Load(k.node, id).value.node.(status := Offline)),
          NodeLeaseExpiredEvent);
    }
  }

  lemma RenewalKeepsTheIndex(k: Keys, now: int, c: Protocol.Claim, seen: Option<Placement>)
    ensures SameIndex(k, PlacementScripts.Renew(k, now, c, seen).keys)
  {
    hide GroupOfIdentity, Score, Append;
  }

  lemma NodeRequestsKeepTheIndex(k: Keys, earlier: Keys, ttl: int, now: int, policy: Policy, c: Request)
    requires !(c.RAllocate? || c.RResolve? || c.RMutate?)
    ensures SameIndex(k, RStep(k, earlier, ttl, now, policy, c).keys)
  {
    hide NodeScripts.Register, NodeScripts.Replace, NodeScripts.RenewNode, NodeScripts.Unregister, NodeScripts.Drain,
         NodeScripts.MarkInvalid, NodeScripts.Restore, NodeScripts.ExpireNode, PlacementScripts.Allocate,
         PlacementScripts.ResolveRoute, PlacementScripts.Renew, PlacementScripts.Mutate;
    match c
    case RRegister(node) => RegisterKeepsTheIndex(k, ttl, now, node);
    case RReplace(node) => ReplaceKeepsTheIndex(k, ttl, now, node);
    case RRenewNode(id, session, metrics) =>
      RenewNodeKeepsTheIndex(k, now, id, session, metrics, ReadNode(earlier, id));
    case RUnregister(id, session, guarded) => RemovalKeepsTheIndex(k, id, session, guarded, ReadNode(earlier, id));
    case RDrain(id) => DrainKeepsTheIndex(k, id, ReadNode(earlier, id));
    case RMarkInvalid(t, g, n) => NameKeepsTheIndex(k, t, g, n);
    case RRestore(t, g, n) => NameKeepsTheIndex(k, t, g, n);
    case RExpire(id, g, score) => ExpiryKeepsTheIndex(k, now, id, g, ReadRecord(earlier, id), score);
    case RRenew(claim) => RenewalKeepsTheIndex(k, now, claim, ReadPlacement(earlier, claim.grainKey));
  }

  /** Every request, on any keyspace: index scores are never reused and the sequence never goes back. */
  lemma RequestsAdvanceTheIndex(k: Keys, earlier: Keys, ttl: int, now: int, policy: Policy, c: Request)
    ensures IndexAdvances(k, RStep(k, earlier, ttl, now, policy, c).keys)
  {
    hide NodeScripts.Register, NodeScripts.Replace, NodeScripts.RenewNode, NodeScripts.Unregister, IndexAdvances,
         NodeScripts.Drain, NodeScripts.MarkInvalid, NodeScripts.Restore, NodeScripts.ExpireNode,
         PlacementScripts.Allocate, PlacementScripts.ResolveRoute, PlacementScripts.Renew, PlacementScripts.Mutate;
    match c
    case RAllocate(t, id) => AllocationAdvances(k, now, policy, t, id, ReadTarget(earlier, t));
    case RResolve(t, id) => ResolutionAdvances(k, now, policy, t, id, ReadTarget(earlier, t));
    case RMutate(key, id, version, m) => MutationAdvances(k, now, key, id, version, m, ReadPlacement(earlier, key));
    case _ =>
      NodeRequestsKeepTheIndex(k, earlier, ttl, now, policy, c);
      SameIndexAdvances(k, RStep(k, earlier, ttl, now, policy, c).keys);
  }

  lemma {:induction false} RunsAdvanceTheIndex(run: RRun, i: nat, j: nat)
    requires WellTimed(run) && i <= j <= |run.ticks|
    ensures IndexAdvances(KeysAt(run, i), KeysAt(run, j))
    decreases j
  {
    hide RStep, IndexAdvances;
    if i == j {
      SameIndexAdvances(KeysAt(run, i), KeysAt(run, i));
    } else {
      RunsAdvanceTheIndex(run, i, j - 1);
      var tick := run.ticks[j - 1];
      RequestsAdvanceTheIndex(KeysAt(run, j - 1), KeysAt(run, tick.read), tick.ttl, tick.now, tick.policy,
          tick.request);
      assert KeysAt(run, j) == ResultAt(run, j - 1).keys;
      IndexAdvancesTransitively(KeysAt(run, i), KeysAt(run, j - 1), KeysAt(run, j));
    }
  }

  /** In every state of every run: a grain is indexed under exactly its placement's owner, with a positive score
      of its own that the sequence bounds, and the sequence stays within the exact integers. */
  lemma EveryPlacementIsIndexedOnce(run: RRun, i: nat, n: string, key: string)
    requires WellTimed(run) && i <= |run.ticks|
    ensures var k := KeysAt(run, i);
            && (Score(k.index, n, key).Some? <==>
                  exists p :: Load(k.placement, key) == Loaded(p) && p.nodeIdentity == n)
            && (Score(k.index, n, key).Some? ==> 1 <= Score(k.index, n, key).value <= CounterValue(k.sequence))
            && CounterValue(k.sequence) <= MAX_EXACT_INTEGER
            && (forall n', key' ::
                  Score(k.index, n, key).Some? && Score(k.index, n', key') == Score(k.index, n, key) ==>
                  n' == n && key' == key)
  {
    hide KeysAt, Score, RStep;
    ReachableAt(run, i);
    var k := KeysAt(run, i);
    IndexedOnce(k, n, key);
  }

  lemma IndexedOnce(k: Keys, n: string, key: string)
    requires Reachable(k)
    ensures Score(k.index, n, key).Some? <==> exists p :: Load(k.placement, key) == Loaded(p) && p.nodeIdentity == n
    ensures Score(k.index, n, key).Some? ==> 1 <= Score(k.index, n, key).value <= CounterValue(k.sequence)
    ensures CounterValue(k.sequence) <= MAX_EXACT_INTEGER
    ensures forall n', key' :: Score(k.index, n, key).Some? && Score(k.index, n', key') == Score(k.index, n, key) ==>
              n' == n && key' == key
  {
    hide Registered, Leased, OwnKeys, Protocol.GoodPlacement, Protocol.GoodNode, Score, Ownership;
    OwnedIsScored(k.index, n, key);
    StoredPlacement(k, key);
  }
}
