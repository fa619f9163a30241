/** The owners of cached routes: a cached route's node is registered under the route's session and is not offline, or an
    event about the end of that session has not been handled. */
module OwnerCoherence {
  import opened Types
  import opened Naming
  import opened Protocol
  import opened ProtocolRuns
  import opened Router
  import opened Coherence

  /** The route's node is registered under the route's session and has not gone offline. */
  predicate OwnerStands(w: World, r: Route) {
    && r.nodeIdentity in w.nodes
    && w.nodes[r.nodeIdentity].session == r.ownerSession
    && w.nodes[r.nodeIdentity].status != Offline
  }

  /** An event the router has not handled says that a session of the route's node was replaced, removed or run out. */
  predicate OwnerEvent(s: System, r: Route, e: Event) {
    e in s.pending && SessionKind(e.kind) && e.nodeIdentity == r.nodeIdentity
  }

  ghost predicate StandsOrPending(s: System, r: Route) {
    OwnerStands(s.world, r) || exists e :: OwnerEvent(s, r, e)
  }

  predicate Carries(f: Flight) {
    f.Holding? || f.Carrying?
  }

  ghost predicate OwnersKnown(s: System) {
    !s.router.degraded ==>
      && (forall k :: k in s.router.entries ==> StandsOrPending(s, s.router.entries[k]))
      && (forall id :: id in s.flights && Carries(s.flights[id]) && Storable(s.router, s.flights[id]) ==>
            StandsOrPending(s, s.flights[id].route))
  }

  /** The owner stands after a command, or the command's event says that its session has ended. */
  ghost predicate StandsOrSays(e: Effect, r: Route) {
    || OwnerStands(e.world, r)
    || (e.events != [] && SessionKind(e.events[0].kind) && e.events[0].nodeIdentity == r.nodeIdentity)
  }

  lemma EndingsAreSaid(w: World, ttl: int, now: int, c: Command, r: Route)
    requires Valid(w) && OwnerStands(w, r)
    requires c.CReplace? || c.CExpireOne? || c.CUnregister? || c.CCompleteDrain?
    ensures StandsOrSays(Step(w, ttl, now, c), r)
  {
    hide NormalizedNode, IndexAgrees, NoEmptySet, WellFormedIdentity, LeaseExpired, GoodPlacement;
  }

  lemma OthersKeepSessions(w: World, ttl: int, now: int, c: Command, r: Route)
    requires OwnerStands(w, r)
    requires c.CRegister? || c.CRenewNode? || c.CDrain? || c.CMarkInvalid? || c.CRestore? || c.CIdle?
    ensures OwnerStands(Step(w, ttl, now, c).world, r)
  {
    hide NormalizedNode, NewNodeIdentity, AddName, DropName, LeaseExpired;
  }

  /** Whatever a command does, a session ends only with an event about it. */
  lemma SessionStep(w: World, ttl: int, now: int, c: Command, r: Route)
    requires Valid(w) && OwnerStands(w, r)
    ensures StandsOrSays(Step(w, ttl, now, c), r)
  {
    hide Step, Valid;
    if c.CReplace? || c.CExpireOne? || c.CUnregister? || c.CCompleteDrain? {
      EndingsAreSaid(w, ttl, now, c, r);
    } else if c.CRegister? || c.CRenewNode? || c.CDrain? || c.CMarkInvalid? || c.CRestore? || c.CIdle? {
      OthersKeepSessions(w, ttl, now, c, r);
    } else {
      PlacementCommandKeepsNodes(w, ttl, now, c);
    }
  }

  /** A command and the events published with it. */
  lemma ActKeepsOwner(s: System, ttl: int, now: int, c: Command, sent: seq<Event>, r: Route)
    requires Valid(s.world) && StandsOrPending(s, r) && Publishes(sent, Step(s.world, ttl, now, c).events)
    ensures StandsOrPending(After(s, Step(s.world, ttl, now, c).world, sent), r)
  {
    hide Valid, Step;
    var e := Step(s.world, ttl, now, c);
    var s' := After(s, e.world, sent);
    if OwnerStands(s.world, r) {
      SessionStep(s.world, ttl, now, c, r);
      if !OwnerStands(e.world, r) {
        var x :| x in sent && Alike(x, e.events[0]);
        assert x in multiset(sent);
        assert OwnerEvent(s', r, x);
      }
    } else {
      var x :| OwnerEvent(s, r, x);
      assert OwnerEvent(s', r, x);
    }
  }

  lemma ActKeepsOwners(s: System, ttl: int, now: int, c: Command, sent: seq<Event>)
    requires Sound(s) && OwnersKnown(s) && Publishes(sent, Step(s.world, ttl, now, c).events)
    ensures OwnersKnown(After(s, Step(s.world, ttl, now, c).world, sent))
  {
    hide Valid, Coherent, Step, Publishes, StandsOrPending, Storable;
    forall r | StandsOrPending(s, r)
      ensures StandsOrPending(After(s, Step(s.world, ttl, now, c).world, sent), r)
    {
      ActKeepsOwner(s, ttl, now, c, sent, r);
    }
  }

  /** What a lookup answers has a standing owner. */
  lemma LookupHasOwner(w: World, now: int, key: string, until: int)
    requires Valid(w) && Lookup(w, now, key).Ok?
    ensures OwnerStands(w, Lookup(w, now, key).value.(validUntil := until))
  {
  }

  lemma ResolutionHasOwner(w: World, now: int, t: Target, placementId: string, pick: Option<Node>, until: int)
    requires Valid(w) && ResolveRoute(w, now, t, placementId, pick).reply.Ok?
    ensures var o := ResolveRoute(w, now, t, placementId, pick);
            OwnerStands(o.world, o.reply.value.(validUntil := until))
  {
    hide Valid, ResolveRoute, NewGrainKey;
    ResolveIsStable(w, now, t, placementId, pick, placementId, pick);
  }

  /** A route taken along by an operation has a standing owner at that moment. */
  lemma FlyKeepsOwners(s: System, id: nat, f: Flight)
    requires OwnersKnown(s) && (Carries(f) ==> StandsOrPending(s, f.route))
    ensures OwnersKnown(Fly(s, id, f))
  {
    hide Storable;
    var s' := Fly(s, id, f);
    forall r ensures StandsOrPending(s', r) <==> StandsOrPending(s, r) { SameOwner(s, s', r); }
  }

  lemma SameOwner(s: System, s': System, r: Route)
    requires s'.world == s.world && s'.pending == s.pending
    ensures StandsOrPending(s', r) <==> StandsOrPending(s, r)
  {
    assert forall e :: OwnerEvent(s', r, e) <==> OwnerEvent(s, r, e);
  }

  lemma AskKeepsOwners(s: System, m: Move)
    requires Sound(s) && OwnersKnown(s) && Possible(s, m)
    requires m.AskLookup? || m.AskResolve? || m.AskAllocate? || m.LookupAllocated?
    ensures OwnersKnown(AfterMove(s, m))
  {
    hide Coherent, Step, ResolveRoute, AllocateCommit, Lookup, NewGrainKey, Storable, Valid, OwnersKnown, Publishes,
         OwnerStands;
    match m
    case AskLookup(id, now, until) =>
      var f := s.flights[id];
      if Lookup(s.world, now, f.key).Ok? {
        LookupHasOwner(s.world, now, f.key, until);
        FlyKeepsOwners(s, id, Holding(f.key, f.began, Lookup(s.world, now, f.key).value.(validUntil := until)));
      }
    case LookupAllocated(id, now, until) =>
      var f := s.flights[id];
      var key := f.placement.grainKey;
      if Lookup(s.world, now, key).Ok? {
        LookupHasOwner(s.world, now, key, until);
        FlyKeepsOwners(s, id, Carrying(f.began, f.placement, Lookup(s.world, now, key).value.(validUntil := until)));
      }
    case AskResolve(id, now, t, placementId, pick, sent, until) =>
      var f, o := s.flights[id], Resolution(s, m);
      ResolveIsStep(s.world, 1, now, t, placementId, pick);
      ActKeepsOwners(s, 1, now, CResolve(t, placementId, pick), sent);
      if o.reply.Ok? {
        ResolutionHasOwner(s.world, now, t, placementId, pick, until);
        FlyKeepsOwners(After(s, o.world, sent), id, Holding(f.key, f.began, o.reply.value.(validUntil := until)));
      }
    case AskAllocate(id, now, t, placementId, chosen, sent) =>
      var f, o := s.flights[id], Allocation(s, m);
      AllocateIsStep(s.world, 1, now, t, placementId, chosen);
      ActKeepsOwners(s, 1, now, CAllocate(t, placementId, chosen), sent);
      if o.reply.Ok? { FlyKeepsOwners(After(s, o.world, sent), id, Allocated(f.began, o.reply.value)); }
  }

  /** The last section of an operation stores only a route whose owner stands, or has an unhandled event. */
  lemma FinishKeepsOwners(s: System, id: nat)
    requires OwnersKnown(s) && Possible(s, Finish(id))
    ensures OwnersKnown(AfterMove(s, Finish(id)))
  {
    hide StandsOrPending;
    var s' := AfterMove(s, Finish(id));
    forall r ensures StandsOrPending(s', r) <==> StandsOrPending(s, r) { SameOwner(s, s', r); }
  }

  /** Handling an event about a node leaves no route to it, cached or storable, so its event is not missed. */
  lemma DeliverKeepsOwners(s: System, e: Event, s': System)
    requires Sound(s) && OwnersKnown(s) && s' == s.(router := Handled(s.router, e), pending := s'.pending)
    requires s'.pending == s.pending || s'.pending == s.pending - multiset{e}
    ensures OwnersKnown(s')
  {
    hide Handled, Valid, FreshOrPending, FlightIsFresh, OwnerStands;
    HandledParts(s.router, e);
    HandledInvalidates(s.router, e);
    forall r | StandsOrPending(s, r) && (!SessionKind(e.kind) || e.nodeIdentity != r.nodeIdentity)
      ensures StandsOrPending(s', r)
    {
      OthersRemain(s, e, s', r);
    }
    hide StandsOrPending;
    if !s.router.degraded {
      forall k | k in s'.router.entries
        ensures StandsOrPending(s', s'.router.entries[k])
      {
        if SessionKind(e.kind) { assert s.router.entries[k].nodeIdentity != e.nodeIdentity; }
      }
    }
  }

  lemma OthersRemain(s: System, e: Event, s': System, r: Route)
    requires s'.world == s.world && (s'.pending == s.pending || s'.pending == s.pending - multiset{e})
    requires StandsOrPending(s, r) && (!SessionKind(e.kind) || e.nodeIdentity != r.nodeIdentity)
    ensures StandsOrPending(s', r)
  {
    if !OwnerStands(s.world, r) {
      var x :| OwnerEvent(s, r, x);
      assert OwnerEvent(s', r, x);
    }
  }

  /** Moves that change neither the directory nor what is pending, and cache and take along nothing new. */
  lemma QuietMoveKeepsOwners(s: System, m: Move)
    requires Sound(s) && OwnersKnown(s) && Possible(s, m)
    requires m.Begin? || m.BeginAllocate? || m.Abandon? || m.Degrade? || m.Lose? || m.Recover?
    ensures OwnersKnown(AfterMove(s, m))
  {
    hide StandsOrPending, Valid, FreshOrPending, FlightIsFresh;
    var s' := AfterMove(s, m);
    if !m.Recover? && !m.Lose? {
      forall r ensures StandsOrPending(s', r) <==> StandsOrPending(s, r) { SameOwner(s, s', r); }
    }
  }

  lemma MoveKeepsOwners(s: System, m: Move)
    requires Sound(s) && OwnersKnown(s) && Possible(s, m)
    ensures OwnersKnown(AfterMove(s, m))
  {
    hide Step, ResolveRoute, AllocateCommit, Lookup, NewGrainKey, Handled, StoredIfCurrent, StoredAfterAllocation,
         AfterDegrade, AfterRecover, OwnersKnown, Sound, Publishes;
    match m
    case Act(ttl, now, c, sent) => ActKeepsOwners(s, ttl, now, c, sent);
    case Finish(id) => FinishKeepsOwners(s, id);
    case Deliver(e) => DeliverKeepsOwners(s, e, AfterMove(s, m));
    case Redeliver(e) => DeliverKeepsOwners(s, e, AfterMove(s, m));
    case AskLookup(_, _, _) => AskKeepsOwners(s, m);
    case AskResolve(_, _, _, _, _, _, _) => AskKeepsOwners(s, m);
    case AskAllocate(_, _, _, _, _, _) => AskKeepsOwners(s, m);
    case LookupAllocated(_, _, _) => AskKeepsOwners(s, m);
    case _ => QuietMoveKeepsOwners(s, m);
  }

  lemma {:induction false} OwnersStayKnown(moves: seq<Move>)
    ensures OwnersKnown(Replay(START, moves))
    decreases |moves|
  {
    hide Sound, AfterMove, Possible;
    if moves != [] {
      var init := moves[..|moves| - 1];
      OwnersStayKnown(init);
      ExecutionsAreSound(init);
      if Possible(Replay(START, init), moves[|moves| - 1]) {
        MoveKeepsOwners(Replay(START, init), moves[|moves| - 1]);
      }
    }
  }

  /** Whatever has run: the node of a cached route is registered under the route's session and not offline, or an event
      about the end of a session of that node has not been handled. */
  lemma CachedOwnersStand(moves: seq<Move>, key: string)
    requires key in Replay(START, moves).router.entries
    ensures var s := Replay(START, moves);
            var r := s.router.entries[key];
            || (r.nodeIdentity in s.world.nodes && s.world.nodes[r.nodeIdentity].session == r.ownerSession
                && s.world.nodes[r.nodeIdentity].status != Offline)
            || exists e :: && e in s.pending && e.nodeIdentity == r.nodeIdentity
                           && (e.kind == NodeReplaced || e.kind == NodeUnregistered || e.kind == NodeLeaseExpiredEvent)
  {
    hide Replay;
    OwnersStayKnown(moves);
    CachedRoutesAreCoherent(moves, key);
    var s := Replay(START, moves);
    var r := s.router.entries[key];
    if !OwnerStands(s.world, r) {
      var e :| OwnerEvent(s, r, e);
      assert e in s.pending;
    }
  }
}
