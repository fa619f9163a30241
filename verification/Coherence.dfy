/** Cache coherence over every interleaving of directory commands, cached lookups, resolutions and allocations, event
    handling, degradation and recovery. */
module Coherence {
  import opened Types
  import opened Naming
  import opened Protocol
  import opened ProtocolRuns
  import opened Router
  import Cache

  /** A router operation between its critical sections. */
  datatype Flight =
    | Asking(key: string, began: nat)
    | Holding(key: string, began: nat, route: Route)
    | Allocating(began: nat)
    | Allocated(began: nat, placement: Placement)
    | Carrying(began: nat, placement: Placement, route: Route)

  /** The directory, the events not yet handled by the router, the router, and its operations in flight. */
  datatype System = System(world: World, pending: multiset<Event>, router: RouterState, flights: map<nat, Flight>)

  const START := System(EMPTY_WORLD, multiset{}, NEW_ROUTER, map[])

  datatype Move =
    // Any directory or registry command, by anyone, and the events it publishes.
    | Act(ttl: int, now: int, command: Command, sent: seq<Event>)
    // A lookup or a resolution passes its first section without an answer; an unusable entry may be dropped.
    | Begin(id: nat, key: string, drops: bool)
    | BeginAllocate(id: nat)
    // What the directory answers, with the moment until which the client may use it.
    | AskLookup(id: nat, now: int, until: int)
    | AskResolve(id: nat, now: int, target: Target, placementId: string, pick: Option<Node>, sent: seq<Event>,
        until: int)
    | AskAllocate(id: nat, now: int, target: Target, placementId: string, chosen: Node, sent: seq<Event>)
    | LookupAllocated(id: nat, now: int, until: int)
    // The last section of an operation.
    | Finish(id: nat)
    // An operation ends without storing anything.
    | Abandon(id: nat)
    // An event is handled: a pending one, or any other one again.
    | Deliver(event: Event)
    | Redeliver(event: Event)
    | Degrade
    | Lose(lost: multiset<Event>)
    | Recover(lost: multiset<Event>)

  predicate Alike(a: Event, b: Event) {
    a.(leaseVersion := 0) == b.(leaseVersion := 0)
  }

  /** A node's session is replaced, removed, or run out. */
  predicate SessionKind(kind: EventType) {
    kind == NodeReplaced || kind == NodeUnregistered || kind == NodeLeaseExpiredEvent
  }

  /** Every change of a placement or of a node's session among the events is published, with any lease version. */
  ghost predicate Publishes(sent: seq<Event>, events: seq<Event>) {
    forall i :: 0 <= i < |events| && (ChangeKind(events[i].kind) || SessionKind(events[i].kind)) ==>
      exists e :: e in sent && Alike(e, events[i])
  }

  function After(s: System, w: World, sent: seq<Event>): System {
    s.(world := w, pending := s.pending + multiset(sent))
  }

  function Fly(s: System, id: nat, f: Flight): System {
    s.(flights := s.flights[id := f])
  }

  function Resolution(s: System, m: Move): Outcome<Route>
    requires m.AskResolve?
  {
    ResolveRoute(s.world, m.now, m.target, m.placementId, m.pick)
  }

  function Allocation(s: System, m: Move): Outcome<Placement>
    requires m.AskAllocate?
  {
    AllocateCommit(s.world, m.now, m.target, m.placementId, m.chosen)
  }

  /** When a move is possible: operations go through their sections in order, changes are published, and events are
      only lost while the router is degraded or as it recovers. */
  ghost predicate Possible(s: System, m: Move) {
    match m
    case Act(ttl, now, c, sent) => ttl > 0 && Publishes(sent, Step(s.world, ttl, now, c).events)
    case Begin(id, _, _) => id !in s.flights
    case BeginAllocate(id) => id !in s.flights
    case AskLookup(id, _, _) => id in s.flights && s.flights[id].Asking?
    case AskResolve(id, _, t, _, _, sent, _) =>
      && id in s.flights && s.flights[id].Asking? && NewGrainKey(t.kind, t.grainId) == Some(s.flights[id].key)
      && Publishes(sent, Resolution(s, m).events)
    case AskAllocate(id, _, _, _, _, sent) =>
      id in s.flights && s.flights[id].Allocating? && Publishes(sent, Allocation(s, m).events)
    case LookupAllocated(id, _, _) => id in s.flights && s.flights[id].Allocated?
    case Finish(id) => id in s.flights && (s.flights[id].Holding? || s.flights[id].Carrying?)
    case Deliver(e) => e in s.pending
    case Lose(_) => s.router.degraded
    case _ => true
  }

  ghost function AfterMove(s: System, m: Move): System
    requires Possible(s, m)
  {
    match m
    case Act(ttl, now, c, sent) => After(s, Step(s.world, ttl, now, c).world, sent)
    case Begin(id, key, drops) =>
      Fly(if drops then s.(router := s.router.(entries := s.router.entries - {key})) else s, id,
          Asking(key, s.router.epoch))
    case BeginAllocate(id) => Fly(s, id, Allocating(s.router.epoch))
    case AskLookup(id, now, until) =>
      var f, r := s.flights[id], Lookup(s.world, now, s.flights[id].key);
      if r.Ok? then Fly(s, id, Holding(f.key, f.began, r.value.(validUntil := until))) else s
    case AskResolve(id, _, _, _, _, sent, until) =>
      var f, o := s.flights[id], Resolution(s, m);
      var acted := After(s, o.world, sent);
      if o.reply.Ok? then Fly(acted, id, Holding(f.key, f.began, o.reply.value.(validUntil := until))) else acted
    case AskAllocate(id, _, _, _, _, sent) =>
      var f, o := s.flights[id], Allocation(s, m);
      var acted := After(s, o.world, sent);
      if o.reply.Ok? then Fly(acted, id, Allocated(f.began, o.reply.value)) else acted
    case LookupAllocated(id, now, until) =>
      var f, r := s.flights[id], Lookup(s.world, now, s.flights[id].placement.grainKey);
      if r.Ok? then Fly(s, id, Carrying(f.began, f.placement, r.value.(validUntil := until))) else s
    case Finish(id) =>
      var f := s.flights[id];
      var router := if f.Holding? then StoredIfCurrent(s.router, f.key, f.began, f.route)
                    else StoredAfterAllocation(s.router, f.began, f.placement, f.route);
      s.(router := router, flights := s.flights - {id})
    case Abandon(id) => s.(flights := s.flights - {id})
    case Deliver(e) => s.(router := Handled(s.router, e), pending := s.pending - multiset{e})
    case Redeliver(e) => s.(router := Handled(s.router, e))
    case Degrade => s.(router := AfterDegrade(s.router))
    case Lose(lost) => s.(pending := s.pending - lost)
    case Recover(lost) => s.(router := AfterRecover(s.router), pending := s.pending - lost)
  }

  // ------------------------------------------------------------------------------------------
  // Coherence.

  /** The route names the directory's current placement, owner, session and version for the grain. */
  predicate Fresh(w: World, key: string, r: Route) {
    && key in w.placements
    && r.grainKey == key
    && r.placementId == w.placements[key].placementId
    && r.nodeIdentity == w.placements[key].nodeIdentity
    && r.ownerSession == w.placements[key].ownerSession
    && r.version == w.placements[key].version
  }

  /** An event about a change of the grain that the router has not handled. */
  predicate Unhandled(s: System, key: string, e: Event) {
    e in s.pending && ChangeKind(e.kind) && e.grainKey == key
  }

  ghost predicate FreshOrPending(s: System, key: string, r: Route) {
    Fresh(s.world, key, r) || exists e :: Unhandled(s, key, e)
  }

  /** The same, where the creation event of the operation's own placement does not count. */
  ghost predicate FreshOrOtherPending(s: System, p: Placement, r: Route) {
    Fresh(s.world, p.grainKey, r) || exists e :: Unhandled(s, p.grainKey, e) && !Echoes(e, p)
  }

  /** The router would still store what this operation carries. */
  predicate Storable(r: RouterState, f: Flight) {
    match f
    case Holding(_, began, _) => r.epoch == began
    case Carrying(began, p, _) => r.epoch == began || MatchesSynchronousCreated(r, began, p)
    case _ => false
  }

  ghost predicate FlightIsFresh(s: System, f: Flight) {
    Storable(s.router, f) ==>
      match f
      case Holding(key, _, route) => FreshOrPending(s, key, route)
      case Carrying(_, p, route) => FreshOrOtherPending(s, p, route)
      case _ => true
  }

  ghost predicate Coherent(s: System) {
    && (s.router.degraded ==> s.router.entries == map[])
    && (forall id :: id in s.flights ==> s.flights[id].began <= s.router.epoch)
    && (!s.router.degraded ==>
          && (forall k :: k in s.router.entries ==> FreshOrPending(s, k, s.router.entries[k]))
          && (forall id :: id in s.flights ==> FlightIsFresh(s, s.flights[id])))
  }

  ghost predicate Sound(s: System) {
    Valid(s.world) && Coherent(s)
  }

  /** A command keeps every fresh-or-pending route so: the one grain it changes gets an event that is not a
      creation unless the grain had no placement. */
  lemma ChangeIsAnnounced(s: System, s': System, c: Command, e: Effect, sent: seq<Event>, key: string, r: Route)
    requires OneChange(s.world, c, e) && KeyedRecords(s.world) && KeyedRecords(e.world) && Publishes(sent, e.events)
    requires s'.world == e.world && s'.pending == s.pending + multiset(sent)
    ensures FreshOrPending(s, key, r) ==> FreshOrPending(s', key, r)
    ensures forall p: Placement :: p.grainKey == key && FreshOrOtherPending(s, p, r) ==> FreshOrOtherPending(s', p, r)
  {
    forall x | x in s.pending ensures x in s'.pending { }
    if Fresh(s.world, key, r) && !Fresh(e.world, key, r) {
      assert At(s.world, key) == Some(s.world.placements[key]);
      assert KeyOf(c) == Some(key);
      assert ChangeKind(e.events[0].kind) && e.events[0].kind != PlacementCreated;
      var x :| x in sent && Alike(x, e.events[0]);
      assert x in multiset(sent);
      assert Unhandled(s', key, x) && x.kind != PlacementCreated;
    }
    forall x | Unhandled(s, key, x) ensures Unhandled(s', key, x) { }
  }

  lemma LookupIsFresh(w: World, now: int, key: string, until: int)
    requires KeyedRecords(w) && Lookup(w, now, key).Ok?
    ensures Fresh(w, key, Lookup(w, now, key).value.(validUntil := until))
  {
  }

  lemma ResolutionIsFresh(w: World, now: int, t: Target, placementId: string, pick: Option<Node>, key: string,
      until: int)
    requires Valid(w) && NewGrainKey(t.kind, t.grainId) == Some(key)
    requires ResolveRoute(w, now, t, placementId, pick).reply.Ok?
    requires KeyedRecords(ResolveRoute(w, now, t, placementId, pick).world)
    ensures var o := ResolveRoute(w, now, t, placementId, pick);
            Fresh(o.world, key, o.reply.value.(validUntil := until))
  {
    hide ResolveRoute, NewGrainKey, GoodNode, GoodPlacement;
    ValidRecordsAreKeyed(w);
    ResolveSettles(w, now, t, placementId, pick, key);
    hide Valid;
  }

  /** Directory commands. */
  lemma ActKeepsSound(s: System, ttl: int, now: int, c: Command, sent: seq<Event>)
    requires Sound(s) && ttl > 0 && Publishes(sent, Step(s.world, ttl, now, c).events)
    ensures Sound(After(s, Step(s.world, ttl, now, c).world, sent))
  {
    var e := Step(s.world, ttl, now, c);
    var s' := After(s, e.world, sent);
    StepKeepsValid(s.world, ttl, now, c);
    ValidRecordsAreKeyed(s.world);
    ValidRecordsAreKeyed(e.world);
    PlacementStep(s.world, ttl, now, c);
    hide Step, Valid, OneChange, KeyedRecords, Publishes, FreshOrPending, FreshOrOtherPending;
    forall k | k in s.router.entries { ChangeIsAnnounced(s, s', c, e, sent, k, s.router.entries[k]); }
    forall id | id in s.flights
      ensures !s.router.degraded ==> FlightIsFresh(s', s.flights[id])
    {
      var f := s.flights[id];
      if f.Holding? { ChangeIsAnnounced(s, s', c, e, sent, f.key, f.route); }
      if f.Carrying? { ChangeIsAnnounced(s, s', c, e, sent, f.placement.grainKey, f.route); }
    }
  }

  /** A flight takes its next stage with something fresh in hand. */
  lemma FlyKeepsSound(s: System, id: nat, f: Flight)
    requires Sound(s) && f.began <= s.router.epoch && FlightIsFresh(s, f)
    ensures Sound(Fly(s, id, f))
  {
    hide Valid, FreshOrPending, FreshOrOtherPending, Storable;
    var s' := Fly(s, id, f);
    SameFreshness(s, s');
    forall g ensures FlightIsFresh(s', g) <==> FlightIsFresh(s, g) { FlightFreshness(s, s', g); }
  }

  /** Freshness depends on the directory and the pending events only. */
  lemma SameFreshness(s: System, s': System)
    requires s'.world == s.world && s'.pending == s.pending
    ensures forall k, r :: FreshOrPending(s', k, r) <==> FreshOrPending(s, k, r)
    ensures forall p, r :: FreshOrOtherPending(s', p, r) <==> FreshOrOtherPending(s, p, r)
  {
    assert forall k, e :: Unhandled(s', k, e) <==> Unhandled(s, k, e);
  }

  lemma FlightFreshness(s: System, s': System, f: Flight)
    requires s'.world == s.world && s'.pending == s.pending && s'.router == s.router
    ensures FlightIsFresh(s', f) <==> FlightIsFresh(s, f)
  {
    SameFreshness(s, s');
    hide FreshOrPending, FreshOrOtherPending;
  }

  /** The last section of an operation stores only what is fresh or has an unhandled event. */
  lemma FinishKeepsSound(s: System, id: nat)
    requires Sound(s) && Possible(s, Move.Finish(id))
    ensures Sound(AfterMove(s, Move.Finish(id)))
  {
    hide Valid, FreshOrPending, FreshOrOtherPending;
    var f := s.flights[id];
    var s' := AfterMove(s, Move.Finish(id));
    SameFreshness(s, s');
    assert s'.router.epoch == s.router.epoch && s'.router.degraded == s.router.degraded;
    if f.Carrying? { OtherIsAny(s, f.placement, f.route); }
    forall g ensures FlightIsFresh(s, g) ==> FlightIsFresh(s', g) { }
  }

  lemma OtherIsAny(s: System, p: Placement, r: Route)
    ensures FreshOrOtherPending(s, p, r) ==> FreshOrPending(s, p.grainKey, r)
  {
  }

  predicate Ignored(e: Event) {
    e.kind == NodeRegistered || e.kind == PlacementRenewed
  }

  /** What handling an event does to the parts coherence is about. */
  lemma HandledParts(r: RouterState, e: Event)
    ensures var r' := Handled(r, e);
            && (Ignored(e) ==> r' == r)
            && (!Ignored(e) ==> r'.epoch == r.epoch + 1 && r'.lastEvent == e && r'.lastEventEpoch == r'.epoch)
            && r'.degraded == r.degraded
            && (r.entries == map[] ==> r'.entries == map[])
            && (forall k :: k in r'.entries ==> k in r.entries && r'.entries[k] == r.entries[k])
            && (ChangeKind(e.kind) ==> e.grainKey !in r'.entries)
  {
    hide Cache.InGroup;
  }

  /** Handling an event, whether or not it stays pending: only its own grain may lose its pending event, and that
      grain leaves the cache. A flight stays storable only through its own creation event, which never was what
      its freshness rested on. */
  lemma DeliverKeepsSound(s: System, e: Event, s': System)
    requires Sound(s) && s' == s.(router := Handled(s.router, e), pending := s'.pending)
    requires s'.pending == s.pending || s'.pending == s.pending - multiset{e}
    ensures Sound(s')
  {
    hide Valid, Handled;
    HandledParts(s.router, e);
    forall k, x | Unhandled(s, k, x) && x != e
      ensures Unhandled(s', k, x)
    {
    }
    if !s.router.degraded {
      forall k | k in s'.router.entries
        ensures FreshOrPending(s', k, s'.router.entries[k])
      {
        if !Fresh(s.world, k, s'.router.entries[k]) {
          var x :| Unhandled(s, k, x);
          assert x != e;
        }
      }
      forall id | id in s'.flights
        ensures FlightIsFresh(s', s'.flights[id])
      {
        FlightSurvives(s, e, s', s.flights[id]);
      }
    }
  }

  lemma FlightSurvives(s: System, e: Event, s': System, f: Flight)
    requires s' == s.(router := Handled(s.router, e), pending := s'.pending)
    requires s'.pending == s.pending || s'.pending == s.pending - multiset{e}
    requires FlightIsFresh(s, f) && f.began <= s.router.epoch
    ensures FlightIsFresh(s', f)
  {
    hide Handled;
    HandledParts(s.router, e);
    forall k, x | Unhandled(s, k, x) && x != e
      ensures Unhandled(s', k, x)
    {
    }
    if Ignored(e) {
      IgnoredIsNoChange(s, e);
    } else if Storable(s'.router, f) {
      assert f.Carrying? && s.router.epoch == f.began && Echoes(e, f.placement);
      if !Fresh(s.world, f.placement.grainKey, f.route) {
        var x :| Unhandled(s, f.placement.grainKey, x) && !Echoes(x, f.placement);
        assert x != e;
      }
    }
  }

  lemma IgnoredIsNoChange(s: System, e: Event)
    requires Ignored(e)
    ensures forall k :: !Unhandled(s, k, e)
  {
  }

  /** Degrading and recovering leave nothing storable and nothing cached, so any events may be lost then. */
  lemma ModeChangeKeepsSound(s: System, s': System)
    requires Sound(s) && s'.world == s.world && s'.flights == s.flights
    requires s'.router == AfterDegrade(s.router) || s'.router == AfterRecover(s.router)
    ensures Sound(s')
  {
    hide Valid, FreshOrPending, FreshOrOtherPending;
    forall id | id in s'.flights
      ensures !Storable(s'.router, s'.flights[id])
    {
    }
  }

  lemma BeginKeepsSound(s: System, m: Move)
    requires Sound(s) && Possible(s, m) && (m.Begin? || m.BeginAllocate? || m.Abandon?)
    ensures Sound(AfterMove(s, m))
  {
    hide Valid, FreshOrPending, FreshOrOtherPending;
    var s' := AfterMove(s, m);
    SameFreshness(s, s');
    forall g ensures FlightIsFresh(s, g) ==> FlightIsFresh(s', g) { }
  }

  lemma AskKeepsSound(s: System, m: Move)
    requires Sound(s) && Possible(s, m)
    requires m.AskLookup? || m.AskResolve? || m.AskAllocate? || m.LookupAllocated?
    ensures Sound(AfterMove(s, m))
  {
    hide Coherent, Step, ResolveRoute, AllocateCommit, Lookup, NewGrainKey, FreshOrPending, FreshOrOtherPending,
         Storable, Fresh, Publishes;
    BeganBefore(s, m.id);
    var f := s.flights[m.id];
    match m
    case AskLookup(id, now, until) =>
      ValidRecordsAreKeyed(s.world);
      if Lookup(s.world, now, f.key).Ok? {
        LookupIsFresh(s.world, now, f.key, until);
        HeldIsFresh(s, f.key, f.began, Lookup(s.world, now, f.key).value.(validUntil := until));
        FlyKeepsSound(s, id, Holding(f.key, f.began, Lookup(s.world, now, f.key).value.(validUntil := until)));
      }
    case LookupAllocated(id, now, until) =>
      ValidRecordsAreKeyed(s.world);
      var p := f.placement;
      if Lookup(s.world, now, p.grainKey).Ok? {
        LookupIsFresh(s.world, now, p.grainKey, until);
        CarriedIsFresh(s, f.began, p, Lookup(s.world, now, p.grainKey).value.(validUntil := until));
        FlyKeepsSound(s, id, Carrying(f.began, p, Lookup(s.world, now, p.grainKey).value.(validUntil := until)));
      }
    case AskResolve(id, now, t, placementId, pick, sent, until) =>
      var o := Resolution(s, m);
      var acted := After(s, o.world, sent);
      ResolveIsStep(s.world, 1, now, t, placementId, pick);
      ActKeepsSound(s, 1, now, CResolve(t, placementId, pick), sent);
      if o.reply.Ok? {
        ValidRecordsAreKeyed(acted.world);
        ResolutionIsFresh(s.world, now, t, placementId, pick, f.key, until);
        HeldIsFresh(acted, f.key, f.began, o.reply.value.(validUntil := until));
        FlyKeepsSound(acted, id, Holding(f.key, f.began, o.reply.value.(validUntil := until)));
      }
    case AskAllocate(id, now, t, placementId, chosen, sent) =>
      var o := Allocation(s, m);
      AllocateIsStep(s.world, 1, now, t, placementId, chosen);
      ActKeepsSound(s, 1, now, CAllocate(t, placementId, chosen), sent);
      var acted := After(s, o.world, sent);
      if o.reply.Ok? {
        AllocatedIsFresh(acted, f.began, o.reply.value);
        FlyKeepsSound(acted, id, Allocated(f.began, o.reply.value));
      }
  }

  lemma BeganBefore(s: System, id: nat)
    requires Coherent(s)
    ensures id in s.flights ==> s.flights[id].began <= s.router.epoch
  {
  }

  lemma ResolveIsStep(w: World, ttl: int, now: int, t: Target, placementId: string, pick: Option<Node>)
    ensures var e, o := Step(w, ttl, now, CResolve(t, placementId, pick)), ResolveRoute(w, now, t, placementId, pick);
            e == Effect(o.world, o.events, o.reply.Ok?)
  {
    hide ResolveRoute;
  }

  lemma AllocateIsStep(w: World, ttl: int, now: int, t: Target, placementId: string, chosen: Node)
    ensures var e, o := Step(w, ttl, now, CAllocate(t, placementId, chosen)),
            AllocateCommit(w, now, t, placementId, chosen);
            e == Effect(o.world, o.events, o.reply.Ok?)
  {
    hide AllocateCommit;
  }

  lemma HeldIsFresh(s: System, key: string, began: nat, r: Route)
    requires Fresh(s.world, key, r)
    ensures FlightIsFresh(s, Holding(key, began, r))
  {
  }

  lemma CarriedIsFresh(s: System, began: nat, p: Placement, r: Route)
    requires Fresh(s.world, p.grainKey, r)
    ensures FlightIsFresh(s, Carrying(began, p, r))
  {
  }

  lemma AllocatedIsFresh(s: System, began: nat, p: Placement)
    ensures FlightIsFresh(s, Allocated(began, p))
  {
  }

  /** Every move keeps the system sound. */
  lemma MoveKeepsSound(s: System, m: Move)
    requires Sound(s) && Possible(s, m)
    ensures Sound(AfterMove(s, m))
  {
    hide Step, ResolveRoute, AllocateCommit, Lookup, NewGrainKey, Handled, StoredIfCurrent, StoredAfterAllocation,
         AfterDegrade, AfterRecover;
    match m
    case Act(ttl, now, c, sent) => ActKeepsSound(s, ttl, now, c, sent);
    case Finish(id) => FinishKeepsSound(s, id);
    case Deliver(e) => hide Sound; DeliverKeepsSound(s, e, AfterMove(s, m));
    case Redeliver(e) => hide Sound; DeliverKeepsSound(s, e, AfterMove(s, m));
    case Degrade => hide Sound; ModeChangeKeepsSound(s, AfterMove(s, m));
    case Recover(_) => hide Sound; ModeChangeKeepsSound(s, AfterMove(s, m));
    case Begin(_, _, _) => hide Sound; BeginKeepsSound(s, m);
    case BeginAllocate(_) => hide Sound; BeginKeepsSound(s, m);
    case Abandon(_) => hide Sound; BeginKeepsSound(s, m);
    case Lose(_) =>
    case _ => hide Sound; AskKeepsSound(s, m);
  }

  // ------------------------------------------------------------------------------------------
  // Whole executions.

  /** The system after some moves; a move that is not possible is skipped. */
  ghost function Replay(s: System, moves: seq<Move>): System
    decreases |moves|
  {
    if moves == [] then s
    else
      var init, m := Replay(s, moves[..|moves| - 1]), moves[|moves| - 1];
      if Possible(init, m) then AfterMove(init, m) else init
  }

  lemma {:induction false} ReplayKeepsSound(s: System, moves: seq<Move>)
    requires Sound(s)
    ensures Sound(Replay(s, moves))
    decreases |moves|
  {
    hide Sound, AfterMove, Possible;
    if moves != [] {
      var init := moves[..|moves| - 1];
      ReplayKeepsSound(s, init);
      if Possible(Replay(s, init), moves[|moves| - 1]) { MoveKeepsSound(Replay(s, init), moves[|moves| - 1]); }
    }
  }

  /** Whatever runs, in whatever order, the system stays sound. */
  lemma ExecutionsAreSound(moves: seq<Move>)
    ensures Sound(Replay(START, moves))
  {
    StartIsSound();
    ReplayKeepsSound(START, moves);
  }

  lemma StartIsSound()
    ensures Sound(START)
  {
    assert forall n, k :: k !in Owned(EMPTY_WORLD.byNode, n);
  }

  lemma ReplayMore(s: System, moves: seq<Move>, m: Move)
    requires Possible(Replay(s, moves), m)
    ensures Replay(s, moves + [m]) == AfterMove(Replay(s, moves), m)
  {
    hide Possible, AfterMove;
    assert (moves + [m])[..|moves|] == moves;
  }

  lemma {:induction false} ReplayOn(s: System, moves: seq<Move>, more: seq<Move>)
    ensures Replay(s, moves + more) == Replay(Replay(s, moves), more)
    decreases |more|
  {
    hide Possible, AfterMove;
    if more == [] {
      assert moves + more == moves;
    } else {
      var init, m := more[..|more| - 1], more[|more| - 1];
      assert (moves + more)[..|moves + more| - 1] == moves + init;
      ReplayOn(s, moves, init);
    }
  }

  /** The operation a move belongs to. */
  function OperationOf(m: Move): Option<nat> {
    match m
    case Begin(id, _, _) => Some(id)
    case BeginAllocate(id) => Some(id)
    case AskLookup(id, _, _) => Some(id)
    case AskResolve(id, _, _, _, _, _, _) => Some(id)
    case AskAllocate(id, _, _, _, _, _) => Some(id)
    case LookupAllocated(id, _, _) => Some(id)
    case Finish(id) => Some(id)
    case Abandon(id) => Some(id)
    case _ => None
  }

  /** Moves of other operations, commands, events and mode changes. */
  ghost predicate NotMine(moves: seq<Move>, me: nat) {
    forall i :: 0 <= i < |moves| ==> OperationOf(moves[i]) != Some(me)
  }

  lemma OtherMoveKeepsFlight(s: System, m: Move, me: nat)
    requires Possible(s, m) && OperationOf(m) != Some(me) && me in s.flights
    ensures me in AfterMove(s, m).flights && AfterMove(s, m).flights[me] == s.flights[me]
  {
    hide Possible, Step, ResolveRoute, AllocateCommit, Lookup, Handled, StoredIfCurrent, StoredAfterAllocation;
  }

  /** What other operations do leaves an operation's own progress alone. */
  lemma {:induction false} OthersKeepFlight(s: System, moves: seq<Move>, me: nat)
    requires NotMine(moves, me) && me in s.flights
    ensures me in Replay(s, moves).flights && Replay(s, moves).flights[me] == s.flights[me]
    decreases |moves|
  {
    hide Possible, AfterMove;
    if moves != [] {
      var init := moves[..|moves| - 1];
      OthersKeepFlight(s, init, me);
      if Possible(Replay(s, init), moves[|moves| - 1]) {
        OtherMoveKeepsFlight(Replay(s, init), moves[|moves| - 1], me);
      }
    }
  }

  /** Nothing among the moves that drops routes: no event of a kind the router acts on, and no change of mode. */
  ghost predicate Calm(moves: seq<Move>) {
    forall i :: 0 <= i < |moves| ==>
      && !moves[i].Degrade? && !moves[i].Recover?
      && (moves[i].Deliver? || moves[i].Redeliver? ==>
            moves[i].event.kind == NodeRegistered || moves[i].event.kind == PlacementRenewed)
  }

  lemma {:induction false} CalmKeepsEpoch(s: System, moves: seq<Move>)
    requires Calm(moves)
    ensures Replay(s, moves).router.epoch == s.router.epoch && Replay(s, moves).router.degraded == s.router.degraded
    decreases |moves|
  {
    hide Possible, AfterMove;
    if moves != [] {
      var init, m := moves[..|moves| - 1], moves[|moves| - 1];
      CalmKeepsEpoch(s, init);
      if Possible(Replay(s, init), m) { CalmMoveKeepsEpoch(Replay(s, init), m); }
    }
  }

  lemma CalmMoveKeepsEpoch(s: System, m: Move)
    requires Possible(s, m) && !m.Degrade? && !m.Recover?
    requires m.Deliver? || m.Redeliver? ==> m.event.kind == NodeRegistered || m.event.kind == PlacementRenewed
    ensures AfterMove(s, m).router.epoch == s.router.epoch && AfterMove(s, m).router.degraded == s.router.degraded
  {
    hide Step, ResolveRoute, AllocateCommit, Lookup, Publishes, NewGrainKey;
  }

  /** What the last section of an operation stores: a looked-up or resolved route at the epoch its operation began with;
      the route of an allocation also when the one event since then is the creation of that very placement. */
  lemma FinishStoresExactly(s: System, id: nat)
    requires Possible(s, Finish(id))
    ensures var f, r, after := s.flights[id], s.router, AfterMove(s, Finish(id)).router.entries;
            match f
            case Holding(key, began, route) =>
              after == if !r.degraded && r.epoch == began then r.entries[key := route] else r.entries
            case Carrying(began, p, route) =>
              var echoed := && r.epoch == began + 1 && r.lastEventEpoch == r.epoch
                            && r.lastEvent.kind == PlacementCreated && r.lastEvent.grainKey == p.grainKey
                            && r.lastEvent.placementId == p.placementId
                                  && r.lastEvent.placementVersion == p.version > 0;
              after == if !r.degraded && (r.epoch == began || echoed) then r.entries[p.grainKey := route] else r.entries
            case _ => true
  {
  }

  /** What a caller can rely on: whatever has run, a cached route names the directory's current placement, owner,
      session and version, or the grain has a change event the router has not handled; a degraded cache is empty. */
  lemma CachedRoutesAreCoherent(moves: seq<Move>, key: string)
    requires key in Replay(START, moves).router.entries
    ensures var s := Replay(START, moves);
            && !s.router.degraded
            && (Fresh(s.world, key, s.router.entries[key]) || exists e :: Unhandled(s, key, e))
  {
    hide Replay, Valid, Fresh;
    ExecutionsAreSound(moves);
  }

  /** Once every event of a grain has been handled, its cached route is exact. */
  lemma CaughtUpCacheIsExact(moves: seq<Move>, key: string)
    requires key in Replay(START, moves).router.entries
    requires forall e :: e in Replay(START, moves).pending ==> e.grainKey != key
    ensures Fresh(Replay(START, moves).world, key, Replay(START, moves).router.entries[key])
  {
    hide Replay, Fresh;
    CachedRoutesAreCoherent(moves, key);
  }
}
