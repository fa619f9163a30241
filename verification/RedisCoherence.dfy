/** Cache coherence for a router in front of the Redis backend: every script run, after any earlier read, is one move of
    the system in Coherence, so the theorem about cached routes holds for the stored records. */
module RedisCoherence {
  import opened Types
  import opened Naming
  import opened Keyspace
  import opened Protocol
  import opened ProtocolRuns
  import opened RedisInvariant
  import opened PlacementRefinement
  import opened RedisRuns
  import opened Router
  import opened Coherence
  import opened OwnerCoherence
  import PlacementScripts
  import SelectionRefinement

  /** The keyspace, the stream entries not yet handled by the router, the router, and its operations under way. */
  datatype RSystem = RSystem(keys: Keys, pending: multiset<Event>, router: RouterState, flights: map<nat, Flight>)

  const R_START := RSystem(EMPTY_KEYS, multiset{}, NEW_ROUTER, map[])

  datatype RMove =
    // Any request of any client, after the read of an earlier keyspace.
    | RAct(earlier: Keys, ttl: int, policy: PlacementScripts.Policy, now: int, request: Request)
    // The scripts an operation of the router runs, and the moment until which the client may use the answer.
    | RAskLookup(id: nat, earlier: Keys, now: int, until: int)
    | RAskResolve(id: nat, earlier: Keys, policy: PlacementScripts.Policy, now: int, target: Target,
        placementId: string,
        until: int)
    | RAskAllocate(id: nat, earlier: Keys, policy: PlacementScripts.Policy, now: int, target: Target,
        placementId: string)
    | RLookupAllocated(id: nat, earlier: Keys, now: int, until: int)
    // What the router does without the backend.
    | Own(move: Move)

  ghost function View(s: RSystem): System {
    System(Abs(s.keys), s.pending, s.router, s.flights)
  }

  predicate WithoutBackend(m: Move) {
    !m.Act? && !m.AskLookup? && !m.AskResolve? && !m.AskAllocate? && !m.LookupAllocated?
  }

  /** The stream entries one script run appended. */
  function Appended(k: Keys, r: Keys): seq<Event> {
    if k.events.Holds? && r.events.Holds? && |k.events.value| <= |r.events.value|
    then r.events.value[|k.events.value|..] else []
  }

  /** The operation is where the move takes it up. */
  predicate Ready(s: RSystem, m: RMove) {
    match m
    case RAct(_, _, _, _, _) => true
    case RAskLookup(id, _, _, _) => id in s.flights && s.flights[id].Asking?
    case RAskResolve(id, _, _, _, _, _, _) => id in s.flights && s.flights[id].Asking?
    case RAskAllocate(id, _, _, _, _, _) => id in s.flights && s.flights[id].Allocating?
    case RLookupAllocated(id, _, _, _) => id in s.flights && s.flights[id].Allocated?
    case Own(move) => WithoutBackend(move) && OwnPossible(s, move)
  }

  /** When the router can make a move without the backend. */
  predicate OwnPossible(s: RSystem, m: Move) {
    match m
    case Begin(id, _, _) => id !in s.flights
    case BeginAllocate(id) => id !in s.flights
    case Finish(id) => id in s.flights && (s.flights[id].Holding? || s.flights[id].Carrying?)
    case Deliver(e) => e in s.pending
    case Lose(_) => s.router.degraded
    case _ => true
  }

  lemma OwnIsPossible(s: RSystem, m: Move)
    requires WithoutBackend(m)
    ensures OwnPossible(s, m) <==> Possible(View(s), m)
  {
    hide Abs, Publishes, Resolution, Allocation, Step;
  }

  ghost predicate RPossible(s: RSystem, m: RMove) {
    && Ready(s, m)
    && (!m.Own? ==> Reachable(m.earlier))
    && (m.RAct? ==> m.ttl > 0)
    && (m.RAskResolve? ==> NewGrainKey(m.target.kind, m.target.grainId) == Some(s.flights[m.id].key))
  }

  function Wrote(s: RSystem, r: Keys): RSystem {
    s.(keys := r, pending := s.pending + multiset(Appended(s.keys, r)))
  }

  function RFly(s: RSystem, id: nat, f: Flight): RSystem {
    s.(flights := s.flights[id := f])
  }

  /** The route a client builds from a script's answer. */
  function AnsweredRoute(r: RouteReply, until: int): Route {
    var p := r.placement;
    Route(p.grainKey, p.placementId, p.nodeIdentity, p.ownerSession, p.version, p.status, r.leaseVersion, until)
  }

  function LookedUp(s: RSystem, key: string, earlier: Keys, now: int): Response<RouteReply> {
    PlacementScripts.Lookup(s.keys, now, key, ReadPlacement(earlier, key)).reply
  }

  ghost function Resolved(s: RSystem, m: RMove): Ran<RouteReply>
    requires m.RAskResolve?
  {
    PlacementScripts.ResolveRoute(s.keys, m.now, m.policy, m.target, m.placementId, ReadTarget(m.earlier, m.target))
  }

  ghost function Granted(s: RSystem, m: RMove): Ran<Placement>
    requires m.RAskAllocate?
  {
    PlacementScripts.Allocate(s.keys, m.now, m.policy, m.target, m.placementId, ReadTarget(m.earlier, m.target))
  }

  ghost function RAfter(s: RSystem, m: RMove): RSystem {
    hide Possible, AfterMove, Abs, RStep, Appended, PlacementScripts.Lookup, PlacementScripts.ResolveRoute,
         PlacementScripts.Allocate;
    if !Ready(s, m) then s else match m
    case RAct(earlier, ttl, policy, now, request) => Wrote(s, RStep(s.keys, earlier, ttl, now, policy, request).keys)
    case RAskLookup(id, earlier, now, until) =>
      var f := s.flights[id];
      var r := LookedUp(s, f.key, earlier, now);
      if r.Answer? then RFly(s, id, Holding(f.key, f.began, AnsweredRoute(r.value, until))) else s
    case RAskResolve(id, _, _, _, _, _, until) =>
      var f, r := s.flights[id], Resolved(s, m);
      if r.reply.Answer? then RFly(Wrote(s, r.keys), id, Holding(f.key, f.began, AnsweredRoute(r.reply.value, until)))
      else Wrote(s, r.keys)
    case RAskAllocate(id, _, _, _, _, _) =>
      var f, r := s.flights[id], Granted(s, m);
      if r.reply.Answer? then RFly(Wrote(s, r.keys), id, Allocated(f.began, r.reply.value)) else Wrote(s, r.keys)
    case RLookupAllocated(id, earlier, now, until) =>
      var f := s.flights[id];
      var r := LookedUp(s, f.placement.grainKey, earlier, now);
      if r.Answer? then RFly(s, id, Carrying(f.began, f.placement, AnsweredRoute(r.value, until))) else s
    case Own(move) =>
      OwnIsPossible(s, move);
      var v := AfterMove(View(s), move);
      RSystem(s.keys, v.pending, v.router, v.flights)
  }

  /** The move of the coherence system that a move in front of Redis is. */
  ghost function MoveOf(s: RSystem, m: RMove): Move {
    hide Possible, Abs, RStep, Shadow, Appended, ResolvePick, AllocatePick, PlacementScripts.Lookup,
         PlacementScripts.ResolveRoute, PlacementScripts.Allocate;
    var idle := Act(1, 0, CIdle, []);
    if !Ready(s, m) then idle else match m
    case RAct(earlier, ttl, policy, now, request) =>
      Act(ttl, now, Shadow(s.keys, earlier, ttl, now, policy, request),
          Appended(s.keys, RStep(s.keys, earlier, ttl, now, policy, request).keys))
    case RAskLookup(id, earlier, now, until) =>
      if LookedUp(s, s.flights[id].key, earlier, now).Answer? then AskLookup(id, now, until) else idle
    case RAskResolve(id, _, policy, now, t, placementId, until) =>
      var r := Resolved(s, m);
      if r.reply.Answer?
      then AskResolve(id, now, t, placementId, ResolvePick(s.keys, now, policy, t), Appended(s.keys, r.keys), until)
      else idle
    case RAskAllocate(id, _, policy, now, t, placementId) =>
      var r, pick := Granted(s, m), AllocatePick(s.keys, now, policy, t);
      if r.reply.Answer?
      then AskAllocate(id, now, t, placementId, if pick.Some? then pick.value else NO_NODE, Appended(s.keys, r.keys))
      else idle
    case RLookupAllocated(id, earlier, now, until) =>
      if LookedUp(s, s.flights[id].placement.grainKey, earlier, now).Answer? then LookupAllocated(id, now, until)
      else idle
    case Own(move) => move
  }

  ghost predicate Tracks(s: RSystem, m: RMove) {
    hide Reachable, Abs, Possible, AfterMove, RAfter, MoveOf;
    && Reachable(RAfter(s, m).keys)
    && Possible(View(s), MoveOf(s, m))
    && View(RAfter(s, m)) == AfterMove(View(s), MoveOf(s, m))
  }

  lemma AppendedPublish(k: Keys, r: Keys, events: seq<Event>)
    requires Emitted(k.events, r.events, events)
    ensures Publishes(Appended(k, r), events)
  {
    var sent := Appended(k, r);
    forall i | 0 <= i < |events|
      ensures exists e :: e in sent && Alike(e, events[i])
    {
      assert sent[i] == r.events.value[|k.events.value| + i];
      assert sent[i] in sent && Alike(sent[i], events[i]);
    }
  }

  lemma NothingWritten(s: RSystem)
    requires Reachable(s.keys)
    ensures Wrote(s, s.keys) == s && s.pending + multiset([]) == s.pending
  {
    NothingSent(s.keys);
  }

  lemma IdleMove(s: RSystem)
    requires Reachable(s.keys)
    ensures var idle := Act(1, 0, CIdle, []); Possible(View(s), idle) && AfterMove(View(s), idle) == View(s)
  {
    hide Reachable, Abs;
    NothingWritten(s);
  }

  /** Requests of any client. */
  lemma ActTracks(s: RSystem, m: RMove)
    requires Reachable(s.keys) && m.RAct? && RPossible(s, m)
    ensures Tracks(s, m)
  {
    hide Reachable, Abs, RStep, Step, Shadow, Emitted, Publishes;
    RStepFollows(s.keys, m.earlier, m.ttl, m.now, m.policy, m.request);
    var r := RStep(s.keys, m.earlier, m.ttl, m.now, m.policy, m.request).keys;
    var e := Step(Abs(s.keys), m.ttl, m.now, Shadow(s.keys, m.earlier, m.ttl, m.now, m.policy, m.request));
    if m.request.RRenew? {
      RenewalChangesNothing(s.keys, m.earlier, m.ttl, m.now, m.policy, m.request);
    } else {
      AppendedPublish(s.keys, r, e.events);
    }
  }

  /** A placement renewal announces no change. */
  lemma RenewalChangesNothing(k: Keys, earlier: Keys, ttl: int, now: int, policy: PlacementScripts.Policy, c: Request)
    requires c.RRenew?
    ensures forall sent :: Publishes(sent, Step(Abs(k), ttl, now, Shadow(k, earlier, ttl, now, policy, c)).events)
  {
    hide Abs, RStep, Step, Publishes;
    QuietRenewal(Abs(k), ttl, now, c.claim);
  }

  lemma QuietRenewal(w: World, ttl: int, now: int, c: Claim)
    ensures forall sent :: Publishes(sent, Step(w, ttl, now, CRenew(c)).events)
    ensures forall sent :: Publishes(sent, Step(w, ttl, now, CIdle).events)
  {
  }

  lemma AnswerIsRoute(r: RouteReply, route: Route, now: int, until: int)
    requires SameRoute(r, route, now)
    ensures AnsweredRoute(r, until) == route.(validUntil := until)
  {
  }

  /** What a possible move of an operation comes with. */
  lemma AskIsReady(s: RSystem, m: RMove)
    requires RPossible(s, m) && !m.Own?
    ensures Ready(s, m) && Reachable(m.earlier)
    ensures m.RAskResolve? ==>
              && m.id in s.flights && s.flights[m.id].Asking?
              && NewGrainKey(m.target.kind, m.target.grainId) == Some(s.flights[m.id].key)
  {
    hide Reachable, NewGrainKey;
  }

  /** What a lookup's script does to the system, and which move it is. */
  lemma LookupMove(s: RSystem, m: RMove)
    requires (m.RAskLookup? || m.RLookupAllocated?) && Ready(s, m)
    ensures m.id in s.flights
    ensures if m.RAskLookup? then s.flights[m.id].Asking? else s.flights[m.id].Allocated?
    ensures var f := s.flights[m.id];
            var r := LookedUp(s, if m.RAskLookup? then f.key else f.placement.grainKey, m.earlier, m.now);
            if !r.Answer? then RAfter(s, m) == s && MoveOf(s, m) == Act(1, 0, CIdle, [])
            else if m.RAskLookup? then
              && RAfter(s, m) == RFly(s, m.id, Holding(f.key, f.began, AnsweredRoute(r.value, m.until)))
              && MoveOf(s, m) == AskLookup(m.id, m.now, m.until)
            else
              && RAfter(s, m) == RFly(s, m.id, Carrying(f.began, f.placement, AnsweredRoute(r.value, m.until)))
              && MoveOf(s, m) == LookupAllocated(m.id, m.now, m.until)
  {
    hide Reachable, Abs, PlacementScripts.Lookup, Possible, AfterMove;
  }

  lemma LookupAfter(v: System, m: Move)
    requires m.AskLookup? || m.LookupAllocated?
    requires m.id in v.flights
    requires if m.AskLookup? then v.flights[m.id].Asking? else v.flights[m.id].Allocated?
    ensures var f := v.flights[m.id];
            var key := if m.AskLookup? then f.key else f.placement.grainKey;
            var d := Protocol.Lookup(v.world, m.now, key);
            && Possible(v, m)
            && (d.Ok? ==>
                  var route := d.value.(validUntil := m.until);
                  AfterMove(v, m) == Fly(v, m.id, if m.AskLookup? then Holding(f.key, f.began, route)
                                                  else Carrying(f.began, f.placement, route)))
  {
    hide Protocol.Lookup;
  }

  lemma LookupTracks(s: RSystem, m: RMove)
    requires Reachable(s.keys) && (m.RAskLookup? || m.RLookupAllocated?) && RPossible(s, m)
    ensures Tracks(s, m)
  {
    hide Reachable, Abs, PlacementScripts.Lookup, Protocol.Lookup, SameRoute, AnsweredRoute, PlacementScripts.Unmoved,
         RPossible, Ready, RAfter, MoveOf, Possible, AfterMove;
    IdleMove(s);
    AskIsReady(s, m);
    LookupMove(s, m);
    var f := s.flights[m.id];
    var key := if m.RAskLookup? then f.key else f.placement.grainKey;
    LookupRefines(s.keys, m.now, key, ReadPlacement(m.earlier, key));
    if LookedUp(s, key, m.earlier, m.now).Answer? {
      AnswerIsRoute(LookedUp(s, key, m.earlier, m.now).value, Protocol.Lookup(Abs(s.keys), m.now, key).value, m.now,
          m.until);
      LookupAfter(View(s), MoveOf(s, m));
    }
  }

  /** What a resolution's script does to the system, and which move it is. */
  lemma ResolutionMove(s: RSystem, m: RMove)
    requires m.RAskResolve? && Ready(s, m)
    ensures m.id in s.flights && s.flights[m.id].Asking?
    ensures var f, r := s.flights[m.id], Resolved(s, m);
            if r.reply.Answer? then
              && RAfter(s, m) == RFly(Wrote(s, r.keys), m.id,
                                      Holding(f.key, f.began, AnsweredRoute(r.reply.value, m.until)))
              && MoveOf(s, m) == AskResolve(m.id, m.now, m.target, m.placementId,
                                            ResolvePick(s.keys, m.now, m.policy, m.target), Appended(s.keys, r.keys),
                                            m.until)
            else RAfter(s, m) == Wrote(s, r.keys) && MoveOf(s, m) == Act(1, 0, CIdle, [])
  {
    hide Reachable, Abs, PlacementScripts.ResolveRoute, ResolvePick, NewGrainKey, ReadTarget, Possible, AfterMove;
  }

  lemma ResolutionAfter(v: System, m: Move)
    requires m.AskResolve? && m.id in v.flights && v.flights[m.id].Asking? && Resolution(v, m).reply.Ok?
    requires NewGrainKey(m.target.kind, m.target.grainId) == Some(v.flights[m.id].key)
    requires Publishes(m.sent, Resolution(v, m).events)
    ensures var f, o := v.flights[m.id], Resolution(v, m);
            && Possible(v, m)
            && AfterMove(v, m) == Fly(After(v, o.world, m.sent), m.id,
                                      Holding(f.key, f.began, o.reply.value.(validUntil := m.until)))
  {
    hide Protocol.ResolveRoute, NewGrainKey, Publishes;
  }

  lemma ResolutionTracks(s: RSystem, m: RMove)
    requires Reachable(s.keys) && m.RAskResolve? && RPossible(s, m)
    ensures Tracks(s, m)
  {
    hide Reachable, Abs, PlacementScripts.ResolveRoute, Protocol.ResolveRoute, SameRoute, AnsweredRoute, Emitted,
         NewGrainKey, ResolvePick, TargetNamed, Publishes, SelectionRefinement.CountersBelow, ReadTarget, RPossible,
         Ready, RAfter, MoveOf, Possible, AfterMove, Appended;
    IdleMove(s);
    NothingWritten(s);
    AskIsReady(s, m);
    ResolutionMove(s, m);
    var r := Resolved(s, m);
    ReadsAreGood(m.earlier, "", "", m.target);
    ResolveRefines(s.keys, m.now, m.policy, m.target, m.placementId, ReadTarget(m.earlier, m.target));
    if r.reply.Answer? {
      var o := Protocol.ResolveRoute(Abs(s.keys), m.now, m.target, m.placementId,
          ResolvePick(s.keys, m.now, m.policy, m.target));
      AnswerIsRoute(r.reply.value, o.reply.value, m.now, m.until);
      AppendedPublish(s.keys, r.keys, o.events);
      ResolutionAfter(View(s), MoveOf(s, m));
    }
  }

  /** What an allocation's script does to the system, and which move it is. */
  lemma AllocationMove(s: RSystem, m: RMove)
    requires m.RAskAllocate? && Ready(s, m)
    ensures m.id in s.flights && s.flights[m.id].Allocating?
    ensures var f, r, pick := s.flights[m.id], Granted(s, m), AllocatePick(s.keys, m.now, m.policy, m.target);
            if r.reply.Answer? then
              && RAfter(s, m) == RFly(Wrote(s, r.keys), m.id, Allocated(f.began, r.reply.value))
              && MoveOf(s, m) == AskAllocate(m.id, m.now, m.target, m.placementId,
                                             if pick.Some? then pick.value else NO_NODE, Appended(s.keys, r.keys))
            else RAfter(s, m) == Wrote(s, r.keys) && MoveOf(s, m) == Act(1, 0, CIdle, [])
  {
    hide Reachable, Abs, PlacementScripts.Allocate, AllocatePick, ReadTarget, Possible, AfterMove;
  }

  lemma AllocationAfter(v: System, m: Move)
    requires m.AskAllocate? && m.id in v.flights && v.flights[m.id].Allocating? && Allocation(v, m).reply.Ok?
    requires Publishes(m.sent, Allocation(v, m).events)
    ensures var f, o := v.flights[m.id], Allocation(v, m);
            && Possible(v, m)
            && AfterMove(v, m) == Fly(After(v, o.world, m.sent), m.id, Allocated(f.began, o.reply.value))
  {
    hide AllocateCommit, Publishes;
  }

  lemma AllocationTracks(s: RSystem, m: RMove)
    requires Reachable(s.keys) && m.RAskAllocate? && RPossible(s, m)
    ensures Tracks(s, m)
  {
    hide Reachable, Abs, PlacementScripts.Allocate, AllocateAtOnce, AllocateCommit, Emitted, NewGrainKey, AllocatePick,
         Publishes, SelectionRefinement.CountersBelow, ReadTarget, RPossible, Ready, RAfter, MoveOf, Possible,
         AfterMove, Appended;
    IdleMove(s);
    NothingWritten(s);
    AskIsReady(s, m);
    AllocationMove(s, m);
    var r, pick := Granted(s, m), AllocatePick(s.keys, m.now, m.policy, m.target);
    AllocateRefines(s.keys, m.now, m.policy, m.target, m.placementId, ReadTarget(m.earlier, m.target));
    if r.reply.Answer? {
      AtOnceIsCommit(Abs(s.keys), m.now, m.target, m.placementId, pick);
      AppendedPublish(s.keys, r.keys, AllocateAtOnce(Abs(s.keys), m.now, m.target, m.placementId, pick).events);
      AllocationAfter(View(s), MoveOf(s, m));
    }
  }

  lemma OwnTracks(s: RSystem, m: RMove)
    requires Reachable(s.keys) && m.Own? && RPossible(s, m)
    ensures Tracks(s, m)
  {
    hide Reachable, Abs, Possible, AfterMove, OwnPossible;
    OwnIsPossible(s, m.move);
    OwnKeepsWorld(View(s), m.move);
  }

  lemma OwnKeepsWorld(v: System, m: Move)
    requires WithoutBackend(m) && Possible(v, m)
    ensures AfterMove(v, m).world == v.world
  {
    hide Handled, StoredIfCurrent, StoredAfterAllocation, Publishes;
  }

  /** Every move in front of Redis is a move of the coherence system. */
  lemma MovesTrack(s: RSystem, m: RMove)
    requires Reachable(s.keys) && RPossible(s, m)
    ensures Tracks(s, m)
  {
    hide *;
    match m
    case RAct(_, _, _, _, _) => ActTracks(s, m);
    case RAskLookup(_, _, _, _) => LookupTracks(s, m);
    case RLookupAllocated(_, _, _, _) => LookupTracks(s, m);
    case RAskResolve(_, _, _, _, _, _, _) => ResolutionTracks(s, m);
    case RAskAllocate(_, _, _, _, _, _) => AllocationTracks(s, m);
    case Own(_) => OwnTracks(s, m);
  }

  // ------------------------------------------------------------------------------------------
  // Whole executions.

  ghost function RReplay(moves: seq<RMove>): RSystem
    decreases |moves|
  {
    hide RPossible, RAfter;
    if moves == [] then R_START
    else
      var init, m := RReplay(moves[..|moves| - 1]), moves[|moves| - 1];
      if RPossible(init, m) then RAfter(init, m) else init
  }

  lemma {:induction false} RedisExecutionsAreSound(moves: seq<RMove>)
    ensures Reachable(RReplay(moves).keys) && Sound(View(RReplay(moves)))
    decreases |moves|
  {
    hide Reachable, Abs, Sound, RAfter, RPossible, AfterMove, Possible;
    if moves == [] {
      EmptyIsReachable();
      StartIsSound();
    } else {
      var init := moves[..|moves| - 1];
      var s, m := RReplay(init), moves[|moves| - 1];
      RedisExecutionsAreSound(init);
      if RPossible(s, m) {
        MovesTrack(s, m);
        MoveKeepsSound(View(s), MoveOf(s, m));
      }
    }
  }

  /** The route names the stored placement, owner, session and version of the grain. */
  predicate Current(k: Keys, key: string, r: Route) {
    match Load(k.placement, key)
    case Loaded(p) =>
      && r.grainKey == key && r.placementId == p.placementId && r.nodeIdentity == p.nodeIdentity
      && r.ownerSession == p.ownerSession && r.version == p.version
    case _ => false
  }

  /** Whatever requests, stale reads, lookups, resolutions, allocations, events and mode changes have run: a cached
      route names the stored placement, owner, session and version of its grain, or a stream entry about a change of
      that grain has not been handled. */
  lemma RedisCachedRoutesAreCoherent(moves: seq<RMove>, key: string)
    requires key in RReplay(moves).router.entries
    ensures var s := RReplay(moves);
            && !s.router.degraded
            && (Current(s.keys, key, s.router.entries[key])
                  || exists e :: e in s.pending && ChangeKind(e.kind) && e.grainKey == key)
  {
    hide RReplay, Protocol.Valid, Reachable, Abs;
    var s := RReplay(moves);
    RedisExecutionsAreSound(moves);
    StoredPlacement(s.keys, key);
    if !Current(s.keys, key, s.router.entries[key]) {
      var e :| Unhandled(View(s), key, e);
    }
  }

  lemma {:induction false} RedisOwnersStayKnown(moves: seq<RMove>)
    ensures OwnersKnown(View(RReplay(moves)))
    decreases |moves|
  {
    hide Reachable, Abs, Sound, RAfter, RPossible, AfterMove, Possible, OwnersKnown;
    if moves == [] {
      NoOwnersAtStart();
    } else {
      var init := moves[..|moves| - 1];
      var s, m := RReplay(init), moves[|moves| - 1];
      RedisOwnersStayKnown(init);
      RedisExecutionsAreSound(init);
      if RPossible(s, m) {
        MovesTrack(s, m);
        MoveKeepsOwners(View(s), MoveOf(s, m));
      }
    }
  }

  lemma NoOwnersAtStart()
    ensures OwnersKnown(View(R_START))
  {
    hide Abs;
  }

  /** The stored record of the route's node is under the route's session and not offline. */
  predicate OwnerStored(k: Keys, r: Route) {
    match Load(k.node, r.nodeIdentity)
    case Loaded(rn) => rn.node.session == r.ownerSession && rn.node.status != Offline
    case _ => false
  }

  /** In front of Redis too: the node of a cached route is stored under the route's session and not offline, or a
      stream entry about the end of a session of that node has not been handled. */
  lemma RedisCachedOwnersStand(moves: seq<RMove>, key: string)
    requires key in RReplay(moves).router.entries
    ensures var s := RReplay(moves);
            var r := s.router.entries[key];
            || OwnerStored(s.keys, r)
            || exists e :: && e in s.pending && e.nodeIdentity == r.nodeIdentity
                           && (e.kind == NodeReplaced || e.kind == NodeUnregistered || e.kind == NodeLeaseExpiredEvent)
  {
    hide RReplay, Reachable, OwnerStored, RPossible;
    RedisOwnersStayKnown(moves);
    RedisCachedRoutesAreCoherent(moves, key);
    var s := RReplay(moves);
    var r := s.router.entries[key];
    OwnerIsStored(s.keys, r);
    if !OwnerStands(Abs(s.keys), r) {
      var e :| OwnerEvent(View(s), r, e);
      assert e in s.pending;
    }
  }

  lemma OwnerIsStored(k: Keys, r: Route)
    ensures OwnerStands(Abs(k), r) ==> OwnerStored(k, r)
  {
  }
}
