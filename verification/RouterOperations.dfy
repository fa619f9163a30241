/** The cached router's operations from end to end. Each is shown to be a sequence of moves of the system in Coherence:
    its own sections in order, with any moves of others in the gaps, so that the coherence theorem holds for it. */
module RouterOperations {
  import opened Types
  import opened Naming
  import opened Protocol
  import opened Router
  import opened Coherence
  import ProtocolRuns
  import Memory

  /** One operation under way: its number, and what others do in the gaps between its sections. */
  datatype Trip = Trip(me: nat, first: seq<Move>, second: seq<Move>, third: seq<Move>, fourth: seq<Move>)

  /** The number is free, and the gaps hold no move of the operation itself. */
  ghost predicate Proper(s: System, trip: Trip) {
    && trip.me !in s.flights && NotMine(trip.first, trip.me) && NotMine(trip.second, trip.me)
    && NotMine(trip.third, trip.me) && NotMine(trip.fourth, trip.me)
  }

  ghost function Until(d: Result<Route>): int {
    if d.Ok? then d.value.validUntil else 0
  }

  ghost predicate Served(d: Result<Route>, now: int) {
    d.Ok? && Usable(d.value, now)
  }

  predicate SameEpoch(r: RouterState, r': RouterState) {
    r'.epoch == r.epoch && r'.degraded == r.degraded
  }

  /** How an operation ends: with its storing section, or without. */
  function LastMove(me: nat, stores: bool): Move {
    if stores then Finish(me) else Abandon(me)
  }

  class RoutedDirectory {
    const router: CachedRouter
    const directory: Memory.Directory
    // Events published and not yet handled by the router, and the operations under way.
    ghost var pending: multiset<Event>
    ghost var flights: map<nat, Flight>

    ghost function View(): System
      reads this, router, router.cache, directory, directory.registry
    {
      System(directory.Current(), pending, router.View(), flights)
    }

    ghost predicate Valid()
      reads this, router, router.cache, directory, directory.registry
    {
      router.Valid() && directory.Valid() && Sound(View())
    }

    constructor (router: CachedRouter, directory: Memory.Directory)
      requires router.Valid() && router.View() == NEW_ROUTER && directory.Valid()
      ensures Valid() && this.router == router && this.directory == directory
      ensures View() == START.(world := directory.Current())
    {
      this.router, this.directory := router, directory;
      pending, flights := multiset{}, map[];
    }

    /** Anything but the operation me may run here: commands, other operations, events, degradation and recovery. */
    method Others(ghost me: nat) returns (ghost moves: seq<Move>)
      requires Valid()
      modifies this, router, router.cache, directory, directory.registry
      ensures Valid() && NotMine(moves, me) && View() == Replay(old(View()), moves)
      ensures Calm(moves) ==> SameEpoch(old(View()).router, View().router)
    {
      moves := [];
    }

    // ----------------------------------------------------------------------------------------
    // Single sections, each one move.

    /** The first section of a lookup, unless the cache answers. */
    method BeginLookup(ghost me: nat, now: int, key: string) returns (hit: Option<Route>, epoch: nat)
      requires Valid() && me !in flights
      modifies this, router, router.cache
      ensures Valid()
      ensures var s := old(View());
              var cached := !s.router.degraded && key in s.router.entries;
              if cached && Usable(s.router.entries[key], now) then
                hit == Some(s.router.entries[key]) && View() == s
              else
                && hit.None? && Possible(s, Begin(me, key, cached)) && View() == AfterMove(s, Begin(me, key, cached))
                && me in flights && flights[me] == Asking(key, epoch)
      ensures hit.None? ==> epoch == old(View()).router.epoch && SameEpoch(old(View()).router, View().router)
    {
      hide Sound, Protocol.Valid, Possible, AfterMove;
      ghost var s := View();
      hit, epoch := router.LookupBegin(now, key);
      if hit.None? {
        flights := flights[me := Asking(key, epoch)];
        ghost var cached := !s.router.degraded && key in s.router.entries;
        Begins(s, me, key, cached);
        MoveKeepsSound(s, Begin(me, key, cached));
      }
    }

    /** The first section of a resolution, unless the cache answers. */
    method BeginResolution(ghost me: nat, now: int, key: string, t: Target) returns (hit: Option<Route>, epoch: nat)
      requires Valid() && me !in flights
      modifies this
      ensures Valid()
      ensures var s := old(View());
              if AnswersTarget(s.router, now, key, t) then
                hit == Some(s.router.entries[key]) && View() == s
              else
                && hit.None? && Possible(s, Begin(me, key, false)) && View() == AfterMove(s, Begin(me, key, false))
                && me in flights && flights[me] == Asking(key, epoch)
      ensures hit.Some? ==>
                && hit.value.status == PlacementActive && now < hit.value.validUntil
                && GroupOfIdentity(hit.value.nodeIdentity) == Group(t.nodeType, t.nodeGroup)
      ensures hit.None? ==> epoch == old(View()).router.epoch && SameEpoch(old(View()).router, View().router)
    {
      hide Sound, Protocol.Valid, Possible, AfterMove, MatchesTarget;
      ghost var s := View();
      hit, epoch := router.ResolveBegin(now, key, t.nodeType, t.nodeGroup);
      if hit.None? {
        flights := flights[me := Asking(key, epoch)];
        Begins(s, me, key, false);
        MoveKeepsSound(s, Begin(me, key, false));
      }
    }

    /** The directory answers a lookup. */
    method AskDirectory(ghost me: nat, asked: int, key: string, ghost epoch: nat) returns (d: Result<Route>)
      requires Valid() && me in flights && flights[me] == Asking(key, epoch)
      modifies this
      ensures Valid() && d == Protocol.Lookup(old(View()).world, asked, key)
      ensures var m := AskLookup(me, asked, Until(d)); Possible(old(View()), m) && View() == AfterMove(old(View()), m)
      ensures me in flights && (d.Ok? ==> flights[me] == Holding(key, epoch, d.value))
      ensures d.Ok? ==> d.value.status == PlacementActive && asked < d.value.validUntil
      ensures SameEpoch(old(View()).router, View().router)
    {
      LookupIsUsable(View().world, asked, key);
      hide Sound, Protocol.Valid, Possible, AfterMove, Protocol.Lookup;
      ghost var s := View();
      d := directory.Lookup(asked, key);
      if d.Ok? { flights := flights[me := Holding(key, epoch, d.value)]; }
      Asks(s, me, asked, key, epoch, d);
      MoveKeepsSound(s, AskLookup(me, asked, Until(d)));
    }

    /** The directory resolves and its event is published. */
    method AskResolution(ghost me: nat, asked: int, key: string, ghost epoch: nat, t: Target, placementId: string,
        strategy: StrategyInput -> Option<Node>)
      returns (d: Result<Route>)
      requires Valid() && me in flights && flights[me] == Asking(key, epoch)
      requires NewGrainKey(t.kind, t.grainId) == Some(key)
      modifies this, directory
      ensures Valid()
      ensures var s := old(View());
              var o := Protocol.ResolveRoute(s.world, asked, t, placementId,
                  strategy(InputFor(s.world, asked, t.GroupOf())));
              var m := ResolveMove(s.world, me, asked, t, placementId, strategy);
              d == o.reply && Possible(s, m) && View() == AfterMove(s, m)
      ensures me in flights && (d.Ok? ==> flights[me] == Holding(key, epoch, d.value))
      ensures d.Ok? ==>
                && d.value.status == PlacementActive && asked < d.value.validUntil
                && GroupOfIdentity(d.value.nodeIdentity) == Group(t.nodeType, t.nodeGroup)
      ensures SameEpoch(old(View()).router, View().router)
    {
      hide Sound, Protocol.Valid, Possible, AfterMove, Protocol.ResolveRoute, InputFor, NewGrainKey;
      ghost var s := View();
      ResolutionIsWithin(s, asked, t, placementId, strategy(InputFor(s.world, asked, t.GroupOf())));
      ghost var o := Protocol.ResolveRoute(s.world, asked, t, placementId,
          strategy(InputFor(s.world, asked, t.GroupOf())));
      d := directory.ResolveRoute(asked, t, placementId, strategy);
      pending := pending + multiset(o.events);
      if d.Ok? { flights := flights[me := Holding(key, epoch, d.value)]; }
      Resolves(s, me, asked, key, epoch, t, placementId, strategy);
      MoveKeepsSound(s, ResolveMove(s.world, me, asked, t, placementId, strategy));
    }

    /** The last section of a lookup or a resolution, which stores a route that is still usable. */
    method Conclude(ghost me: nat, key: string, epoch: nat, d: Result<Route>, later: int) returns (served: bool)
      requires Valid() && me in flights && (d.Ok? ==> flights[me] == Holding(key, epoch, d.value))
      modifies this, router.cache
      ensures Valid() && served == Served(d, later)
      ensures Possible(old(View()), LastMove(me, served)) && View() == AfterMove(old(View()), LastMove(me, served))
      ensures served && !old(View()).router.degraded && old(View()).router.epoch == epoch ==>
                key in View().router.entries && View().router.entries[key] == d.value
    {
      hide Sound, Protocol.Valid, Possible, AfterMove, StoredIfCurrent;
      ghost var s := View();
      if d.Ok? { KeepsCurrent(s.router, key, epoch, d.value); }
      served := d.Ok? && d.value.status == PlacementActive && later < d.value.validUntil;
      if served {
        router.StoreIfCurrent(key, epoch, d.value);
        Stores(s, me, key, epoch, d.value);
      } else {
        Leaves(s, me);
      }
      flights := flights - {me};
      MoveKeepsSound(s, LastMove(me, served));
    }

    method BeginAllocation(ghost me: nat) returns (epoch: nat)
      requires Valid() && me !in flights
      modifies this
      ensures Valid() && me in flights && flights[me] == Allocating(epoch)
      ensures Possible(old(View()), BeginAllocate(me)) && View() == AfterMove(old(View()), BeginAllocate(me))
    {
      hide Sound, Protocol.Valid;
      epoch := router.AllocateBegin();
      MoveKeepsSound(View(), BeginAllocate(me));
      flights := flights[me := Allocating(epoch)];
    }

    /** The directory commits an allocation to a node and its event is published. */
    method AskAllocation(ghost me: nat, committed: int, ghost epoch: nat, t: Target, placementId: string, chosen: Node)
      returns (r: Result<Placement>)
      requires Valid() && me in flights && flights[me] == Allocating(epoch)
      modifies this, directory
      ensures Valid() && r == AllocateCommit(old(View()).world, committed, t, placementId, chosen).reply
      ensures var m := AllocateMove(old(View()).world, me, committed, t, placementId, chosen);
              Possible(old(View()), m) && View() == AfterMove(old(View()), m)
      ensures me in flights && (r.Ok? ==> flights[me] == Allocated(epoch, r.value))
    {
      hide Sound, Protocol.Valid, Possible, AfterMove, AllocateCommit;
      ghost var s := View();
      r := directory.CommitAllocation(committed, t, placementId, chosen);
      pending := pending + multiset(AllocateCommit(s.world, committed, t, placementId, chosen).events);
      if r.Ok? { flights := flights[me := Allocated(epoch, r.value)]; }
      Allocates(s, me, committed, epoch, t, placementId, chosen);
      MoveKeepsSound(s, AllocateMove(s.world, me, committed, t, placementId, chosen));
    }

    /** The directory answered an allocation with the placement the grain already has. */
    ghost method TakeExisting(me: nat, now: int, epoch: nat, t: Target, placementId: string, p: Placement)
      requires Valid() && me in flights && flights[me] == Allocating(epoch)
      requires AllocateCommit(View().world, now, t, placementId, ProtocolRuns.NO_NODE)
              == Outcome(View().world, [], Ok(p))
      modifies this
      ensures Valid() && me in flights && flights[me] == Allocated(epoch, p)
      ensures var m := AllocateMove(old(View()).world, me, now, t, placementId, ProtocolRuns.NO_NODE);
              Possible(old(View()), m) && View() == AfterMove(old(View()), m)
    {
      hide Sound, Protocol.Valid, Possible, AfterMove, AllocateCommit;
      assert pending + multiset([]) == pending;
      Allocates(View(), me, now, epoch, t, placementId, ProtocolRuns.NO_NODE);
      MoveKeepsSound(View(), AllocateMove(View().world, me, now, t, placementId, ProtocolRuns.NO_NODE));
      flights := flights[me := Allocated(epoch, p)];
    }

    ghost method Leave(me: nat)
      requires Valid()
      modifies this
      ensures Valid() && Possible(old(View()), Abandon(me)) && View() == AfterMove(old(View()), Abandon(me))
    {
      hide Sound, Protocol.Valid;
      MoveKeepsSound(View(), Abandon(me));
      flights := flights - {me};
    }

    /** The route of an allocated placement is looked up. */
    method AskAllocated(ghost me: nat, asked: int, ghost epoch: nat, p: Placement) returns (d: Result<Route>)
      requires Valid() && me in flights && flights[me] == Allocated(epoch, p)
      modifies this
      ensures Valid() && d == Protocol.Lookup(old(View()).world, asked, p.grainKey)
      ensures var m := LookupAllocated(me, asked, Until(d));
              Possible(old(View()), m) && View() == AfterMove(old(View()), m)
      ensures me in flights && (d.Ok? ==> flights[me] == Carrying(epoch, p, d.value))
    {
      hide Sound, Protocol.Valid, Possible, AfterMove, Protocol.Lookup;
      ghost var s := View();
      d := directory.Lookup(asked, p.grainKey);
      if d.Ok? { flights := flights[me := Carrying(epoch, p, d.value)]; }
      AsksAllocated(s, me, asked, epoch, p, d);
      MoveKeepsSound(s, LookupAllocated(me, asked, Until(d)));
    }

    /** The last section of an allocation. */
    method ConcludeAllocation(ghost me: nat, epoch: nat, p: Placement, d: Result<Route>, later: int)
      requires Valid() && me in flights && (d.Ok? ==> flights[me] == Carrying(epoch, p, d.value))
      modifies this, router.cache
      ensures Valid()
      ensures var m := LastMove(me, Served(d, later)); Possible(old(View()), m) && View() == AfterMove(old(View()), m)
    {
      hide Sound, Protocol.Valid, Possible, AfterMove, StoredAfterAllocation;
      ghost var s := View();
      if d.Err? || d.value.status != PlacementActive || later >= d.value.validUntil {
        Leaves(s, me);
      } else {
        router.StoreAllocated(epoch, p, d.value);
        StoresAllocated(s, me, epoch, p, d.value);
      }
      flights := flights - {me};
      MoveKeepsSound(s, LastMove(me, Served(d, later)));
    }

    /** An event is handled, for the first time or again. */
    method HandleEvent(e: Event)
      requires Valid()
      modifies this, router, router.cache
      ensures Valid()
      ensures var m := if e in old(pending) then Deliver(e) else Redeliver(e);
              Possible(old(View()), m) && View() == AfterMove(old(View()), m)
      ensures Invalidates(old(View()).router.entries, e, View().router.entries)
    {
      hide Sound, Protocol.Valid, Handled, Possible, AfterMove, Invalidates;
      ghost var s := View();
      router.HandleEvent(e);
      pending := pending - multiset{e};
      Handles(s, e);
      MoveKeepsSound(s, if e in s.pending then Deliver(e) else Redeliver(e));
    }

    method Degrade()
      requires Valid()
      modifies this, router, router.cache
      ensures Valid() && View() == AfterMove(old(View()), Move.Degrade)
    {
      hide Sound, Protocol.Valid, AfterDegrade;
      ghost var s := View();
      router.Degrade();
      MoveKeepsSound(s, Move.Degrade);
    }

    /** Events that were lost while the router was degraded are not waited for any more. */
    method Recover(ghost lost: multiset<Event>)
      requires Valid()
      modifies this, router, router.cache
      ensures Valid() && View() == AfterMove(old(View()), Move.Recover(lost))
    {
      hide Sound, Protocol.Valid, AfterRecover;
      ghost var s := View();
      router.Recover();
      pending := pending - lost;
      MoveKeepsSound(s, Move.Recover(lost));
    }

    // ----------------------------------------------------------------------------------------
    // Whole operations.

    /** Lookup: a usable cached route, or else the directory's answer, stored unless the epoch has moved on. */
    method Lookup(now: int, asked: int, later: int, key: string) returns (r: Result<Route>, ghost trip: Trip)
      requires Valid()
      modifies this, router, router.cache, directory, directory.registry
      ensures Valid()
      ensures var start := old(View());
              var cached := !start.router.degraded && key in start.router.entries;
              if cached && Usable(start.router.entries[key], now) then
                r == Ok(start.router.entries[key]) && View() == start
              else
                var asking := [Begin(trip.me, key, cached)] + trip.first;
                var d := Protocol.Lookup(Replay(start, asking).world, asked, key);
                && Proper(start, trip)
                && View()
                      == Replay(start, asking + [AskLookup(trip.me, asked, Until(d))] + trip.second
                      + [LastMove(trip.me, Served(d, later))])
                && r == if d.Ok? && !Served(d, later) then Err(PlacementNotFound) else d
      ensures r.Ok? ==>
                && r.value.status == PlacementActive
                && (now < r.value.validUntil || (asked < r.value.validUntil && later < r.value.validUntil))
      ensures r.Ok? && !old(View()).router.degraded && Calm(trip.first) && Calm(trip.second) ==>
                key in View().router.entries && View().router.entries[key] == r.value
    {
      hide Valid, Protocol.Lookup, Replay, NotMine, Possible, AfterMove, CachedRouter.View, Calm;
      ghost var start := View();
      NothingIsCalm();
      trip := NewTrip(flights);
      ghost var me := trip.me;
      var hit, epoch := BeginLookup(me, now, key);
      if hit.Some? { return Ok(hit.value), trip; }
      ghost var trace := [Begin(me, key, !start.router.degraded && key in start.router.entries)];
      Started(start, trace[0]);
      ghost var gap := Others(me);
      Waited(start, trace, gap, me);
      trace, trip := trace + gap, trip.(first := gap);
      var d := AskDirectory(me, asked, key, epoch);
      ReplayMore(start, trace, AskLookup(me, asked, Until(d)));
      trace := trace + [AskLookup(me, asked, Until(d))];
      gap := Others(me);
      Waited(start, trace, gap, me);
      trace, trip := trace + gap, trip.(second := gap);
      var served := Conclude(me, key, epoch, d, later);
      ReplayMore(start, trace, LastMove(me, served));
      return if d.Ok? && !served then Err(PlacementNotFound) else d, trip;
    }

    /** Resolution: a usable cached route inside the target group, or else the directory's, stored while usable and
        unless the epoch has moved on. */
    method ResolveRoute(now: int, asked: int, later: int, t: Target, placementId: string,
        strategy: StrategyInput -> Option<Node>)
      returns (r: Result<Route>, ghost trip: Trip)
      requires Valid()
      modifies this, router, router.cache, directory, directory.registry
      ensures Valid()
      ensures var start := old(View());
              var named := NewGrainKey(t.kind, t.grainId);
              if named.None? then r == Err(InvalidIdentity) && View() == start
              else if AnswersTarget(start.router, now, named.value, t) then
                r == Ok(start.router.entries[named.value]) && View() == start
              else
                var asking := [Begin(trip.me, named.value, false)] + trip.first;
                var w := Replay(start, asking).world;
                var m := ResolveMove(w, trip.me, asked, t, placementId, strategy);
                && Proper(start, trip)
                && View() == Replay(start, asking + [m] + trip.second + [LastMove(trip.me, Served(r, later))])
                && r == Protocol.ResolveRoute(w, asked, t, placementId, strategy(InputFor(w, asked, t.GroupOf()))).reply
      ensures r.Ok? ==>
                && r.value.status == PlacementActive && (now < r.value.validUntil || asked < r.value.validUntil)
                && GroupOfIdentity(r.value.nodeIdentity) == Group(t.nodeType, t.nodeGroup)
      ensures r.Ok? && !old(View()).router.degraded && Calm(trip.first) && Calm(trip.second) && Served(r, later) ==>
                var key := NewGrainKey(t.kind, t.grainId).value;
                key in View().router.entries && View().router.entries[key] == r.value
    {
      hide Valid, Protocol.ResolveRoute, InputFor, NewGrainKey, Replay, NotMine, Possible, AfterMove, CachedRouter.View,
           ResolveMove, AnswersTarget, Calm, GroupOfIdentity;
      ghost var start := View();
      trip := NewTrip(flights);
      ghost var me := trip.me;
      NothingIsCalm();
      KeyIsCached(start.router, now, t);
      var named := NewGrainKey(t.kind, t.grainId);
      if named.None? { return Err(InvalidIdentity), trip; }
      var key := named.value;
      var hit, epoch := BeginResolution(me, now, key, t);
      if hit.Some? { return Ok(hit.value), trip; }
      ghost var trace := [Begin(me, key, false)];
      Started(start, trace[0]);
      ghost var gap := Others(me);
      Waited(start, trace, gap, me);
      trace, trip := trace + gap, trip.(first := gap);
      ghost var m := ResolveMove(View().world, me, asked, t, placementId, strategy);
      r := AskResolution(me, asked, key, epoch, t, placementId, strategy);
      ReplayMore(start, trace, m);
      trace := trace + [m];
      gap := Others(me);
      Waited(start, trace, gap, me);
      trace, trip := trace + gap, trip.(second := gap);
      var served := Conclude(me, key, epoch, r, later);
      ReplayMore(start, trace, LastMove(me, served));
    }

    /** An allocated placement is looked up and its route stored, unless the epoch has moved on by more than the
        allocation's own creation event. */
    method CarryHome(asked: int, later: int, ghost me: nat, epoch: nat, p: Placement)
      returns (ghost third: seq<Move>, ghost fourth: seq<Move>)
      requires Valid() && me in flights && flights[me] == Allocated(epoch, p)
      modifies this, router, router.cache, directory, directory.registry
      ensures Valid() && NotMine(third, me) && NotMine(fourth, me)
      ensures View() == Replay(old(View()), HomeMoves(old(View()), me, third, fourth, p.grainKey, asked, later))
    {
      hide Valid, Protocol.Lookup, Replay, NotMine, Possible, AfterMove, CachedRouter.View;
      ghost var start := View();
      ghost var trace: seq<Move> := [];
      StandsStill(start);
      third := Others(me);
      Waited(start, trace, third, me);
      trace := third;
      assert [] + third == third;
      var d := AskAllocated(me, asked, epoch, p);
      ReplayMore(start, trace, LookupAllocated(me, asked, Until(d)));
      trace := trace + [LookupAllocated(me, asked, Until(d))];
      fourth := Others(me);
      Waited(start, trace, fourth, me);
      trace := trace + fourth;
      ConcludeAllocation(me, epoch, p, d, later);
      ReplayMore(start, trace, LastMove(me, Served(d, later)));
    }

    /** Allocation: the directory allocates in two phases, the route of the placement is looked up and stored. */
    method Allocate(now: int, committed: int, asked: int, later: int, t: Target, placementId: string,
        strategy: StrategyInput -> Option<Node>)
      returns (r: Result<Placement>, ghost trip: Trip)
      requires Valid()
      modifies this, router, router.cache, directory, directory.registry
      ensures Valid() && Proper(old(View()), trip)
      ensures var start := old(View());
              var preparing := [BeginAllocate(trip.me)] + trip.first;
              var seen := Replay(start, preparing).world;
              match Memory.PreparedFor(seen, now, t, strategy)
              case Answered(Err(e)) => r == Err(e) && View() == Replay(start, preparing + [Abandon(trip.me)])
              case Answered(Ok(p)) =>
                var answered := preparing + [AllocateMove(seen, trip.me, now, t, placementId, ProtocolRuns.NO_NODE)];
                r == Ok(p)
                    && View()
                    == Replay(Replay(start, answered),
                    HomeTrip(Replay(start, answered), trip, p.grainKey, asked, later))
              case Chosen(chosen) =>
                var w := Replay(start, preparing + trip.second).world;
                var placed := preparing + trip.second + [AllocateMove(w, trip.me, committed, t, placementId, chosen)];
                && r == AllocateCommit(w, committed, t, placementId, chosen).reply
                && View() == if r.Err? then Replay(start, placed + [Abandon(trip.me)])
                             else Replay(Replay(start, placed),
                                 HomeTrip(Replay(start, placed), trip, r.value.grainKey, asked, later))
      ensures var start := old(View());
              var seen := Replay(start, [BeginAllocate(trip.me)] + trip.first).world;
              var found := Replay(start, [BeginAllocate(trip.me)] + trip.first + trip.second).world;
              var answer := strategy(InputFor(seen, now, t.GroupOf()));
              Memory.CanFill(seen, now, found, committed, t, answer) ==>
                Memory.FilledBy(t, answer.value, committed, placementId, r)
    {
      hide Valid, AllocatePrepare, AllocateCommit, Replay, NotMine, Possible, AfterMove, CachedRouter.View,
          AllocateMove,
           HomeMoves, Memory.PreparedFor, Memory.Fills, Memory.CanFill, Memory.FilledBy, InputFor;
      ghost var start := View();
      trip := NewTrip(flights);
      ghost var me := trip.me;
      var epoch := BeginAllocation(me);
      ghost var trace := [BeginAllocate(me)];
      Started(start, trace[0]);
      ghost var gap := Others(me);
      Waited(start, trace, gap, me);
      trace, trip := trace + gap, trip.(first := gap);
      ghost var seen := View();
      var prepared := directory.PrepareAllocation(now, t, strategy);
      if prepared.Answered? {
        AllocationIsAnswered(seen, now, t, strategy);
        r := prepared.reply;
        if r.Err? {
          Leave(me);
          ReplayMore(start, trace, Abandon(me));
          return;
        }
        ghost var m := AllocateMove(View().world, me, now, t, placementId, ProtocolRuns.NO_NODE);
        ExistingIsAnswered(View().world, now, t, placementId, strategy, r.value);
        TakeExisting(me, now, epoch, t, placementId, r.value);
        ReplayMore(start, trace, m);
      } else {
        gap := Others(me);
        Waited(start, trace, gap, me);
        trace, trip := trace + gap, trip.(second := gap);
        ghost var m := AllocateMove(View().world, me, committed, t, placementId, prepared.node);
        AllocationIsFilled(seen, now, View(), committed, t, placementId, strategy, prepared.node);
        r := AskAllocation(me, committed, epoch, t, placementId, prepared.node);
        ReplayMore(start, trace, m);
        trace := trace + [m];
        if r.Err? {
          Leave(me);
          ReplayMore(start, trace, Abandon(me));
          return;
        }
      }
      ghost var third, fourth := CarryHome(asked, later, me, epoch, r.value);
      trip := trip.(third := third, fourth := fourth);
    }
  }

  /** The moves from an allocated placement to the end of its allocation. */
  ghost function HomeMoves(s: System, me: nat, third: seq<Move>, fourth: seq<Move>, key: string, asked: int,
      later: int): seq<Move> {
    var d := Protocol.Lookup(Replay(s, third).world, asked, key);
    third + [LookupAllocated(me, asked, Until(d))] + fourth + [LastMove(me, Served(d, later))]
  }

  ghost function HomeTrip(s: System, trip: Trip, key: string, asked: int, later: int): seq<Move> {
    HomeMoves(s, trip.me, trip.third, trip.fourth, key, asked, later)
  }

  /** The move a commit makes on some world. */
  function AllocateMove(w: World, id: nat, now: int, t: Target, placementId: string, chosen: Node): Move {
    AskAllocate(id, now, t, placementId, chosen, AllocateCommit(w, now, t, placementId, chosen).events)
  }

  /** The cache answers a resolution: a usable route inside the target group. */
  predicate AnswersTarget(r: RouterState, now: int, key: string, t: Target) {
    && !r.degraded && key in r.entries
    && MatchesTarget(r.entries[key], t.nodeType, t.nodeGroup) && now < r.entries[key].validUntil
  }

  /** The move a resolution makes on some world. */
  function ResolveMove(w: World, id: nat, now: int, t: Target, placementId: string,
      strategy: StrategyInput -> Option<Node>): Move {
    var pick := strategy(InputFor(w, now, t.GroupOf()));
    var o := Protocol.ResolveRoute(w, now, t, placementId, pick);
    AskResolve(id, now, t, placementId, pick, o.events, if o.reply.Ok? then o.reply.value.validUntil else 0)
  }

  lemma AllocationIsAnswered(s: System, now: int, t: Target, strategy: StrategyInput -> Option<Node>)
    requires Sound(s) && Memory.PreparedFor(s.world, now, t, strategy).Answered?
    ensures var answer := strategy(InputFor(s.world, now, t.GroupOf()));
            forall found, later :: !Memory.CanFill(s.world, now, found, later, t, answer)
  {
    hide Protocol.Valid, InputFor, Coherent, Memory.PreparedFor, Memory.CanFill, Memory.Fills;
    Memory.AnsweredCannotFill(s.world, now, t, strategy);
  }

  lemma AllocationIsFilled(seen: System, now: int, found: System, later: int, t: Target, placementId: string,
      strategy: StrategyInput -> Option<Node>, chosen: Node)
    requires Sound(seen) && Sound(found) && Memory.PreparedFor(seen.world, now, t, strategy) == Memory.Chosen(chosen)
    ensures var answer := strategy(InputFor(seen.world, now, t.GroupOf()));
            Memory.CanFill(seen.world, now, found.world, later, t, answer) ==>
              Memory.FilledBy(t, answer.value, later, placementId,
                              AllocateCommit(found.world, later, t, placementId, chosen).reply)
  {
    hide Protocol.Valid, InputFor, Coherent, AllocateCommit, Memory.PreparedFor, Memory.CanFill, Memory.FilledBy;
    Memory.CommitFills(seen.world, now, found.world, later, t, placementId, strategy, chosen);
  }

  lemma NothingIsCalm()
    ensures Calm([])
  {
  }

  lemma KeyIsCached(r: RouterState, now: int, t: Target)
    ensures forall key :: AnswersTarget(r, now, key, t) ==> key in r.entries
  {
  }

  lemma KeepsCurrent(r: RouterState, key: string, epoch: nat, route: Route)
    ensures !r.degraded && r.epoch == epoch ==>
              var after := StoredIfCurrent(r, key, epoch, route); key in after.entries && after.entries[key] == route
  {
  }

  lemma LookupIsUsable(w: World, now: int, key: string)
    ensures var d := Protocol.Lookup(w, now, key);
            d.Ok? ==> d.value.status == PlacementActive && now < d.value.validUntil
  {
  }

  /** A resolution answers a usable route inside the requested group. */
  lemma ResolutionIsWithin(s: System, now: int, t: Target, placementId: string, pick: Option<Node>)
    requires Sound(s)
    ensures var d := Protocol.ResolveRoute(s.world, now, t, placementId, pick).reply;
            d.Ok? ==>
              && d.value.status == PlacementActive && now < d.value.validUntil
              && GroupOfIdentity(d.value.nodeIdentity) == Group(t.nodeType, t.nodeGroup)
  {
    hide Protocol.Valid, Protocol.ResolveRoute, NewGrainKey, Coherent;
    if Protocol.ResolveRoute(s.world, now, t, placementId, pick).reply.Ok? {
      SettlesWithin(s.world, now, t, placementId, pick);
    }
  }

  lemma SettlesWithin(w: World, now: int, t: Target, placementId: string, pick: Option<Node>)
    requires Protocol.Valid(w) && Protocol.ResolveRoute(w, now, t, placementId, pick).reply.Ok?
    ensures var o := Protocol.ResolveRoute(w, now, t, placementId, pick);
            && o.reply.value.status == PlacementActive && now < o.reply.value.validUntil
            && GroupOfIdentity(o.reply.value.nodeIdentity) == Group(t.nodeType, t.nodeGroup)
  {
    ProtocolRuns.ValidRecordsAreKeyed(w);
    NamedToResolve(w, now, t, placementId, pick);
    hide Protocol.ResolveRoute, NewGrainKey, NewNodeIdentity, NodeType, NodeGroup, NodeName;
    ProtocolRuns.ResolveSettles(w, now, t, placementId, pick, NewGrainKey(t.kind, t.grainId).value);
  }

  lemma NamedToResolve(w: World, now: int, t: Target, placementId: string, pick: Option<Node>)
    ensures Protocol.ResolveRoute(w, now, t, placementId, pick).reply.Ok? ==> NewGrainKey(t.kind, t.grainId).Some?
  {
    hide NewGrainKey, NewNodeIdentity, Candidates;
  }

  lemma NewTrip(flights: map<nat, Flight>) returns (trip: Trip)
    ensures trip.me !in flights && trip == Trip(trip.me, [], [], [], []) && NotMine([], trip.me)
  {
    var me := FreeNumber(flights.Keys);
    trip := Trip(me, [], [], [], []);
  }

  lemma {:induction false} FreeNumber(taken: set<nat>) returns (n: nat)
    ensures forall m :: m in taken ==> m < n
    decreases |taken|
  {
    n := 0;
    if taken != {} {
      var m :| m in taken;
      n := FreeNumber(taken - {m});
      assert forall other :: other in taken ==> other == m || other in taken - {m};
      if n <= m { n := m + 1; }
    }
  }

  // ------------------------------------------------------------------------------------------
  // What single moves do.

  lemma Begins(s: System, id: nat, key: string, drops: bool)
    requires id !in s.flights
    ensures var entries := if drops then s.router.entries - {key} else s.router.entries;
            var flights := s.flights[id := Asking(key, s.router.epoch)];
            Possible(s, Begin(id, key, drops))
            && AfterMove(s, Begin(id, key, drops)) == s.(router := s.router.(entries := entries), flights := flights)
  {
  }

  lemma Asks(s: System, id: nat, now: int, key: string, began: nat, d: Result<Route>)
    requires id in s.flights && s.flights[id] == Asking(key, began) && d == Protocol.Lookup(s.world, now, key)
    ensures var m := AskLookup(id, now, Until(d));
            Possible(s, m) && AfterMove(s, m)
                == s.(flights := if d.Ok? then s.flights[id := Holding(key, began, d.value)] else s.flights)
  {
    hide Protocol.Lookup;
    if d.Ok? { assert d.value.(validUntil := Until(d)) == d.value; }
  }

  lemma Resolves(s: System, id: nat, now: int, key: string, began: nat, t: Target, placementId: string,
      strategy: StrategyInput -> Option<Node>)
    requires id in s.flights && s.flights[id] == Asking(key, began) && NewGrainKey(t.kind, t.grainId) == Some(key)
    ensures var m := ResolveMove(s.world, id, now, t, placementId, strategy);
            var o := Protocol.ResolveRoute(s.world, now, t, placementId, strategy(InputFor(s.world, now, t.GroupOf())));
            Possible(s, m)
            && AfterMove(s, m) == s.(world := o.world, pending := s.pending + multiset(o.events),
                                     flights :=
                                       if o.reply.Ok? then s.flights[id := Holding(key, began, o.reply.value)]
                                       else s.flights)
  {
    hide Protocol.ResolveRoute, InputFor, NewGrainKey;
    var o := Protocol.ResolveRoute(s.world, now, t, placementId, strategy(InputFor(s.world, now, t.GroupOf())));
    PublishesItself(o.events);
    if o.reply.Ok? { assert o.reply.value.(validUntil := o.reply.value.validUntil) == o.reply.value; }
  }

  lemma Allocates(s: System, id: nat, now: int, began: nat, t: Target, placementId: string, chosen: Node)
    requires id in s.flights && s.flights[id] == Allocating(began)
    ensures var m := AllocateMove(s.world, id, now, t, placementId, chosen);
            var o := AllocateCommit(s.world, now, t, placementId, chosen);
            Possible(s, m)
            && AfterMove(s, m) == s.(world := o.world, pending := s.pending + multiset(o.events),
                                     flights :=
                                       if o.reply.Ok? then s.flights[id := Allocated(began, o.reply.value)]
                                       else s.flights)
  {
    hide AllocateCommit;
    PublishesItself(AllocateCommit(s.world, now, t, placementId, chosen).events);
  }

  /** An allocation that finds a usable placement answers it, whatever node is chosen. */
  lemma ExistingIsAnswered(w: World, now: int, t: Target, placementId: string, strategy: StrategyInput -> Option<Node>,
      p: Placement)
    requires Memory.PreparedFor(w, now, t, strategy) == Memory.Answered(Ok(p))
    ensures AllocateCommit(w, now, t, placementId, ProtocolRuns.NO_NODE) == Outcome(w, [], Ok(p))
  {
    hide NewGrainKey, InputFor, Candidates;
  }

  lemma AsksAllocated(s: System, id: nat, now: int, began: nat, p: Placement, d: Result<Route>)
    requires id in s.flights && s.flights[id] == Allocated(began, p) && d == Protocol.Lookup(s.world, now, p.grainKey)
    ensures var m := LookupAllocated(id, now, Until(d));
            Possible(s, m) && AfterMove(s, m)
                == s.(flights := if d.Ok? then s.flights[id := Carrying(began, p, d.value)] else s.flights)
  {
    hide Protocol.Lookup;
    if d.Ok? { assert d.value.(validUntil := Until(d)) == d.value; }
  }

  lemma StoresAllocated(s: System, id: nat, began: nat, p: Placement, route: Route)
    requires id in s.flights && s.flights[id] == Carrying(began, p, route)
    ensures Possible(s, Finish(id))
    ensures AfterMove(s, Finish(id))
            == s.(router := StoredAfterAllocation(s.router, began, p, route), flights := s.flights - {id})
  {
    hide StoredAfterAllocation;
  }

  lemma PublishesItself(events: seq<Event>)
    ensures Publishes(events, events)
  {
    forall i | 0 <= i < |events|
      ensures exists e :: e in events && Alike(e, events[i])
    {
      assert events[i] in events && Alike(events[i], events[i]);
    }
  }

  lemma Stores(s: System, id: nat, key: string, began: nat, route: Route)
    requires id in s.flights && s.flights[id] == Holding(key, began, route)
    ensures Possible(s, Finish(id))
    ensures AfterMove(s, Finish(id))
            == s.(router := StoredIfCurrent(s.router, key, began, route), flights := s.flights - {id})
  {
    hide StoredIfCurrent;
  }

  lemma Handles(s: System, e: Event)
    ensures var m := if e in s.pending then Deliver(e) else Redeliver(e);
            Possible(s, m) && AfterMove(s, m) == s.(router := Handled(s.router, e), pending := s.pending - multiset{e})
  {
    hide Handled;
    if e !in s.pending { assert s.pending - multiset{e} == s.pending; }
  }

  lemma Leaves(s: System, id: nat)
    ensures Possible(s, Abandon(id)) && AfterMove(s, Abandon(id)) == s.(flights := s.flights - {id})
  {
  }

  // ------------------------------------------------------------------------------------------
  // Traces.

  lemma StandsStill(s: System)
    ensures Replay(s, []) == s
  {
  }

  /** The first move of a trace. */
  lemma Started(start: System, m: Move)
    requires Possible(start, m)
    ensures Replay(start, [m]) == AfterMove(start, m)
  {
    hide Possible, AfterMove;
    assert [m][..0] == [] && Replay(start, []) == start;
  }

  /** The moves of others that follow a trace keep the operation where it is. */
  lemma Waited(start: System, trace: seq<Move>, gap: seq<Move>, me: nat)
    requires NotMine(gap, me) && me in Replay(start, trace).flights
    ensures Replay(start, trace + gap) == Replay(Replay(start, trace), gap)
    ensures me in Replay(start, trace + gap).flights
    ensures Replay(start, trace + gap).flights[me] == Replay(start, trace).flights[me]
  {
    hide Replay, NotMine;
    ReplayOn(start, trace, gap);
    OthersKeepFlight(Replay(start, trace), gap, me);
  }
}
