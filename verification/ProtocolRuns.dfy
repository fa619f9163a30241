/** What holds over whole runs of the placement protocol: fencing tokens, leases, draining and stable routes. */
module ProtocolRuns {
  import opened Types
  import opened Naming
  import opened Ordering
  import opened Protocol

  datatype Run = Run(ticks: seq<Tick>)

  /** Every lease duration of the run is positive. */
  ghost predicate WellFormed(run: Run) {
    forall i :: 0 <= i < |run.ticks| ==> run.ticks[i].ttl > 0
  }

  /** The world after the first i ticks, starting from an empty directory. */
  function WorldAt(run: Run, i: nat): World
    requires i <= |run.ticks|
    decreases i, 0
  {
    if i == 0 then EMPTY_WORLD else StepAt(run, i - 1).world
  }

  function StepAt(run: Run, i: nat): Effect
    requires i < |run.ticks|
    decreases i, 1
  {
    Step(WorldAt(run, i), run.ticks[i].ttl, run.ticks[i].now, run.ticks[i].command)
  }

  predicate Succeeds(run: Run, i: nat)
    requires i < |run.ticks|
  {
    StepAt(run, i).ok
  }

  lemma {:induction false} RunsStayValid(run: Run, i: nat)
    requires WellFormed(run) && i <= |run.ticks|
    ensures Valid(WorldAt(run, i))
  {
    if i > 0 {
      RunsStayValid(run, i - 1);
      StepKeepsValid(WorldAt(run, i - 1), run.ticks[i - 1].ttl, run.ticks[i - 1].now, run.ticks[i - 1].command);
    }
  }

  // ------------------------------------------------------------------------------------------
  // How one step changes placements.

  function At(w: World, k: string): Option<Placement> {
    if k in w.placements then Some(w.placements[k]) else None
  }

  /** The one grain a command can touch. */
  function KeyOf(c: Command): Option<string> {
    match c
    case CAllocate(t, _, _) => NewGrainKey(t.kind, t.grainId)
    case CResolve(t, _, _) => NewGrainKey(t.kind, t.grainId)
    case CRenew(claim) => Some(claim.grainKey)
    case CRelease(claim) => Some(claim.grainKey)
    case CTransfer(key, _, _, _, _) => Some(key)
    case CRecover(key, _, _, _) => Some(key)
    case _ => None
  }

  /** The placement ID a command would give to a placement it creates. */
  function NewId(c: Command): Option<string> {
    match c
    case CAllocate(_, id, _) => Some(id)
    case CResolve(_, id, _) => Some(id)
    case _ => None
  }

  predicate ChangeKind(kind: EventType) {
    kind == PlacementCreated || kind == PlacementReleasedEvent || kind == PlacementTransferred
        || kind == PlacementRecovered
  }

  ghost predicate NoChangeEvents(events: seq<Event>) {
    forall i :: 0 <= i < |events| ==> !ChangeKind(events[i].kind)
  }

  ghost predicate Created(b: Option<Placement>, a: Option<Placement>, id: Option<string>, events: seq<Event>) {
    && b.None? && a.Some?
    && id == Some(a.value.placementId)
    && a.value.version == INITIAL_PLACEMENT_VERSION
    && events == [PlacementEvent(a.value, PlacementCreated)]
  }

  ghost predicate Advanced(b: Option<Placement>, a: Option<Placement>, events: seq<Event>) {
    && b.Some? && a.Some?
    && a.value.placementId == b.value.placementId
    && a.value.version == b.value.version + 1
    && |events| == 1
    && (events[0].kind == PlacementTransferred || events[0].kind == PlacementRecovered)
    && events[0] == PlacementEvent(a.value, events[0].kind)
  }

  ghost predicate Removed(b: Option<Placement>, a: Option<Placement>, events: seq<Event>) {
    && b.Some? && a.None?
    && events == [PlacementEvent(b.value.(version := b.value.version + 1), PlacementReleasedEvent)]
  }

  /** At most the grain the command names changes. That grain is unchanged with no change event, or it is
      created, advanced by one version, or removed, with exactly the one matching event. */
  ghost predicate OneChange(w: World, c: Command, e: Effect) {
    && (forall k :: KeyOf(c) != Some(k) ==> At(e.world, k) == At(w, k))
    && (KeyOf(c).None? ==> NoChangeEvents(e.events))
    && (KeyOf(c).Some? ==> KeyChange(At(w, KeyOf(c).value), At(e.world, KeyOf(c).value), NewId(c), e.events))
  }

  ghost predicate KeyChange(b: Option<Placement>, a: Option<Placement>, id: Option<string>, events: seq<Event>) {
    || (a == b && NoChangeEvents(events))
    || Created(b, a, id, events)
    || Advanced(b, a, events)
    || Removed(b, a, events)
  }

  ghost predicate OnlyAt(w: World, w': World, key: string) {
    forall k :: k != key ==> At(w', k) == At(w, k)
  }

  ghost predicate KeyedRecords(w: World) {
    forall k :: k in w.placements ==> w.placements[k].grainKey == k && w.placements[k].status == PlacementActive
  }

  lemma ResolveChange(w: World, now: int, t: Target, id: string, pick: Option<Node>, key: string)
    requires KeyedRecords(w) && NewGrainKey(t.kind, t.grainId) == Some(key)
    ensures var o := ResolveRoute(w, now, t, id, pick);
            KeyChange(At(w, key), At(o.world, key), Some(id), o.events) && OnlyAt(w, o.world, key)
  {
    hide NodeType, NodeGroup, NodeName, NewNodeIdentity, Available, Candidates, SessionUsable;
    var o := ResolveRoute(w, now, t, id, pick);
    if TargetNamed(t) && o.events != [] {
      if key in w.placements {
        assert Advanced(At(w, key), At(o.world, key), o.events);
      } else {
        assert Created(At(w, key), At(o.world, key), Some(id), o.events);
      }
    }
  }

  lemma AllocateChange(w: World, now: int, t: Target, id: string, chosen: Node, key: string)
    requires KeyedRecords(w) && NewGrainKey(t.kind, t.grainId) == Some(key)
    ensures var o := AllocateCommit(w, now, t, id, chosen);
            KeyChange(At(w, key), At(o.world, key), Some(id), o.events) && OnlyAt(w, o.world, key)
  {
  }

  lemma ReleaseChange(w: World, now: int, c: Claim)
    requires KeyedRecords(w)
    ensures var o := Release(w, now, c);
            KeyChange(At(w, c.grainKey), At(o.world, c.grainKey), None, o.events) && OnlyAt(w, o.world, c.grainKey)
  {
  }

  lemma TransferChange(w: World, now: int, key: string, id: string, from: string, to: string, version: int)
    requires KeyedRecords(w)
    ensures var o := Transfer(w, now, key, id, from, to, version);
            KeyChange(At(w, key), At(o.world, key), None, o.events) && OnlyAt(w, o.world, key)
  {
  }

  lemma RecoverChange(w: World, now: int, key: string, id: string, to: string, version: int)
    requires KeyedRecords(w)
    ensures var o := Recover(w, now, key, id, to, version);
            KeyChange(At(w, key), At(o.world, key), None, o.events) && OnlyAt(w, o.world, key)
  {
  }

  predicate IsNodeCommand(c: Command) {
    !c.CAllocate? && !c.CResolve? && !c.CRenew? && !c.CRelease? && !c.CTransfer? && !c.CRecover?
  }

  lemma NodeCommandChange(w: World, ttl: int, now: int, c: Command)
    requires IsNodeCommand(c)
    ensures Step(w, ttl, now, c).world.placements == w.placements
    ensures Step(w, ttl, now, c).world.byNode == w.byNode
    ensures NoChangeEvents(Step(w, ttl, now, c).events)
  {
    hide NewNodeIdentity, NormalizedNode, LeaseExpired, Enrolled, Renewed, Owned, NameInvalid;
  }

  lemma ValidRecordsAreKeyed(w: World)
    requires Valid(w)
    ensures KeyedRecords(w)
  {
  }

  /** Every command changes at most one grain, by one of the four transitions. */
  lemma PlacementStep(w: World, ttl: int, now: int, c: Command)
    requires KeyedRecords(w)
    ensures OneChange(w, c, Step(w, ttl, now, c))
  {
    hide ResolveRoute, AllocateCommit, Release, Transfer, Recover, Renew, NewGrainKey, KeyChange, KeyedRecords,
         NoChangeEvents;
    match c
    case CAllocate(t, id, chosen) =>
      if KeyOf(c).Some? {
        AllocateChange(w, now, t, id, chosen, KeyOf(c).value);
      } else {
        UnnamedGrain(w, now, t, id, chosen, None);
      }
    case CResolve(t, id, pick) =>
      if KeyOf(c).Some? {
        ResolveChange(w, now, t, id, pick, KeyOf(c).value);
      } else {
        UnnamedGrain(w, now, t, id, NO_NODE, pick);
      }
    case CRelease(claim) => ReleaseChange(w, now, claim);
    case CTransfer(key, id, from, to, version) => TransferChange(w, now, key, id, from, to, version);
    case CRecover(key, id, to, version) => RecoverChange(w, now, key, id, to, version);
    case CRenew(claim) => RenewChange(w, now, claim);
    case _ => NodeCommandChange(w, ttl, now, c);
  }

  lemma RenewChange(w: World, now: int, c: Claim)
    ensures var o := Renew(w, now, c); o.world == w && KeyChange(At(w, c.grainKey), At(w, c.grainKey), None, o.events)
  {
  }

  const NO_NODE := Node("", "", "", "", "", "", 0, ZERO_METRICS, Offline, Lease(0, 0, 0))

  lemma UnnamedGrain(w: World, now: int, t: Target, id: string, chosen: Node, pick: Option<Node>)
    requires NewGrainKey(t.kind, t.grainId).None?
    ensures AllocateCommit(w, now, t, id, chosen) == Refuse(w, InvalidIdentity)
    ensures ResolveRoute(w, now, t, id, pick) == Refuse(w, InvalidIdentity)
    ensures NoChangeEvents([])
  {
  }

  // ------------------------------------------------------------------------------------------
  // Fencing.

  function CommandAt(run: Run, i: nat): Command
    requires i < |run.ticks|
  {
    run.ticks[i].command
  }

  lemma RunStep(run: Run, i: nat)
    requires WellFormed(run) && i < |run.ticks|
    ensures KeyedRecords(WorldAt(run, i)) && KeyedRecords(WorldAt(run, i + 1))
    ensures OneChange(WorldAt(run, i), CommandAt(run, i), StepAt(run, i))
    ensures WorldAt(run, i + 1) == StepAt(run, i).world
  {
    hide Step;
    RunsStayValid(run, i);
    RunsStayValid(run, i + 1);
    ValidRecordsAreKeyed(WorldAt(run, i));
    ValidRecordsAreKeyed(WorldAt(run, i + 1));
    PlacementStep(WorldAt(run, i), run.ticks[i].ttl, run.ticks[i].now, run.ticks[i].command);
  }

  ghost predicate FreshIds(run: Run) {
    forall i, j | 0 <= i < j < |run.ticks| ::
      NewId(CommandAt(run, i)).Some? ==> NewId(CommandAt(run, i)) != NewId(CommandAt(run, j))
  }

  ghost predicate Introduced(run: Run, i: nat, id: string)
    requires i <= |run.ticks|
  {
    exists j :: 0 <= j < i && NewId(CommandAt(run, j)) == Some(id)
  }

  predicate HoldsId(w: World, k: string, id: string) {
    k in w.placements && w.placements[k].placementId == id
  }

  ghost predicate IdsDistinct(w: World) {
    forall k, k', id :: HoldsId(w, k, id) && HoldsId(w, k', id) ==> k == k'
  }

  /** An ID held after a step was held by the same grain before it, or is the one this step introduces. */
  lemma HeldBefore(run: Run, i: nat, k: string, id: string)
    requires WellFormed(run) && i < |run.ticks| && HoldsId(WorldAt(run, i + 1), k, id)
    ensures HoldsId(WorldAt(run, i), k, id)
            || (NewId(CommandAt(run, i)) == Some(id) && KeyOf(CommandAt(run, i)) == Some(k))
  {
    hide Step;
    RunStep(run, i);
    assert At(WorldAt(run, i + 1), k) == Some(WorldAt(run, i + 1).placements[k]);
  }

  lemma {:induction false} IdsAreIntroducedAndDistinct(run: Run, i: nat)
    requires WellFormed(run) && FreshIds(run) && i <= |run.ticks|
    ensures forall k, id :: HoldsId(WorldAt(run, i), k, id) ==> Introduced(run, i, id)
    ensures IdsDistinct(WorldAt(run, i))
  {
    hide Step;
    if i > 0 {
      var w' := WorldAt(run, i);
      IdsAreIntroducedAndDistinct(run, i - 1);
      forall k, id | HoldsId(w', k, id)
        ensures Introduced(run, i, id)
      {
        HeldBefore(run, i - 1, k, id);
      }
      forall k, k', id | HoldsId(w', k, id) && HoldsId(w', k', id)
        ensures k == k'
      {
        HeldBefore(run, i - 1, k, id);
        HeldBefore(run, i - 1, k', id);
      }
    }
  }

  /** Nothing in w carries the ID any more. */
  ghost predicate Dead(w: World, id: string) {
    forall k :: !HoldsId(w, k, id)
  }

  /** An ID that was introduced and is held by no grain is never held again. */
  lemma {:induction false} DeadStaysDead(run: Run, i: nat, j: nat, id: string)
    requires WellFormed(run) && FreshIds(run) && i <= j <= |run.ticks|
    requires Introduced(run, i, id) && Dead(WorldAt(run, i), id)
    ensures Dead(WorldAt(run, j), id)
    decreases j
  {
    hide Step;
    if i < j {
      DeadStaysDead(run, i, j - 1, id);
      forall k
        ensures !HoldsId(WorldAt(run, j), k, id)
      {
        if HoldsId(WorldAt(run, j), k, id) {
          HeldBefore(run, j - 1, k, id);
        }
      }
    }
  }

  /** From a record on: its ID is dead, or its grain still holds it at a version that is not smaller, and at
      the same version the record is the same. */
  ghost predicate Follows(p: Placement, w: World) {
    || Dead(w, p.placementId)
    || (HoldsId(w, p.grainKey, p.placementId)
        && w.placements[p.grainKey].version >= p.version
        && (w.placements[p.grainKey].version == p.version ==> w.placements[p.grainKey] == p))
  }

  lemma FollowsStep(run: Run, i: nat, p: Placement)
    requires WellFormed(run) && FreshIds(run) && i < |run.ticks|
    requires Introduced(run, i, p.placementId) && Follows(p, WorldAt(run, i))
    ensures Follows(p, WorldAt(run, i + 1))
  {
    hide Step;
    var id := p.placementId;
    IdsAreIntroducedAndDistinct(run, i);
    RunStep(run, i);
    assert NewId(CommandAt(run, i)) != Some(id);
    if !Dead(WorldAt(run, i + 1), id) {
      var k :| HoldsId(WorldAt(run, i + 1), k, id);
      HeldBefore(run, i, k, id);
      assert k == p.grainKey;
      assert At(WorldAt(run, i + 1), k) == Some(WorldAt(run, i + 1).placements[k]);
    }
  }

  lemma {:induction false} RecordsFollow(run: Run, i: nat, j: nat, p: Placement)
    requires WellFormed(run) && FreshIds(run) && i <= j <= |run.ticks|
    requires Introduced(run, i, p.placementId) && Follows(p, WorldAt(run, i))
    ensures Follows(p, WorldAt(run, j))
    decreases j
  {
    if i < j {
      RecordsFollow(run, i, j - 1, p);
      FollowsStep(run, j - 1, p);
    }
  }

  lemma StoredRecordFollows(run: Run, i: nat, k: string)
    requires WellFormed(run) && FreshIds(run) && i <= |run.ticks| && k in WorldAt(run, i).placements
    ensures Introduced(run, i, WorldAt(run, i).placements[k].placementId)
    ensures WorldAt(run, i).placements[k].grainKey == k
    ensures Follows(WorldAt(run, i).placements[k], WorldAt(run, i))
  {
    IdsAreIntroducedAndDistinct(run, i);
    RunsStayValid(run, i);
    ValidRecordsAreKeyed(WorldAt(run, i));
    assert HoldsId(WorldAt(run, i), k, WorldAt(run, i).placements[k].placementId);
  }

  /** A fencing token (grain, placement ID, version) names one record, hence one owner and session, in a whole run. */
  lemma FencingTokenNamesOneOwner(run: Run, i: nat, j: nat, k: string)
    requires WellFormed(run) && FreshIds(run) && i <= |run.ticks| && j <= |run.ticks|
    requires k in WorldAt(run, i).placements && k in WorldAt(run, j).placements
    requires WorldAt(run, i).placements[k].placementId == WorldAt(run, j).placements[k].placementId
    requires WorldAt(run, i).placements[k].version == WorldAt(run, j).placements[k].version
    ensures WorldAt(run, i).placements[k] == WorldAt(run, j).placements[k]
  {
    var a, b := if i < j then i else j, if i < j then j else i;
    var p := WorldAt(run, a).placements[k];
    StoredRecordFollows(run, a, k);
    RecordsFollow(run, a, b, p);
    assert HoldsId(WorldAt(run, b), k, p.placementId);
  }

  datatype Token = Token(grainKey: string, placementId: string, version: int)

  /** The token a Transfer, Recover or Release presents. */
  function TokenOf(c: Command): Option<Token> {
    match c
    case CRelease(claim) => Some(Token(claim.grainKey, claim.placementId, claim.version))
    case CTransfer(key, id, _, _, version) => Some(Token(key, id, version))
    case CRecover(key, id, _, version) => Some(Token(key, id, version))
    case _ => None
  }

  /** A command that must name the placement ID it acts on. */
  function IdClaimed(c: Command): Option<string> {
    match c
    case CRenew(claim) => Some(claim.placementId)
    case _ => if TokenOf(c).Some? then Some(TokenOf(c).value.placementId) else None
  }

  function VersionOf(w: World, k: string): Option<int> {
    if k in w.placements then Some(w.placements[k].version) else None
  }

  /** A command that claims an ID succeeds only when its grain holds that ID; a token is spent by its success. */
  lemma SuccessNeedsToken(w: World, ttl: int, now: int, c: Command)
    requires Step(w, ttl, now, c).ok && IdClaimed(c).Some? && KeyedRecords(w)
    ensures HoldsId(w, KeyOf(c).value, IdClaimed(c).value)
    ensures TokenOf(c).Some? ==>
              var t := TokenOf(c).value;
              var w' := Step(w, ttl, now, c).world;
              VersionOf(w, t.grainKey) == Some(t.version)
              && (c.CRelease? ==> t.grainKey !in w'.placements)
              && (c.CRelease? || VersionOf(w', t.grainKey) == Some(t.version + 1))
  {
    hide Available, Routeable, AddIndex, DropIndex;
  }

  lemma SuccessAt(run: Run, i: nat)
    requires WellFormed(run) && i < |run.ticks| && Succeeds(run, i) && IdClaimed(CommandAt(run, i)).Some?
    ensures HoldsId(WorldAt(run, i), KeyOf(CommandAt(run, i)).value, IdClaimed(CommandAt(run, i)).value)
    ensures TokenOf(CommandAt(run, i)).Some? ==>
              var t := TokenOf(CommandAt(run, i)).value;
              && VersionOf(WorldAt(run, i), t.grainKey) == Some(t.version)
              && (CommandAt(run, i).CRelease? ==> t.grainKey !in WorldAt(run, i + 1).placements)
              && (CommandAt(run, i).CRelease? || VersionOf(WorldAt(run, i + 1), t.grainKey) == Some(t.version + 1))
  {
    hide Step, KeyedRecords, HoldsId, VersionOf;
    RunsStayValid(run, i);
    ValidRecordsAreKeyed(WorldAt(run, i));
    SuccessNeedsToken(WorldAt(run, i), run.ticks[i].ttl, run.ticks[i].now, run.ticks[i].command);
  }

  /** Once a token has been spent, its grain never again holds that ID at that version. */
  lemma SpentTokenIsGone(run: Run, i: nat, j: nat)
    requires WellFormed(run) && FreshIds(run) && i < j <= |run.ticks|
    requires TokenOf(CommandAt(run, i)).Some? && Succeeds(run, i)
    ensures var t := TokenOf(CommandAt(run, i)).value;
            HoldsId(WorldAt(run, j), t.grainKey, t.placementId) ==>
                VersionOf(WorldAt(run, j), t.grainKey) != Some(t.version)
  {
    hide Step, FreshIds, Introduced, OneChange, WellFormed, KeyedRecords, Succeeds, WorldAt;
    var t := TokenOf(CommandAt(run, i)).value;
    SuccessAt(run, i);
    RunStep(run, i);
    var w' := WorldAt(run, i + 1);
    if t.grainKey in w'.placements {
      StoredRecordFollows(run, i + 1, t.grainKey);
      HeldBefore(run, i, t.grainKey, w'.placements[t.grainKey].placementId);
      RecordsFollow(run, i + 1, j, w'.placements[t.grainKey]);
    } else {
      ReleasedIdIsDead(run, i, t.grainKey, t.placementId);
      DeadStaysDead(run, i + 1, j, t.placementId);
    }
  }

  /** At most one Transfer, Recover or Release that presents a given token ever succeeds. */
  lemma OneUseOfEachToken(run: Run, i: nat, j: nat)
    requires WellFormed(run) && FreshIds(run) && i < j < |run.ticks|
    requires TokenOf(CommandAt(run, i)).Some? && TokenOf(CommandAt(run, i)) == TokenOf(CommandAt(run, j))
    ensures !(Succeeds(run, i) && Succeeds(run, j))
  {
    if Succeeds(run, i) && Succeeds(run, j) {
      SuccessAt(run, j);
      hide Step;
      SpentTokenIsGone(run, i, j);
    }
  }

  lemma ReleasedIdIsDead(run: Run, i: nat, k: string, id: string)
    requires WellFormed(run) && FreshIds(run) && i < |run.ticks|
    requires HoldsId(WorldAt(run, i), k, id) && k !in WorldAt(run, i + 1).placements
    ensures Dead(WorldAt(run, i + 1), id) && Introduced(run, i + 1, id)
  {
    hide Step;
    IdsAreIntroducedAndDistinct(run, i);
    var m :| 0 <= m < i && NewId(CommandAt(run, m)) == Some(id);
    var w' := WorldAt(run, i + 1);
    forall other
      ensures !HoldsId(w', other, id)
    {
      if HoldsId(w', other, id) {
        HeldBefore(run, i, other, id);
      }
    }
  }

  /** After a release no Renew, Release, Transfer or Recover that names the released ID succeeds again,
      whatever grain, version or session it presents. */
  lemma ReleasedIdIsFinal(run: Run, i: nat, j: nat)
    requires WellFormed(run) && FreshIds(run) && i < j < |run.ticks|
    requires CommandAt(run, i).CRelease? && Succeeds(run, i)
    requires IdClaimed(CommandAt(run, j)) == Some(CommandAt(run, i).claim.placementId)
    ensures !Succeeds(run, j)
    ensures Dead(WorldAt(run, j), CommandAt(run, i).claim.placementId)
  {
    var claim := CommandAt(run, i).claim;
    SuccessAt(run, i);
    if Succeeds(run, j) {
      SuccessAt(run, j);
    }
    hide Step;
    RunStep(run, i);
    ReleasedIdIsDead(run, i, claim.grainKey, claim.placementId);
    DeadStaysDead(run, i + 1, j, claim.placementId);
  }

  // ------------------------------------------------------------------------------------------
  // Leases.

  /** The commands that end a node's current lease by replacing or removing its record. */
  predicate Resets(c: Command, identity: string) {
    match c
    case CReplace(node) => node.identity == identity
    case CUnregister(id, _) => id == identity
    case CCompleteDrain(id, _) => id == identity
    case _ => false
  }

  predicate RenewsLease(w: World, ttl: int, now: int, c: Command, identity: string) {
    c.CRenewNode? && c.identity == identity && Step(w, ttl, now, c).ok
  }

  /** How one node record may evolve while it is neither replaced nor removed: the session stays, the version
      grows by one exactly on a successful renewal, the expiry never falls, an offline record does not change
      at all, and the node turns offline only when its own current lease is due. */
  ghost predicate LeaseEvolves(n: Node, n': Node, renewed: bool, expiring: bool, now: int) {
    && n'.session == n.session
    && n'.lease.ttl == n.lease.ttl
    && n'.lease.version == n.lease.version + (if renewed then 1 else 0)
    && n'.lease.expireAt >= n.lease.expireAt
    && (n.status == Offline ==> n' == n)
    && (n'.status == Offline && n.status != Offline ==> LeaseExpired(n, now) && expiring)
  }

  lemma PlacementCommandKeepsNodes(w: World, ttl: int, now: int, c: Command)
    requires !IsNodeCommand(c)
    ensures Step(w, ttl, now, c).world.nodes == w.nodes
    ensures Step(w, ttl, now, c).world.invalid == w.invalid
  {
    hide NewGrainKey, NewNodeIdentity, NodeType, NodeGroup, NodeName, Available, Candidates, Routeable, SessionUsable,
         AddIndex, DropIndex;
  }

  lemma LeaseStep(w: World, ttl: int, now: int, c: Command, identity: string)
    requires (forall id :: id in w.nodes ==> w.nodes[id].identity == id) && identity in w.nodes && !Resets(c, identity)
    ensures identity in Step(w, ttl, now, c).world.nodes
    ensures LeaseEvolves(w.nodes[identity], Step(w, ttl, now, c).world.nodes[identity],
                         RenewsLease(w, ttl, now, c, identity), c == CExpireOne(identity), now)
  {
    if !IsNodeCommand(c) {
      PlacementCommandKeepsNodes(w, ttl, now, c);
    } else {
      NodeCommandLease(w, ttl, now, c, identity);
    }
  }

  lemma NodeCommandLease(w: World, ttl: int, now: int, c: Command, identity: string)
    requires identity in w.nodes && !Resets(c, identity) && IsNodeCommand(c)
    ensures identity in Step(w, ttl, now, c).world.nodes
    ensures LeaseEvolves(w.nodes[identity], Step(w, ttl, now, c).world.nodes[identity],
                         RenewsLease(w, ttl, now, c, identity), c == CExpireOne(identity), now)
  {
    hide NewNodeIdentity, Owned, AddName, DropName;
  }

  ghost predicate NotReset(run: Run, identity: string, i: nat, j: nat)
    requires i <= j <= |run.ticks|
  {
    forall m :: i <= m < j ==> !Resets(run.ticks[m].command, identity)
  }

  function RenewalsBetween(run: Run, identity: string, i: nat, j: nat): nat
    requires i <= j <= |run.ticks|
    decreases j
  {
    if i == j then 0
    else RenewalsBetween(run, identity, i, j - 1)
         + var tick := run.ticks[j - 1];
           if RenewsLease(WorldAt(run, j - 1), tick.ttl, tick.now, tick.command, identity) then 1 else 0
  }

  /** Between replacements or removals a lease version counts the renewals, the expiry never decreases even
      though the clock may go back, and an offline session stays offline. */
  lemma {:induction false} LeaseMonotone(run: Run, identity: string, i: nat, j: nat)
    requires WellFormed(run) && i <= j <= |run.ticks| && NotReset(run, identity, i, j)
    requires identity in WorldAt(run, i).nodes
    ensures identity in WorldAt(run, j).nodes
    ensures var n, n' := WorldAt(run, i).nodes[identity], WorldAt(run, j).nodes[identity];
            && n'.session == n.session
            && n'.lease.version == n.lease.version + RenewalsBetween(run, identity, i, j)
            && n'.lease.expireAt >= n.lease.expireAt
            && (n.status == Offline ==> n' == n)
    decreases j
  {
    hide Step;
    if i < j {
      LeaseMonotone(run, identity, i, j - 1);
      RunsStayValid(run, j - 1);
      LeaseStep(WorldAt(run, j - 1), run.ticks[j - 1].ttl, run.ticks[j - 1].now, run.ticks[j - 1].command, identity);
    }
  }

  /** At this tick the node's current lease is due and an expiry of that node runs. */
  ghost predicate ExpiredAt(run: Run, identity: string, m: nat, lease: Lease)
    requires m < |run.ticks|
  {
    && Due(WorldAt(run, m), identity, run.ticks[m].now)
    && WorldAt(run, m).nodes[identity].lease == lease
    && CommandAt(run, m) == CExpireOne(identity)
  }

  /** A node that went from usable to offline had its own current lease run out at one step in between. */
  lemma {:induction false} OfflineOnlyWhenDue(run: Run, identity: string, i: nat, j: nat)
    requires WellFormed(run) && i <= j <= |run.ticks| && NotReset(run, identity, i, j)
    requires identity in WorldAt(run, i).nodes && WorldAt(run, i).nodes[identity].status != Offline
    requires identity in WorldAt(run, j).nodes && WorldAt(run, j).nodes[identity].status == Offline
    ensures exists m :: i <= m < j && ExpiredAt(run, identity, m, WorldAt(run, j).nodes[identity].lease)
    decreases j
  {
    var m := j - 1;
    LeaseMonotone(run, identity, i, m);
    RunsStayValid(run, m);
    LeaseStep(WorldAt(run, m), run.ticks[m].ttl, run.ticks[m].now, run.ticks[m].command, identity);
    if WorldAt(run, m).nodes[identity].status == Offline {
      OfflineOnlyWhenDue(run, identity, i, m);
    } else {
      assert ExpiredAt(run, identity, m, WorldAt(run, j).nodes[identity].lease);
    }
  }

  lemma {:induction false} ExpireAllIsExact(w: World, now: int, ids: seq<string>)
    requires forall i :: 0 <= i < |ids| ==> Due(w, ids[i], now)
    requires forall i, j :: 0 <= i < j < |ids| ==> ids[i] != ids[j]
    ensures var o := ExpireAll(w, now, ids);
            && o.reply == Ok(|ids|)
            && |o.events| == |ids|
            && o.world == w.(nodes := o.world.nodes)
            && o.world.nodes.Keys == w.nodes.Keys
            && forall id :: id in w.nodes ==>
                 o.world.nodes[id] == if id in ids then w.nodes[id].(status := Offline) else w.nodes[id]
    decreases |ids|
  {
    if ids != [] {
      var first := ExpireOne(w, now, ids[0]);
      assert forall i :: 1 <= i < |ids| ==> ids[i] != ids[0];
      ExpireAllIsExact(first.world, now, ids[1..]);
      assert ids == [ids[0]] + ids[1..];
    }
  }

  /** The scan list is the head, in identity order, of the due nodes of its group. */
  lemma ScanListIsTheDueHead(w: World, now: int, g: Group, limit: nat)
    ensures var list, due := ScanList(w, now, g, limit), DueIn(w, now, g);
            && |list| == Min(limit, |due|)
            && (forall i :: 0 <= i < |list| ==> list[i] in due)
            && (forall i, j :: 0 <= i < j < |list| ==> list[i] != list[j])
            && (forall id, other :: id in list && other in due && other !in list ==> StringLess(id, other))
  {
    StringLessTotal();
    HeadOfSorted(DueIn(w, now, g), Min(limit, |DueIn(w, now, g)|), StringLess);
    var due := Sorted(DueIn(w, now, g), StringLess);
    assert due[..|due|] == due;
  }

  /** A scan takes exactly min(limit, due) due nodes of its group offline, the first ones in identity order,
      reports that many, emits one event each, and leaves every other node alone. */
  lemma ScanExpiresTheDue(w: World, now: int, g: Group, limit: nat)
    requires limit > 0
    ensures var o, list := ExpireNodeLeases(w, now, g, limit), ScanList(w, now, g, limit);
            && o.reply == Ok(Min(limit, |DueIn(w, now, g)|))
            && |o.events| == Min(limit, |DueIn(w, now, g)|)
            && o.world.nodes.Keys == w.nodes.Keys
            && (forall id :: id in w.nodes ==>
                  o.world.nodes[id] == if id in list then w.nodes[id].(status := Offline) else w.nodes[id])
  {
    ScanListIsTheDueHead(w, now, g, limit);
    var list := ScanList(w, now, g, limit);
    forall i | 0 <= i < |list| ensures Due(w, list[i], now) { assert list[i] in DueIn(w, now, g); }
    ExpireAllIsExact(w, now, list);
  }

  function ExpiryTicks(ttl: int, now: int, ids: seq<string>): (r: seq<Tick>)
    ensures |r| == |ids| && forall i :: 0 <= i < |ids| ==> r[i] == Tick(ttl, now, CExpireOne(ids[i]))
  {
    seq(|ids|, i requires 0 <= i < |ids| => Tick(ttl, now, CExpireOne(ids[i])))
  }

  /** A scan is a run of single expiries at one clock reading: the run theorems hold for it. */
  lemma {:induction false} ScanIsARun(w: World, ttl: int, now: int, ids: seq<string>)
    ensures var scan, run := ExpireAll(w, now, ids), Replayed(w, ExpiryTicks(ttl, now, ids));
            scan.world == run.world && scan.events == run.events
    decreases |ids|
  {
    if ids != [] {
      var first := Step(w, ttl, now, CExpireOne(ids[0]));
      ScanIsARun(first.world, ttl, now, ids[1..]);
      assert ExpiryTicks(ttl, now, ids)[1..] == ExpiryTicks(ttl, now, ids[1..]);
    }
  }

  // ------------------------------------------------------------------------------------------
  // Draining.

  predicate Barred(w: World, identity: string) {
    NameInvalid(w, GroupOfIdentity(identity), NodeName(identity))
  }

  predicate Restores(c: Command, identity: string) {
    c.CRestore? && NewNodeIdentity(c.nodeType, c.nodeGroup, c.nodeName) == Some(identity)
  }

  ghost predicate GoodNodes(w: World) {
    forall id :: id in w.nodes ==> GoodNode(id, w.nodes[id])
  }

  lemma AvailableIsNotBarred(w: World, identity: string, now: int)
    requires identity in w.nodes && GoodNode(identity, w.nodes[identity]) && Available(w, w.nodes[identity], now)
    ensures !Barred(w, identity)
  {
  }

  /** A command that changes ownership gives a grain only to an available node or to the node it is on. */
  lemma OwnersGainOnlyWhenAvailable(w: World, ttl: int, now: int, c: Command, identity: string)
    requires GoodNodes(w) && KeyedRecords(w) && IndexAgrees(w) && !IsNodeCommand(c)
    requires Barred(w, identity)
    ensures Owned(Step(w, ttl, now, c).world.byNode, identity) <= Owned(w.byNode, identity)
  {
    hide ResolveRoute, AllocateCommit, Release, Transfer, Recover, Barred, GoodNode, IndexAgrees, KeyedRecords;
    match c
    case CResolve(t, id, pick) => ResolveGains(w, now, t, id, pick, identity);
    case CAllocate(t, id, chosen) => AllocateGains(w, now, t, id, chosen, identity);
    case CTransfer(key, id, from, to, version) => MoveGains(w, now, key, id, from, to, version, identity);
    case CRecover(key, id, to, version) => MoveGains(w, now, key, id, "", to, version, identity);
    case CRelease(claim) => ReleaseGains(w, now, claim, identity);
    case CRenew(_) =>
  }

  lemma AllocateGains(w: World, now: int, t: Target, placementId: string, chosen: Node, identity: string)
    requires GoodNodes(w) && Barred(w, identity) && KeyedRecords(w)
    ensures Owned(AllocateCommit(w, now, t, placementId, chosen).world.byNode, identity) <= Owned(w.byNode, identity)
  {
    hide NewGrainKey, NodeType, NodeGroup, NodeName, WellFormedIdentity, AddIndex, DropIndex, NameInvalid;
    forall id | id in w.nodes && Available(w, w.nodes[id], now) { AvailableIsNotBarred(w, id, now); }
    assert chosen.identity in w.nodes ==> w.nodes[chosen.identity].identity == chosen.identity;
  }

  lemma MoveGains(w: World, now: int, key: string, placementId: string, from: string, to: string, version: int,
      identity: string)
    requires GoodNodes(w) && Barred(w, identity)
    ensures Owned(Transfer(w, now, key, placementId, from, to, version).world.byNode, identity)
            <= Owned(w.byNode, identity)
    ensures Owned(Recover(w, now, key, placementId, to, version).world.byNode, identity) <= Owned(w.byNode, identity)
  {
    hide NodeType, NodeGroup, NodeName, WellFormedIdentity, AddIndex, DropIndex, NameInvalid;
    if to in w.nodes && Available(w, w.nodes[to], now) { AvailableIsNotBarred(w, to, now); }
    assert to in w.nodes ==> w.nodes[to].identity == to;
  }

  lemma ReleaseGains(w: World, now: int, c: Claim, identity: string)
    ensures Owned(Release(w, now, c).world.byNode, identity) <= Owned(w.byNode, identity)
  {
    hide DropIndex;
  }

  lemma ResolveGains(w: World, now: int, t: Target, placementId: string, pick: Option<Node>, identity: string)
    requires GoodNodes(w) && KeyedRecords(w) && IndexAgrees(w)
    requires Barred(w, identity)
    ensures Owned(ResolveRoute(w, now, t, placementId, pick).world.byNode, identity) <= Owned(w.byNode, identity)
  {
    hide NewGrainKey, NewNodeIdentity, NodeType, NodeGroup, NodeName, WellFormedIdentity, AddIndex, DropIndex,
         NameInvalid;
    forall id | id in w.nodes && Available(w, w.nodes[id], now) { AvailableIsNotBarred(w, id, now); }
  }

  lemma RestoreOfOther(w: World, c: Command, identity: string)
    requires c.CRestore? && !Restores(c, identity) && WellFormedIdentity(identity) && Barred(w, identity)
    ensures Barred(RestoreNode(w, c.nodeType, c.nodeGroup, c.nodeName).world, identity)
  {
    IdentityFromParts(identity);
    var named := NewNodeIdentity(c.nodeType, c.nodeGroup, c.nodeName);
    if named.Some? {
      assert named.value != identity;
      assert named.value == c.nodeType + "/" + c.nodeGroup + "/" + c.nodeName;
      assert Group(c.nodeType, c.nodeGroup) != GroupOfIdentity(identity) || c.nodeName != NodeName(identity);
      hide NodeType, NodeGroup, NodeName, NewNodeIdentity, WellFormedIdentity;
      DroppingAnotherName(w.invalid, Group(c.nodeType, c.nodeGroup), c.nodeName, GroupOfIdentity(identity),
          NodeName(identity));
    }
  }

  lemma DroppingAnotherName(invalid: map<Group, set<string>>, g: Group, name: string, g': Group, name': string)
    requires g != g' || name != name'
    requires g' in invalid && name' in invalid[g']
    ensures var r := DropName(invalid, g, name); g' in r && name' in r[g']
  {
  }

  lemma NodeCommandKeepsBar(w: World, ttl: int, now: int, c: Command, identity: string)
    requires IsNodeCommand(c) && !c.CRestore? && Barred(w, identity)
    ensures Barred(Step(w, ttl, now, c).world, identity)
  {
    hide NewNodeIdentity, NodeType, NodeGroup, NodeName, Owned, LeaseExpired;
  }

  /** While an identity is barred it stays barred until restored, and it never gains a grain: not by session
      replacement, re-registration, allocation, resolution, transfer or recovery. */
  lemma DrainStep(w: World, ttl: int, now: int, c: Command, identity: string)
    requires Valid(w) && WellFormedIdentity(identity)
    requires Barred(w, identity) && !Restores(c, identity)
    ensures Barred(Step(w, ttl, now, c).world, identity)
    ensures Owned(Step(w, ttl, now, c).world.byNode, identity) <= Owned(w.byNode, identity)
  {
    if IsNodeCommand(c) {
      NodeCommandChange(w, ttl, now, c);
      if c.CRestore? {
        RestoreOfOther(w, c, identity);
      } else {
        NodeCommandKeepsBar(w, ttl, now, c, identity);
      }
    } else {
      ValidRecordsAreKeyed(w);
      PlacementCommandKeepsNodes(w, ttl, now, c);
      OwnersGainOnlyWhenAvailable(w, ttl, now, c, identity);
    }
  }

  ghost predicate NotRestored(run: Run, identity: string, i: nat, j: nat)
    requires i <= j <= |run.ticks|
  {
    forall m :: i <= m < j ==> !Restores(run.ticks[m].command, identity)
  }

  lemma {:induction false} DrainMonotone(run: Run, identity: string, i: nat, j: nat)
    requires WellFormed(run) && i <= j <= |run.ticks| && WellFormedIdentity(identity)
    requires Barred(WorldAt(run, i), identity) && NotRestored(run, identity, i, j)
    ensures Barred(WorldAt(run, j), identity)
    ensures Owned(WorldAt(run, j).byNode, identity) <= Owned(WorldAt(run, i).byNode, identity)
    decreases j
  {
    if i < j {
      DrainMonotone(run, identity, i, j - 1);
      RunsStayValid(run, j - 1);
      DrainStep(WorldAt(run, j - 1), run.ticks[j - 1].ttl, run.ticks[j - 1].now, run.ticks[j - 1].command, identity);
    }
  }

  lemma DrainCompletes(w: World, ttl: int, now: int, identity: string, session: string)
    requires Valid(w) && Step(w, ttl, now, CCompleteDrain(identity, session)).ok
    ensures WellFormedIdentity(identity)
    ensures Owned(Step(w, ttl, now, CCompleteDrain(identity, session)).world.byNode, identity) == {}
  {
    assert GoodNode(identity, w.nodes[identity]);
  }

  /** A marked identity that completes its drain owns nothing from then on, until it is restored. */
  lemma DrainIsComplete(run: Run, identity: string, i: nat, m: nat, j: nat)
    requires WellFormed(run) && i <= m < j <= |run.ticks|
    requires Barred(WorldAt(run, i), identity) && NotRestored(run, identity, i, j)
    requires run.ticks[m].command.CCompleteDrain? && run.ticks[m].command.identity == identity && Succeeds(run, m)
    ensures forall k :: k in WorldAt(run, j).placements ==> WorldAt(run, j).placements[k].nodeIdentity != identity
  {
    RunsStayValid(run, m);
    RunsStayValid(run, j);
    DrainCompletes(WorldAt(run, m), run.ticks[m].ttl, run.ticks[m].now, identity, run.ticks[m].command.session);
    hide Step, WellFormedIdentity, GoodPlacement, GoodNode, Barred;
    DrainMonotone(run, identity, i, m + 1);
    DrainMonotone(run, identity, m + 1, j);
    forall k | k in WorldAt(run, j).placements
      ensures WorldAt(run, j).placements[k].nodeIdentity != identity
    {
      assert k !in Owned(WorldAt(run, j).byNode, identity);
    }
  }

  // ------------------------------------------------------------------------------------------
  // Route resolution and allocation.

  predicate OwnerUsable(w: World, p: Placement, now: int) {
    p.nodeIdentity in w.nodes && SessionUsable(w.nodes[p.nodeIdentity], now)
  }

  /** Resolving an existing grain moves it to another node exactly when the target group is the owner's, the
      owner is unusable and marked invalid, and the strategy's pick is an available node. */
  lemma ResolveMovesOnlyFromBarredOwner(w: World, now: int, t: Target, placementId: string, pick: Option<Node>,
      key: string)
    requires Valid(w) && TargetNamed(t) && NewGrainKey(t.kind, t.grainId) == Some(key) && key in w.placements
    ensures var p := w.placements[key];
            var o := ResolveRoute(w, now, t, placementId, pick);
            && key in o.world.placements
            && (o.world.placements[key].nodeIdentity != p.nodeIdentity <==>
                  && GroupOfIdentity(p.nodeIdentity) == t.GroupOf()
                  && !OwnerUsable(w, p, now)
                  && Barred(w, p.nodeIdentity)
                  && ChooseTarget(w, now, t.GroupOf(), pick).Ok?)
            && (o.world.placements[key] != p ==>
                  && GroupOfIdentity(o.world.placements[key].nodeIdentity) == t.GroupOf()
                  && o.world.placements[key].placementId == p.placementId
                  && o.world.placements[key].version == p.version + 1
                  && Routeable(o.world, o.world.placements[key], now))
            && (o.world.placements[key].nodeIdentity == p.nodeIdentity && o.world.placements[key] != p <==>
                  && GroupOfIdentity(p.nodeIdentity) == t.GroupOf()
                  && OwnerUsable(w, p, now)
                  && w.nodes[p.nodeIdentity].session != p.ownerSession)
  {
    hide NewNodeIdentity, NewGrainKey, AddIndex, DropIndex, IndexAgrees, NoEmptySet;
  }

  /** What a successful resolution leaves behind: a usable route inside the requested group. */
  ghost predicate Settled(w: World, now: int, t: Target, key: string, r: Route) {
    && key in w.placements
    && w.placements[key].status == PlacementActive
    && GroupOfIdentity(w.placements[key].nodeIdentity) == t.GroupOf()
    && Routeable(w, w.placements[key], now)
    && r == RouteOf(w.placements[key], w.nodes[w.placements[key].nodeIdentity])
  }

  lemma ResolveSettles(w: World, now: int, t: Target, placementId: string, pick: Option<Node>, key: string)
    requires GoodNodes(w) && KeyedRecords(w) && NewGrainKey(t.kind, t.grainId) == Some(key)
    requires ResolveRoute(w, now, t, placementId, pick).reply.Ok?
    ensures var o := ResolveRoute(w, now, t, placementId, pick);
            Settled(o.world, now, t, key, o.reply.value)
  {
    hide NewGrainKey, NewNodeIdentity, NodeType, NodeGroup, NodeName, WellFormedIdentity, AddIndex, DropIndex,
         NameInvalid;
  }

  /** A successful resolution is stable: at the same clock a second one, with any fresh ID and any pick,
      answers the same route and changes nothing; and so does a lookup. */
  lemma ResolveIsStable(w: World, now: int, t: Target, placementId: string, pick: Option<Node>,
                        placementId': string, pick': Option<Node>)
    requires Valid(w)
    requires ResolveRoute(w, now, t, placementId, pick).reply.Ok?
    ensures var o := ResolveRoute(w, now, t, placementId, pick);
            && ResolveRoute(o.world, now, t, placementId', pick') == Reply(o.world, o.reply.value)
            && Lookup(o.world, now, NewGrainKey(t.kind, t.grainId).value) == Ok(o.reply.value)
  {
    ValidRecordsAreKeyed(w);
    var key := NewGrainKey(t.kind, t.grainId).value;
    var o := ResolveRoute(w, now, t, placementId, pick);
    ResolveSettles(w, now, t, placementId, pick, key);
    SettledIsFixed(o.world, now, t, key, o.reply.value, placementId', pick');
  }

  lemma SettledIsFixed(w: World, now: int, t: Target, key: string, r: Route, placementId: string, pick: Option<Node>)
    requires TargetNamed(t) && NewGrainKey(t.kind, t.grainId) == Some(key) && Settled(w, now, t, key, r)
    ensures ResolveRoute(w, now, t, placementId, pick) == Reply(w, r)
    ensures Lookup(w, now, key) == Ok(r)
  {
    hide NewGrainKey, NewNodeIdentity, NodeType, NodeGroup, NodeName;
  }

  /** A committed allocation: whatever node the strategy answered, and whatever happened since it looked, the
      new owner is registered, active, unexpired and not invalid in the requested group on the chosen session
      at commit; and a grain that has a placement keeps exactly that placement. */
  lemma AllocateCommitsOnlyToAvailable(w: World, now: int, t: Target, placementId: string, chosen: Node, key: string)
    requires Valid(w) && NewGrainKey(t.kind, t.grainId) == Some(key)
    ensures var o := AllocateCommit(w, now, t, placementId, chosen);
            && (key in w.placements ==> o.world == w)
            && (o.world != w ==>
                  && key !in w.placements && key in o.world.placements
                  && var p := o.world.placements[key];
                     && p.nodeIdentity in o.world.nodes
                     && p.ownerSession == chosen.session == o.world.nodes[p.nodeIdentity].session
                     && GroupOfIdentity(p.nodeIdentity) == t.GroupOf()
                     && Available(o.world, o.world.nodes[p.nodeIdentity], now)
                     && !Barred(o.world, p.nodeIdentity)
                     && Routeable(o.world, p, now)
                     && p.placementId == placementId)
            && (o.reply.Ok? <==> key in o.world.placements && Routeable(o.world, o.world.placements[key], now))
  {
  }

  // ------------------------------------------------------------------------------------------
  // Ownership commands.

  predicate ClaimMatches(w: World, c: Claim) {
    && c.grainKey in w.placements
    && var p := w.placements[c.grainKey];
       p.nodeIdentity == c.nodeIdentity && p.placementId == c.placementId && p.version == c.version
           && p.ownerSession == c.session
  }

  /** A placement is renewed exactly for its current owner while a lookup would route to it, and nothing changes. */
  lemma RenewExactlyWhileRouteable(w: World, now: int, c: Claim)
    requires Valid(w)
    ensures var o := Renew(w, now, c);
            && o.world == w
            && (o.reply.Ok? <==> ClaimMatches(w, c) && Lookup(w, now, c.grainKey).Ok?)
            && (o.reply.Ok? ==> o.reply.value == w.placements[c.grainKey])
  {
    hide WellFormedIdentity, NodeType, NodeGroup, NodeName, IndexAgrees, NoEmptySet;
  }

  /** A release needs the current owner's session to be registered, not its lease to be alive; afterwards no route,
      record or index entry of the grain is left. */
  lemma ReleaseExactlyByRegisteredOwner(w: World, now: int, c: Claim)
    requires Valid(w)
    ensures var o := Release(w, now, c);
            && (o.reply.Ok? <==>
                  && ClaimMatches(w, c) && c.nodeIdentity in w.nodes && w.nodes[c.nodeIdentity].session == c.session)
            && (o.reply.Ok? ==> && c.grainKey !in o.world.placements && Lookup(o.world, now, c.grainKey).Err?
                                && forall n :: c.grainKey !in Owned(o.world.byNode, n))
            && (o.reply.Err? ==> o.world == w)
  {
    ReleaseKeepsValid(w, now, c);
    hide WellFormedIdentity, NodeType, NodeGroup, NodeName, NoEmptySet, GoodNode, DropIndex;
  }

  /** Where a grain is after a transfer or recovery to a node. */
  ghost predicate MovedTo(w: World, w': World, now: int, key: string, to: string) {
    && key in w.placements && key in w'.placements && to in w.nodes
    && var p, p' := w.placements[key], w'.placements[key];
       && p' == p.(nodeIdentity := to, ownerSession := w.nodes[to].session, version := p.version + 1, updateTime := now)
       && Available(w, w.nodes[to], now) && !Barred(w', to)
       && Lookup(w', now, key) == Ok(RouteOf(p', w.nodes[to]))
       && (forall n :: key in Owned(w'.byNode, n) <==> n == to)
  }

  /** A transfer succeeds exactly for the current ID, version and (if named) owner and an available target, which
      then is the one owner a lookup answers. The old owner need not be unusable. */
  lemma TransferMovesToAvailable(w: World, now: int, key: string, placementId: string, from: string, to: string,
      version: int)
    requires Valid(w)
    ensures var o := Transfer(w, now, key, placementId, from, to, version);
            && (o.reply.Ok? <==> && HoldsId(w, key, placementId) && w.placements[key].version == version
                                 && (from == "" || w.placements[key].nodeIdentity == from)
                                 && to in w.nodes && Available(w, w.nodes[to], now))
            && (o.reply.Ok? ==> MovedTo(w, o.world, now, key, to))
            && (o.reply.Err? ==> o.world == w)
  {
    if key in w.placements && to in w.nodes { MoveLands(w, now, key, to); }
    hide Valid, MovedTo, Move, Available;
    assert key in w.placements ==> w.placements[key].status == PlacementActive by { ActiveRecords(w); }
  }

  /** A recovery also needs the current owner not to be routeable. */
  lemma RecoverMovesOnlyUnroutable(w: World, now: int, key: string, placementId: string, to: string, version: int)
    requires Valid(w)
    ensures var o := Recover(w, now, key, placementId, to, version);
            && (o.reply.Ok? <==> && HoldsId(w, key, placementId) && w.placements[key].version == version
                                 && Lookup(w, now, key).Err?
                                 && to in w.nodes && Available(w, w.nodes[to], now))
            && (o.reply.Ok? ==> MovedTo(w, o.world, now, key, to))
            && (o.reply.Err? ==> o.world == w)
  {
    if key in w.placements && to in w.nodes { MoveLands(w, now, key, to); }
    hide Valid, MovedTo, Move, Available, Routeable;
    assert key in w.placements ==> w.placements[key].status == PlacementActive by { ActiveRecords(w); }
  }

  lemma ActiveRecords(w: World)
    requires Valid(w)
    ensures KeyedRecords(w)
  {
    ValidRecordsAreKeyed(w);
  }

  lemma MoveLands(w: World, now: int, key: string, to: string)
    requires Valid(w) && key in w.placements && to in w.nodes
    ensures Available(w, w.nodes[to], now) ==> MovedTo(w, Move(w, w.placements[key], w.nodes[to], now), now, key, to)
  {
    MoveKeepsValid(w, key, w.nodes[to], now);
    if Available(w, w.nodes[to], now) { AvailableIsNotBarred(w, to, now); }
    hide WellFormedIdentity, NodeType, NodeGroup, NodeName, NoEmptySet, AddIndex, DropIndex;
  }
}
