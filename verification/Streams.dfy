/** The event stream: publishing, consumer groups, trimming, the hand-over from one session's group to the next, and
    closing. Entries are numbered from 0 in publication order; the stream keeps those from first on. */
module Streams {
  import opened Types

  /** A consumer group: the next entry to deliver and the entries delivered but not acknowledged. The history of its
      lineage is kept beside it: where the lineage began and which entries it has acknowledged, its predecessors
      included. */
  datatype Consumer = Consumer(next: nat, pending: set<nat>, origin: nat, done: set<nat>)

  datatype StreamState = StreamState(live: bool, log: seq<Event>, first: nat, groups: map<string, Consumer>)

  const NO_STREAM := StreamState(false, [], 0, map[])

  /** One line of XINFO GROUPS. A field that is not a number is None. */
  datatype Info = Info(name: string, pending: Option<int>, lag: Option<int>)

  /** Redis lists every group once, with its pending count and, when it knows it, its lag. */
  ghost predicate Honest(s: StreamState, infos: seq<Info>) {
    && (forall i :: 0 <= i < |infos| ==> infos[i].name in s.groups && Describes(s, infos[i]))
    && (forall g :: g in s.groups ==> exists i :: 0 <= i < |infos| && infos[i].name == g)
    && (forall i, j :: 0 <= i < j < |infos| ==> infos[i].name != infos[j].name)
  }

  predicate Describes(s: StreamState, info: Info)
    requires info.name in s.groups
  {
    && (info.pending.Some? ==> info.pending.value == |s.groups[info.name].pending|)
    && (info.lag.Some? ==> info.lag.value == |s.log| - s.groups[info.name].next)
  }

  predicate Idle(info: Info) {
    info.pending == Some(0) && info.lag == Some(0)
  }

  ghost predicate AllIdle(infos: seq<Info>) {
    forall i :: 0 <= i < |infos| ==> Idle(infos[i])
  }

  // ------------------------------------------------------------------------------------------
  // Steps.

  function Published(s: StreamState, e: Event): StreamState {
    s.(live := true, log := s.log + [e])
  }

  /** XGROUP CREATE ... $ MKSTREAM; an existing group is left alone. */
  function Ensured(s: StreamState, g: string): StreamState {
    if g in s.groups then s else s.(live := true, groups := s.groups[g := Consumer(|s.log|, {}, |s.log|, {})])
  }

  /** The entry numbers of a range. */
  function Span(lo: nat, hi: nat): (r: set<nat>)
    ensures forall i: nat :: i in r <==> lo <= i < hi
  {
    if hi <= lo then {} else Span(lo, hi - 1) + {hi - 1}
  }

  /** XREADGROUP > : up to count entries become pending. */
  function Delivered(s: StreamState, g: string, count: nat): StreamState
    requires g in s.groups && s.groups[g].next <= |s.log|
  {
    var c := s.groups[g];
    var next := Min(c.next + count, |s.log|);
    s.(groups := s.groups[g := c.(next := next, pending := c.pending + Span(c.next, next))])
  }

  function Entries(lo: nat, hi: nat): (r: seq<nat>)
    requires lo <= hi
    ensures |r| == hi - lo && forall i :: 0 <= i < |r| ==> r[i] == lo + i
  {
    seq(hi - lo, i requires 0 <= i => lo + i)
  }

  function Acked(s: StreamState, g: string, i: nat): StreamState
    requires g in s.groups && i in s.groups[g].pending
  {
    var c := s.groups[g];
    s.(groups := s.groups[g := c.(pending := c.pending - {i}, done := c.done + {i})])
  }

  /** trim.lua. */
  ghost function Trimmed(s: StreamState, infos: seq<Info>, maxLen: nat): StreamState {
    if s.live && AllIdle(infos) then s.(first := Max(s.first, |s.log| - maxLen)) else s
  }

  lemma FirstIsPublished(s: StreamState)
    ensures Sound(s) ==> s.first <= |s.log| && (!s.live ==> s.log == [])
  {
  }

  datatype Verdict = Done | StillPending | NoGroup

  /** The group's line reports nothing pending and nothing left to read. */
  ghost predicate ReportedIdle(infos: seq<Info>, g: string) {
    exists i :: 0 <= i < |infos| && infos[i] == Info(g, Some(0), Some(0))
  }

  lemma IdleIsReported(infos: seq<Info>, g: string)
    ensures ReportedIdle(infos, g) <==> NamesIdle(infos, g)
  {
    if NamesIdle(infos, g) {
      var i :| 0 <= i < |infos| && infos[i].name == g && Idle(infos[i]);
      assert infos[i] == Info(g, Some(0), Some(0));
    }
  }

  ghost predicate NamesIdle(infos: seq<Info>, g: string) {
    exists i :: 0 <= i < |infos| && infos[i].name == g && Idle(infos[i])
  }

  /** replace_consumer.lua: what the new group starts with and whose history it continues. */
  function HandedOver(s: StreamState, oldGroup: string, newGroup: string): StreamState
    requires oldGroup in s.groups
  {
    var o := s.groups[oldGroup];
    var n := if newGroup in s.groups then
               var c := s.groups[newGroup];
               c.(origin := Min(c.origin, o.origin), done := c.done + o.done)
             else
               Consumer(|s.log|, {}, o.origin, o.done);
    s.(groups := s.groups[newGroup := n] - {oldGroup})
  }

  ghost function Replaced(s: StreamState, infos: seq<Info>, oldGroup: string, newGroup: string): (StreamState,
      Verdict) {
    if oldGroup !in s.groups then (s, if newGroup in s.groups then Done else NoGroup)
    else if !NamesIdle(infos, oldGroup) then (s, StillPending)
    else (HandedOver(s, oldGroup, newGroup), Done)
  }

  /** close_idle_group.lua. */
  ghost function Closed(s: StreamState, infos: seq<Info>, g: string): (StreamState, Verdict) {
    if !s.live || g !in s.groups then (s, Done)
    else if !NamesIdle(infos, g) then (s, StillPending)
    else (s.(groups := s.groups - {g}), Done)
  }

  datatype Action =
    | Publish(event: Event)
    | Ensure(group: string)
    | Deliver(group: string, count: nat)
    | Ack(group: string, entry: nat)
    | Trim(infos: seq<Info>, maxLen: nat)
    | Replace(infos: seq<Info>, oldGroup: string, newGroup: string)
    | Close(infos: seq<Info>, group: string)

  ghost predicate Allowed(s: StreamState, a: Action) {
    match a
    case Publish(_) => true
    case Ensure(_) => true
    case Deliver(g, _) => g in s.groups
    case Ack(g, i) => g in s.groups && i in s.groups[g].pending
    case Trim(infos, _) => Honest(s, infos)
    case Replace(infos, oldGroup, newGroup) => Honest(s, infos) && oldGroup != newGroup
    case Close(infos, _) => Honest(s, infos)
  }

  ghost function Next(s: StreamState, a: Action): StreamState
    requires Sound(s) && Allowed(s, a)
  {
    match a
    case Publish(e) => Published(s, e)
    case Ensure(g) => Ensured(s, g)
    case Deliver(g, n) => Delivered(s, g, n)
    case Ack(g, i) => Acked(s, g, i)
    case Trim(infos, n) => Trimmed(s, infos, n)
    case Replace(infos, oldGroup, newGroup) => Replaced(s, infos, oldGroup, newGroup).0
    case Close(infos, g) => Closed(s, infos, g).0
  }

  // ------------------------------------------------------------------------------------------
  // No lost events.

  /** Every entry since a lineage began was acknowledged by it, or is still kept and will reach its group: it is
      pending there or not yet delivered. */
  ghost predicate MissesNothing(s: StreamState, c: Consumer) {
    forall i: nat :: c.origin <= i < |s.log| ==> i in c.done || (s.first <= i && (i in c.pending || c.next <= i))
  }

  predicate InRange(s: StreamState, c: Consumer) {
    && s.first <= c.next <= |s.log|
    && (forall i :: i in c.pending ==> s.first <= i < c.next)
    && (forall i :: i in c.done ==> i < |s.log|)
  }

  ghost predicate Sound(s: StreamState) {
    && s.first <= |s.log|
    && (!s.live ==> s.log == [] && s.groups == map[])
    && forall g :: g in s.groups ==> InRange(s, s.groups[g]) && MissesNothing(s, s.groups[g])
  }

  lemma IdleIsCaughtUp(s: StreamState, infos: seq<Info>, g: string)
    requires Sound(s) && Honest(s, infos) && g in s.groups && (AllIdle(infos) || NamesIdle(infos, g))
    ensures s.groups[g].pending == {} && s.groups[g].next == |s.log|
    ensures forall i: nat :: s.groups[g].origin <= i < |s.log| ==> i in s.groups[g].done
  {
    var i :| 0 <= i < |infos| && infos[i].name == g && Idle(infos[i]);
    assert Describes(s, infos[i]);
    assert MissesNothing(s, s.groups[g]);
  }

  /** An entry is trimmed only after every group acknowledged it, as far back as its lineage reaches. */
  lemma TrimmedOnlyWhenAcknowledged(s: StreamState, infos: seq<Info>, maxLen: nat, g: string, i: nat)
    requires Sound(s) && Honest(s, infos) && g in s.groups
    requires s.first <= i < Trimmed(s, infos, maxLen).first
    ensures s.groups[g].origin <= i ==> i in s.groups[g].done
    ensures i !in s.groups[g].pending && i < s.groups[g].next
  {
    IdleIsCaughtUp(s, infos, g);
  }

  lemma TrimKeepsSound(s: StreamState, infos: seq<Info>, maxLen: nat)
    requires Sound(s) && Honest(s, infos)
    ensures Sound(Trimmed(s, infos, maxLen))
  {
    var s' := Trimmed(s, infos, maxLen);
    forall g | g in s.groups
      ensures InRange(s', s.groups[g]) && MissesNothing(s', s.groups[g])
    {
      if AllIdle(infos) { IdleIsCaughtUp(s, infos, g); }
      assert InRange(s, s.groups[g]) && MissesNothing(s, s.groups[g]);
    }
  }

  lemma HandOverKeepsSound(s: StreamState, infos: seq<Info>, oldGroup: string, newGroup: string)
    requires Sound(s) && Honest(s, infos) && oldGroup != newGroup
    ensures Sound(Replaced(s, infos, oldGroup, newGroup).0)
  {
    if oldGroup in s.groups && NamesIdle(infos, oldGroup) {
      IdleIsCaughtUp(s, infos, oldGroup);
      var s' := HandedOver(s, oldGroup, newGroup);
      var o := s.groups[oldGroup];
      assert InRange(s, o);
      if newGroup in s.groups { assert InRange(s, s.groups[newGroup]) && MissesNothing(s, s.groups[newGroup]); }
      assert InRange(s', s'.groups[newGroup]) && MissesNothing(s', s'.groups[newGroup]);
      forall g | g in s'.groups && g != newGroup
        ensures InRange(s', s'.groups[g]) && MissesNothing(s', s'.groups[g])
      {
        assert InRange(s, s.groups[g]) && MissesNothing(s, s.groups[g]);
      }
    }
  }

  lemma GroupStepKeepsSound(s: StreamState, a: Action)
    requires Sound(s) && Allowed(s, a) && !a.Trim? && !a.Replace?
    ensures Sound(Next(s, a))
  {
    var s' := Next(s, a);
    forall g | g in s'.groups
      ensures InRange(s', s'.groups[g]) && MissesNothing(s', s'.groups[g])
    {
      if g in s.groups { assert InRange(s, s.groups[g]) && MissesNothing(s, s.groups[g]); }
    }
  }

  /** Every action keeps the promise that no lineage misses an entry. */
  lemma ActionsKeepSound(s: StreamState, a: Action)
    requires Sound(s) && Allowed(s, a)
    ensures Sound(Next(s, a))
  {
    match a
    case Trim(infos, n) => TrimKeepsSound(s, infos, n);
    case Replace(infos, oldGroup, newGroup) => HandOverKeepsSound(s, infos, oldGroup, newGroup);
    case _ => GroupStepKeepsSound(s, a);
  }

  /** A lineage after an action: in the same group or in the group it was handed to, no younger, and with every
      acknowledgement it had; or closed, and then with every entry since it began acknowledged. */
  ghost predicate Continues(s: StreamState, a: Action, g: string, s': StreamState)
    requires g in s.groups
  {
    || (g in s'.groups && Carries(s.groups[g], s'.groups[g]))
    || (a.Replace? && a.oldGroup == g && a.newGroup in s'.groups && Carries(s.groups[g], s'.groups[a.newGroup]))
    || (a.Close? && a.group == g && forall i: nat :: s.groups[g].origin <= i < |s.log| ==> i in s.groups[g].done)
  }

  predicate Carries(c: Consumer, c': Consumer) {
    c'.origin <= c.origin && c.done <= c'.done
  }

  /** No lineage disappears with an entry unacknowledged: not by trimming, replacing or closing. */
  lemma LineagesContinue(s: StreamState, a: Action, g: string)
    requires Sound(s) && Allowed(s, a) && g in s.groups
    ensures Continues(s, a, g, Next(s, a))
  {
    if a.Close? && a.group == g && NamesIdle(a.infos, g) { IdleIsCaughtUp(s, a.infos, g); }
  }

  ghost predicate Follows(states: seq<StreamState>, actions: seq<Action>) {
    && |states| == |actions| + 1 && states[0] == NO_STREAM
    && forall i :: 0 <= i < |actions| ==> Sound(states[i]) ==>
          Allowed(states[i], actions[i]) && states[i + 1] == Next(states[i], actions[i])
  }

  /** In every run, at every moment: a group's lineage has acknowledged each entry published since it began, or the
      stream still keeps that entry and the group will read it. */
  lemma {:induction false} NoEventIsLost(states: seq<StreamState>, actions: seq<Action>, n: nat)
    requires Follows(states, actions) && n < |states|
    ensures Sound(states[n])
    ensures forall g, i: nat :: g in states[n].groups && states[n].groups[g].origin <= i < |states[n].log| ==>
              || i in states[n].groups[g].done
              || (states[n].first <= i && (i in states[n].groups[g].pending || states[n].groups[g].next <= i))
    decreases n
  {
    if n > 0 {
      NoEventIsLost(states, actions, n - 1);
      ActionsKeepSound(states[n - 1], actions[n - 1]);
    }
    forall g | g in states[n].groups ensures MissesNothing(states[n], states[n].groups[g]) { }
  }

  // ------------------------------------------------------------------------------------------
  // The scripts and the commands of a consumer.

  const EVENT_READ_BATCH_SIZE := 10

  class Stream {
    var live: bool
    var log: seq<Event>
    var first: nat
    var groups: map<string, Consumer>

    ghost function State(): StreamState
      reads this
    {
      StreamState(live, log, first, groups)
    }

    ghost predicate Valid()
      reads this
    {
      Sound(State())
    }

    constructor ()
      ensures Valid() && State() == NO_STREAM
    {
      live, log, first, groups := false, [], 0, map[];
    }

    /** Scans the groups and trims only when each of them is caught up. */
    method TrimStream(infos: seq<Info>, maxLen: nat)
      requires Valid() && Honest(State(), infos)
      modifies this`first
      ensures Valid() && State() == Trimmed(old(State()), infos, maxLen)
      ensures var idle := forall i :: 0 <= i < |infos| ==> infos[i].pending == Some(0) && infos[i].lag == Some(0);
              |log| - first == if live && idle then Min(|log| - old(first), maxLen) else |log| - old(first)
    {
      TrimKeepsSound(State(), infos, maxLen);
      FirstIsPublished(State());
      hide Sound;
      if !live { return; }
      for i := 0 to |infos|
        invariant AllIdle(infos[..i])
      {
        assert infos[..i + 1] == infos[..i] + [infos[i]];
        if infos[i].pending.None? || infos[i].pending.value > 0 {
          assert Describes(State(), infos[i]) && !Idle(infos[i]);
          return;
        }
        if infos[i].lag.None? || infos[i].lag.value != 0 {
          assert !Idle(infos[i]);
          return;
        }
        assert Describes(State(), infos[i]);
      }
      assert infos[..|infos|] == infos;
      if |log| - maxLen > first { first := |log| - maxLen; }
    }

    /** Scans for the old and the new group, then creates the new one and destroys the old one. The history of the
        old group's lineage goes on in the new one. */
    method ReplaceConsumer(infos: seq<Info>, oldGroup: string, newGroup: string) returns (v: Verdict)
      requires Valid() && Honest(State(), infos) && oldGroup != newGroup
      modifies this`groups
      ensures Valid() && (State(), v) == Replaced(old(State()), infos, oldGroup, newGroup)
      ensures v == NoGroup <==> oldGroup !in old(groups) && newGroup !in old(groups)
      ensures v == StillPending <==> oldGroup in old(groups) && !ReportedIdle(infos, oldGroup)
      ensures v == Done ==> newGroup in groups && oldGroup !in groups
      ensures v != Done ==> groups == old(groups)
      ensures forall g :: g != oldGroup && g != newGroup ==>
                (g in groups <==> g in old(groups)) && (g in groups ==> groups[g] == old(groups)[g])
      ensures v == Done && newGroup !in old(groups) ==>
                groups[newGroup].next == |log| && groups[newGroup].pending == {}
      ensures v == Done && newGroup in old(groups) ==>
                && groups[newGroup].next == old(groups)[newGroup].next
                && groups[newGroup].pending == old(groups)[newGroup].pending
    {
      HandOverKeepsSound(State(), infos, oldGroup, newGroup);
      IdleIsReported(infos, oldGroup);
      hide Sound, ReportedIdle;
      var oldFound, newFound, idle := FindGroups(infos, oldGroup, newGroup);
      if !idle { return StillPending; }
      if !oldFound { return if newFound then Done else NoGroup; }
      var o := groups[oldGroup];
      if !newFound { groups := groups[newGroup := Consumer(|log|, {}, o.origin, o.done)]; }
      else {
        var n := groups[newGroup];
        groups := groups[newGroup := n.(origin := Min(n.origin, o.origin), done := n.done + o.done)];
      }
      groups := groups - {oldGroup};
      return Done;
    }

    /** The scan of replace_consumer.lua: which groups exist, and whether an existing old one is idle. */
    method FindGroups(infos: seq<Info>, oldGroup: string, newGroup: string) returns (oldFound: bool, newFound: bool,
        idle: bool)
      requires Honest(State(), infos) && oldGroup != newGroup
      ensures idle <==> (oldGroup in groups ==> NamesIdle(infos, oldGroup))
      ensures idle ==> (oldFound <==> oldGroup in groups) && (newFound <==> newGroup in groups)
    {
      oldFound, newFound, idle := false, false, true;
      for i := 0 to |infos|
        invariant idle
        invariant oldFound <==> exists j :: 0 <= j < i && infos[j].name == oldGroup
        invariant newFound <==> exists j :: 0 <= j < i && infos[j].name == newGroup
        invariant oldFound ==> NamesIdle(infos, oldGroup)
      {
        if infos[i].name == oldGroup {
          oldFound := true;
          if infos[i].pending.None? || infos[i].pending.value != 0 || infos[i].lag.None? || infos[i].lag.value != 0 {
            OneLineEach(infos, i);
            return oldFound, newFound, false;
          }
          assert Idle(infos[i]);
        } else if infos[i].name == newGroup {
          newFound := true;
        }
      }
    }

    /** Destroys a group only when it is idle. */
    method CloseIdleGroup(infos: seq<Info>, g: string) returns (v: Verdict)
      requires Valid() && Honest(State(), infos)
      modifies this`groups
      ensures Valid() && (State(), v) == Closed(old(State()), infos, g)
      ensures v in {Done, StillPending} && (v == Done <==> g !in groups)
      ensures v == StillPending <==> live && g in old(groups) && !ReportedIdle(infos, g)
      ensures forall h :: h != g ==>
                (h in groups <==> h in old(groups)) && (h in groups ==> groups[h] == old(groups)[h])
    {
      ActionsKeepSound(State(), Close(infos, g));
      IdleIsReported(infos, g);
      hide ReportedIdle;
      if !live { return Done; }
      for i := 0 to |infos|
        invariant forall j :: 0 <= j < i ==> infos[j].name != g
      {
        if infos[i].name == g {
          if infos[i].pending != Some(0) || infos[i].lag != Some(0) {
            OneLineEach(infos, i);
            return StillPending;
          }
          assert Idle(infos[i]);
          groups := groups - {g};
          return Done;
        }
      }
      return Done;
    }

    method Publish(e: Event)
      requires Valid()
      modifies this`live, this`log
      ensures Valid() && State() == Published(old(State()), e)
      ensures live && log == old(log) + [e]
    {
      ActionsKeepSound(State(), Action.Publish(e));
      live, log := true, log + [e];
    }

    /** EnsureConsumerGroup. */
    method EnsureGroup(g: string)
      requires Valid()
      modifies this`live, this`groups
      ensures Valid() && State() == Ensured(old(State()), g)
      ensures g in groups && (g in old(groups) ==> groups == old(groups))
      ensures g !in old(groups) ==> groups == old(groups)[g := Consumer(|log|, {}, |log|, {})]
    {
      ActionsKeepSound(State(), Ensure(g));
      if g !in groups {
        live := true;
        groups := groups[g := Consumer(|log|, {}, |log|, {})];
      }
    }

    /** Other clients publish, and other groups read and acknowledge, while this consumer waits. */
    method Others(g: string)
      requires Valid() && g in groups
      modifies this
      ensures Valid() && g in groups && groups[g] == old(groups)[g] && old(log) <= log
    {
    }

    /** Reads the entries of a group that are already pending, lowest first. */
    method ReadPending(g: string) returns (batch: seq<nat>)
      requires g in groups
      ensures |batch| <= EVENT_READ_BATCH_SIZE && (batch == [] <==> groups[g].pending == {})
      ensures forall i :: 0 <= i < |batch| ==> batch[i] in groups[g].pending
      ensures forall i, j :: 0 <= i < j < |batch| ==> batch[i] < batch[j]
      ensures batch != [] ==> forall x :: x in groups[g].pending ==> batch[0] <= x
    {
      batch := [];
      var rest := groups[g].pending;
      while rest != {} && |batch| < EVENT_READ_BATCH_SIZE
        invariant rest <= groups[g].pending
        invariant |batch| <= EVENT_READ_BATCH_SIZE
        invariant batch == [] ==> rest == groups[g].pending
        invariant forall i :: 0 <= i < |batch| ==> batch[i] in groups[g].pending
        invariant forall i, j :: 0 <= i < j < |batch| ==> batch[i] < batch[j]
        invariant forall i, x :: 0 <= i < |batch| && x in rest ==> batch[i] < x
        invariant forall x :: x in groups[g].pending && x !in rest ==> x in batch
        decreases |rest|
      {
        var least := LeastOf(rest);
        batch := batch + [least];
        rest := rest - {least};
      }
      assert batch != [] ==> batch[0] in groups[g].pending;
    }

    /** Delivers the next entries of a group. */
    method ReadNew(g: string) returns (batch: seq<nat>)
      requires Valid() && g in groups
      modifies this`groups
      ensures Valid() && State() == Delivered(old(State()), g, EVENT_READ_BATCH_SIZE)
      ensures Valid() && batch == Entries(old(groups)[g].next, groups[g].next)
      ensures |batch| == Min(10, |log| - old(groups)[g].next)
      ensures forall i :: 0 <= i < |batch| ==> batch[i] == old(groups)[g].next + i && batch[i] in groups[g].pending
    {
      ActionsKeepSound(State(), Deliver(g, EVENT_READ_BATCH_SIZE));
      var c := groups[g];
      var next := Min(c.next + EVENT_READ_BATCH_SIZE, |log|);
      groups := groups[g := c.(next := next, pending := c.pending + Span(c.next, next))];
      batch := Entries(c.next, next);
    }

    method XAck(g: string, entry: nat)
      requires Valid() && g in groups && entry in groups[g].pending
      modifies this`groups
      ensures Valid() && State() == Acked(old(State()), g, entry)
    {
      ActionsKeepSound(State(), Ack(g, entry));
      var c := groups[g];
      groups := groups[g := c.(pending := c.pending - {entry}, done := c.done + {entry})];
    }
  }

  method LeastOf(s: set<nat>) returns (least: nat)
    requires s != {}
    ensures least in s && forall x :: x in s ==> least <= x
  {
    least :| least in s;
    var rest := s - {least};
    while rest != {}
      invariant rest <= s && least in s
      invariant forall x :: x in s && x !in rest ==> least <= x
      decreases |rest|
    {
      var x :| x in rest;
      rest := rest - {x};
      if x < least { least := x; }
    }
  }

  lemma OneLineEach(infos: seq<Info>, i: nat)
    requires i < |infos| && !Idle(infos[i])
    requires forall i, j :: 0 <= i < j < |infos| ==> infos[i].name != infos[j].name
    ensures !NamesIdle(infos, infos[i].name)
  {
  }
}
