/** The consumer of the event stream: what it handles, acknowledges and leaves pending when reads, decoding, handlers or
    acknowledgements fail or its context ends, and when it reports itself degraded. */
module EventBus {
  import opened Types
  import opened Streams

  /** No error, an error of a context that was cancelled or timed out, or any other error. */
  datatype CallStatus = Fine | Cancelled | Broken

  /** What the consumer meets from outside: whether its context has ended by some moment, whether a read fails and had
      delivered entries all the same, which entries decode, what the handler answers, and whether an acknowledgement
      fails and was carried out all the same. */
  datatype Environment = Environment(
    ended: nat -> bool,
    reading: nat -> (CallStatus, bool),
    decodes: nat -> bool,
    handler: (nat, nat) -> CallStatus,
    acking: (nat, nat) -> (CallStatus, bool))

  /** A context that has ended stays so. */
  ghost predicate Steady(env: Environment) {
    forall i: nat, j: nat :: i <= j && env.ended(i) ==> env.ended(j)
  }

  datatype Trace =
    | FailRead(outcome: CallStatus, over: bool)
    | Malformed(entry: nat)
    | Handle(entry: nat, outcome: CallStatus)
    | Acknowledge(entry: nat, outcome: CallStatus, done: bool)

  /** Going on, nothing left to read, returned without an error, returned an error, or still running when we stop
      looking. */
  datatype Exit = Going | Drained | Quiet | Raised | Unfinished

  /** Every acknowledgement directly follows the successful handling of its entry. */
  ghost predicate AcksFollowHandlers(trace: seq<Trace>) {
    forall i :: 0 <= i < |trace| && trace[i].Acknowledge? ==> i > 0 && trace[i - 1] == Handle(trace[i].entry, Fine)
  }

  /** The entries whose acknowledgement was carried out. */
  function Acks(trace: seq<Trace>): set<nat> {
    set i | 0 <= i < |trace| && trace[i].Acknowledge? && trace[i].done :: trace[i].entry
  }

  /** An error that degrades the bus. */
  predicate Severe(t: Trace) {
    match t
    case FailRead(o, over) => o == Broken && !over
    case Malformed(_) => true
    case Handle(_, o) => o == Broken
    case Acknowledge(_, o, _) => o == Broken
  }

  predicate EndsSeverely(trace: seq<Trace>) {
    trace != [] && Severe(trace[|trace| - 1])
  }

  predicate EndsFailing(trace: seq<Trace>) {
    trace != [] && (trace[|trace| - 1].Malformed? || trace[|trace| - 1].outcome != Fine)
  }

  /** An acknowledgement that failed with an error of the context. */
  predicate CutShort(t: Trace) {
    t.Acknowledge? && t.outcome == Cancelled
  }

  predicate EndsCutShort(trace: seq<Trace>) {
    trace != [] && CutShort(trace[|trace| - 1])
  }

  predicate HasCut(trace: seq<Trace>) {
    exists i :: 0 <= i < |trace| && CutShort(trace[i])
  }

  ghost predicate Concerns(trace: seq<Trace>, entries: set<nat>) {
    forall i :: 0 <= i < |trace| && !trace[i].FailRead? ==> trace[i].entry in entries
  }

  /** Before any entry that is not among the pending ones, all of these have been acknowledged. */
  ghost predicate PendingFirst(trace: seq<Trace>, pending: set<nat>) {
    forall i :: 0 <= i < |trace| && !trace[i].FailRead? && trace[i].entry !in pending ==> pending <= Acks(trace[..i])
  }

  /** The loop over pending entries was left by an acknowledgement cut short while one of them was unacknowledged, and
      the loop over new entries came to an entry. */
  ghost predicate SkipsPending(early: seq<Trace>, late: seq<Trace>, pending: set<nat>) {
    EndsCutShort(early) && !(pending <= Acks(early)) && exists i :: 0 <= i < |late| && !late[i].FailRead?
  }

  /** The trace comes to no entry below a number. */
  ghost predicate OnlyFrom(trace: seq<Trace>, lowest: nat) {
    forall i :: 0 <= i < |trace| && !trace[i].FailRead? ==> trace[i].entry >= lowest
  }

  function AfterAcks(c: Consumer, acks: set<nat>): Consumer {
    c.(pending := c.pending - acks, done := c.done + acks)
  }

  function SetOf(batch: seq<nat>): set<nat> {
    set x | x in batch
  }

  /** EnsureConsumerGroup accepts, refuses a group that is not the session's own, or fails. */
  datatype Joining = Accepted | SharedGroup | Rejected(cause: CallStatus)

  predicate JoinDegrades(env: Environment, joining: Joining, found: Continuity, moment: nat) {
    match joining
    case SharedGroup => true
    case Rejected(cause) => cause == Broken && !env.ended(moment)
    case Accepted =>
      match found
      case Gap => true
      case Unreadable(cause) => cause == Broken && !env.ended(moment)
      case _ => false
  }

  function AckAt(env: Environment, entry: nat, moment: nat): Trace {
    var (outcome, arrived) := env.acking(entry, moment);
    Acknowledge(entry, outcome, outcome == Fine || arrived)
  }

  /** What one entry of a batch leads to. */
  function EntryRun(env: Environment, entry: nat, moment: nat): (seq<Trace>, Exit) {
    var outcome, over := env.handler(entry, moment), env.ended(moment + 1);
    var ack := AckAt(env, entry, moment + 2);
    if !env.decodes(entry) then ([Malformed(entry)], Raised)
    else if outcome != Fine then ([Handle(entry, outcome)], if over && outcome == Cancelled then Quiet else Raised)
    else if over then ([Handle(entry, Fine)], Quiet)
    else
      ([Handle(entry, Fine), ack], match ack.outcome case Fine => Going case Cancelled => Quiet case _ => Raised)
  }

  /** A loop that finds its context going on and its first read successful. */
  predicate ReadsAt(env: Environment, moment: nat) {
    !env.ended(moment) && env.reading(moment + 1).0 == Fine
  }

  /** The first entry of a loop decides how it begins, and how it ends unless it goes on. */
  predicate StartsWith(env: Environment, entry: nat, moment: nat, trace: seq<Trace>, exit: Exit) {
    var (run, how) := EntryRun(env, entry, moment);
    run <= trace && (how != Going ==> trace == run && exit == how)
  }

  /** A loop over pending entries begins with the lowest one, if its first read succeeds. */
  ghost predicate BeginsLowest(env: Environment, pending: set<nat>, moment: nat, trace: seq<Trace>, exit: Exit) {
    forall first :: IsLowest(first, pending) && ReadsAt(env, moment) ==> StartsWith(env, first, moment + 2, trace, exit)
  }

  lemma StartsAnyhow(env: Environment, entry: nat, moment: nat, trace: seq<Trace>)
    requires StartsWith(env, entry, moment, trace, Going)
    ensures forall exit :: StartsWith(env, entry, moment, trace, exit)
  {
    hide EntryRun;
  }

  predicate IsLowest(entry: nat, entries: set<nat>) {
    entry in entries && forall x :: x in entries ==> entry <= x
  }

  lemma EntryStarts(env: Environment, entry: nat, moment: nat)
    ensures StartsWith(env, entry, moment, EntryRun(env, entry, moment).0, EntryRun(env, entry, moment).1)
  {
    hide EntryRun;
  }

  lemma StartStays(env: Environment, entry: nat, moment: nat, trace: seq<Trace>, more: seq<Trace>, exit: Exit)
    requires StartsWith(env, entry, moment, trace, Going)
    ensures StartsWith(env, entry, moment, trace + more, exit)
  {
    hide EntryRun;
  }

  /** A consumer whose acknowledgements are cut short by an error of some context, while its own context goes on. */
  function CutOff(): Environment {
    Environment(_ => false, _ => (Fine, false), _ => true, (_, _) => Fine, (_, _) => (Cancelled, false))
  }

  /** Then an entry is handled, stays pending, and the loop returns without an error. */
  lemma CutOffLeavesPending(entry: nat, moment: nat)
    ensures Steady(CutOff()) && !CutOff().ended(moment)
    ensures EntryRun(CutOff(), entry, moment) == ([Handle(entry, Fine), Acknowledge(entry, Cancelled, false)], Quiet)
    ensures Acks(EntryRun(CutOff(), entry, moment).0) == {}
  {
    OneAck(EntryRun(CutOff(), entry, moment).0);
  }

  datatype Continuity = Intact | Gap | Unreadable(cause: CallStatus) | Unstable

  class Bus {
    const stream: Stream
    const group: string
    const env: Environment
    var degraded: bool
    // How often the environment has been asked.
    var moment: nat

    constructor (stream: Stream, group: string, env: Environment)
      ensures this.stream == stream && this.group == group && this.env == env && !degraded && moment == 0
    {
      this.stream, this.group, this.env := stream, group, env;
      degraded, moment := false, 0;
    }

    ghost predicate Valid()
      reads this, stream
    {
      stream.Valid() && Steady(env)
    }

    ghost predicate Joined()
      reads this, stream
    {
      Valid() && group in stream.groups
    }

    method SetDegraded(outcome: CallStatus)
      modifies this`degraded
      ensures degraded == (old(degraded) || outcome == Broken)
    {
      if outcome == Broken { degraded := true; }
    }

    method Ended() returns (over: bool)
      modifies this`moment
      ensures over == env.ended(old(moment)) && moment == old(moment) + 1
    {
      over := env.ended(moment);
      moment := moment + 1;
    }

    /** XACK, which may fail before or after the group has carried it out. */
    method SendAck(entry: nat) returns (t: Trace)
      requires Joined() && entry in stream.groups[group].pending
      modifies this`moment, stream
      ensures Joined() && t == AckAt(env, entry, old(moment))
      ensures stream.groups[group] == AfterAcks(old(stream.groups)[group], if t.done then {entry} else {})
      ensures moment == old(moment) + 1 && stream.log == old(stream.log)
    {
      t := AckAt(env, entry, moment);
      moment := moment + 1;
      if t.done { stream.XAck(group, entry); }
    }

    /** One entry of a batch: decode, handle, look at the context, acknowledge. */
    method HandleEntry(entry: nat) returns (trace: seq<Trace>, exit: Exit)
      requires Joined() && entry in stream.groups[group].pending
      modifies this, stream
      ensures Joined() && AcksFollowHandlers(trace) && Concerns(trace, {entry})
      ensures (trace, exit) == EntryRun(env, entry, old(moment)) && stream.log == old(stream.log)
      ensures stream.groups[group] == AfterAcks(old(stream.groups)[group], Acks(trace))
      ensures degraded == (old(degraded) || EndsSeverely(trace)) && (EndsSeverely(trace) ==> exit == Raised)
      ensures exit == Raised ==> EndsFailing(trace)
      ensures exit in {Going, Quiet, Raised}
      ensures exit == Going ==> Acks(trace) == {entry}
      ensures exit == Quiet ==> env.ended(moment) || EndsCutShort(trace)
      ensures forall i :: 0 <= i < |trace| && CutShort(trace[i]) ==> i == |trace| - 1 && exit == Quiet
      ensures var outcome, acked := env.handler(entry, old(moment)), env.acking(entry, old(moment) + 2).0;
              degraded <==> || old(degraded) || !env.decodes(entry) || outcome == Broken
                            || (outcome == Fine && !env.ended(old(moment) + 1) && acked == Broken)
    {
      hide Streams.Sound, AcksFollowHandlers, Concerns, Acks;
      EntryFacts(env, entry, moment);
      if !env.decodes(entry) {
        SetDegraded(Broken);
        return [Malformed(entry)], Raised;
      }
      var outcome := env.handler(entry, moment);
      moment := moment + 1;
      trace := [Handle(entry, outcome)];
      if outcome != Fine {
        var over := Ended();
        if over && outcome == Cancelled { return trace, Quiet; }
        SetDegraded(outcome);
        return trace, Raised;
      }
      var over := Ended();
      if over { return trace, Quiet; }
      var ack := SendAck(entry);
      trace := [Handle(entry, Fine), ack];
      OneAck(trace);
      if ack.outcome == Cancelled { return trace, Quiet; }
      SetDegraded(ack.outcome);
      return trace, if ack.outcome == Fine then Going else Raised;
    }

    /** A batch in order; whatever is not acknowledged stays pending. */
    method HandleBatch(batch: seq<nat>) returns (trace: seq<Trace>, exit: Exit)
      requires Joined()
      requires forall i :: 0 <= i < |batch| ==> batch[i] in stream.groups[group].pending
      requires forall i, j :: 0 <= i < j < |batch| ==> batch[i] != batch[j]
      modifies this, stream
      ensures Joined() && AcksFollowHandlers(trace) && Concerns(trace, SetOf(batch))
      ensures stream.groups[group] == AfterAcks(old(stream.groups)[group], Acks(trace))
      ensures degraded == (old(degraded) || EndsSeverely(trace)) && (EndsSeverely(trace) ==> exit == Raised)
      ensures exit == Raised ==> EndsFailing(trace)
      ensures exit in {Going, Quiet, Raised}
      ensures exit == Going ==> Acks(trace) == SetOf(batch)
      ensures batch != [] ==> StartsWith(env, batch[0], old(moment), trace, exit)
      ensures stream.log == old(stream.log)
      ensures exit == Quiet ==> env.ended(moment) || EndsCutShort(trace)
      ensures HasCut(trace) ==> exit == Quiet
    {
      hide Streams.Sound, AcksFollowHandlers, Acks, Concerns, EntryRun, StartsWith;
      NothingConcerned(SetOf(batch));
      trace, exit := [], Going;
      NoAcks();
      for i := 0 to |batch|
        invariant Joined() && AcksFollowHandlers(trace) && Concerns(trace, SetOf(batch))
        invariant stream.groups[group] == AfterAcks(old(stream.groups)[group], Acks(trace))
        invariant Acks(trace) == SetOf(batch[..i])
        invariant degraded == old(degraded) && !EndsSeverely(trace) && exit == Going
        invariant !HasCut(trace)
        invariant i == 0 ==> trace == [] && moment == old(moment)
        invariant i > 0 ==> StartsWith(env, batch[0], old(moment), trace, Going)
        invariant stream.log == old(stream.log)
      {
        NotYetIn(batch, i);
        var part;
        part, exit := HandleEntry(batch[i]);
        AcksConcat(trace, part);
        ConcernsAll(trace, part, SetOf(batch), {batch[i]});
        if i == 0 {
          EntryStarts(env, batch[0], old(moment));
          assert trace + part == part;
        } else {
          StartStays(env, batch[0], old(moment), trace, part, exit);
        }
        trace := trace + part;
        if exit != Going { return; }
      }
      assert batch[..|batch|] == batch;
    }

    /** Reads new entries; a failed read may have delivered some all the same. */
    method ReadNext() returns (batch: seq<nat>, outcome: CallStatus)
      requires Joined()
      modifies this`moment, stream
      ensures Joined() && (outcome != Fine ==> batch == [])
      ensures var c, c' := old(stream.groups)[group], stream.groups[group];
              && c'.done == c.done && c'.next >= c.next
              && (forall i :: 0 <= i < |batch| ==> batch[i] in c'.pending && batch[i] >= c.next)
              && (outcome == Fine && c.next < |old(stream.log)| ==> batch != [] && batch[0] == c.next)
              && (outcome == Fine ==> c'.pending == c.pending + SetOf(batch))
      ensures outcome == env.reading(old(moment)).0 && moment == old(moment) + 1
      ensures forall i, j :: 0 <= i < j < |batch| ==> batch[i] != batch[j]
    {
      hide Streams.Sound;
      var (read, delivered) := env.reading(moment);
      moment := moment + 1;
      batch, outcome := [], read;
      if outcome == Fine {
        batch := stream.ReadNew(group);
        ReadIsDelivered(old(stream.groups)[group].next, stream.groups[group].next);
      } else if delivered {
        var unseen := stream.ReadNew(group);
      }
    }

    /** Reads pending entries again. */
    method ReadAgain() returns (batch: seq<nat>, outcome: CallStatus)
      requires Joined()
      modifies this`moment, stream
      ensures Joined() && stream.groups[group] == old(stream.groups)[group]
      ensures SetOf(batch) <= stream.groups[group].pending
      ensures forall i :: 0 <= i < |batch| ==> batch[i] in stream.groups[group].pending
      ensures forall i, j :: 0 <= i < j < |batch| ==> batch[i] != batch[j]
      ensures outcome == Fine && batch == [] ==> stream.groups[group].pending == {}
      ensures batch != [] ==> forall x :: x in stream.groups[group].pending ==> batch[0] <= x
      ensures outcome == env.reading(old(moment)).0 && moment == old(moment) + 1 && old(stream.log) <= stream.log
    {
      hide Streams.Sound;
      stream.Others(group);
      outcome := env.reading(moment).0;
      moment := moment + 1;
      batch := [];
      if outcome == Fine { batch := stream.ReadPending(group); }
    }

    /** How a read error ends the loop. */
    method StopReading(outcome: CallStatus) returns (t: Trace, exit: Exit)
      requires Joined() && outcome != Fine
      modifies this
      ensures Joined() && t.FailRead? && t.outcome == outcome && exit in {Quiet, Raised}
      ensures exit == Quiet ==> env.ended(moment)
      ensures stream.State() == old(stream.State())
      ensures degraded == (old(degraded) || Severe(t)) && (Severe(t) ==> exit == Raised)
      ensures degraded <==> old(degraded) || (outcome == Broken && !env.ended(old(moment)))
    {
      var over := Ended();
      t := FailRead(outcome, over);
      if over { return t, Quiet; }
      SetDegraded(outcome);
      return t, Raised;
    }

    /** One round of the loop over pending entries: a read, and the batch it gave. A round that goes on leaves less to
        do. */
    method PendingRound() returns (trace: seq<Trace>, exit: Exit)
      requires Joined()
      modifies this, stream
      ensures Joined() && AcksFollowHandlers(trace) && Concerns(trace, old(stream.groups)[group].pending)
      ensures stream.groups[group] == AfterAcks(old(stream.groups)[group], Acks(trace)) && old(stream.log) <= stream.log
      ensures degraded == (old(degraded) || EndsSeverely(trace)) && (EndsSeverely(trace) ==> exit == Raised)
      ensures exit == Raised ==> EndsFailing(trace)
      ensures exit in {Going, Drained, Quiet, Raised} && (exit == Drained ==> stream.groups[group].pending == {})
      ensures exit == Quiet ==> env.ended(moment) || EndsCutShort(trace)
      ensures HasCut(trace) ==> exit == Quiet
      ensures stream.groups[group].pending <= old(stream.groups)[group].pending
      ensures exit == Going ==> stream.groups[group].pending < old(stream.groups)[group].pending
      ensures BeginsLowest(env, old(stream.groups)[group].pending, old(moment), trace, exit)
    {
      hide Streams.Sound, AcksFollowHandlers, Acks, Concerns, SetOf, EntryRun, StartsWith;
      trace := [];
      NoAcks();
      NothingConcerned(stream.groups[group].pending);
      var over := Ended();
      if over { return trace, Quiet; }
      var batch, outcome := ReadAgain();
      if outcome != Fine {
        var t;
        t, exit := StopReading(outcome);
        AddRead([], t);
        assert [] + [t] == [t];
        return [t], exit;
      }
      if |batch| == 0 { return trace, Drained; }
      trace, exit := HandleBatch(batch);
      ConcernsAll([], trace, old(stream.groups)[group].pending, SetOf(batch));
      assert [] + trace == trace;
      FirstIsIn(batch);
    }

    /** consume from the beginning: handles what is pending until nothing is left, an error stops it, or the context
        ends. */
    method ConsumePending() returns (trace: seq<Trace>, exit: Exit)
      requires Joined()
      modifies this, stream
      ensures Joined() && AcksFollowHandlers(trace) && Concerns(trace, old(stream.groups)[group].pending)
      ensures stream.groups[group] == AfterAcks(old(stream.groups)[group], Acks(trace)) && old(stream.log) <= stream.log
      ensures degraded == (old(degraded) || EndsSeverely(trace)) && (EndsSeverely(trace) ==> exit == Raised)
      ensures exit == Raised ==> EndsFailing(trace)
      ensures exit in {Drained, Quiet, Raised} && (exit == Drained ==> stream.groups[group].pending == {})
      ensures exit == Quiet ==> env.ended(moment) || EndsCutShort(trace)
      ensures HasCut(trace) ==> exit == Quiet
      ensures BeginsLowest(env, old(stream.groups)[group].pending, old(moment), trace, exit)
    {
      hide Streams.Sound, AcksFollowHandlers, Acks, Concerns, AfterAcks, HasCut, BeginsLowest;
      ghost var c := stream.groups[group];
      trace, exit := PendingRound();
      while exit == Going
        invariant Joined() && AcksFollowHandlers(trace) && Concerns(trace, c.pending)
        invariant stream.groups[group] == AfterAcks(c, Acks(trace)) && old(stream.log) <= stream.log
        invariant degraded == (old(degraded) || EndsSeverely(trace)) && (EndsSeverely(trace) ==> exit == Raised)
        invariant exit == Raised ==> EndsFailing(trace)
        invariant exit in {Going, Drained, Quiet, Raised} && (exit == Drained ==> stream.groups[group].pending == {})
        invariant exit == Quiet ==> env.ended(moment) || EndsCutShort(trace)
        invariant HasCut(trace) ==> exit == Quiet
        invariant BeginsLowest(env, c.pending, old(moment), trace, exit)
        decreases stream.groups[group].pending, exit == Going
      {
        ghost var left := stream.groups[group];
        var part, how := PendingRound();
        MoreRounds(env, c, old(moment), trace, part, how);
        trace, exit := trace + part, how;
      }
    }

    /** One round of the loop over new entries. */
    method NewRound() returns (trace: seq<Trace>, exit: Exit)
      requires Joined()
      modifies this, stream
      ensures Joined() && AcksFollowHandlers(trace) && OnlyFrom(trace, old(stream.groups)[group].next)
      ensures stream.groups[group].done == old(stream.groups)[group].done + Acks(trace)
      ensures stream.groups[group].next >= old(stream.groups)[group].next
      ensures degraded == (old(degraded) || EndsSeverely(trace)) && (EndsSeverely(trace) ==> exit == Raised)
      ensures exit == Raised ==> EndsFailing(trace)
      ensures exit in {Going, Quiet, Raised}
      ensures exit == Quiet ==> env.ended(moment) || EndsCutShort(trace)
      ensures exit == Going ==> stream.groups[group].pending <= old(stream.groups)[group].pending
      ensures old(env.ended(moment)) ==> trace == [] && exit == Quiet
      ensures ReadsAt(env, old(moment)) && old(stream.groups)[group].next < |old(stream.log)| ==>
                StartsWith(env, old(stream.groups)[group].next, old(moment) + 2, trace, exit)
    {
      hide Streams.Sound, AcksFollowHandlers, Acks, Concerns, EntryRun, StartsWith;
      trace := [];
      NoAcks();
      var over := Ended();
      if over { return trace, Quiet; }
      stream.Others(group);
      var batch, outcome := ReadNext();
      if outcome != Fine {
        var t;
        t, exit := StopReading(outcome);
        AddRead([], t);
        assert [] + [t] == [t];
        return [t], exit;
      }
      trace, exit := HandleBatch(batch);
      NewOnly([], trace, batch, old(stream.groups)[group].next);
      assert [] + trace == trace;
    }

    /** consume of new entries, observed for some rounds. While it goes on nothing new is left unacknowledged. */
    method ConsumeNew(rounds: nat) returns (trace: seq<Trace>, exit: Exit)
      requires Joined()
      modifies this, stream
      ensures Joined() && AcksFollowHandlers(trace) && OnlyFrom(trace, old(stream.groups)[group].next)
      ensures stream.groups[group].done == old(stream.groups)[group].done + Acks(trace)
      ensures degraded == (old(degraded) || EndsSeverely(trace)) && (EndsSeverely(trace) ==> exit == Raised)
      ensures exit == Raised ==> EndsFailing(trace)
      ensures exit in {Quiet, Raised, Unfinished}
      ensures exit == Unfinished ==> stream.groups[group].pending <= old(stream.groups)[group].pending
      ensures exit == Quiet ==> env.ended(moment) || EndsCutShort(trace)
      ensures old(env.ended(moment)) ==> trace == []
      ensures rounds > 0 && ReadsAt(env, old(moment)) && old(stream.groups)[group].next < |old(stream.log)| ==>
                StartsWith(env, old(stream.groups)[group].next, old(moment) + 2, trace, exit)
    {
      hide Streams.Sound, AcksFollowHandlers, Acks, StartsWith, OnlyFrom;
      NoAcks();
      NothingNew(stream.groups[group].next);
      if rounds == 0 { return [], Unfinished; }
      ghost var c := stream.groups[group];
      trace, exit := NewRound();
      var round := 1;
      while exit == Going && round < rounds
        invariant Joined() && AcksFollowHandlers(trace) && OnlyFrom(trace, c.next)
        invariant stream.groups[group].done == c.done + Acks(trace) && stream.groups[group].next >= c.next
        invariant degraded == (old(degraded) || EndsSeverely(trace)) && (EndsSeverely(trace) ==> exit == Raised)
        invariant exit == Raised ==> EndsFailing(trace)
        invariant exit in {Going, Quiet, Raised} && (exit == Quiet ==> env.ended(moment) || EndsCutShort(trace))
        invariant exit == Going ==> stream.groups[group].pending <= c.pending
        invariant old(env.ended(moment)) ==> trace == [] && exit == Quiet
        invariant ReadsAt(env, old(moment)) && c.next < |old(stream.log)| ==>
                  StartsWith(env, c.next, old(moment) + 2, trace, exit)
      {
        ghost var from := stream.groups[group].next;
        var part, how := NewRound();
        AcksConcat(trace, part);
        NewMore(trace, part, c.next, from);
        EndsLast(trace, part, how);
        if ReadsAt(env, old(moment)) && c.next < |old(stream.log)| {
          StartStays(env, c.next, old(moment) + 2, trace, part, how);
        }
        trace, exit, round := trace + part, how, round + 1;
      }
      if exit == Going {
        if ReadsAt(env, old(moment)) && c.next < |old(stream.log)| {
          StartsAnyhow(env, c.next, old(moment) + 2, trace);
        }
        exit := Unfinished;
      }
    }

    /** EnsureConsumerGroup and CheckContinuity, with what they meet given. */
    method Join(joining: Joining, found: Continuity) returns (ok: bool)
      requires Valid()
      modifies this, stream
      ensures Valid() && (ok <==> joining.Accepted? && found.Intact?)
      ensures stream.State() == if joining.Accepted? then Ensured(old(stream.State()), group) else old(stream.State())
      ensures degraded == (old(degraded) || JoinDegrades(env, joining, found, old(moment)))
      ensures ok ==> moment == old(moment)
      ensures var over := env.ended(old(moment));
              degraded <==> || old(degraded) || joining == SharedGroup
                            || (joining == Rejected(Broken) && !over)
                            || (joining == Accepted && (found == Gap || (found == Unreadable(Broken) && !over)))
    {
      hide Streams.Sound;
      match joining {
        case SharedGroup =>
          SetDegraded(Broken);
          return false;
        case Rejected(cause) =>
          var over := Ended();
          if !over { SetDegraded(cause); }
          return false;
        case Accepted =>
          stream.EnsureGroup(group);
      }
      match found {
        case Intact => return true;
        case Unstable => return false;
        case Gap =>
          SetDegraded(Broken);
          return false;
        case Unreadable(cause) =>
          var over := Ended();
          if !over { SetDegraded(cause); }
          return false;
      }
    }

    /** Pending entries, then new ones, unless the first loop returns an error. A new entry is handled before every
        entry that was pending has been acknowledged exactly when the first loop is left by an acknowledgement cut
        short, one of them is unacknowledged then, and the second loop comes to an entry. */
    method ConsumeAll(rounds: nat) returns (trace: seq<Trace>, exit: Exit, ghost turn: Turn)
      requires Joined()
      modifies this, stream
      ensures Joined() && AcksFollowHandlers(trace) && turn.early <= trace
      ensures var c := old(stream.groups)[group];
              && stream.groups[group].done == c.done + Acks(trace)
              && (PendingFirst(trace, c.pending) <==> !SkipsPending(turn.early, trace[|turn.early|..], c.pending))
              && TurnsAsRead(env, c, |old(stream.log)|, rounds, old(moment), trace, exit, turn)
      ensures degraded == (old(degraded) || EndsSeverely(trace)) && (EndsSeverely(trace) ==> exit == Raised)
      ensures exit in {Quiet, Raised, Unfinished} && (exit == Raised ==> EndsFailing(trace))
      ensures exit == Unfinished && turn.how == Drained ==> stream.groups[group].pending == {}
      ensures exit == Quiet ==> env.ended(moment) || EndsCutShort(trace)
    {
      hide AcksFollowHandlers, Acks, PendingFirst, Concerns, StartsWith, IsLowest, SkipsPending;
      ghost var c := stream.groups[group];
      PendingIsDelivered(stream.State(), group);
      hide Streams.Sound;
      trace, exit := ConsumePending();
      turn := Turn(trace, exit, moment);
      ghost var early := trace;
      DrainedIsAcked(c, Acks(early));
      assert trace[|early|..] == [] && early + [] == early;
      if exit == Raised {
        EarlyThenLate(early, [], c);
        return;
      }
      var late;
      late, exit := ConsumeNew(rounds);
      trace := trace + late;
      AcksConcat(early, late);
      EarlyThenLate(early, late, c);
      assert trace[|early|..] == late;
    }

    /** Subscribe: joins the group, checks continuity, then handles pending entries and new ones. */
    method Subscribe(joining: Joining, found: Continuity, rounds: nat)
      returns (trace: seq<Trace>, exit: Exit, ghost turn: Turn)
      requires Valid()
      modifies this, stream
      ensures Valid() && AcksFollowHandlers(trace) && turn.early <= trace
      ensures !joining.Accepted? || !found.Intact? ==> trace == [] && exit == Raised
      ensures joining.Accepted? ==>
                var s := Ensured(old(stream.State()), group);
                var c := s.groups[group];
                && group in stream.groups
                && stream.groups[group].done == c.done + Acks(trace)
                && (PendingFirst(trace, c.pending) <==> !SkipsPending(turn.early, trace[|turn.early|..], c.pending))
                && (exit == Unfinished && turn.how == Drained ==> stream.groups[group].pending == {})
                && (found.Intact? ==> TurnsAsRead(env, c, |s.log|, rounds, old(moment), trace, exit, turn))
      ensures degraded == (old(degraded) || JoinDegrades(env, joining, found, old(moment)) || EndsSeverely(trace))
      ensures exit == Quiet ==> env.ended(moment) || EndsCutShort(trace)
    {
      NoAcks();
      trace, exit, turn := [], Raised, Turn([], Raised, moment);
      var ok := Join(joining, found);
      hide Streams.Sound, AcksFollowHandlers, Acks, PendingFirst, Concerns, TurnsAsRead, SkipsPending;
      NothingYet();
      if ok { trace, exit, turn := ConsumeAll(rounds); }
    }
  }

  /** Where a subscription turned from pending entries to new ones: the trace so far, how the loop over pending entries
      ended, and the moment. */
  datatype Turn = Turn(early: seq<Trace>, how: Exit, moment: nat)

  /** The two loops begin with the lowest pending entry and with the next new one, whenever their first reads succeed
      and there is such an entry; the second loop is not entered after an error. */
  ghost predicate TurnsAsRead(env: Environment, c: Consumer, length: nat, rounds: nat, moment: nat, trace: seq<Trace>,
      exit: Exit, turn: Turn)
    requires turn.early <= trace
  {
    && turn.how in {Drained, Quiet, Raised}
    && (turn.how == Raised ==> trace == turn.early && exit == Raised)
    && BeginsLowest(env, c.pending, moment, turn.early, turn.how)
    && (turn.how != Raised && rounds > 0 && ReadsAt(env, turn.moment) && c.next < length ==>
          StartsWith(env, c.next, turn.moment + 2, trace[|turn.early|..], exit))
  }

  /** What is pending has been delivered before. */
  lemma PendingIsDelivered(s: StreamState, g: string)
    requires Sound(s) && g in s.groups
    ensures forall x :: x in s.groups[g].pending ==> x < s.groups[g].next
  {
  }

  /** A subscription that handles a new entry while an older one is pending: entry 0 is delivered and unacknowledged,
      entry 1 is new, and every acknowledgement is cut short while the subscription's own context goes on. */
  method NewBeforePending() returns (trace: seq<Trace>)
    ensures trace
            == [Handle(0, Fine), Acknowledge(0, Cancelled, false), Handle(1, Fine), Acknowledge(1, Cancelled, false)]
    ensures !PendingFirst(trace, {0})
  {
    hide PendingFirst, SkipsPending, TurnsAsRead, Acks;
    var stream := new Stream();
    stream.EnsureGroup("g");
    stream.Publish(NO_EVENT);
    var delivered := stream.ReadNew("g");
    stream.Publish(NO_EVENT);
    assert stream.groups["g"] == Consumer(1, {0}, 0, {}) && |stream.log| == 2 by { assert Span(0, 1) == {0}; }
    hide Streams.Sound;
    var bus := new Bus(stream, "g", CutOff());
    var exit;
    ghost var turn;
    trace, exit, turn := bus.Subscribe(Accepted, Intact, 1);
    CutOffTurn(trace, exit, turn);
    NothingAcked(trace);
  }

  /** What such a subscription comes to. */
  lemma CutOffTurn(trace: seq<Trace>, exit: Exit, turn: Turn)
    requires turn.early <= trace && TurnsAsRead(CutOff(), Consumer(1, {0}, 0, {}), 2, 1, 0, trace, exit, turn)
    ensures trace
            == [Handle(0, Fine), Acknowledge(0, Cancelled, false), Handle(1, Fine), Acknowledge(1, Cancelled, false)]
  {
    CutOffLeavesPending(0, 2);
    CutOffLeavesPending(1, turn.moment + 2);
    hide EntryRun;
    assert IsLowest(0, {0});
    assert trace == turn.early + trace[|turn.early|..];
  }

  lemma NothingAcked(trace: seq<Trace>)
    requires forall i :: 0 <= i < |trace| && trace[i].Acknowledge? ==> !trace[i].done
    requires |trace| > 2 && trace[2] == Handle(1, Fine)
    ensures !PendingFirst(trace, {0})
  {
    assert 0 !in Acks(trace[..2]);
  }

  /** What a read returns is what it delivers. */
  lemma ReadIsDelivered(lo: nat, hi: nat)
    requires lo <= hi
    ensures SetOf(Streams.Entries(lo, hi)) == Span(lo, hi)
  {
    var batch := Streams.Entries(lo, hi);
    forall x | x in Span(lo, hi) ensures x in batch {
      assert batch[x - lo] == x;
    }
  }

  lemma FirstIsIn(batch: seq<nat>)
    ensures batch != [] ==> batch[0] in SetOf(batch)
  {
  }

  /** A further round of the loop over pending entries. */
  lemma MoreRounds(env: Environment, c: Consumer, moment: nat, trace: seq<Trace>, part: seq<Trace>, how: Exit)
    requires AcksFollowHandlers(trace) && AcksFollowHandlers(part) && Concerns(trace, c.pending)
    requires Concerns(part, AfterAcks(c, Acks(trace)).pending)
    requires !HasCut(trace) && !EndsSeverely(trace) && BeginsLowest(env, c.pending, moment, trace, Going)
    ensures var all := trace + part;
            && AcksFollowHandlers(all) && Concerns(all, c.pending)
            && AfterAcks(AfterAcks(c, Acks(trace)), Acks(part)) == AfterAcks(c, Acks(all))
            && (HasCut(all) <==> HasCut(part)) && BeginsLowest(env, c.pending, moment, all, how)
    ensures EndsSeverely(trace + part) <==> EndsSeverely(part)
    ensures EndsFailing(part) ==> EndsFailing(trace + part)
    ensures EndsCutShort(part) ==> EndsCutShort(trace + part)
  {
    AcksConcat(trace, part);
    ConcernsAll(trace, part, c.pending, AfterAcks(c, Acks(trace)).pending);
    CutsConcat(trace, part);
    hide AcksFollowHandlers, Acks, Concerns, HasCut, StartsWith;
    EndsLast(trace, part, how);
    forall first | IsLowest(first, c.pending) && ReadsAt(env, moment)
      ensures StartsWith(env, first, moment + 2, trace + part, how)
    {
      StartStays(env, first, moment + 2, trace, part, how);
    }
  }

  lemma CutsConcat(a: seq<Trace>, b: seq<Trace>)
    ensures HasCut(a + b) <==> HasCut(a) || HasCut(b)
  {
    var both := a + b;
    assert forall i :: 0 <= i < |a| ==> both[i] == a[i];
    assert forall i :: 0 <= i < |b| ==> both[|a| + i] == b[i];
    if HasCut(b) {
      var i :| 0 <= i < |b| && CutShort(b[i]);
      assert CutShort(both[|a| + i]);
    }
    if HasCut(a) {
      var i :| 0 <= i < |a| && CutShort(a[i]);
      assert CutShort(both[i]);
    }
  }

  /** How a trace ends is how its last part ends, after a part that ended well. */
  lemma EndsLast(trace: seq<Trace>, part: seq<Trace>, how: Exit)
    requires !EndsSeverely(trace)
    ensures EndsSeverely(trace + part) <==> EndsSeverely(part)
    ensures EndsFailing(part) ==> EndsFailing(trace + part)
    ensures EndsCutShort(part) ==> EndsCutShort(trace + part)
  {
    if part == [] { assert trace + part == trace; }
  }

  lemma NothingNew(lowest: nat)
    ensures OnlyFrom([], lowest)
  {
  }

  lemma NewMore(a: seq<Trace>, b: seq<Trace>, lowest: nat, from: nat)
    requires OnlyFrom(a, lowest) && OnlyFrom(b, from) && lowest <= from
    ensures OnlyFrom(a + b, lowest)
  {
  }

  lemma NewOnly(a: seq<Trace>, b: seq<Trace>, batch: seq<nat>, lowest: nat)
    requires OnlyFrom(a, lowest) && Concerns(b, SetOf(batch)) && forall i :: 0 <= i < |batch| ==> batch[i] >= lowest
    ensures OnlyFrom(a + b, lowest)
  {
  }

  lemma NothingConcerned(entries: set<nat>)
    ensures Concerns([], entries)
  {
  }

  lemma NothingYet()
    ensures forall pending :: PendingFirst([], pending) && !SkipsPending([], [], pending)
    ensures forall done :: done + Acks([]) == done
  {
    NoAcks();
  }

  lemma DrainedIsAcked(c: Consumer, acks: set<nat>)
    ensures AfterAcks(c, acks).pending == {} ==> c.pending <= acks
  {
    if exists x :: x in c.pending && x !in acks {
      var x :| x in c.pending && x !in acks;
      assert x in AfterAcks(c, acks).pending;
    }
  }

  /** When a trace of pending entries followed by one of new ones keeps to that order. */
  lemma EarlyThenLate(early: seq<Trace>, late: seq<Trace>, c: Consumer)
    requires Concerns(early, c.pending) && (c.pending <= Acks(early) || EndsCutShort(early) || late == [])
    requires forall x :: x in c.pending ==> x < c.next
    requires OnlyFrom(late, c.next)
    ensures PendingFirst(early + late, c.pending) <==> !SkipsPending(early, late, c.pending)
  {
    hide Acks;
    var trace := early + late;
    if SkipsPending(early, late, c.pending) {
      var i :| 0 <= i < |late| && !late[i].FailRead?;
      FirstComesEarly(early, late, c, i);
    } else {
      forall i | 0 <= i < |trace| && !trace[i].FailRead? && trace[i].entry !in c.pending
        ensures c.pending <= Acks(trace[..i])
      {
        assert i >= |early| && late[i - |early|] == trace[i];
        assert trace[..i] == early + late[..i - |early|];
        AcksConcat(early, late[..i - |early|]);
      }
    }
  }

  /** Of the new entries that a trace comes to, the first comes before any acknowledgement of its loop. */
  lemma {:induction false} FirstComesEarly(early: seq<Trace>, late: seq<Trace>, c: Consumer, i: nat)
    requires i < |late| && !late[i].FailRead? && OnlyFrom(late, c.next)
    requires !(c.pending <= Acks(early)) && forall x :: x in c.pending ==> x < c.next
    ensures !PendingFirst(early + late, c.pending)
  {
    if exists j :: 0 <= j < i && !late[j].FailRead? {
      var j :| 0 <= j < i && !late[j].FailRead?;
      FirstComesEarly(early, late, c, j);
    } else {
      var at := |early| + i;
      assert (early + late)[at] == late[i] && (early + late)[..at] == early + late[..i];
      AcksConcat(early, late[..i]);
      assert Acks(late[..i]) == {};
    }
  }

  lemma EntryFacts(env: Environment, entry: nat, moment: nat)
    requires Steady(env)
    ensures var (trace, exit) := EntryRun(env, entry, moment);
            && AcksFollowHandlers(trace) && Concerns(trace, {entry}) && exit in {Going, Quiet, Raised}
            && (EndsSeverely(trace) ==> exit == Raised) && (exit == Raised ==> EndsFailing(trace))
            && (exit == Going ==> Acks(trace) == {entry})
            && (exit == Quiet ==> env.ended(moment + 1) || EndsCutShort(trace))
            && (forall i :: 0 <= i < |trace| && CutShort(trace[i]) ==> i == |trace| - 1 && exit == Quiet)
            && (|trace| < 2 ==> Acks(trace) == {})
  {
    var trace := EntryRun(env, entry, moment).0;
    if |trace| == 2 { OneAck(trace); }
  }

  lemma NoAcks()
    ensures AcksFollowHandlers([]) && Acks([]) == {}
  {
  }

  lemma OneAck(trace: seq<Trace>)
    requires |trace| == 2 && trace[0].Handle? && trace[1].Acknowledge?
    ensures Acks(trace) == if trace[1].done then {trace[1].entry} else {}
  {
    if trace[1].done { assert trace[1].entry in Acks(trace); }
  }

  lemma NotYetIn(batch: seq<nat>, i: nat)
    requires i < |batch| && forall i, j :: 0 <= i < j < |batch| ==> batch[i] != batch[j]
    ensures batch[i] !in SetOf(batch[..i]) && SetOf(batch[..i + 1]) == SetOf(batch[..i]) + {batch[i]}
  {
    assert batch[..i + 1] == batch[..i] + [batch[i]];
  }

  lemma AcksConcat(a: seq<Trace>, b: seq<Trace>)
    ensures Acks(a + b) == Acks(a) + Acks(b)
    ensures AcksFollowHandlers(a) && AcksFollowHandlers(b) ==> AcksFollowHandlers(a + b)
  {
    var both := a + b;
    assert forall i :: 0 <= i < |a| ==> both[i] == a[i];
    assert forall i :: 0 <= i < |b| ==> both[|a| + i] == b[i];
    forall x | x in Acks(b) ensures x in Acks(both) {
      var i :| 0 <= i < |b| && b[i].Acknowledge? && b[i].done && b[i].entry == x;
      assert both[|a| + i].entry == x;
    }
    forall x | x in Acks(a) ensures x in Acks(both) {
      var i :| 0 <= i < |a| && a[i].Acknowledge? && a[i].done && a[i].entry == x;
      assert both[i].entry == x;
    }
  }

  lemma AddRead(trace: seq<Trace>, t: Trace)
    requires t.FailRead?
    ensures Acks(trace + [t]) == Acks(trace)
    ensures AcksFollowHandlers(trace) ==> AcksFollowHandlers(trace + [t])
    ensures forall entries :: Concerns(trace, entries) ==> Concerns(trace + [t], entries)
  {
    AcksConcat(trace, [t]);
    assert Acks([t]) == {};
  }

  lemma ConcernsAll(a: seq<Trace>, b: seq<Trace>, wide: set<nat>, narrow: set<nat>)
    requires Concerns(a, wide) && Concerns(b, narrow) && narrow <= wide
    ensures Concerns(a + b, wide)
  {
  }
}
