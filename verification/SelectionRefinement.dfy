/** Candidate selection in Redis against the in-process candidate listing: on a reachable keyspace the scripts list
    exactly the available nodes of the group, with the placement counts the in-process strategy is shown. */
module SelectionRefinement {
  import opened Types
  import opened Naming
  import opened Ordering
  import opened Decimal
  import opened Keyspace
  import opened Protocol
  import opened Schedule
  import opened RedisInvariant
  import opened NodeRefinement
  import PlacementScripts

  function CandidateAt(w: World, id: string): Candidate
    requires id in w.nodes
  {
    Candidate(w.nodes[id], |Owned(w.byNode, id)|, id)
  }

  /** The listing of some node keys: the available nodes of the group among them, in the same order. */
  ghost predicate Lists(w: World, now: int, g: Group, ids: seq<string>, cs: seq<Candidate>) {
    && (forall i :: 0 <= i < |cs| ==>
          cs[i].indexKey in ids && cs[i].indexKey in Candidates(w, now, g) && cs[i] == CandidateAt(w, cs[i].indexKey))
    && (forall id :: id in ids && id in Candidates(w, now, g) ==> CandidateAt(w, id) in cs)
    && (forall i, j :: 0 <= i < j < |cs| ==> PlacementScripts.KeyLess(cs[i].indexKey, cs[j].indexKey))
  }

  lemma EligibleIsAvailable(k: Keys, now: int, g: Group, id: string, checked: bool)
    requires Reachable(k) && id in Abs(k).nodes
    ensures PlacementScripts.Eligible(k, now, g, id, RedisNode(Abs(k).nodes[id], id, id), checked)
            <==> id in Candidates(Abs(k), now, g)
  {
    hide Reachable, Abs, Score, Members, NameInvalid, NodeType, NodeGroup, NodeName, WellFormedIdentity;
    var n := Abs(k).nodes[id];
    StoredNode(k, id);
    NamesMatch(k, g, n.nodeName);
  }

  lemma CountsMatch(k: Keys, id: string)
    requires Reachable(k) && id in Abs(k).nodes
    ensures PlacementScripts.CandidateOf(k, RedisNode(Abs(k).nodes[id], id, id)) == CandidateAt(Abs(k), id)
  {
    hide Registered, Scored, Valid, Leased, OwnKeys;
    if id in k.index { assert k.index[id].value.Keys == Owned(Abs(k).byNode, id); }
  }

  lemma GatherOneLists(k: Keys, now: int, g: Group, so: seq<Candidate>, id: string, checked: bool)
    requires Reachable(k)
    ensures PlacementScripts.GatherOne(k, now, g, so, id, checked)
            == PlacementScripts.Gathered(
                 if id in Candidates(Abs(k), now, g) then so + [CandidateAt(Abs(k), id)] else so)
  {
    hide Reachable, Abs, Score, Members, NameInvalid, PlacementScripts.Eligible, PlacementScripts.CandidateOf,
         Available;
    FamiliesHold(k);
    StoredNode(k, id);
    if id in Abs(k).nodes {
      EligibleIsAvailable(k, now, g, id, checked);
      CountsMatch(k, id);
    }
  }

  lemma ListsOneMore(w: World, now: int, g: Group, ids: seq<string>, id: string, so: seq<Candidate>)
    requires Lists(w, now, g, ids, so) && SortedBy(ids + [id], PlacementScripts.KeyLess)
    ensures Lists(w, now, g, ids + [id], if id in Candidates(w, now, g) then so + [CandidateAt(w, id)] else so)
  {
    hide PlacementScripts.KeyLess, Candidates, Owned;
    assert forall m :: m in ids ==> exists i :: 0 <= i < |ids| && ids[i] == m;
    assert forall i :: 0 <= i < |ids| ==> (ids + [id])[i] == ids[i] && PlacementScripts.KeyLess(ids[i], id) by {
      assert (ids + [id])[|ids|] == id;
    }
  }

  lemma {:induction false} GatherLists(k: Keys, now: int, g: Group, ids: seq<string>, checked: bool)
    requires Reachable(k) && SortedBy(ids, PlacementScripts.KeyLess)
    ensures var r := PlacementScripts.Gather(k, now, g, ids, checked);
            r.Gathered? && Lists(Abs(k), now, g, ids, r.candidates)
    decreases |ids|
  {
    hide Reachable, Abs, PlacementScripts.GatherOne, Lists, PlacementScripts.KeyLess, Candidates;
    if ids == [] {
      ListsNothing(Abs(k), now, g);
    } else {
      var init, id := ids[..|ids| - 1], ids[|ids| - 1];
      assert init + [id] == ids;
      GatherLists(k, now, g, init, checked);
      var so := PlacementScripts.Gather(k, now, g, init, checked).candidates;
      GatherOneLists(k, now, g, so, id, checked);
      ListsOneMore(Abs(k), now, g, init, id, so);
    }
  }

  lemma ListsNothing(w: World, now: int, g: Group)
    ensures Lists(w, now, g, [], [])
  {
  }

  lemma NodeKeysAreTheGroup(k: Keys, now: int, g: Group)
    requires Reachable(k)
    ensures SortedBy(PlacementScripts.NodeKeys(k, g), PlacementScripts.KeyLess)
    ensures forall id :: id in Candidates(Abs(k), now, g) ==> id in PlacementScripts.NodeKeys(k, g)
  {
    hide Leased, Scored, Valid, PlacementScripts.KeyLess, StringLess;
    PlacementScripts.KeyLessTotal();
  }

  /** The candidates of a script are exactly the available nodes of the group, in encoded-key order. */
  lemma ScriptListsTheAvailable(k: Keys, now: int, g: Group, checked: bool)
    requires Reachable(k)
    ensures var r := PlacementScripts.Gather(k, now, g, PlacementScripts.NodeKeys(k, g), checked);
            && r.Gathered?
            && Lists(Abs(k), now, g, PlacementScripts.NodeKeys(k, g), r.candidates)
            && (forall id :: id in Candidates(Abs(k), now, g) <==> exists c :: c in r.candidates && c.indexKey == id)
            && (r.candidates == [] <==> Candidates(Abs(k), now, g) == {})
  {
    hide Reachable, Abs, PlacementScripts.KeyLess, PlacementScripts.NodeKeys, Available, PlacementScripts.Gather;
    NodeKeysAreTheGroup(k, now, g);
    GatherLists(k, now, g, PlacementScripts.NodeKeys(k, g), checked);
    hide Candidates;
    var cs := PlacementScripts.Gather(k, now, g, PlacementScripts.NodeKeys(k, g), checked).candidates;
    forall id | id in Candidates(Abs(k), now, g)
      ensures exists c :: c in cs && c.indexKey == id
    {
      assert CandidateAt(Abs(k), id) in cs;
    }
    if cs != [] { assert cs[0].indexKey in Candidates(Abs(k), now, g); }
    if Candidates(Abs(k), now, g) != {} { var id :| id in Candidates(Abs(k), now, g); }
  }

  /** The member a script's candidate list shares with what the in-process strategy is shown. */
  lemma BothBackendsSeeTheSameCandidates(k: Keys, now: int, g: Group, checked: bool, c: Candidate)
    requires Reachable(k)
    ensures var r := PlacementScripts.Gather(k, now, g, PlacementScripts.NodeKeys(k, g), checked);
            var input := InputFor(Abs(k), now, g);
            r.Gathered? && (c in r.candidates <==> c in CandidatesFor(input.nodes, input.counts))
  {
    ScriptListsTheAvailable(k, now, g, checked);
    ReachableNamesNodes(k);
    InputCandidate(Abs(k), now, g, c);
    hide Reachable, Abs, PlacementScripts.KeyLess, PlacementScripts.NodeKeys, Available, PlacementScripts.Gather,
         InputFor, Candidates;
  }

  lemma OrderIsComplete(w: World, now: int, g: Group, id: string)
    ensures id in CandidateOrder(w, now, g) <==> id in Candidates(w, now, g)
  {
    StringLessTotal();
  }

  ghost predicate NamedNodes(w: World) {
    forall id :: id in w.nodes ==> w.nodes[id].identity == id
  }

  lemma ReachableNamesNodes(k: Keys)
    requires Reachable(k)
    ensures NamedNodes(Abs(k))
  {
    hide Bookkept, WellFormedIdentity, NodeType, NodeGroup, NodeName;
  }

  lemma InputAt(w: World, now: int, g: Group, i: nat)
    requires NamedNodes(w) && i < |CandidateOrder(w, now, g)|
    ensures var input, id := InputFor(w, now, g), CandidateOrder(w, now, g)[i];
            && |CandidatesFor(input.nodes, input.counts)| == |CandidateOrder(w, now, g)|
            && id in Candidates(w, now, g)
            && CandidatesFor(input.nodes, input.counts)[i] == CandidateAt(w, id)
  {
    hide Available, CandidateOrder, Owned;
  }

  lemma InputCandidate(w: World, now: int, g: Group, c: Candidate)
    requires NamedNodes(w)
    ensures var input := InputFor(w, now, g);
            c in CandidatesFor(input.nodes, input.counts) <==>
                c.indexKey in Candidates(w, now, g) && c == CandidateAt(w, c.indexKey)
  {
    hide Available, CandidateOrder, InputFor, CandidatesFor, Owned;
    assert forall id :: id in Candidates(w, now, g) ==> id in w.nodes;
    hide Candidates;
    var ids, input := CandidateOrder(w, now, g), InputFor(w, now, g);
    var all := CandidatesFor(input.nodes, input.counts);
    InputLength(w, now, g);
    forall i | 0 <= i < |ids|
      ensures ids[i] in Candidates(w, now, g) && all[i] == CandidateAt(w, ids[i])
    {
      InputAt(w, now, g, i);
    }
    if c.indexKey in Candidates(w, now, g) && c == CandidateAt(w, c.indexKey) {
      OrderIsComplete(w, now, g, c.indexKey);
      var i :| 0 <= i < |ids| && ids[i] == c.indexKey;
      assert all[i] == c;
    }
  }

  lemma InputLength(w: World, now: int, g: Group)
    ensures var input := InputFor(w, now, g);
            |CandidatesFor(input.nodes, input.counts)| == |CandidateOrder(w, now, g)|
  {
    hide Available, CandidateOrder, Owned;
  }

  /** Metrics up to the exact-integer bound: the tied best of the Redis scan and the tied best over the
      in-process strategy's input are the same candidates. */
  lemma BothBackendsTieTheSame(k: Keys, now: int, g: Group, checked: bool, cfg: Config, c: Candidate)
    requires Reachable(k)
    ensures var r := PlacementScripts.Gather(k, now, g, PlacementScripts.NodeKeys(k, g), checked);
            var input := InputFor(Abs(k), now, g);
            r.Gathered? && (c in BestOf(r.candidates, now, cfg) <==>
                c in BestOf(CandidatesFor(input.nodes, input.counts), now, cfg))
  {
    hide Reachable, Abs, PlacementScripts.Gather, PlacementScripts.NodeKeys, InputFor, CandidatesFor, LuaUsable,
         Beats, RankOf, Schedule.Select;
    BothBackendsSeeTheSameCandidates(k, now, g, checked, c);
    var cs := PlacementScripts.Gather(k, now, g, PlacementScripts.NodeKeys(k, g), checked).candidates;
    var input := InputFor(Abs(k), now, g);
    var all := CandidatesFor(input.nodes, input.counts);
    forall d
      ensures d in cs <==> d in all
    {
      BothBackendsSeeTheSameCandidates(k, now, g, checked, d);
    }
    assert Unbeaten(c, cs, now, cfg) <==> Unbeaten(c, all, now, cfg);
  }

  // ------------------------------------------------------------------------------------------
  // The selected node.

  predicate CountersBelow(k: Keys, g: Group) {
    && CounterValue(k.sequence) < MAX_EXACT_INTEGER
    && (g in k.roundRobin && k.roundRobin[g].Holds? && AllDigits(k.roundRobin[g].value) ==>
          Value(k.roundRobin[g].value) < MAX_INT64)
  }

  function PickOf(s: PlacementScripts.Selection): Option<Node> {
    if s.Selected? then Some(s.candidate.node) else None
  }

  lemma SequenceReads(k: Keys)
    requires Reachable(k)
    ensures var r := ReadCounter(k.sequence, MaxSequence());
            && (r.Some? <==> CounterValue(k.sequence) < MAX_EXACT_INTEGER)
            && (r.Some? ==> Value(r.value) == CounterValue(k.sequence))
  {
    hide Valid, Registered, Leased, Scored, Intact, OwnKeys, MaxSequence;
    if k.sequence.Some? { CounterAcceptedIff(k.sequence.value.value, MaxSequence()); }
  }

  lemma TurnReads(k: Keys, g: Group)
    requires Reachable(k)
    ensures CountersBelow(k, g) ==> ReadCounter(CellAt(k.roundRobin, g), MaxRoundRobin()).Some?
  {
    hide Valid, Registered, Leased, Scored, Intact, OwnKeys, MaxRoundRobin;
    if g in k.roundRobin { CounterAcceptedIff(k.roundRobin[g].value, MaxRoundRobin()); }
  }

  /** A selection names an available node and the counters to advance; below the maxima it never fails. */
  lemma SelectionIsAvailable(k: Keys, now: int, policy: PlacementScripts.Policy, g: Group, checked: bool)
    requires Reachable(k)
    ensures var s, w := PlacementScripts.Select(k, now, policy, g, checked), Abs(k);
            && (s.Failed? ==> s.fault == InvalidCounter && !CountersBelow(k, g))
            && (s.Selected? ==>
                  && s.candidate.indexKey in Candidates(w, now, g)
                  && s.candidate == CandidateAt(w, s.candidate.indexKey)
                  && s.candidate.node.identity == s.candidate.indexKey
                  && Value(s.sequence) == CounterValue(k.sequence) < MAX_EXACT_INTEGER
                  && Value(Increment(s.turn)) <= MAX_INT64)
            && (Candidates(w, now, g) == {} ==> s.Unselected?)
  {
    hide Reachable, Abs, PlacementScripts.KeyLess, PlacementScripts.NodeKeys, Available, PlacementScripts.Gather,
         Choice, CountersBelow, Increment, Candidates, ReadCounter, MaxSequence, MaxRoundRobin;
    ScriptListsTheAvailable(k, now, g, checked);
    SequenceReads(k);
    TurnReads(k, g);
    var cs := PlacementScripts.Gather(k, now, g, PlacementScripts.NodeKeys(k, g), checked).candidates;
    var turn := ReadCounter(CellAt(k.roundRobin, g), MaxRoundRobin());
    BelowMeansSequence(k, g);
    if cs != [] && turn.Some? {
      ChoiceIsCandidate(cs, turn.value, policy.mode, now, policy.config);
      var choice := Choice(cs, turn.value, policy.mode, now, policy.config);
      if choice.Some? {
        var i :| 0 <= i < |cs| && cs[i] == choice.value;
        CandidateNamesItself(k, now, g, cs[i].indexKey);
      }
    }
  }

  /** A node of the group that is active, unexpired and not marked, with metrics fit for the policy. */
  ghost predicate FitNode(w: World, now: int, g: Group, cfg: Config, id: string) {
    && id in w.nodes && w.nodes[id].nodeType == g.nodeType && w.nodes[id].nodeGroup == g.nodeGroup
    && w.nodes[id].status == Active && now < w.nodes[id].lease.expireAt
    && !(g in w.invalid && w.nodes[id].nodeName in w.invalid[g])
    && Fit(w.nodes[id].metrics, now, cfg) && Exact(w.nodes[id].metrics)
  }

  ghost function Ranked(w: World, id: string): Candidate
    requires id in w.nodes
  {
    Candidate(w.nodes[id], |GrainsOn(w, id)|, id)
  }

  /** Resource-aware selection by a script: a fit node of the group that no other fit node is better than, where each
      counts with the grains placed on it; a selection fails for want of a node exactly when there is no fit one. */
  lemma SelectionIsFittest(k: Keys, now: int, policy: PlacementScripts.Policy, g: Group, checked: bool)
    requires Reachable(k) && policy.mode == ResourceAwareMode
    ensures var s, w := PlacementScripts.Select(k, now, policy, g, checked), Abs(k);
            && (s.Selected? ==>
                  var id := s.candidate.node.identity;
                  && FitNode(w, now, g, policy.config, id) && s.candidate == Ranked(w, id)
                  && forall d :: FitNode(w, now, g, policy.config, d) ==> !Better(Ranked(w, d), Ranked(w, id)))
            && (s.Unselected? ==> forall id :: !FitNode(w, now, g, policy.config, id))
  {
    hide Reachable, Abs, PlacementScripts.KeyLess, PlacementScripts.NodeKeys, Available, PlacementScripts.Gather,
         Choice, Candidates, ReadCounter, MaxSequence, MaxRoundRobin, Fit, Exact, Better, CountersBelow, GrainsOn,
         Increment, Lists;
    ScriptListsTheAvailable(k, now, g, checked);
    SelectionIsAvailable(k, now, policy, g, checked);
    var cs := PlacementScripts.Gather(k, now, g, PlacementScripts.NodeKeys(k, g), checked).candidates;
    var turn := ReadCounter(CellAt(k.roundRobin, g), MaxRoundRobin());
    if cs != [] && turn.Some? {
      ChoiceIsFittest(cs, turn.value, now, policy.config);
      hide PlacementScripts.Select;
    }
    forall id
      ensures FitNode(Abs(k), now, g, policy.config, id) ==>
                && Ranked(Abs(k), id) in cs && Fit(Abs(k).nodes[id].metrics, now, policy.config)
                && Exact(Abs(k).nodes[id].metrics)
    {
      if FitNode(Abs(k), now, g, policy.config, id) { FitIsListed(k, now, g, policy.config, id, cs); }
    }
    forall c | c in cs
      ensures c.indexKey in Abs(k).nodes && c == Ranked(Abs(k), c.indexKey) && c.node.identity == c.indexKey
      ensures Fit(c.node.metrics, now, policy.config) && Exact(c.node.metrics) ==>
                FitNode(Abs(k), now, g, policy.config, c.indexKey)
    {
      ListedIsAvailable(k, now, g, policy.config, cs, c);
    }
  }

  lemma CandidateIsPlain(k: Keys, now: int, g: Group, id: string)
    requires Reachable(k)
    ensures var w := Abs(k);
            && (id in Candidates(w, now, g) <==>
                  && id in w.nodes && w.nodes[id].nodeType == g.nodeType && w.nodes[id].nodeGroup == g.nodeGroup
                  && w.nodes[id].status == Active && now < w.nodes[id].lease.expireAt
                  && !(g in w.invalid && w.nodes[id].nodeName in w.invalid[g]))
            && (id in w.nodes ==> CandidateAt(w, id) == Ranked(w, id) && w.nodes[id].identity == id)
  {
    hide Bookkept, GoodPlacement, WellFormedIdentity;
    assert GrainsOn(Abs(k), id) == Owned(Abs(k).byNode, id);
  }

  lemma FitIsListed(k: Keys, now: int, g: Group, cfg: Config, id: string, cs: seq<Candidate>)
    requires Reachable(k) && FitNode(Abs(k), now, g, cfg, id)
    requires exists ids :: Lists(Abs(k), now, g, ids, cs)
    requires forall d :: d in Candidates(Abs(k), now, g) <==> exists c :: c in cs && c.indexKey == d
    ensures Ranked(Abs(k), id) in cs
  {
    hide Reachable, Abs, Candidates, GrainsOn, Fit, Exact;
    CandidateIsPlain(k, now, g, id);
  }

  lemma ListedIsAvailable(k: Keys, now: int, g: Group, cfg: Config, cs: seq<Candidate>, c: Candidate)
    requires Reachable(k) && c in cs && exists ids :: Lists(Abs(k), now, g, ids, cs)
    ensures c.indexKey in Abs(k).nodes && c == Ranked(Abs(k), c.indexKey) && c.node.identity == c.indexKey
    ensures Fit(c.node.metrics, now, cfg) && Exact(c.node.metrics) ==> FitNode(Abs(k), now, g, cfg, c.indexKey)
  {
    hide Reachable, Abs, Candidates, GrainsOn, Fit, Exact;
    CandidateIsPlain(k, now, g, c.indexKey);
  }

  lemma BelowMeansSequence(k: Keys, g: Group)
    ensures CountersBelow(k, g) ==> CounterValue(k.sequence) < MAX_EXACT_INTEGER
  {
  }

  lemma CandidateNamesItself(k: Keys, now: int, g: Group, id: string)
    requires Reachable(k) && id in Candidates(Abs(k), now, g)
    ensures Abs(k).nodes[id].identity == id
  {
    hide Bookkept, WellFormedIdentity, NodeType, NodeGroup, NodeName;
  }

  /** The in-process choice accepts a script's selection as a strategy's answer. */
  lemma SelectionIsAccepted(k: Keys, now: int, policy: PlacementScripts.Policy, g: Group, checked: bool)
    requires Reachable(k)
    ensures var s := PlacementScripts.Select(k, now, policy, g, checked);
            && (s.Selected? ==> ChooseTarget(Abs(k), now, g, PickOf(s)) == Ok(s.candidate.node))
            && (!s.Selected? ==> ChooseTarget(Abs(k), now, g, PickOf(s)).Err?)
  {
    hide Reachable, Abs, PlacementScripts.Select, Available;
    SelectionIsAvailable(k, now, policy, g, checked);
  }
}
