/** Node selection: the one-pass scan of the Redis scripts and the sort-based choice of the in-process strategy. */
module Schedule {
  import opened Types
  import opened Ordering
  import opened Decimal

  const MEMORY_BUCKET_BYTES := 268435456
  const CPU_BUCKET_MILLICORES := 100
  const GOROUTINE_BUCKET_SIZE := 100

  datatype Config = Config(maxAge: int, minMemory: int, minCpu: int, maxGoroutines: int)

  datatype Mode = RoundRobinMode | ResourceAwareMode | OtherMode

  /** A candidate node, the number of grains indexed under it, and the identity that names that index. */
  datatype Candidate = Candidate(node: Node, placements: int, indexKey: string)

  predicate ExactMetric(v: int) {
    0 <= v <= MAX_EXACT_INTEGER
  }

  predicate FreshAndSufficient(m: Metrics, now: int, cfg: Config) {
    && 0 < m.updatedAt <= now
    && now - m.updatedAt <= cfg.maxAge
    && m.memory >= cfg.minMemory
    && m.cpu >= cfg.minCpu
    && (cfg.maxGoroutines == 0 || m.goroutines <= cfg.maxGoroutines)
  }

  /** The metric tests of choose_candidate. */
  predicate LuaUsable(m: Metrics, now: int, cfg: Config) {
    && ExactMetric(m.memory) && ExactMetric(m.cpu) && ExactMetric(m.goroutines) && ExactMetric(m.updatedAt)
    && FreshAndSufficient(m, now, cfg)
  }

  /** The metric tests of ResourceAware.usable. */
  predicate GoUsable(m: Metrics, now: int, cfg: Config) {
    && m.cpu >= 0 && m.memory >= 0 && m.goroutines >= 0
    && FreshAndSufficient(m, now, cfg)
  }

  datatype Rank = Rank(memory: int, cpu: int, goroutines: int, placements: int)

  function RankOf(c: Candidate): Rank {
    Rank(c.node.metrics.memory / MEMORY_BUCKET_BYTES, c.node.metrics.cpu / CPU_BUCKET_MILLICORES,
         c.node.metrics.goroutines / GOROUTINE_BUCKET_SIZE, c.placements)
  }

  /** More memory buckets, then more cpu buckets, then fewer goroutine buckets, then fewer placements. */
  predicate Beats(a: Rank, b: Rank) {
    || a.memory > b.memory
    || (a.memory == b.memory && a.cpu > b.cpu)
    || (a.memory == b.memory && a.cpu == b.cpu && a.goroutines < b.goroutines)
    || (a.memory == b.memory && a.cpu == b.cpu && a.goroutines == b.goroutines && a.placements < b.placements)
  }

  lemma BeatsIsAWeakOrder(a: Rank, b: Rank, c: Rank)
    ensures !Beats(a, a)
    ensures !Beats(a, b) && !Beats(b, a) <==> a == b
    ensures Beats(a, b) && !Beats(c, b) ==> Beats(a, c)
    ensures Beats(a, b) && Beats(b, c) ==> Beats(a, c)
  {
  }

  // ------------------------------------------------------------------------------------------
  // What is usable and what is better, in the metrics themselves.

  /** Metrics that are no older than the configuration allows and meet each of its bounds. */
  predicate Fit(m: Metrics, now: int, cfg: Config) {
    && 0 <= m.memory && 0 <= m.cpu && 0 <= m.goroutines
    && 1 <= m.updatedAt <= now <= m.updatedAt + cfg.maxAge
    && cfg.minMemory <= m.memory && cfg.minCpu <= m.cpu
    && (cfg.maxGoroutines != 0 ==> m.goroutines <= cfg.maxGoroutines)
  }

  /** Metrics a Lua number holds exactly. */
  predicate Exact(m: Metrics) {
    && m.memory <= 9007199254740991 && m.cpu <= 9007199254740991 && m.goroutines <= 9007199254740991
    && m.updatedAt <= 9007199254740991
  }

  /** One candidate is better than another: it has more units of 256 MiB, or as many and more tenths of a processor, or
      as many and fewer hundreds of goroutines, or as many and fewer grains. */
  predicate Better(d: Candidate, c: Candidate) {
    var a, b := d.node.metrics, c.node.metrics;
    if a.memory / 268435456 != b.memory / 268435456 then a.memory / 268435456 > b.memory / 268435456
    else if a.cpu / 100 != b.cpu / 100 then a.cpu / 100 > b.cpu / 100
    else if a.goroutines / 100 != b.goroutines / 100 then a.goroutines / 100 < b.goroutines / 100
    else d.placements < c.placements
  }

  lemma UsableIsFit(m: Metrics, now: int, cfg: Config)
    ensures LuaUsable(m, now, cfg) <==> Fit(m, now, cfg) && Exact(m)
    ensures GoUsable(m, now, cfg) <==> Fit(m, now, cfg)
  {
  }

  lemma BeatsIsBetter(d: Candidate, c: Candidate)
    ensures Beats(RankOf(d), RankOf(c)) <==> Better(d, c)
  {
  }

  /** The scan keeps exactly the fit candidates that no fit candidate is better than. */
  lemma BestAreTheFittest(all: seq<Candidate>, now: int, cfg: Config, c: Candidate)
    ensures c in BestOf(all, now, cfg) <==>
              && c in all && Fit(c.node.metrics, now, cfg) && Exact(c.node.metrics)
              && forall d :: d in all && Fit(d.node.metrics, now, cfg) && Exact(d.node.metrics) ==> !Better(d, c)
  {
    hide LuaUsable, Beats, RankOf, Fit, Exact, Better, Select;
    forall d: Candidate
      ensures LuaUsable(d.node.metrics, now, cfg) <==> Fit(d.node.metrics, now, cfg) && Exact(d.node.metrics)
      ensures Beats(RankOf(d), RankOf(c)) <==> Better(d, c)
    {
      UsableIsFit(d.node.metrics, now, cfg);
      BeatsIsBetter(d, c);
    }
  }

  /** A usable candidate that no usable candidate of the list beats. */
  ghost predicate Unbeaten(c: Candidate, all: seq<Candidate>, now: int, cfg: Config) {
    && LuaUsable(c.node.metrics, now, cfg)
    && forall d :: d in all && LuaUsable(d.node.metrics, now, cfg) ==> !Beats(RankOf(d), RankOf(c))
  }

  /** The members of a list that are unbeaten within another list, in order. */
  ghost function Select(s: seq<Candidate>, all: seq<Candidate>, now: int, cfg: Config): (r: seq<Candidate>)
    ensures forall c :: c in r <==> c in s && Unbeaten(c, all, now, cfg)
  {
    if s == [] then []
    else
      var last := s[|s| - 1];
      assert s == s[..|s| - 1] + [last];
      Select(s[..|s| - 1], all, now, cfg) + if Unbeaten(last, all, now, cfg) then [last] else []
  }

  ghost function BestOf(all: seq<Candidate>, now: int, cfg: Config): seq<Candidate> {
    Select(all, all, now, cfg)
  }

  lemma {:induction false} SelectAgrees(s: seq<Candidate>, a: seq<Candidate>, b: seq<Candidate>, now: int, cfg: Config)
    requires forall c :: c in s ==> (Unbeaten(c, a, now, cfg) <==> Unbeaten(c, b, now, cfg))
    ensures Select(s, a, now, cfg) == Select(s, b, now, cfg)
  {
    if s != [] { SelectAgrees(s[..|s| - 1], a, b, now, cfg); }
  }

  lemma {:induction false} SelectNone(s: seq<Candidate>, all: seq<Candidate>, now: int, cfg: Config)
    requires forall c :: c in s ==> !Unbeaten(c, all, now, cfg)
    ensures Select(s, all, now, cfg) == []
  {
    if s != [] { SelectNone(s[..|s| - 1], all, now, cfg); }
  }

  lemma BestOfSnoc(all: seq<Candidate>, c: Candidate, now: int, cfg: Config)
    ensures BestOf(all + [c], now, cfg)
            == Select(all, all + [c], now, cfg) + if Unbeaten(c, all + [c], now, cfg) then [c] else []
  {
    assert (all + [c])[..|all|] == all;
  }

  ghost predicate RankedAt(best: seq<Candidate>, rank: Rank) {
    forall i :: 0 <= i < |best| ==> RankOf(best[i]) == rank
  }

  /** How the best list grows by one candidate: replaced by a better one, extended by a tie, or kept. */
  lemma BestStep(all: seq<Candidate>, c: Candidate, now: int, cfg: Config, best: seq<Candidate>, rank: Rank)
    requires best == BestOf(all, now, cfg) && RankedAt(best, rank)
    requires best == [] ==> forall d :: d in all ==> !LuaUsable(d.node.metrics, now, cfg)
    ensures BestOf(all + [c], now, cfg)
            == if !LuaUsable(c.node.metrics, now, cfg) then best
               else if best == [] || Beats(RankOf(c), rank) then [c]
               else if RankOf(c) == rank then best + [c]
               else best
  {
    hide LuaUsable, RankOf, Select;
    var grown := all + [c];
    BestOfSnoc(all, c, now, cfg);
    if best != [] { assert best[0] in best; }
    if LuaUsable(c.node.metrics, now, cfg) && (best == [] || Beats(RankOf(c), rank)) {
      forall d | d in all
        ensures !Unbeaten(d, grown, now, cfg)
      {
        assert c in grown;
      }
      SelectNone(all, grown, now, cfg);
    } else {
      forall d | d in all
        ensures Unbeaten(d, all, now, cfg) <==> Unbeaten(d, grown, now, cfg)
      {
        BestSurvives(all, c, now, cfg, best, rank, d);
      }
      SelectAgrees(all, all, grown, now, cfg);
    }
  }

  /** A candidate that is not better than the best leaves the unbeaten ones unbeaten. */
  lemma BestSurvives(all: seq<Candidate>, c: Candidate, now: int, cfg: Config, best: seq<Candidate>, rank: Rank,
      d: Candidate)
    requires best == BestOf(all, now, cfg) && RankedAt(best, rank) && d in all
    requires !(LuaUsable(c.node.metrics, now, cfg) && (best == [] || Beats(RankOf(c), rank)))
    ensures Unbeaten(d, all, now, cfg) <==> Unbeaten(d, all + [c], now, cfg)
  {
    hide LuaUsable, RankOf, Beats, Select;
    if Unbeaten(d, all, now, cfg) {
      assert d in best;
      var i :| 0 <= i < |best| && best[i] == d;
    }
  }

  /** The scan of choose_candidate: the best list after one pass. */
  method ScanBest(candidates: seq<Candidate>, now: int, cfg: Config) returns (best: seq<Candidate>)
    ensures best == BestOf(candidates, now, cfg)
    ensures best == [] <==> forall d :: d in candidates ==> !LuaUsable(d.node.metrics, now, cfg)
  {
    hide Select, Unbeaten, LuaUsable, RankOf;
    best := [];
    var bestRank := Rank(0, 0, 0, 0);
    assert candidates[..0] == [];
    NothingIsBest(now, cfg);
    for i := 0 to |candidates|
      invariant best == BestOf(candidates[..i], now, cfg)
      invariant RankedAt(best, bestRank)
      invariant best == [] ==> forall d :: d in candidates[..i] ==> !LuaUsable(d.node.metrics, now, cfg)
    {
      var candidate := candidates[i];
      BestStep(candidates[..i], candidate, now, cfg, best, bestRank);
      assert candidates[..i + 1] == candidates[..i] + [candidate];
      if LuaUsable(candidate.node.metrics, now, cfg) {
        var rank := RankOf(candidate);
        var better := best == [] || rank.memory > bestRank.memory
                      || (rank.memory == bestRank.memory && rank.cpu > bestRank.cpu)
                      || (rank.memory == bestRank.memory && rank.cpu == bestRank.cpu
                            && rank.goroutines < bestRank.goroutines)
                      || (rank.memory == bestRank.memory && rank.cpu == bestRank.cpu
                            && rank.goroutines == bestRank.goroutines
                          && rank.placements < bestRank.placements);
        var tied := best != [] && rank == bestRank;
        if better {
          best, bestRank := [candidate], rank;
        } else if tied {
          best := best + [candidate];
        }
      }
    }
    assert candidates[..|candidates|] == candidates;
    BestAreUsable(candidates, now, cfg);
    if best != [] { assert best[0] in best; }
  }

  lemma NothingIsBest(now: int, cfg: Config)
    ensures BestOf([], now, cfg) == []
  {
  }

  lemma BestAreUsable(all: seq<Candidate>, now: int, cfg: Config)
    ensures forall c :: c in BestOf(all, now, cfg) ==> c in all && LuaUsable(c.node.metrics, now, cfg)
  {
  }

  /** What choose_candidate selects from a non-empty candidate list. */
  ghost function Choice(candidates: seq<Candidate>, counter: string, mode: Mode, now: int,
      cfg: Config): Option<Candidate>
    requires AllDigits(counter) && candidates != []
  {
    match mode
    case RoundRobinMode => Some(candidates[Value(counter) % |candidates|])
    case ResourceAwareMode =>
      var best := BestOf(candidates, now, cfg);
      if best == [] then None else Some(best[Value(counter) % |best|])
    case OtherMode => None
  }

  method ChooseCandidate(candidates: seq<Candidate>, counter: string, mode: Mode, now: int, cfg: Config)
    returns (chosen: Option<Candidate>)
    requires AllDigits(counter) && candidates != []
    ensures chosen == Choice(candidates, counter, mode, now, cfg)
    ensures chosen.Some? ==> chosen.value in candidates
    ensures mode == ResourceAwareMode ==> IsFittest(chosen, candidates, now, cfg)
  {
    if mode == ResourceAwareMode { ChoiceIsFittest(candidates, counter, now, cfg); }
    hide IsFittest;
    if mode == RoundRobinMode {
      var index := DecimalMod(counter, |candidates|);
      return Some(candidates[index]);
    }
    if mode != ResourceAwareMode { return None; }
    var best := ScanBest(candidates, now, cfg);
    if |best| == 0 { return None; }
    var index := DecimalMod(counter, |best|);
    assert best[index] in best;
    return Some(best[index]);
  }

  /** A choice of a fit candidate that no fit candidate is better than, and of none exactly when no candidate is fit. */
  ghost predicate IsFittest(chosen: Option<Candidate>, candidates: seq<Candidate>, now: int, cfg: Config) {
    match chosen
    case None => forall d :: d in candidates ==> !(Fit(d.node.metrics, now, cfg) && Exact(d.node.metrics))
    case Some(c) =>
      && c in candidates && Fit(c.node.metrics, now, cfg) && Exact(c.node.metrics)
      && forall d :: d in candidates && Fit(d.node.metrics, now, cfg) && Exact(d.node.metrics) ==> !Better(d, c)
  }

  /** The resource-aware choice of the scripts, in the metrics of the candidates. */
  lemma ChoiceIsFittest(candidates: seq<Candidate>, counter: string, now: int, cfg: Config)
    requires AllDigits(counter) && candidates != []
    ensures IsFittest(Choice(candidates, counter, ResourceAwareMode, now, cfg), candidates, now, cfg)
  {
    hide Fit, Exact, Better, LuaUsable, Beats, RankOf, Select;
    var best := BestOf(candidates, now, cfg);
    if best == [] {
      NothingFit(candidates, now, cfg);
    } else {
      var c := best[Value(counter) % |best|];
      assert c in best;
      BestAreTheFittest(candidates, now, cfg, c);
    }
  }

  /** There is a best candidate as soon as one is usable, and the best have one rank. */
  lemma {:induction false} SomeIsBest(all: seq<Candidate>, now: int, cfg: Config) returns (rank: Rank)
    ensures RankedAt(BestOf(all, now, cfg), rank)
    ensures BestOf(all, now, cfg) == [] ==> forall d :: d in all ==> !LuaUsable(d.node.metrics, now, cfg)
    decreases |all|
  {
    hide LuaUsable, RankOf, Select, Beats;
    rank := Rank(0, 0, 0, 0);
    if all == [] {
      NothingIsBest(now, cfg);
    } else {
      var init, c := all[..|all| - 1], all[|all| - 1];
      assert init + [c] == all;
      rank := SomeIsBest(init, now, cfg);
      BestStep(init, c, now, cfg, BestOf(init, now, cfg), rank);
      if BestOf(all, now, cfg) == [c] { rank := RankOf(c); }
    }
  }

  lemma NothingFit(candidates: seq<Candidate>, now: int, cfg: Config)
    requires BestOf(candidates, now, cfg) == []
    ensures forall d :: d in candidates ==> !(Fit(d.node.metrics, now, cfg) && Exact(d.node.metrics))
  {
    hide Fit, Exact, LuaUsable, BestOf;
    var rank := SomeIsBest(candidates, now, cfg);
    forall d | d in candidates
      ensures !(Fit(d.node.metrics, now, cfg) && Exact(d.node.metrics))
    {
      UsableIsFit(d.node.metrics, now, cfg);
    }
  }

  lemma {:induction false} SelectIsNoLonger(some: seq<Candidate>, all: seq<Candidate>, now: int, cfg: Config)
    ensures |Select(some, all, now, cfg)| <= |some|
  {
    if some != [] { SelectIsNoLonger(some[..|some| - 1], all, now, cfg); }
  }

  /** While the candidates stay as they are, each of the best is chosen at some of the next turns. */
  lemma EveryBestHasATurn(candidates: seq<Candidate>, turn: nat, now: int, cfg: Config, c: Candidate)
    returns (wait: nat)
    requires candidates != [] && IsFittest(Some(c), candidates, now, cfg)
    ensures wait < |candidates|
    ensures AllDigits(Format(turn + wait))
    ensures Choice(candidates, Format(turn + wait), ResourceAwareMode, now, cfg) == Some(c)
  {
    hide Fit, Exact, Better, Select, Format;
    var best := BestOf(candidates, now, cfg);
    BestAreTheFittest(candidates, now, cfg, c);
    SelectIsNoLonger(candidates, candidates, now, cfg);
    var i :| 0 <= i < |best| && best[i] == c;
    ConsecutivePicksCoverOnce(turn, |best|, i);
    var k: nat :| k < |best| && PickIndex(turn, k, |best|) == i;
    wait := k;
  }

  lemma ChoiceIsCandidate(candidates: seq<Candidate>, counter: string, mode: Mode, now: int, cfg: Config)
    requires AllDigits(counter) && candidates != []
    ensures Choice(candidates, counter, mode, now, cfg).Some? ==>
              Choice(candidates, counter, mode, now, cfg).value in candidates
  {
    var best := BestOf(candidates, now, cfg);
    if best != [] { assert best[Value(counter) % |best|] in best; }
  }

  // ------------------------------------------------------------------------------------------
  // The in-process strategy.

  function Compare(left: Candidate, right: Candidate): int {
    var a, b := RankOf(left), RankOf(right);
    if a.memory != b.memory then (if a.memory > b.memory then -1 else 1)
    else if a.cpu != b.cpu then (if a.cpu > b.cpu then -1 else 1)
    else if a.goroutines != b.goroutines then (if a.goroutines < b.goroutines then -1 else 1)
    else if a.placements < b.placements then -1
    else if a.placements > b.placements then 1
    else 0
  }

  /** The comparator handed to sort.Slice. */
  predicate Before(left: Candidate, right: Candidate) {
    if Compare(left, right) != 0 then Compare(left, right) < 0
    else StringLess(left.node.identity, right.node.identity)
  }

  ghost predicate SortedCandidates(s: seq<Candidate>) {
    forall i, j :: 0 <= i < j < |s| ==> !Before(s[j], s[i])
  }

  lemma BeforeIsAWeakOrder(a: Candidate, b: Candidate, c: Candidate)
    ensures Compare(a, b) < 0 <==> Beats(RankOf(a), RankOf(b))
    ensures Compare(a, b) == 0 <==> RankOf(a) == RankOf(b)
    ensures Before(a, b) ==> !Before(b, a)
    ensures !Before(b, a) && !Before(c, b) ==> !Before(c, a)
  {
    StringLessTrichotomy(a.node.identity, b.node.identity);
    StringLessTrichotomy(b.node.identity, c.node.identity);
    StringLessTrichotomy(a.node.identity, c.node.identity);
    if StringLess(c.node.identity, a.node.identity) && StringLess(a.node.identity, b.node.identity) {
      StringLessTransitive(c.node.identity, a.node.identity, b.node.identity);
    }
  }

  /** Inserts into a sorted list behind everything that comes before. */
  method Insert(s: seq<Candidate>, c: Candidate) returns (r: seq<Candidate>)
    requires SortedCandidates(s)
    ensures SortedCandidates(r) && multiset(r) == multiset(s) + multiset{c}
  {
    var i := |s|;
    while i > 0 && Before(c, s[i - 1])
      invariant 0 <= i <= |s|
      invariant forall j :: i <= j < |s| ==> Before(c, s[j])
    {
      i := i - 1;
    }
    r := s[..i] + [c] + s[i..];
    assert s == s[..i] + s[i..];
    forall j | 0 <= j < i
      ensures !Before(c, s[j])
    {
      BeforeIsAWeakOrder(s[j], s[i - 1], c);
    }
    forall j | i <= j < |s|
      ensures !Before(s[j], c)
    {
      BeforeIsAWeakOrder(c, s[j], c);
    }
    SplicedIsSorted(s, i, c);
  }

  lemma SplicedIsSorted(s: seq<Candidate>, i: nat, c: Candidate)
    requires SortedCandidates(s) && i <= |s|
    requires forall j :: 0 <= j < i ==> !Before(c, s[j])
    requires forall j :: i <= j < |s| ==> !Before(s[j], c)
    ensures SortedCandidates(s[..i] + [c] + s[i..])
  {
    hide Before;
    var r := s[..i] + [c] + s[i..];
    assert forall p :: 0 <= p < i ==> r[p] == s[p];
    assert r[i] == c;
    assert forall p :: i < p < |r| ==> r[p] == s[p - 1];
  }

  method SortCandidates(cs: seq<Candidate>) returns (s: seq<Candidate>)
    ensures SortedCandidates(s) && multiset(s) == multiset(cs)
  {
    s := [];
    for i := 0 to |cs|
      invariant SortedCandidates(s) && multiset(s) == multiset(cs[..i])
    {
      s := Insert(s, cs[i]);
      assert cs[..i + 1] == cs[..i] + [cs[i]];
    }
    assert cs[..|cs|] == cs;
  }

  function CountOf(counts: map<string, nat>, identity: string): nat {
    if identity in counts then counts[identity] else 0
  }

  /** The candidate list both backends would scan for the same nodes and counts. */
  function CandidatesFor(nodes: seq<Node>, counts: map<string, nat>): (r: seq<Candidate>)
    ensures |r| == |nodes| && forall i :: 0 <= i < |r| ==>
              r[i] == Candidate(nodes[i], CountOf(counts, nodes[i].identity), nodes[i].identity)
  {
    seq(|nodes|, i requires 0 <= i < |nodes| =>
        Candidate(nodes[i], CountOf(counts, nodes[i].identity), nodes[i].identity))
  }

  ghost predicate ExactMetrics(nodes: seq<Node>) {
    forall n :: n in nodes ==> n.metrics.memory <= MAX_EXACT_INTEGER && n.metrics.cpu <= MAX_EXACT_INTEGER
                               && n.metrics.goroutines <= MAX_EXACT_INTEGER && n.metrics.updatedAt <= MAX_EXACT_INTEGER
  }

  const UINT64 := 0x1_0000_0000_0000_0000

  class ResourceAware {
    var next: int
    const config: Config

    ghost predicate Valid()
      reads this
    {
      0 <= next < UINT64
    }

    constructor (config: Config)
      ensures Valid() && next == 0 && this.config == config
    {
      this.config := config;
      next := 0;
    }

    /** Sorts the usable nodes, takes the tied prefix and rotates through it. The ghost result is that prefix:
        as a set it is exactly the best list of the Redis scan over the same nodes, counts and clock, and it is
        listed in identity order. */
    method Choose(nodes: seq<Node>, counts: map<string, nat>, now: int)
      returns (r: Result<Node>, ghost tiedPrefix: seq<Candidate>)
      requires Valid()
      modifies this
      ensures Valid()
      ensures tiedPrefix == [] <==> forall n :: n in nodes ==> !GoUsable(n.metrics, now, config)
      ensures tiedPrefix == [] ==> r == Err(NoAvailableNode) && next == old(next)
      ensures tiedPrefix != [] ==>
                r == Ok(tiedPrefix[old(next) % |tiedPrefix|].node) && next == (old(next) + 1) % UINT64
      ensures forall c :: c in tiedPrefix <==> Leads(c, CandidatesFor(nodes, counts), now, config)
      ensures r.Err? <==> forall n :: n in nodes ==> !Fit(n.metrics, now, config)
      ensures ExactMetrics(nodes) ==>
                forall c :: c in tiedPrefix <==> c in BestOf(CandidatesFor(nodes, counts), now, config)
      ensures forall i, j :: 0 <= i < j < |tiedPrefix| ==>
                !StringLess(tiedPrefix[j].node.identity, tiedPrefix[i].node.identity)
    {
      var candidates := UsableCandidates(nodes, counts, now, config);
      UsableMembers(nodes, counts, candidates, now, config);
      if |candidates| == 0 { return Err(NoAvailableNode), []; }
      var sorted := SortCandidates(candidates);
      SameMembers(sorted, candidates);
      var tied := CountTied(sorted);
      TiedPrefixIsBest(nodes, counts, sorted, tied, now, config);
      TiedPrefixLeads(nodes, counts, sorted, tied, now, config);
      FitNodes(nodes, now, config);
      tiedPrefix := sorted[..tied];
      hide SortedCandidates, GoUsable, BestOf, ExactMetrics, Leads, Fit;
      var turn := next;
      next := (next + 1) % UINT64;
      assert tiedPrefix[turn % tied] == sorted[turn % tied];
      r := Ok(sorted[turn % tied].node);
    }
  }

  method UsableCandidates(nodes: seq<Node>, counts: map<string, nat>, now: int, cfg: Config)
      returns (candidates: seq<Candidate>)
    ensures forall c :: c in candidates <==> c in CandidatesFor(nodes, counts) && GoUsable(c.node.metrics, now, cfg)
  {
    ghost var all := CandidatesFor(nodes, counts);
    candidates := [];
    for i := 0 to |nodes|
      invariant forall c :: c in candidates <==> c in all[..i] && GoUsable(c.node.metrics, now, cfg)
    {
      var node := nodes[i];
      assert all[..i + 1] == all[..i] + [all[i]];
      if GoUsable(node.metrics, now, cfg) {
        candidates := candidates + [Candidate(node, CountOf(counts, node.identity), node.identity)];
      }
    }
    assert all[..|nodes|] == all;
  }

  method CountTied(sorted: seq<Candidate>) returns (tied: nat)
    requires sorted != []
    ensures 1 <= tied <= |sorted|
    ensures forall i :: 0 <= i < tied ==> Compare(sorted[0], sorted[i]) == 0
    ensures tied < |sorted| ==> Compare(sorted[0], sorted[tied]) != 0
  {
    tied := 1;
    while tied < |sorted| && Compare(sorted[0], sorted[tied]) == 0
      invariant 1 <= tied <= |sorted|
      invariant forall i :: 0 <= i < tied ==> Compare(sorted[0], sorted[i]) == 0
    {
      tied := tied + 1;
    }
  }

  lemma SameMembers(a: seq<Candidate>, b: seq<Candidate>)
    requires multiset(a) == multiset(b)
    ensures |a| == |b| && forall c :: c in a <==> c in b
  {
    assert |multiset(a)| == |multiset(b)|;
    assert forall c :: c in a <==> c in multiset(a);
    assert forall c :: c in b <==> c in multiset(b);
  }

  /** The round-robin strategy of the in-process directory. */
  class RoundRobin {
    var next: nat

    constructor ()
      ensures next == 0
    {
      next := 0;
    }

    method Choose(nodes: seq<Node>) returns (r: Result<Node>)
      modifies this
      ensures nodes == [] ==> r == Err(NoAvailableNode) && next == old(next)
      ensures nodes != [] ==> r == Ok(nodes[PickIndex(old(next), 0, |nodes|)]) && next == old(next) + 1
    {
      if |nodes| == 0 { return Err(NoAvailableNode); }
      var node := nodes[next % |nodes|];
      next := next + 1;
      return Ok(node);
    }
  }

  lemma UsableMembers(nodes: seq<Node>, counts: map<string, nat>, candidates: seq<Candidate>, now: int, cfg: Config)
    requires forall c :: c in candidates <==> c in CandidatesFor(nodes, counts) && GoUsable(c.node.metrics, now, cfg)
    ensures candidates == [] <==> forall n :: n in nodes ==> !GoUsable(n.metrics, now, cfg)
  {
    var all := CandidatesFor(nodes, counts);
    if candidates == [] {
      forall n | n in nodes
        ensures !GoUsable(n.metrics, now, cfg)
      {
        var i :| 0 <= i < |nodes| && nodes[i] == n;
        assert all[i] in all && all[i] !in candidates;
      }
    } else {
      assert candidates[0] in candidates;
      var i :| 0 <= i < |all| && all[i] == candidates[0];
      assert nodes[i] in nodes;
    }
  }

  /** In a sorted list the candidates equal in rank to the first form a prefix, and the first beats the rest. */
  lemma SortedRanks(sorted: seq<Candidate>, tied: nat, i: nat)
    requires SortedCandidates(sorted) && 1 <= tied <= |sorted| && i < |sorted|
    requires forall j :: 0 <= j < tied ==> Compare(sorted[0], sorted[j]) == 0
    requires tied < |sorted| ==> Compare(sorted[0], sorted[tied]) != 0
    ensures i < tied ==> RankOf(sorted[i]) == RankOf(sorted[0])
    ensures i >= tied ==> Beats(RankOf(sorted[0]), RankOf(sorted[i]))
  {
    hide RankOf, StringLess;
    BeforeIsAWeakOrder(sorted[0], sorted[i], sorted[0]);
    if i >= tied {
      BeforeIsAWeakOrder(sorted[0], sorted[tied], sorted[i]);
      BeforeIsAWeakOrder(sorted[tied], sorted[0], sorted[i]);
      BeforeIsAWeakOrder(sorted[tied], sorted[i], sorted[0]);
      assert !Before(sorted[tied], sorted[0]);
      assert tied < i ==> !Before(sorted[i], sorted[tied]);
      BeatsIsAWeakOrder(RankOf(sorted[0]), RankOf(sorted[tied]), RankOf(sorted[i]));
    }
  }

  lemma TiesAreByIdentity(sorted: seq<Candidate>, i: nat, j: nat)
    requires SortedCandidates(sorted) && i < j < |sorted|
    requires RankOf(sorted[i]) == RankOf(sorted[j])
    ensures !StringLess(sorted[j].node.identity, sorted[i].node.identity)
  {
    hide StringLess, RankOf;
  }

  lemma UsableAgree(nodes: seq<Node>, counts: map<string, nat>, c: Candidate, now: int, cfg: Config)
    requires ExactMetrics(nodes) && c in CandidatesFor(nodes, counts)
    ensures LuaUsable(c.node.metrics, now, cfg) <==> GoUsable(c.node.metrics, now, cfg)
  {
    var all := CandidatesFor(nodes, counts);
    var i :| 0 <= i < |all| && all[i] == c;
    assert nodes[i] in nodes;
  }

  /** The tied prefix of the sorted usable candidates is exactly the usable candidates no other one beats. */
  lemma TiedPrefixIsBest(nodes: seq<Node>, counts: map<string, nat>, sorted: seq<Candidate>, tied: nat, now: int,
      cfg: Config)
    requires SortedCandidates(sorted) && 1 <= tied <= |sorted|
    requires forall c :: c in sorted <==> c in CandidatesFor(nodes, counts) && GoUsable(c.node.metrics, now, cfg)
    requires forall i :: 0 <= i < tied ==> Compare(sorted[0], sorted[i]) == 0
    requires tied < |sorted| ==> Compare(sorted[0], sorted[tied]) != 0
    ensures ExactMetrics(nodes) ==>
              forall c :: c in sorted[..tied] <==> c in BestOf(CandidatesFor(nodes, counts), now, cfg)
    ensures forall i, j :: 0 <= i < j < tied ==> !StringLess(sorted[j].node.identity, sorted[i].node.identity)
  {
    hide StringLess, LuaUsable, GoUsable, RankOf, Compare, Before, Select;
    var all := CandidatesFor(nodes, counts);
    forall i | 0 <= i < |sorted|
      ensures i < tied ==> RankOf(sorted[i]) == RankOf(sorted[0])
      ensures i >= tied ==> Beats(RankOf(sorted[0]), RankOf(sorted[i]))
    {
      SortedRanks(sorted, tied, i);
    }
    forall i, j | 0 <= i < j < tied
      ensures !StringLess(sorted[j].node.identity, sorted[i].node.identity)
    {
      TiesAreByIdentity(sorted, i, j);
    }
    if ExactMetrics(nodes) {
      forall c | c in all
        ensures LuaUsable(c.node.metrics, now, cfg) <==> c in sorted
      {
        UsableAgree(nodes, counts, c, now, cfg);
      }
      hide SortedCandidates, CandidatesFor, ExactMetrics;
      assert sorted[0] in sorted;
      forall c
        ensures c in sorted[..tied] <==> c in BestOf(all, now, cfg)
      {
        if c in sorted {
          var i :| 0 <= i < |sorted| && sorted[i] == c;
          PrefixMember(sorted, tied, i);
        } else {
          assert c !in sorted[..tied];
        }
      }
    }
  }

  /** A candidate that is fit and that no fit candidate is better than. */
  ghost predicate Leads(c: Candidate, all: seq<Candidate>, now: int, cfg: Config) {
    && c in all && Fit(c.node.metrics, now, cfg)
    && forall d :: d in all && Fit(d.node.metrics, now, cfg) ==> !Better(d, c)
  }

  lemma FitNodes(nodes: seq<Node>, now: int, cfg: Config)
    ensures forall n :: n in nodes ==> (GoUsable(n.metrics, now, cfg) <==> Fit(n.metrics, now, cfg))
  {
  }

  /** The tied prefix in the metrics themselves, whatever their size. */
  lemma TiedPrefixLeads(nodes: seq<Node>, counts: map<string, nat>, sorted: seq<Candidate>, tied: nat, now: int,
      cfg: Config)
    requires SortedCandidates(sorted) && 1 <= tied <= |sorted|
    requires forall c :: c in sorted <==> c in CandidatesFor(nodes, counts) && GoUsable(c.node.metrics, now, cfg)
    requires forall i :: 0 <= i < tied ==> Compare(sorted[0], sorted[i]) == 0
    requires tied < |sorted| ==> Compare(sorted[0], sorted[tied]) != 0
    ensures forall c :: c in sorted[..tied] <==> Leads(c, CandidatesFor(nodes, counts), now, cfg)
  {
    hide StringLess, GoUsable, RankOf, Compare, Before, Beats, Fit, Better;
    var all := CandidatesFor(nodes, counts);
    forall i | 0 <= i < |sorted|
      ensures i < tied ==> RankOf(sorted[i]) == RankOf(sorted[0])
      ensures i >= tied ==> Beats(RankOf(sorted[0]), RankOf(sorted[i]))
    {
      SortedRanks(sorted, tied, i);
    }
    hide SortedCandidates, CandidatesFor;
    assert sorted[0] in sorted;
    forall d: Candidate ensures GoUsable(d.node.metrics, now, cfg) <==> Fit(d.node.metrics, now, cfg) {
      UsableIsFit(d.node.metrics, now, cfg);
    }
    forall c
      ensures c in sorted[..tied] <==> Leads(c, all, now, cfg)
    {
      forall d ensures Beats(RankOf(d), RankOf(c)) <==> Better(d, c) { BeatsIsBetter(d, c); }
      if c in sorted {
        var i :| 0 <= i < |sorted| && sorted[i] == c;
        PrefixMember(sorted, tied, i);
      } else {
        assert c !in sorted[..tied];
      }
    }
  }

  /** A candidate of the sorted usable list is unbeaten exactly when it ties with the first. */
  lemma PrefixMember(sorted: seq<Candidate>, tied: nat, i: nat)
    requires 1 <= tied <= |sorted| && i < |sorted|
    requires forall i :: 0 <= i < tied ==> RankOf(sorted[i]) == RankOf(sorted[0])
    requires forall i :: tied <= i < |sorted| ==> Beats(RankOf(sorted[0]), RankOf(sorted[i]))
    ensures i < tied ==> sorted[i] in sorted[..tied]
    ensures forall d :: d in sorted ==> i < tied ==> !Beats(RankOf(d), RankOf(sorted[i]))
    ensures i >= tied ==> Beats(RankOf(sorted[0]), RankOf(sorted[i])) && sorted[i] !in sorted[..tied]
  {
    hide RankOf;
    assert i < tied ==> sorted[..tied][i] == sorted[i];
  }
}
