/** The ensemble convergence engine: consensus, tension and convergence
    figures over a session's endorsements, and cycle detection over the
    `buildsOn` dependency graph. */
module EnsembleAnalysis {
  import opened Common
  import opened EnsembleModels

  // ---------------------------------------------------------------------------
  // Sums and counts over endorsement values
  // ---------------------------------------------------------------------------

  function Sum(vs: seq<real>): real
  {
    if vs == [] then 0.0 else Sum(vs[..|vs| - 1]) + vs[|vs| - 1]
  }

  lemma {:induction false} SumAppend(a: seq<real>, b: seq<real>)
    ensures Sum(a + b) == Sum(a) + Sum(b)
  {
    if b != [] {
      assert (a + b)[..|a + b| - 1] == a + b[..|b| - 1];
      assert (a + b)[|a + b| - 1] == b[|b| - 1];
      SumAppend(a, b[..|b| - 1]);
    } else {
      assert a + b == a;
    }
  }

  lemma {:induction false} SumBounds(vs: seq<real>, lo: real, hi: real)
    requires forall i :: 0 <= i < |vs| ==> lo <= vs[i] <= hi
    ensures lo * (|vs| as real) <= Sum(vs) <= hi * (|vs| as real)
  {
    if vs != [] {
      SumBounds(vs[..|vs| - 1], lo, hi);
    }
  }

  function Mean(vs: seq<real>): real
    requires vs != []
  {
    Sum(vs) / (|vs| as real)
  }

  /** Every endorsement value of every thought, in session order. */
  function AllValues(ts: seq<Thought>): seq<real>
  {
    if ts == [] then [] else AllValues(ts[..|ts| - 1]) + Values(ts[|ts| - 1].endorsements)
  }

  /** Every endorsement level of every thought lies in [lo, hi]. */
  ghost predicate LevelsWithin(ts: seq<Thought>, lo: real, hi: real)
  {
    forall i, j :: 0 <= i < |ts| && 0 <= j < |ts[i].endorsements| ==> lo <= ts[i].endorsements[j].level <= hi
  }

  lemma {:induction false} AllValuesWithin(ts: seq<Thought>, lo: real, hi: real)
    requires LevelsWithin(ts, lo, hi)
    ensures forall k :: 0 <= k < |AllValues(ts)| ==> lo <= AllValues(ts)[k] <= hi
  {
    if ts != [] {
      var init := ts[..|ts| - 1];
      assert LevelsWithin(init, lo, hi) by {
        forall i, j | 0 <= i < |init| && 0 <= j < |init[i].endorsements|
          ensures lo <= init[i].endorsements[j].level <= hi
        {
          assert init[i] == ts[i];
        }
      }
      AllValuesWithin(init, lo, hi);
      var a := AllValues(init);
      var b := Values(ts[|ts| - 1].endorsements);
      forall k | 0 <= k < |a + b| ensures lo <= (a + b)[k] <= hi {
        if k >= |a| {
          assert (a + b)[k] == ts[|ts| - 1].endorsements[k - |a|].level;
        }
      }
    }
  }

  function CountAtLeast(vs: seq<real>, threshold: real): nat
  {
    if vs == [] then 0
    else CountAtLeast(vs[..|vs| - 1], threshold) + (if vs[|vs| - 1] >= threshold then 1 else 0)
  }

  function CountAtMost(vs: seq<real>, threshold: real): nat
  {
    if vs == [] then 0
    else CountAtMost(vs[..|vs| - 1], threshold) + (if vs[|vs| - 1] <= threshold then 1 else 0)
  }

  lemma {:induction false} CountAtLeastAppend(a: seq<real>, b: seq<real>, threshold: real)
    ensures CountAtLeast(a + b, threshold) == CountAtLeast(a, threshold) + CountAtLeast(b, threshold)
  {
    if b != [] {
      assert (a + b)[..|a + b| - 1] == a + b[..|b| - 1];
      assert (a + b)[|a + b| - 1] == b[|b| - 1];
      CountAtLeastAppend(a, b[..|b| - 1], threshold);
    } else {
      assert a + b == a;
    }
  }

  /** A count is non-zero exactly when some value passes the test. */
  lemma {:induction false} CountAtLeastPositive(vs: seq<real>, threshold: real)
    ensures CountAtLeast(vs, threshold) <= |vs|
    ensures CountAtLeast(vs, threshold) > 0 <==> exists i :: 0 <= i < |vs| && vs[i] >= threshold
    ensures CountAtLeast(vs, threshold) == |vs| <==> forall i :: 0 <= i < |vs| ==> vs[i] >= threshold
  {
    if vs != [] {
      var init := vs[..|vs| - 1];
      CountAtLeastPositive(init, threshold);
      if CountAtLeast(vs, threshold) == |vs| {
        forall i | 0 <= i < |vs| ensures vs[i] >= threshold {
          if i < |vs| - 1 {
            assert vs[i] == init[i];
          }
        }
      }
      if forall i :: 0 <= i < |vs| ==> vs[i] >= threshold {
        assert forall i :: 0 <= i < |init| ==> init[i] == vs[i];
      }
      if exists i :: 0 <= i < |vs| && vs[i] >= threshold {
        var i :| 0 <= i < |vs| && vs[i] >= threshold;
        if i < |vs| - 1 {
          assert init[i] == vs[i];
        }
      }
    }
  }

  lemma {:induction false} CountAtMostPositive(vs: seq<real>, threshold: real)
    ensures CountAtMost(vs, threshold) > 0 <==> exists i :: 0 <= i < |vs| && vs[i] <= threshold
  {
    if vs != [] {
      var init := vs[..|vs| - 1];
      CountAtMostPositive(init, threshold);
      if exists i :: 0 <= i < |vs| && vs[i] <= threshold {
        var i :| 0 <= i < |vs| && vs[i] <= threshold;
        if i < |vs| - 1 {
          assert init[i] == vs[i];
        }
      }
    }
  }

  /** With the positive threshold above the negative one, no value is counted twice. */
  lemma {:induction false} CountsDisjoint(vs: seq<real>, pos: real, neg: real)
    requires neg < pos
    ensures CountAtLeast(vs, pos) + CountAtMost(vs, neg) <= |vs|
  {
    if vs != [] {
      CountsDisjoint(vs[..|vs| - 1], pos, neg);
    }
  }

  // ---------------------------------------------------------------------------
  // calculate_consensus
  // ---------------------------------------------------------------------------

  datatype ConsensusEntry = ConsensusEntry(thoughtId: int, agent: string, excerpt: string, agreement: real)

  datatype Consensus = Consensus(consensusThoughts: seq<ConsensusEntry>, avgAgreement: real)

  /** At least one endorsement, and their mean reaches the threshold. */
  predicate Agreed(t: Thought, threshold: real)
  {
    t.endorsements != [] && Mean(Values(t.endorsements)) >= threshold
  }

  function EntryOf(t: Thought): ConsensusEntry
    requires t.endorsements != []
  {
    ConsensusEntry(t.id, t.agentLens, Take(t.text, 100), Mean(Values(t.endorsements)))
  }

  /** The loop's accumulators: entries so far, running sum and running count of values. */
  datatype Tally = Tally(entries: seq<ConsensusEntry>, sum: real, count: nat)

  function TallyOf(ts: seq<Thought>, threshold: real): Tally
  {
    if ts == [] then Tally([], 0.0, 0)
    else
      var acc := TallyOf(ts[..|ts| - 1], threshold);
      var t := ts[|ts| - 1];
      if t.endorsements == [] then acc
      else
        var vs := Values(t.endorsements);
        Tally(acc.entries + (if Mean(vs) >= threshold then [EntryOf(t)] else []),
              acc.sum + Sum(vs), acc.count + |vs|)
  }

  /** `calculate_consensus`, without the final rounding to two decimals. */
  function CalculateConsensus(ts: seq<Thought>, threshold: real): (r: Consensus)
    ensures |ts| < 2 ==> r == Consensus([], 0.0)
    ensures |ts| >= 2 ==> r.consensusThoughts == TallyOf(ts, threshold).entries
  {
    if |ts| < 2 then Consensus([], 0.0)
    else
      var acc := TallyOf(ts, threshold);
      Consensus(acc.entries, if acc.count != 0 then acc.sum / (acc.count as real) else 0.0)
  }

  lemma {:induction false} TallyMember(ts: seq<Thought>, threshold: real, e: ConsensusEntry)
    ensures e in TallyOf(ts, threshold).entries <==>
              exists i :: 0 <= i < |ts| && Agreed(ts[i], threshold) && e == EntryOf(ts[i])
  {
    if ts != [] {
      var init := ts[..|ts| - 1];
      var last := ts[|ts| - 1];
      TallyMember(init, threshold, e);
      var entries := TallyOf(ts, threshold).entries;
      assert entries == TallyOf(init, threshold).entries + (if Agreed(last, threshold) then [EntryOf(last)] else []);
      if e in entries {
        if e in TallyOf(init, threshold).entries {
          var i :| 0 <= i < |init| && Agreed(init[i], threshold) && e == EntryOf(init[i]);
          assert ts[i] == init[i];
        } else {
          assert Agreed(ts[|ts| - 1], threshold) && e == EntryOf(ts[|ts| - 1]);
        }
      }
      if exists i :: 0 <= i < |ts| && Agreed(ts[i], threshold) && e == EntryOf(ts[i]) {
        var i :| 0 <= i < |ts| && Agreed(ts[i], threshold) && e == EntryOf(ts[i]);
        if i < |ts| - 1 {
          assert init[i] == ts[i];
        }
      }
    }
  }

  /** A thought is reported iff it has endorsements whose mean reaches the threshold,
      and it is reported with its id, agent, first 100 characters and mean. */
  lemma ConsensusMembership(ts: seq<Thought>, threshold: real, e: ConsensusEntry)
    requires |ts| >= 2
    ensures e in CalculateConsensus(ts, threshold).consensusThoughts <==>
              exists i :: 0 <= i < |ts| && Agreed(ts[i], threshold) && e == EntryOf(ts[i])
  {
    TallyMember(ts, threshold, e);
  }

  lemma {:induction false} TallyOrder(ts: seq<Thought>, threshold: real)
    requires Numbered(ts)
    ensures forall e :: e in TallyOf(ts, threshold).entries ==> 1 <= e.thoughtId <= |ts|
    ensures forall j, k :: 0 <= j < k < |TallyOf(ts, threshold).entries| ==>
              TallyOf(ts, threshold).entries[j].thoughtId < TallyOf(ts, threshold).entries[k].thoughtId
  {
    if ts != [] {
      var init := ts[..|ts| - 1];
      TallyOrder(init, threshold);
    }
  }

  /** Entries follow the session's thought order. */
  lemma ConsensusInThoughtOrder(ts: seq<Thought>, threshold: real)
    requires Numbered(ts)
    ensures forall j, k :: 0 <= j < k < |CalculateConsensus(ts, threshold).consensusThoughts| ==>
              CalculateConsensus(ts, threshold).consensusThoughts[j].thoughtId
              < CalculateConsensus(ts, threshold).consensusThoughts[k].thoughtId
  {
    TallyOrder(ts, threshold);
  }

  lemma {:induction false} TallyTotals(ts: seq<Thought>, threshold: real)
    ensures TallyOf(ts, threshold).sum == Sum(AllValues(ts))
    ensures TallyOf(ts, threshold).count == |AllValues(ts)|
  {
    if ts != [] {
      var init := ts[..|ts| - 1];
      TallyTotals(init, threshold);
      SumAppend(AllValues(init), Values(ts[|ts| - 1].endorsements));
    }
  }

  /** The average agreement is one flat mean over every endorsement value,
      or 0 when there is none. */
  lemma AvgAgreementIsFlatMean(ts: seq<Thought>, threshold: real)
    requires |ts| >= 2
    ensures CalculateConsensus(ts, threshold).avgAgreement ==
              if AllValues(ts) == [] then 0.0 else Mean(AllValues(ts))
  {
    TallyTotals(ts, threshold);
  }

  /** Endorsement levels in [-1, 1] give an average agreement in [-1, 1]. */
  lemma AvgAgreementBounded(ts: seq<Thought>, threshold: real)
    requires LevelsWithin(ts, -1.0, 1.0)
    ensures -1.0 <= CalculateConsensus(ts, threshold).avgAgreement <= 1.0
  {
    if |ts| >= 2 {
      AvgAgreementIsFlatMean(ts, threshold);
      var all := AllValues(ts);
      if all != [] {
        MeanBounded(ts, all);
      }
    }
  }

  lemma MeanBounded(ts: seq<Thought>, all: seq<real>)
    requires LevelsWithin(ts, -1.0, 1.0) && all == AllValues(ts) && all != []
    ensures -1.0 <= Mean(all) <= 1.0
  {
    AllValuesWithin(ts, -1.0, 1.0);
    SumBounds(all, -1.0, 1.0);
    DivBounds(Sum(all), |all| as real);
  }

  lemma DivBounds(s: real, n: real)
    requires n > 0.0 && -n <= s <= n
    ensures -1.0 <= s / n <= 1.0
  {
  }

  /** The flat mean is not the mean of per-thought means: one thought endorsed 1.0
      once and one endorsed 0.0 twice give 1/3, not 1/2. */
  lemma AvgAgreementNotMeanOfMeans()
    ensures var a := Thought(1, "a", "analytical", [], 0.5, [Endorsement("creative", 1.0)], [], "");
            var b := Thought(2, "b", "creative", [], 0.5,
                             [Endorsement("analytical", 0.0), Endorsement("ethical", 0.0)], [], "");
            CalculateConsensus([a, b], 0.6).avgAgreement == 1.0 / 3.0
  {
    var a := Thought(1, "a", "analytical", [], 0.5, [Endorsement("creative", 1.0)], [], "");
    var b := Thought(2, "b", "creative", [], 0.5,
                     [Endorsement("analytical", 0.0), Endorsement("ethical", 0.0)], [], "");
    assert Values(a.endorsements) == [1.0];
    assert Values(b.endorsements) == [0.0, 0.0];
    assert Sum([1.0]) == 1.0 by { assert [1.0][..0] == []; }
    assert Sum([0.0, 0.0]) == 0.0 by { assert [0.0, 0.0][..1] == [0.0]; assert [0.0][..0] == []; }
    assert [a, b][..1] == [a];
    assert [a][..0] == [];
    var ta := TallyOf([a], 0.6);
    assert TallyOf([a][..0], 0.6) == Tally([], 0.0, 0);
    assert [a][0] == a;
    assert ta.sum == 0.0 + Sum(Values(a.endorsements));
    assert ta.sum == 1.0;
    assert ta.count == 1;
    var ab := [a, b];
    assert ab[..|ab| - 1] == [a] && ab[|ab| - 1] == b;
    var tab := TallyOf(ab, 0.6);
    assert tab.sum == ta.sum + Sum(Values(b.endorsements));
    assert tab.count == ta.count + |Values(b.endorsements)|;
  }

  // ---------------------------------------------------------------------------
  // identify_tensions
  // ---------------------------------------------------------------------------

  datatype Tension = Tension(thoughtId: int, agent: string, excerpt: string,
                             supporters: nat, challengers: nat, challenges: seq<Challenge>)

  /** Some endorsement reaches the positive threshold and some reaches the negative one. */
  predicate Contested(t: Thought, cfg: Config)
  {
    (exists j :: 0 <= j < |t.endorsements| && t.endorsements[j].level >= cfg.positiveEndorsementThreshold)
    && (exists j :: 0 <= j < |t.endorsements| && t.endorsements[j].level <= cfg.negativeEndorsementThreshold)
  }

  function TensionOf(t: Thought, cfg: Config): Tension
  {
    var vs := Values(t.endorsements);
    Tension(t.id, t.agentLens, Take(t.text, 100),
            CountAtLeast(vs, cfg.positiveEndorsementThreshold),
            CountAtMost(vs, cfg.negativeEndorsementThreshold),
            t.challenges)
  }

  /** `identify_tensions`. */
  function IdentifyTensions(ts: seq<Thought>, cfg: Config): seq<Tension>
  {
    if ts == [] then []
    else
      var t := ts[|ts| - 1];
      var vs := Values(t.endorsements);
      IdentifyTensions(ts[..|ts| - 1], cfg)
      + (if t.endorsements != []
            && CountAtLeast(vs, cfg.positiveEndorsementThreshold) > 0
            && CountAtMost(vs, cfg.negativeEndorsementThreshold) > 0
         then [TensionOf(t, cfg)] else [])
  }

  lemma ContestedCounts(t: Thought, cfg: Config)
    ensures Contested(t, cfg) <==>
              t.endorsements != []
              && CountAtLeast(Values(t.endorsements), cfg.positiveEndorsementThreshold) > 0
              && CountAtMost(Values(t.endorsements), cfg.negativeEndorsementThreshold) > 0
  {
    var vs := Values(t.endorsements);
    CountAtLeastPositive(vs, cfg.positiveEndorsementThreshold);
    CountAtMostPositive(vs, cfg.negativeEndorsementThreshold);
  }

  /** A thought is reported iff it is contested; `supporters` and `challengers`
      are the two counts. */
  lemma {:induction false} TensionsMembership(ts: seq<Thought>, cfg: Config)
    ensures forall e :: e in IdentifyTensions(ts, cfg) <==>
              exists i :: 0 <= i < |ts| && Contested(ts[i], cfg) && e == TensionOf(ts[i], cfg)
  {
    forall e | e in IdentifyTensions(ts, cfg)
      ensures exists i :: 0 <= i < |ts| && Contested(ts[i], cfg) && e == TensionOf(ts[i], cfg)
    {
      var i := TensionSource(ts, cfg, e);
    }
    forall i | 0 <= i < |ts| && Contested(ts[i], cfg)
      ensures TensionOf(ts[i], cfg) in IdentifyTensions(ts, cfg)
    {
      TensionReported(ts, cfg, i);
    }
  }

  /** The thought a reported tension comes from. */
  lemma {:induction false} TensionSource(ts: seq<Thought>, cfg: Config, e: Tension) returns (i: int)
    requires e in IdentifyTensions(ts, cfg)
    ensures 0 <= i < |ts| && Contested(ts[i], cfg) && e == TensionOf(ts[i], cfg)
  {
    var init := ts[..|ts| - 1];
    var last := ts[|ts| - 1];
    ContestedCounts(last, cfg);
    if e in IdentifyTensions(init, cfg) {
      i := TensionSource(init, cfg, e);
      assert ts[i] == init[i];
    } else {
      i := |ts| - 1;
    }
  }

  /** Every contested thought is reported. */
  lemma {:induction false} TensionReported(ts: seq<Thought>, cfg: Config, i: int)
    requires 0 <= i < |ts| && Contested(ts[i], cfg)
    ensures TensionOf(ts[i], cfg) in IdentifyTensions(ts, cfg)
  {
    var init := ts[..|ts| - 1];
    if i == |ts| - 1 {
      ContestedCounts(ts[i], cfg);
    } else {
      assert init[i] == ts[i];
      TensionReported(init, cfg, i);
    }
  }

  /** With the positive threshold above the negative one, supporters and challengers
      together never exceed the thought's endorsements. */
  lemma TensionCountsBounded(t: Thought, cfg: Config)
    requires cfg.negativeEndorsementThreshold < cfg.positiveEndorsementThreshold
    ensures TensionOf(t, cfg).supporters + TensionOf(t, cfg).challengers <= |t.endorsements|
  {
    CountsDisjoint(Values(t.endorsements), cfg.positiveEndorsementThreshold, cfg.negativeEndorsementThreshold);
  }

  // ---------------------------------------------------------------------------
  // compute_convergence_score
  // ---------------------------------------------------------------------------

  /** The loop's two counters: all values seen, and those at or above the threshold. */
  function ScoreCounts(ts: seq<Thought>, threshold: real): (r: (nat, nat))
    ensures r.1 <= r.0
  {
    if ts == [] then (0, 0)
    else
      var acc := ScoreCounts(ts[..|ts| - 1], threshold);
      var vs := Values(ts[|ts| - 1].endorsements);
      CountAtLeastPositive(vs, threshold);
      (acc.0 + |vs|, acc.1 + CountAtLeast(vs, threshold))
  }

  /** `compute_convergence_score`. */
  function ConvergenceScore(ts: seq<Thought>, cfg: Config): (r: real)
    ensures 0.0 <= r <= 1.0
  {
    if |ts| < 3 then 0.0
    else
      var counts := ScoreCounts(ts, cfg.positiveEndorsementThreshold);
      if counts.0 == 0 then 0.0
      else
        RatioBounded(counts.1, counts.0);
        (counts.1 as real) / (counts.0 as real)
  }

  lemma RatioBounded(c: nat, n: nat)
    requires c <= n && n > 0
    ensures 0.0 <= (c as real) / (n as real) <= 1.0
  {
    assert (c as real) / (n as real) * (n as real) == c as real;
  }

  lemma {:induction false} ScoreCountsFlat(ts: seq<Thought>, threshold: real)
    ensures ScoreCounts(ts, threshold) == (|AllValues(ts)|, CountAtLeast(AllValues(ts), threshold))
  {
    if ts != [] {
      var init := ts[..|ts| - 1];
      ScoreCountsFlat(init, threshold);
      CountAtLeastAppend(AllValues(init), Values(ts[|ts| - 1].endorsements), threshold);
    }
  }

  /** The score is 0 with fewer than three thoughts or no endorsement at all, and
      otherwise the share of all endorsement values at or above the positive threshold. */
  lemma ConvergenceScoreIsShare(ts: seq<Thought>, cfg: Config)
    ensures |ts| < 3 || AllValues(ts) == [] ==> ConvergenceScore(ts, cfg) == 0.0
    ensures |ts| >= 3 && AllValues(ts) != [] ==>
              ConvergenceScore(ts, cfg) ==
                (CountAtLeast(AllValues(ts), cfg.positiveEndorsementThreshold) as real) / (|AllValues(ts)| as real)
  {
    ScoreCountsFlat(ts, cfg.positiveEndorsementThreshold);
  }

  /** Full convergence means every value of a session of three or more thoughts is positive. */
  lemma ConvergenceFullIffAllPositive(ts: seq<Thought>, cfg: Config)
    ensures ConvergenceScore(ts, cfg) == 1.0 <==>
              |ts| >= 3 && AllValues(ts) != []
              && forall k :: 0 <= k < |AllValues(ts)| ==> AllValues(ts)[k] >= cfg.positiveEndorsementThreshold
  {
    ConvergenceScoreIsShare(ts, cfg);
    var all := AllValues(ts);
    CountAtLeastPositive(all, cfg.positiveEndorsementThreshold);
    if |ts| >= 3 && all != [] {
      RatioIsOne(CountAtLeast(all, cfg.positiveEndorsementThreshold), |all|);
    }
  }

  lemma RatioIsOne(c: nat, n: nat)
    requires n > 0
    ensures (c as real) / (n as real) == 1.0 <==> c == n
  {
    if (c as real) / (n as real) == 1.0 {
      assert c as real == ((c as real) / (n as real)) * (n as real);
    }
  }

  // ---------------------------------------------------------------------------
  // detect_cycles
  // ---------------------------------------------------------------------------

  /** The `buildsOn` list of the thought with id `id`, or [] when there is none. */
  function Deps(ts: seq<Thought>, id: int): seq<int>
  {
    if 1 <= id <= |ts| then ts[id - 1].buildsOn else []
  }

  /** The id at position `k` builds on the one after it. */
  ghost predicate Links(ts: seq<Thought>, c: seq<int>, k: int)
    requires 0 <= k < |c| - 1
  {
    c[k + 1] in Deps(ts, c[k])
  }

  /** The id at position `k + 1` builds on the one before it (a walk up the parent pointers). */
  ghost predicate BackLinks(ts: seq<Thought>, w: seq<int>, k: int)
    requires 0 <= k < |w| - 1
  {
    w[k] in Deps(ts, w[k + 1])
  }

  /** Each id builds on the next, and the last builds on the first. */
  ghost predicate IsCycle(ts: seq<Thought>, c: seq<int>)
  {
    && |c| > 0
    && (forall k :: 0 <= k < |c| - 1 ==> Links(ts, c, k))
    && c[0] in Deps(ts, c[|c| - 1])
  }

  ghost predicate Distinct(c: seq<int>)
  {
    forall j, k :: 0 <= j < k < |c| ==> c[j] != c[k]
  }

  predicate StartsAtMin(c: seq<int>)
  {
    c != [] ==> forall k :: 0 <= k < |c| ==> c[0] <= c[k]
  }

  /** What every reported cycle satisfies. */
  ghost predicate Reported(ts: seq<Thought>, c: seq<int>)
  {
    IsCycle(ts, c) && Distinct(c) && StartsAtMin(c)
  }

  /** Python's `cycle.index(min(cycle))`: the first position of the minimum. */
  function MinIndex(c: seq<int>): (i: nat)
    requires c != []
    ensures i < |c|
    ensures forall k :: 0 <= k < |c| ==> c[i] <= c[k]
    ensures forall k :: 0 <= k < i ==> c[k] > c[i]
  {
    if |c| == 1 then 0
    else
      var j := MinIndex(c[1..]);
      if c[0] <= c[1 + j] then 0 else 1 + j
  }

  /** `_normalize_cycle`: rotate so that the smallest id comes first. */
  function Normalize(c: seq<int>): (r: seq<int>)
    ensures |r| == |c|
    ensures StartsAtMin(r)
  {
    if c == [] then []
    else
      var i := MinIndex(c);
      var r := c[i..] + c[..i];
      assert r[0] == c[i];
      assert forall k :: 0 <= k < |r| ==> r[k] == (if k < |c| - i then c[i + k] else c[k - (|c| - i)]);
      r
  }

  lemma RotationPreservesCycle(ts: seq<Thought>, c: seq<int>, i: nat)
    requires IsCycle(ts, c) && Distinct(c) && i < |c|
    ensures IsCycle(ts, c[i..] + c[..i]) && Distinct(c[i..] + c[..i])
  {
    var n := |c|;
    var r := c[i..] + c[..i];
    assert forall k :: 0 <= k < n ==> r[k] == (if k < n - i then c[i + k] else c[k - (n - i)]);
    forall k | 0 <= k < n - 1 ensures Links(ts, r, k) {
      if k == n - i - 1 {
        assert r[k] == c[n - 1] && r[k + 1] == c[0];
      } else if k < n - i - 1 {
        assert Links(ts, c, i + k);
      } else {
        assert Links(ts, c, k - (n - i));
      }
    }
    if i > 0 {
      assert r[n - 1] == c[i - 1] && r[0] == c[i];
      assert Links(ts, c, i - 1);
    }
    forall j, k | 0 <= j < k < n ensures r[j] != r[k] {
      var cj := if j < n - i then i + j else j - (n - i);
      var ck := if k < n - i then i + k else k - (n - i);
      assert cj != ck;
      if cj < ck {
        assert c[cj] != c[ck];
      } else {
        assert c[ck] != c[cj];
      }
    }
  }

  lemma NormalizeReports(ts: seq<Thought>, c: seq<int>)
    requires IsCycle(ts, c) && Distinct(c)
    ensures Reported(ts, Normalize(c))
  {
    RotationPreservesCycle(ts, c, MinIndex(c));
  }

  /** `list(reversed(s))`. */
  function Reverse(s: seq<int>): (r: seq<int>)
    ensures |r| == |s|
    ensures forall k :: 0 <= k < |s| ==> r[k] == s[|s| - 1 - k]
  {
    if s == [] then [] else [s[|s| - 1]] + Reverse(s[..|s| - 1])
  }

  lemma ReverseDistinct(s: seq<int>)
    requires Distinct(s)
    ensures Distinct(Reverse(s))
  {
    var r := Reverse(s);
    forall j, k | 0 <= j < k < |r| ensures r[j] != r[k] {
      assert r[j] == s[|s| - 1 - j] && r[k] == s[|s| - 1 - k];
    }
  }

  lemma ReversedLinks(ts: seq<Thought>, walk: seq<int>)
    requires forall k :: 0 <= k < |walk| - 1 ==> BackLinks(ts, walk, k)
    ensures forall k :: 0 <= k < |walk| - 1 ==> Links(ts, Reverse(walk), k)
  {
    var n := |walk|;
    var r := Reverse(walk);
    forall k | 0 <= k < n - 1 ensures Links(ts, r, k) {
      var j := n - 2 - k;
      assert BackLinks(ts, walk, j);
      assert r[k + 1] == walk[j] && r[k] == walk[j + 1];
    }
  }

  /** A parent-pointer walk `[dep, node, parent(node), ...]` that closed back on `dep`,
      read backwards, is a cycle. */
  lemma ReversedWalkIsCycle(ts: seq<Thought>, walk: seq<int>)
    requires |walk| > 0
    requires forall k :: 0 <= k < |walk| - 1 ==> BackLinks(ts, walk, k)
    requires walk[|walk| - 1] in Deps(ts, walk[0])
    ensures IsCycle(ts, Reverse(walk))
  {
    ReversedLinks(ts, walk);
    var r := Reverse(walk);
    assert r[0] == walk[|walk| - 1] && r[|r| - 1] == walk[0];
  }

  /** How many ids `Universe` holds bounds how often the DFS can colour a new id. */
  ghost function Universe(ts: seq<Thought>): set<int>
  {
    if ts == [] then {} else {ts[0].id} + (set x | x in ts[0].buildsOn) + Universe(ts[1..])
  }

  lemma {:induction false} UniverseCovers(ts: seq<Thought>)
    ensures forall i :: 0 <= i < |ts| ==> ts[i].id in Universe(ts)
    ensures forall i, x :: 0 <= i < |ts| && x in ts[i].buildsOn ==> x in Universe(ts)
  {
    if ts != [] {
      UniverseCovers(ts[1..]);
      forall i | 1 <= i < |ts| ensures ts[i] == ts[1..][i - 1] {
      }
    }
  }

  /** The remaining work on the stack: children still to visit, plus one for the pop. */
  ghost function Pending(ts: seq<Thought>, e: (int, int)): nat
  {
    if e.1 < |Deps(ts, e.0)| then |Deps(ts, e.0)| - e.1 + 1 else 1
  }

  ghost function Work(ts: seq<Thought>, stack: seq<(int, int)>): nat
  {
    if stack == [] then 0 else Work(ts, stack[..|stack| - 1]) + Pending(ts, stack[|stack| - 1])
  }

  /** Every parent pointer follows a dependency edge to an earlier-discovered id. */
  ghost predicate ParentsOk(ts: seq<Thought>, parent: map<int, int>, disc: map<int, nat>)
  {
    forall x :: x in parent ==>
      && x in disc && parent[x] in disc && disc[parent[x]] < disc[x]
      && x in Deps(ts, parent[x])
  }

  function ColorOf(color: map<int, int>, x: int): int
  {
    if x in color then color[x] else 0
  }

  ghost predicate StrictlyIncreasing(xs: seq<seq<int>>)
  {
    forall j, k :: 0 <= j < k < |xs| ==> LexLess(xs[j], xs[k])
  }

  function InsertLex(x: seq<int>, xs: seq<seq<int>>): (r: seq<seq<int>>)
    requires StrictlyIncreasing(xs) && x !in xs
    ensures StrictlyIncreasing(r)
    ensures forall c :: c in r <==> c == x || c in xs
  {
    if xs == [] then [x]
    else if LexLess(x, xs[0]) then
      assert forall k :: 0 < k < |xs| ==> LexLess(xs[0], xs[k]);
      forall k | 0 < k < |xs| ensures LexLess(x, xs[k]) {
        LexTransitive(x, xs[0], xs[k]);
      }
      [x] + xs
    else
      LexTotal(x, xs[0]);
      var rest := InsertLex(x, xs[1..]);
      assert forall c :: c in rest ==> LexLess(xs[0], c) by {
        forall c | c in rest ensures LexLess(xs[0], c) {
          if c != x {
            var k :| 0 <= k < |xs[1..]| && xs[1..][k] == c;
            assert xs[k + 1] == c;
          }
        }
      }
      [xs[0]] + rest
  }

  /** `sorted(cycles_set)`: Python's tuple order, so no two results are equal. */
  method SortCycles(found: set<seq<int>>) returns (r: seq<seq<int>>)
    ensures forall c :: c in r <==> c in found
    ensures StrictlyIncreasing(r)
  {
    r := [];
    var rest := found;
    while rest != {}
      invariant rest <= found
      invariant forall c :: c in r <==> c in found && c !in rest
      invariant StrictlyIncreasing(r)
      decreases |rest|
    {
      var c :| c in rest;
      r := InsertLex(c, r);
      rest := rest - {c};
    }
  }

  /** Every dependency names an earlier thought, which `contribute` guarantees. */
  ghost predicate EdgesDescend(ts: seq<Thought>)
  {
    forall i, x :: 0 <= i < |ts| && x in ts[i].buildsOn ==> x < ts[i].id
  }

  lemma {:induction false} ChainDescends(ts: seq<Thought>, c: seq<int>, k: nat)
    requires Numbered(ts) && EdgesDescend(ts)
    requires |c| > 0 && forall j :: 0 <= j < |c| - 1 ==> Links(ts, c, j)
    requires k < |c|
    ensures c[k] <= c[0]
  {
    if k > 0 {
      ChainDescends(ts, c, k - 1);
      assert Links(ts, c, k - 1);
      assert c[k] in ts[c[k - 1] - 1].buildsOn;
    }
  }

  /** A graph whose edges all point to smaller ids has no cycle. */
  lemma NoCycleWhenEdgesDescend(ts: seq<Thought>, c: seq<int>)
    requires Numbered(ts) && EdgesDescend(ts)
    ensures !IsCycle(ts, c)
  {
    if IsCycle(ts, c) {
      ChainDescends(ts, c, |c| - 1);
    }
  }

  /** The back-edge branch of `detect_cycles`: walk the parent pointers from `node`
      towards `dep`; when the walk reaches `dep`, the walk read backwards and
      rotated to its minimum is the cycle. */
  method CycleFromBackEdge(ts: seq<Thought>, parent: map<int, int>, ghost disc: map<int, nat>,
                           dep: int, node: int) returns (cycle: Option<seq<int>>)
    requires ParentsOk(ts, parent, disc) && node in disc && dep in Deps(ts, node)
    ensures cycle.Some? ==> Reported(ts, cycle.value)
  {
    var walk := [dep];
    var cur := node;
    while cur != dep && cur in parent
      invariant |walk| >= 1 && walk[0] == dep && cur in disc
      invariant walk[|walk| - 1] in Deps(ts, cur)
      invariant forall k :: 0 <= k < |walk| - 1 ==> BackLinks(ts, walk, k)
      invariant forall k :: 1 <= k < |walk| ==> walk[k] != dep && walk[k] in disc && disc[cur] < disc[walk[k]]
      invariant forall j, k :: 1 <= j < k < |walk| ==> disc[walk[k]] < disc[walk[j]]
      decreases disc[cur]
    {
      ghost var prev := walk;
      walk := walk + [cur];
      forall k | 0 <= k < |walk| - 1 ensures BackLinks(ts, walk, k) {
        if k < |prev| - 1 {
          assert BackLinks(ts, prev, k);
        }
      }
      cur := parent[cur];
    }
    if cur == dep {
      ReversedWalkIsCycle(ts, walk);
      ReverseDistinct(walk);
      NormalizeReports(ts, Reverse(walk));
      cycle := Some(Normalize(Reverse(walk)));
    } else {
      cycle := None;
    }
  }

  /** The facts the search keeps between steps: coloured ids are discovered ids and
      lie in the universe, colours are 1 or 2, parent pointers are sound and every
      cycle found so far is reported correctly. */
  ghost predicate SearchOk(ts: seq<Thought>, color: map<int, int>, parent: map<int, int>,
                           found: set<seq<int>>, disc: map<int, nat>, clock: nat)
  {
    && color.Keys == disc.Keys && color.Keys <= Universe(ts)
    && (forall x :: x in color ==> color[x] == 1 || color[x] == 2)
    && (forall x :: x in disc ==> disc[x] < clock)
    && ParentsOk(ts, parent, disc)
    && (forall c :: c in found ==> Reported(ts, c))
  }

  lemma FinishKeepsSearchOk(ts: seq<Thought>, color: map<int, int>, parent: map<int, int>,
                            found: set<seq<int>>, disc: map<int, nat>, clock: nat, node: int)
    requires SearchOk(ts, color, parent, found, disc, clock) && node in color
    ensures SearchOk(ts, color[node := 2], parent, found, disc, clock)
    ensures color[node := 2].Keys == color.Keys
  {
  }

  lemma DiscoverKeepsSearchOk(ts: seq<Thought>, color: map<int, int>, parent: map<int, int>,
                              found: set<seq<int>>, disc: map<int, nat>, clock: nat, node: int, dep: int)
    requires SearchOk(ts, color, parent, found, disc, clock)
    requires node in color && dep !in color && dep in Deps(ts, node)
    ensures SearchOk(ts, color[dep := 1], parent[dep := node], found, disc[dep := clock], clock + 1)
    ensures |Universe(ts) - color[dep := 1].Keys| < |Universe(ts) - color.Keys|
  {
    var universe := Universe(ts);
    UniverseCovers(ts);
    assert dep in ts[node - 1].buildsOn;
    assert dep in universe;
    assert universe - color.Keys == (universe - color[dep := 1].Keys) + {dep};
  }

  lemma WorkAdvance(ts: seq<Thought>, stack: seq<(int, int)>, node: int, idx: int)
    requires stack != [] && stack[|stack| - 1] == (node, idx) && 0 <= idx < |Deps(ts, node)|
    ensures Work(ts, stack[|stack| - 1 := (node, idx + 1)]) < Work(ts, stack)
  {
    assert stack[|stack| - 1 := (node, idx + 1)][..|stack| - 1] == stack[..|stack| - 1];
  }

  /** One turn of the `while stack` loop: finish the top id, or follow its next
      dependency (descending into an unvisited id, or closing a cycle on an id
      still on the stack). */
  method SearchStep(session: EnsembleSession, stack0: seq<(int, int)>,
                    color0: map<int, int>, parent0: map<int, int>, found0: set<seq<int>>,
                    ghost disc0: map<int, nat>, ghost clock0: nat)
    returns (stack: seq<(int, int)>, color: map<int, int>, parent: map<int, int>, found: set<seq<int>>,
             ghost disc: map<int, nat>, ghost clock: nat)
    requires session.Valid() && stack0 != []
    requires SearchOk(session.thoughts, color0, parent0, found0, disc0, clock0)
    requires forall j :: 0 <= j < |stack0| ==> stack0[j].0 in color0 && stack0[j].1 >= 0
    ensures SearchOk(session.thoughts, color, parent, found, disc, clock)
    ensures forall j :: 0 <= j < |stack| ==> stack[j].0 in color && stack[j].1 >= 0
    ensures color0.Keys <= color.Keys
    ensures |Universe(session.thoughts) - color.Keys| < |Universe(session.thoughts) - color0.Keys|
            || (|Universe(session.thoughts) - color.Keys| == |Universe(session.thoughts) - color0.Keys|
                && Work(session.thoughts, stack) < Work(session.thoughts, stack0))
  {
    var ts := session.thoughts;
    stack, color, parent, found, disc, clock := stack0, color0, parent0, found0, disc0, clock0;
    var top := stack[|stack| - 1];
    var node, idx := top.0, top.1;
    var thought := session.GetThought(node);
    var deps := if thought.Some? then thought.value.buildsOn else [];
    assert deps == Deps(ts, node);
    if idx >= |deps| {
      FinishKeepsSearchOk(ts, color, parent, found, disc, clock, node);
      color := color[node := 2];
      stack := stack[..|stack| - 1];
      return;
    }
    var dep := deps[idx];
    WorkAdvance(ts, stack, node, idx);
    stack := stack[|stack| - 1 := (node, idx + 1)];
    var depColor := ColorOf(color, dep);
    if depColor == 0 {
      DiscoverKeepsSearchOk(ts, color, parent, found, disc, clock, node, dep);
      parent := parent[dep := node];
      color := color[dep := 1];
      disc := disc[dep := clock];
      clock := clock + 1;
      stack := stack + [(dep, 0)];
    } else if depColor == 1 {
      var cycle := CycleFromBackEdge(ts, parent, disc, dep, node);
      if cycle.Some? {
        found := found + {cycle.value};
      }
    }
  }

  /** Pushing an unvisited root: grey, discovered now, with no parent. */
  lemma RootKeepsSearchOk(ts: seq<Thought>, color: map<int, int>, parent: map<int, int>,
                          found: set<seq<int>>, disc: map<int, nat>, clock: nat, start: int)
    requires SearchOk(ts, color, parent, found, disc, clock)
    requires start !in color && start in Universe(ts)
    ensures SearchOk(ts, color[start := 1], parent - {start}, found, disc[start := clock], clock + 1)
  {
    var c := color[start := 1];
    var p := parent - {start};
    var d := disc[start := clock];
    assert c.Keys == color.Keys + {start} == d.Keys;
    assert forall x :: x in d ==> d[x] < clock + 1;
    forall x | x in p
      ensures x in d && p[x] in d && d[p[x]] < d[x] && x in Deps(ts, p[x])
    {
      assert x in parent && parent[x] in disc && parent[x] != start && x != start;
    }
    assert ParentsOk(ts, p, d);
  }

  /** One pass of the outer loop of `detect_cycles`: the depth-first search from an
      unvisited root, with its explicit stack of (id, next child index). */
  method Explore(session: EnsembleSession, start: int,
                 color0: map<int, int>, parent0: map<int, int>, found0: set<seq<int>>,
                 ghost disc0: map<int, nat>, ghost clock0: nat)
    returns (color: map<int, int>, parent: map<int, int>, found: set<seq<int>>,
             ghost disc: map<int, nat>, ghost clock: nat)
    requires session.Valid()
    requires SearchOk(session.thoughts, color0, parent0, found0, disc0, clock0)
    requires start !in color0 && start in Universe(session.thoughts)
    ensures SearchOk(session.thoughts, color, parent, found, disc, clock)
    ensures start in color
  {
    var ts := session.thoughts;
    RootKeepsSearchOk(ts, color0, parent0, found0, disc0, clock0, start);
    color := color0[start := 1];
    disc := disc0[start := clock0];
    clock := clock0 + 1;
    parent := parent0 - {start};
    found := found0;
    var stack: seq<(int, int)> := [(start, 0)];
    while stack != []
      invariant SearchOk(ts, color, parent, found, disc, clock)
      invariant start in color
      invariant forall j :: 0 <= j < |stack| ==> stack[j].0 in color && stack[j].1 >= 0
      decreases |Universe(ts) - color.Keys|, Work(ts, stack)
    {
      stack, color, parent, found, disc, clock := SearchStep(session, stack, color, parent, found, disc, clock);
    }
  }

  /** `detect_cycles`: an iterative three-colour depth-first search over `buildsOn`
      (0 = unvisited, 1 = on the stack, 2 = finished), started from every thought in order. */
  method DetectCycles(session: EnsembleSession) returns (cycles: seq<seq<int>>)
    requires session.Valid()
    ensures forall c :: c in cycles ==> IsCycle(session.thoughts, c) && Distinct(c) && StartsAtMin(c)
    ensures StrictlyIncreasing(cycles)
    ensures EdgesDescend(session.thoughts) ==> cycles == []
  {
    var ts := session.thoughts;
    var color: map<int, int> := map[];
    var parent: map<int, int> := map[];
    var found: set<seq<int>> := {};
    ghost var disc: map<int, nat> := map[];
    ghost var clock: nat := 0;
    UniverseCovers(ts);
    var i := 0;
    while i < |ts|
      invariant 0 <= i <= |ts|
      invariant SearchOk(ts, color, parent, found, disc, clock)
    {
      var start := ts[i].id;
      if ColorOf(color, start) == 0 {
        color, parent, found, disc, clock := Explore(session, start, color, parent, found, disc, clock);
      }
      i := i + 1;
    }
    cycles := SortCycles(found);
    if EdgesDescend(ts) && cycles != [] {
      assert cycles[0] in found;
      NoCycleWhenEdgesDescend(ts, cycles[0]);
    }
  }
}
