/** The ensemble-reasoning data model: thoughts and integration proposals,
    the session that numbers and indexes them, the sliding-window rate
    limiter and the in-memory metrics. */
module EnsembleModels {
  import opened Common

  /** Runtime limits; the source reads them once from the environment. */
  datatype Config = Config(
    maxThoughtsPerSession: int,
    maxEndorsementsPerThought: int,
    defaultSynthesisThreshold: real,
    maxThoughtsPerAgentPerSession: int,
    positiveEndorsementThreshold: real,
    negativeEndorsementThreshold: real,
    enableMetrics: bool,
    rateLimitOpsPerWindow: int,
    rateLimitWindowSeconds: int,
    // read by the handlers but absent from `ServerConfig`
    maxThoughtLength: int,
    maxNoteLength: int,
    maxIntegrationLength: int,
    maxReconcilesPerIntegration: int)

  /** The defaults used when no environment variable overrides them. */
  function DefaultConfig(maxThoughtLength: int, maxNoteLength: int, maxIntegrationLength: int, maxReconciles: int): Config
  {
    Config(1000, 100, 0.6, 50, 0.5, -0.5, true, 5, 60,
           maxThoughtLength, maxNoteLength, maxIntegrationLength, maxReconciles)
  }

  datatype LensInfo = LensInfo(focus: string, biasCheck: string)

  /** The closed vocabulary of agent lenses. */
  const AgentLenses: map<string, LensInfo> := map[
    "analytical" := LensInfo("Data-driven, logical decomposition, systematic analysis",
                             "May overlook human factors and edge cases"),
    "skeptical" := LensInfo("Critical examination, identifying flaws, risk assessment",
                            "May be overly negative, miss opportunities"),
    "creative" := LensInfo("Novel solutions, lateral thinking, unconventional approaches",
                           "May propose impractical or risky ideas"),
    "pragmatic" := LensInfo("Feasibility, resources, implementation, real-world constraints",
                            "May be too conservative, miss innovation"),
    "ethical" := LensInfo("Values, fairness, long-term impact, stakeholder effects",
                          "May prioritize ideals over practicality")
  ]

  // ---------------------------------------------------------------------------
  // Endorsement maps: an insertion-ordered dictionary agent -> level
  // ---------------------------------------------------------------------------

  datatype Endorsement = Endorsement(agent: string, level: real)

  function Values(es: seq<Endorsement>): (r: seq<real>)
    ensures |r| == |es| && forall i :: 0 <= i < |es| ==> r[i] == es[i].level
  {
    if es == [] then [] else [es[0].level] + Values(es[1..])
  }

  function Agents(es: seq<Endorsement>): (r: seq<string>)
    ensures |r| == |es| && forall i :: 0 <= i < |es| ==> r[i] == es[i].agent
  {
    if es == [] then [] else [es[0].agent] + Agents(es[1..])
  }

  /** A dictionary holds each key once. */
  ghost predicate DistinctAgents(es: seq<Endorsement>)
  {
    forall i, j :: 0 <= i < j < |es| ==> es[i].agent != es[j].agent
  }

  /** `endorsements.get(agent)`. */
  function Lookup(es: seq<Endorsement>, agent: string): (r: Option<real>)
    ensures r.Some? <==> agent in Agents(es)
  {
    if es == [] then None
    else if es[0].agent == agent then Some(es[0].level)
    else
      assert Agents(es) == [es[0].agent] + Agents(es[1..]);
      Lookup(es[1..], agent)
  }

  /** `endorsements[agent] = level`: an existing key keeps its position, a new one goes last. */
  function Put(es: seq<Endorsement>, agent: string, level: real): seq<Endorsement>
  {
    if es == [] then [Endorsement(agent, level)]
    else if es[0].agent == agent then [Endorsement(agent, level)] + es[1..]
    else [es[0]] + Put(es[1..], agent, level)
  }

  lemma {:induction false} PutAgents(es: seq<Endorsement>, agent: string, level: real)
    ensures Agents(Put(es, agent, level)) == if agent in Agents(es) then Agents(es) else Agents(es) + [agent]
  {
    if es != [] {
      assert Agents(es) == [es[0].agent] + Agents(es[1..]);
      if es[0].agent != agent {
        PutAgents(es[1..], agent, level);
        assert Agents(Put(es, agent, level)) == [es[0].agent] + Agents(Put(es[1..], agent, level));
      } else {
        assert Agents(Put(es, agent, level)) == Agents(es);
      }
    }
  }

  lemma {:induction false} PutLookup(es: seq<Endorsement>, agent: string, level: real)
    ensures Lookup(Put(es, agent, level), agent) == Some(level)
    ensures forall b :: b != agent ==> Lookup(Put(es, agent, level), b) == Lookup(es, b)
  {
    if es != [] && es[0].agent != agent {
      PutLookup(es[1..], agent, level);
      assert Put(es, agent, level)[1..] == Put(es[1..], agent, level);
    } else if es != [] {
      assert Put(es, agent, level)[1..] == es[1..];
    }
  }

  /** `endorsements[agent] = level` sets that key, leaves every other key as it was,
      keeps the keys distinct and grows the map only for a new key, added last. */
  lemma PutSpec(es: seq<Endorsement>, agent: string, level: real)
    requires DistinctAgents(es)
    ensures DistinctAgents(Put(es, agent, level))
    ensures Lookup(Put(es, agent, level), agent) == Some(level)
    ensures forall b :: b != agent ==> Lookup(Put(es, agent, level), b) == Lookup(es, b)
    ensures |Put(es, agent, level)| == if agent in Agents(es) then |es| else |es| + 1
    ensures Agents(Put(es, agent, level)) == if agent in Agents(es) then Agents(es) else Agents(es) + [agent]
  {
    PutAgents(es, agent, level);
    PutLookup(es, agent, level);
    var r := Put(es, agent, level);
    assert |r| == |Agents(r)|;
    forall i, j | 0 <= i < j < |r| ensures r[i].agent != r[j].agent {
      assert r[i].agent == Agents(r)[i] && r[j].agent == Agents(r)[j];
      if j == |es| {
        assert agent !in Agents(es);
      }
    }
  }

  // ---------------------------------------------------------------------------
  // Thoughts and proposals
  // ---------------------------------------------------------------------------

  datatype Challenge = Challenge(fromAgent: string, concern: string, level: real)

  datatype Thought = Thought(
    id: int,
    text: string,
    agentLens: string,
    buildsOn: seq<int>,
    weight: real,
    endorsements: seq<Endorsement>,
    challenges: seq<Challenge>,
    timestamp: string)

  /** A JSON value as it can appear in `reconciles`; Python counts a boolean as an int. */
  datatype Json = JInt(i: int) | JBool(b: bool) | JOther

  predicate IsInt(v: Json)
  {
    v.JInt? || v.JBool?
  }

  function IntOf(v: Json): int
    requires IsInt(v)
  {
    if v.JInt? then v.i else if v.b then 1 else 0
  }

  /** Every entry is an int (a boolean included) naming one of the first `n` thoughts. */
  predicate NamesThoughts(items: seq<Json>, n: int)
  {
    forall j :: 0 <= j < |items| ==> IsInt(items[j]) && 1 <= IntOf(items[j]) <= n
  }

  /** `reconciles` is kept as the request gave it, booleans included. */
  datatype IntegrationProposal = IntegrationProposal(
    id: int,
    proposingAgent: string,
    integration: string,
    reconciles: seq<Json>,
    endorsements: seq<Endorsement>,
    timestamp: string)

  /** The thought after `agent` endorses it at `level` with `note`: the entry is
      set or overwritten, and a negative level with a note also files a challenge. */
  function Endorsed(t: Thought, agent: string, level: real, note: string): Thought
  {
    t.(endorsements := Put(t.endorsements, agent, level),
       challenges := if level < 0.0 && note != "" then t.challenges + [Challenge(agent, note, level)]
                     else t.challenges)
  }

  /** The ids of `agent`'s thoughts, in contribution order. */
  function IdsBy(ts: seq<Thought>, agent: string): seq<int>
  {
    if ts == [] then []
    else IdsBy(ts[..|ts| - 1], agent) + (if ts[|ts| - 1].agentLens == agent then [ts[|ts| - 1].id] else [])
  }

  /** `agent`'s thoughts, in contribution order. */
  function ThoughtsBy(ts: seq<Thought>, agent: string): seq<Thought>
  {
    if ts == [] then []
    else ThoughtsBy(ts[..|ts| - 1], agent) + (if ts[|ts| - 1].agentLens == agent then [ts[|ts| - 1]] else [])
  }

  lemma IdsByAppend(ts: seq<Thought>, t: Thought, agent: string)
    ensures IdsBy(ts + [t], agent) == IdsBy(ts, agent) + (if t.agentLens == agent then [t.id] else [])
  {
    assert (ts + [t])[..|ts|] == ts;
  }

  lemma {:induction false} IdsByCount(ts: seq<Thought>, agent: string)
    ensures |IdsBy(ts, agent)| == |ThoughtsBy(ts, agent)|
    ensures forall i :: 0 <= i < |IdsBy(ts, agent)| ==> IdsBy(ts, agent)[i] == ThoughtsBy(ts, agent)[i].id
  {
    if ts != [] {
      IdsByCount(ts[..|ts| - 1], agent);
    }
  }

  /** Ids are positions plus one. */
  ghost predicate Numbered(ts: seq<Thought>)
  {
    forall i :: 0 <= i < |ts| ==> ts[i].id == i + 1
  }

  lemma {:induction false} IdsByRange(ts: seq<Thought>, agent: string)
    requires Numbered(ts)
    ensures forall id :: id in IdsBy(ts, agent) ==> 1 <= id <= |ts| && ts[id - 1].agentLens == agent
  {
    if ts != [] {
      IdsByRange(ts[..|ts| - 1], agent);
    }
  }

  /** Replacing a thought by one with the same id and author leaves every agent's id list alone. */
  lemma {:induction false} IdsByUpdate(ts: seq<Thought>, k: nat, t: Thought, agent: string)
    requires k < |ts| && t.id == ts[k].id && t.agentLens == ts[k].agentLens
    ensures IdsBy(ts[k := t], agent) == IdsBy(ts, agent)
  {
    var last := |ts| - 1;
    if k < last {
      assert ts[k := t][..last] == ts[..last][k := t];
      IdsByUpdate(ts[..last], k, t, agent);
    } else {
      assert ts[k := t][..last] == ts[..last];
    }
  }

  /** `[index[tid] for tid in ids]`. */
  function LookupAll(index: map<int, Thought>, ids: seq<int>): (r: seq<Thought>)
    requires forall id :: id in ids ==> id in index
    ensures |r| == |ids|
  {
    if ids == [] then []
    else
      var last := ids[|ids| - 1];
      assert last in ids;
      LookupAll(index, ids[..|ids| - 1]) + [index[ids[|ids| - 1]]]
  }

  lemma {:induction false} LookupAllAgent(ts: seq<Thought>, k: nat, index: map<int, Thought>, agent: string)
    requires Numbered(ts) && k <= |ts|
    requires forall id :: 1 <= id <= |ts| ==> id in index && index[id] == ts[id - 1]
    ensures forall id :: id in IdsBy(ts[..k], agent) ==> id in index
    ensures LookupAll(index, IdsBy(ts[..k], agent)) == ThoughtsBy(ts[..k], agent)
  {
    IdsByRange(ts[..k], agent);
    if k > 0 {
      LookupAllAgent(ts, k - 1, index, agent);
      assert ts[..k][..k - 1] == ts[..k - 1];
      var ids := IdsBy(ts[..k], agent);
      assert ts[..k][k - 1] == ts[k - 1];
      if ts[k - 1].agentLens == agent {
        assert ids == IdsBy(ts[..k - 1], agent) + [k];
        assert ids[..|ids| - 1] == IdsBy(ts[..k - 1], agent);
        assert index[k] == ts[k - 1];
        assert LookupAll(index, ids) == LookupAll(index, IdsBy(ts[..k - 1], agent)) + [ts[k - 1]];
      } else {
        assert ids == IdsBy(ts[..k - 1], agent);
      }
    }
  }

  /** The thought list is numbered 1, 2, ... and both secondary indices agree with it. */
  ghost predicate IndicesOk(ts: seq<Thought>, index: map<int, Thought>, byAgent: map<string, seq<int>>)
  {
    && Numbered(ts)
    && (forall id :: id in index <==> 1 <= id <= |ts|)
    && (forall id :: id in index ==> index[id] == ts[id - 1])
    && (forall a :: a in byAgent ==> byAgent[a] == IdsBy(ts, a))
    && (forall a :: a !in byAgent ==> IdsBy(ts, a) == [])
  }

  /** Appending the next thought and filing it under its id and its agent keeps the
      indices in agreement with the list. */
  lemma AppendKeepsIndices(ts: seq<Thought>, index: map<int, Thought>, byAgent: map<string, seq<int>>, t: Thought)
    requires IndicesOk(ts, index, byAgent) && t.id == |ts| + 1
    ensures IndicesOk(ts + [t], index[t.id := t],
                      byAgent[t.agentLens := (if t.agentLens in byAgent then byAgent[t.agentLens] else []) + [t.id]])
  {
    var u := ts + [t];
    forall i | 0 <= i < |u| ensures u[i].id == i + 1 {
      if i < |ts| { assert u[i] == ts[i]; }
    }
    var m := index[t.id := t];
    forall id | id in m ensures 1 <= id <= |u| && m[id] == u[id - 1] {
      if id != t.id { assert u[id - 1] == ts[id - 1]; }
    }
    forall id | 1 <= id <= |u| ensures id in m {
      if id != t.id { assert id in index; }
    }
    AppendKeepsByAgent(ts, byAgent, t);
  }

  lemma AppendKeepsByAgent(ts: seq<Thought>, byAgent: map<string, seq<int>>, t: Thought)
    requires forall a :: a in byAgent ==> byAgent[a] == IdsBy(ts, a)
    requires forall a :: a !in byAgent ==> IdsBy(ts, a) == []
    ensures var m := byAgent[t.agentLens := (if t.agentLens in byAgent then byAgent[t.agentLens] else []) + [t.id]];
            && (forall a :: a in m ==> m[a] == IdsBy(ts + [t], a))
            && (forall a :: a !in m ==> IdsBy(ts + [t], a) == [])
  {
    IdsByAppend(ts, t, t.agentLens);
    forall a | a != t.agentLens ensures IdsBy(ts + [t], a) == IdsBy(ts, a) {
      IdsByAppend(ts, t, a);
    }
  }

  // ---------------------------------------------------------------------------
  // The session
  // ---------------------------------------------------------------------------

  datatype CapacityError = SessionFull | AgentFull

  class EnsembleSession {
    const sessionId: string
    const problem: string
    const agentLenses: seq<string>
    const startedAt: string
    var completedAt: Option<string>
    var thoughts: seq<Thought>
    var integrations: seq<IntegrationProposal>
    // secondary indices kept beside the list
    var thoughtIndex: map<int, Thought>
    var agentThoughts: map<string, seq<int>>
    var nextThoughtId: int
    var nextProposalId: int

    /** Ids run 1, 2, ... in both lists, the next ids follow the last, and both
        indices agree with the thought list. */
    ghost predicate Valid()
      reads this
    {
      && IndicesOk(thoughts, thoughtIndex, agentThoughts)
      && nextThoughtId == |thoughts| + 1
      && (forall i :: 0 <= i < |integrations| ==> integrations[i].id == i + 1)
      && nextProposalId == |integrations| + 1
    }

    constructor (sessionId: string, problem: string, agentLenses: seq<string>, startedAt: string)
      ensures Valid()
      ensures this.sessionId == sessionId && this.problem == problem
      ensures this.agentLenses == agentLenses && this.startedAt == startedAt
      ensures thoughts == [] && integrations == [] && completedAt == None
    {
      this.sessionId := sessionId;
      this.problem := problem;
      this.agentLenses := agentLenses;
      this.startedAt := startedAt;
      completedAt := None;
      thoughts := [];
      integrations := [];
      thoughtIndex := map[];
      agentThoughts := map[];
      nextThoughtId := 1;
      nextProposalId := 1;
    }

    /** How many thoughts `agent` has contributed. */
    function AgentCount(agent: string): (n: nat)
      reads this
      requires Valid()
      ensures n == |ThoughtsBy(thoughts, agent)|
    {
      IdsByCount(thoughts, agent);
      if agent in agentThoughts then |agentThoughts[agent]| else 0
    }

    /** Appends `t` under the next thought id unless a capacity is reached. */
    method AddThought(cfg: Config, t: Thought) returns (r: Result<int, CapacityError>)
      requires Valid()
      modifies this
      ensures Valid()
      ensures old(|thoughts|) >= cfg.maxThoughtsPerSession ==> r == Failure(SessionFull)
      ensures old(|thoughts|) < cfg.maxThoughtsPerSession
              && old(|ThoughtsBy(thoughts, t.agentLens)|) >= cfg.maxThoughtsPerAgentPerSession
              ==> r == Failure(AgentFull)
      ensures r.Success? <==> old(|thoughts|) < cfg.maxThoughtsPerSession
                              && old(|ThoughtsBy(thoughts, t.agentLens)|) < cfg.maxThoughtsPerAgentPerSession
      ensures r.Failure? ==> unchanged(this)
      ensures r.Success? ==>
                && r.value == old(nextThoughtId) == old(|thoughts|) + 1
                && thoughts == old(thoughts) + [t.(id := r.value)]
                && integrations == old(integrations) && nextProposalId == old(nextProposalId)
                && completedAt == old(completedAt)
    {
      if |thoughts| >= cfg.maxThoughtsPerSession {
        return Failure(SessionFull);
      }
      var agentCount := AgentCount(t.agentLens);
      if agentCount >= cfg.maxThoughtsPerAgentPerSession {
        return Failure(AgentFull);
      }
      var id := nextThoughtId;
      nextThoughtId := nextThoughtId + 1;
      var stored := t.(id := id);
      var mine := if t.agentLens in agentThoughts then agentThoughts[t.agentLens] else [];
      AppendKeepsIndices(thoughts, thoughtIndex, agentThoughts, stored);
      thoughts := thoughts + [stored];
      thoughtIndex := thoughtIndex[id := stored];
      agentThoughts := agentThoughts[t.agentLens := mine + [id]];
      r := Success(id);
    }

    /** Appends `p` under the next proposal id; thoughts are untouched. */
    method AddIntegration(p: IntegrationProposal) returns (id: int)
      requires Valid()
      modifies this
      ensures Valid()
      ensures id == old(nextProposalId) == old(|integrations|) + 1
      ensures integrations == old(integrations) + [p.(id := id)]
      ensures thoughts == old(thoughts) && nextThoughtId == old(nextThoughtId)
      ensures thoughtIndex == old(thoughtIndex) && agentThoughts == old(agentThoughts)
      ensures completedAt == old(completedAt)
    {
      id := nextProposalId;
      nextProposalId := nextProposalId + 1;
      integrations := integrations + [p.(id := id)];
    }

    /** `get_thought`: the index lookup agrees with the thought list. */
    function GetThought(id: int): (r: Option<Thought>)
      reads this
      requires Valid()
      ensures r.Some? <==> 1 <= id <= |thoughts|
      ensures r.Some? ==> r.value == thoughts[id - 1] && r.value.id == id
    {
      if id in thoughtIndex then Some(thoughtIndex[id]) else None
    }

    /** `get_agent_thoughts`: the agent's own thoughts in contribution order, [] for none. */
    function GetAgentThoughts(agent: string): (r: seq<Thought>)
      reads this
      requires Valid()
      ensures r == ThoughtsBy(thoughts, agent)
    {
      LookupAllAgent(thoughts, |thoughts|, thoughtIndex, agent);
      assert thoughts[..|thoughts|] == thoughts;
      LookupAll(thoughtIndex, if agent in agentThoughts then agentThoughts[agent] else [])
    }

    /** The in-place write `thought.endorsements[agent] = level` (plus the challenge
        record), seen through both the list and the index. */
    method ApplyEndorsement(id: int, agent: string, level: real, note: string)
      requires Valid() && 1 <= id <= |thoughts|
      modifies this
      ensures Valid()
      ensures thoughts == old(thoughts)[id - 1 := Endorsed(old(thoughts)[id - 1], agent, level, note)]
      ensures integrations == old(integrations) && completedAt == old(completedAt)
    {
      var t := Endorsed(thoughts[id - 1], agent, level, note);
      forall a ensures IdsBy(thoughts[id - 1 := t], a) == IdsBy(thoughts, a) {
        IdsByUpdate(thoughts, id - 1, t, a);
      }
      thoughts := thoughts[id - 1 := t];
      thoughtIndex := thoughtIndex[id := t];
    }
  }

  // ---------------------------------------------------------------------------
  // Sliding-window rate limiting
  // ---------------------------------------------------------------------------

  /** The queue after popping, from the front, every timestamp strictly older than `cutoff`. */
  function Pruned(q: seq<real>, cutoff: real): seq<real>
  {
    if q != [] && q[0] < cutoff then Pruned(q[1..], cutoff) else q
  }

  /** Pruning drops a prefix, every dropped timestamp is older than the cutoff,
      and the first one kept (if any) is not. */
  lemma {:induction false} PrunedSpec(q: seq<real>, cutoff: real)
    ensures |Pruned(q, cutoff)| <= |q| && Pruned(q, cutoff) == q[|q| - |Pruned(q, cutoff)|..]
    ensures Pruned(q, cutoff) == [] || Pruned(q, cutoff)[0] >= cutoff
    ensures forall i :: 0 <= i < |q| - |Pruned(q, cutoff)| ==> q[i] < cutoff
  {
    if q != [] && q[0] < cutoff {
      PrunedSpec(q[1..], cutoff);
    }
  }

  ghost predicate NonDecreasing(q: seq<real>)
  {
    forall i, j :: 0 <= i < j < |q| ==> q[i] <= q[j]
  }

  /** On a queue recorded in time order, pruning keeps exactly the timestamps inside the window. */
  lemma PrunedInOrder(q: seq<real>, cutoff: real)
    requires NonDecreasing(q)
    ensures forall x :: x in Pruned(q, cutoff) <==> x in q && x >= cutoff
  {
    var r := Pruned(q, cutoff);
    PrunedSpec(q, cutoff);
    var d := |q| - |r|;
    forall x | x in q && x >= cutoff ensures x in r {
      var i :| 0 <= i < |q| && q[i] == x;
      assert i >= d;
      assert r[i - d] == x;
    }
    forall x | x in r ensures x >= cutoff {
      var i :| 0 <= i < |r| && r[i] == x;
      assert r[0] <= r[i] by { assert q[d] == r[0] && q[d + i] == r[i]; }
    }
  }

  /** `while dq and dq[0] < cutoff: dq.popleft()`. */
  method PopExpired(q: seq<real>, cutoff: real) returns (dq: seq<real>)
    ensures dq == Pruned(q, cutoff)
  {
    dq := q;
    while dq != [] && dq[0] < cutoff
      invariant Pruned(dq, cutoff) == Pruned(q, cutoff)
      decreases |dq|
    {
      dq := dq[1..];
    }
  }

  /** A per-key queue of operation timestamps, pruned lazily on each check. */
  class SlidingWindow<K(==)> {
    var queues: map<K, seq<real>>
    const window: real
    const maxOps: int

    constructor (window: real, maxOps: int)
      ensures queues == map[] && this.window == window && this.maxOps == maxOps
    {
      queues := map[];
      this.window := window;
      this.maxOps := maxOps;
    }

    /** The key's queue; a missing key reads as empty. */
    function Queue(key: K): seq<real>
      reads this
    {
      if key in queues then queues[key] else []
    }

    /** `is_rate_limited`: prune the key's queue, then compare what is left with the budget. */
    method IsLimited(key: K, now: real) returns (limited: bool)
      modifies this
      ensures queues == old(queues)[key := Pruned(old(Queue(key)), now - window)]
      ensures limited <==> |Pruned(old(Queue(key)), now - window)| >= maxOps
    {
      var dq := PopExpired(Queue(key), now - window);
      queues := queues[key := dq];
      limited := |dq| >= maxOps;
    }

    /** `record_agent_op`: append `now` at the back, unconditionally. */
    method Record(key: K, now: real)
      modifies this
      ensures queues == old(queues)[key := old(Queue(key)) + [now]]
    {
      queues := queues[key := Queue(key) + [now]];
    }

    /** Empty one key's queue (creating it when missing). */
    method Clear(key: K)
      modifies this
      ensures queues == old(queues)[key := []]
    {
      queues := queues[key := []];
    }

    /** Prune every queue and report how many timestamps each keeps. */
    method PruneAll(now: real) returns (counts: map<K, nat>)
      modifies this
      ensures queues.Keys == old(queues).Keys
      ensures forall k :: k in queues ==> queues[k] == Pruned(old(queues)[k], now - window)
      ensures counts.Keys == queues.Keys
      ensures forall k :: k in counts ==> counts[k] == |queues[k]|
    {
      var cutoff := now - window;
      var start := queues;
      var qs := queues;
      var todo := qs.Keys;
      counts := map[];
      while todo != {}
        invariant todo <= qs.Keys && qs.Keys == start.Keys
        invariant counts.Keys == qs.Keys - todo
        invariant forall k :: k in todo ==> qs[k] == start[k]
        invariant forall k :: k in qs && k !in todo ==> qs[k] == Pruned(start[k], cutoff)
        invariant forall k :: k in counts ==> counts[k] == |qs[k]|
        decreases |todo|
      {
        var k :| k in todo;
        var dq := PopExpired(qs[k], cutoff);
        qs := qs[k := dq];
        counts := counts[k := |dq|];
        todo := todo - {k};
      }
      queues := qs;
    }
  }

  // ---------------------------------------------------------------------------
  // Metrics
  // ---------------------------------------------------------------------------

  const MaxLatencySamples: nat := 1000

  class Metrics {
    const enabled: bool
    var counters: map<string, int>
    var latencies: map<string, seq<real>>

    constructor (enabled: bool)
      ensures this.enabled == enabled && counters == map[] && latencies == map[]
    {
      this.enabled := enabled;
      counters := map[];
      latencies := map[];
    }

    function Counter(name: string): int
      reads this
    {
      if name in counters then counters[name] else 0
    }

    function Samples(op: string): seq<real>
      reads this
    {
      if op in latencies then latencies[op] else []
    }

    /** `inc_counter`: add exactly `delta`, or nothing when metrics are off. */
    method IncCounter(name: string, delta: int)
      modifies this
      ensures latencies == old(latencies)
      ensures !enabled ==> counters == old(counters)
      ensures enabled ==> counters == old(counters)[name := old(Counter(name)) + delta]
    {
      if !enabled {
        return;
      }
      counters := counters[name := Counter(name) + delta];
    }

    /** `record_latency`: keep the most recent samples, at most `MaxLatencySamples`, in arrival order. */
    method RecordLatency(op: string, duration: real)
      modifies this
      ensures counters == old(counters)
      ensures !enabled ==> latencies == old(latencies)
      ensures enabled ==> latencies.Keys == old(latencies).Keys + {op}
      ensures enabled ==> forall o :: o in latencies && o != op ==> latencies[o] == old(latencies)[o]
      ensures enabled ==>
                var all := old(Samples(op)) + [duration];
                && |latencies[op]| == (if |all| <= MaxLatencySamples then |all| else MaxLatencySamples)
                && latencies[op] == all[|all| - |latencies[op]|..]
    {
      if !enabled {
        return;
      }
      var lat := Samples(op) + [duration];
      if |lat| > MaxLatencySamples {
        lat := lat[|lat| - MaxLatencySamples..];
      }
      latencies := latencies[op := lat];
    }
  }
}
