/** The ensemble-reasoning request handlers: each checks its input in a fixed
    order, consults the per-(session, agent) rate limiter, updates the session
    store and answers with a success payload or a named error. */
module EnsembleTools {
  import opened Common
  import opened EnsembleModels
  import opened EnsembleAnalysis

  // ---------------------------------------------------------------------------
  // Arguments, errors and replies
  // ---------------------------------------------------------------------------

  datatype ReconcileProblem = NotAList | NotAnInteger(item: Json) | UnknownThought(thoughtId: int)

  datatype ToolError =
    | InvalidAgentLenses(invalid: seq<string>)
    | InsufficientAgents
    | NoActiveSession
    | AgentNotInSession(agent: string)
    | RateLimited(agent: string)
    | ThoughtTooLong(maxLength: int)
    | InvalidBuildsOn(thoughtId: int)
    | ThoughtNotFound(thoughtId: int)
    | NoteTooLong(maxLength: int)
    | SelfEndorsementNotAllowed
    | MaxEndorsementsReached(maxEndorsements: int)
    | IntegrationTooLong(maxLength: int)
    | InvalidReconciles(problem: ReconcileProblem)
    | TooManyReconciles(maxItems: int)
    | MissingAgentLens
    | Raised(cause: CapacityError)  // an exception the handler lets escape

  /** The `error` string of the JSON envelope. */
  function Code(e: ToolError): string
  {
    match e
    case InvalidAgentLenses(_) => "invalid_agent_lenses"
    case InsufficientAgents => "insufficient_agents"
    case NoActiveSession => "no_active_session"
    case AgentNotInSession(_) => "agent_not_in_session"
    case RateLimited(_) => "rate_limited"
    case ThoughtTooLong(_) => "thought_too_long"
    case InvalidBuildsOn(_) => "invalid_buildsOn"
    case ThoughtNotFound(_) => "thought_not_found"
    case NoteTooLong(_) => "note_too_long"
    case SelfEndorsementNotAllowed => "self_endorsement_not_allowed"
    case MaxEndorsementsReached(_) => "max_endorsements_reached"
    case IntegrationTooLong(_) => "integration_too_long"
    case InvalidReconciles(_) => "invalid_reconciles"
    case TooManyReconciles(_) => "too_many_reconciles"
    case MissingAgentLens => "missing_agentLens"
    case Raised(_) => "internal_error"
  }

  datatype StartReply = StartReply(sessionId: string, problem: string, agentLenses: seq<string>,
                                   lensDescriptions: map<string, LensInfo>)
  datatype ContributeReply = ContributeReply(thoughtId: int, agent: string, buildsOn: seq<int>, weight: real)
  datatype EndorseReply = EndorseReply(thoughtId: int, agent: string, level: real, totalEndorsements: nat)
  datatype ProposeReply = ProposeReply(proposalId: int, agent: string, reconciles: seq<Json>)
  datatype Synthesis = Synthesis(sessionId: string, convergenceScore: real, consensus: Consensus,
                                 tensions: seq<Tension>, circularReasoning: seq<seq<int>>,
                                 totalThoughts: nat, agentContributions: map<string, nat>)

  /** `max(lo, min(hi, x))`. */
  function Clamp(lo: real, hi: real, x: real): (r: real)
    requires lo <= hi
    ensures lo <= r <= hi
    ensures lo <= x <= hi ==> r == x
    ensures x < lo ==> r == lo
    ensures x > hi ==> r == hi
  {
    if x < lo then lo else if x > hi then hi else x
  }

  /** The requested lenses that are not in the vocabulary, in request order. */
  function UnknownLenses(lenses: seq<string>): (r: seq<string>)
    ensures forall a :: a in r <==> a in lenses && a !in AgentLenses
  {
    if lenses == [] then []
    else (if lenses[0] in AgentLenses then [] else [lenses[0]]) + UnknownLenses(lenses[1..])
  }

  /** The filter keeps request order: the unknown lenses of a joined request are those of
      its first part followed by those of its second, repeats included. */
  lemma {:induction false} UnknownLensesAppend(a: seq<string>, b: seq<string>)
    ensures UnknownLenses(a + b) == UnknownLenses(a) + UnknownLenses(b)
  {
    if a == [] {
      assert a + b == b;
    } else {
      UnknownLensesAppend(a[1..], b);
      UnknownLensesHead(a, b);
      ConcatAssoc(if a[0] in AgentLenses then [] else [a[0]], UnknownLenses(a[1..]), UnknownLenses(b));
    }
  }

  /** Both `a` and `a + b` are filtered from the same first lens. */
  lemma UnknownLensesHead(a: seq<string>, b: seq<string>)
    requires a != []
    ensures UnknownLenses(a + b) == (if a[0] in AgentLenses then [] else [a[0]]) + UnknownLenses(a[1..] + b)
  {
    assert (a + b)[0] == a[0];
    assert (a + b)[1..] == a[1..] + b;
  }

  /** The first id that names no thought of a session holding `n` thoughts. */
  function FirstMissing(ids: seq<int>, n: int): (r: Option<int>)
    ensures r.None? <==> forall j :: 0 <= j < |ids| ==> 1 <= ids[j] <= n
    ensures r.Some? ==> r.value in ids && !(1 <= r.value <= n)
  {
    if ids == [] then None
    else if !(1 <= ids[0] <= n) then Some(ids[0])
    else
      var rest := FirstMissing(ids[1..], n);
      assert forall j :: 1 <= j < |ids| ==> ids[j] == ids[1..][j - 1];
      rest
  }

  /** The first problem the `reconciles` loop meets. */
  function FirstReconcileProblem(items: seq<Json>, n: int): (r: Option<ReconcileProblem>)
    ensures r.None? <==> forall j :: 0 <= j < |items| ==> IsInt(items[j]) && 1 <= IntOf(items[j]) <= n
  {
    if items == [] then None
    else if !IsInt(items[0]) then Some(NotAnInteger(items[0]))
    else if !(1 <= IntOf(items[0]) <= n) then Some(UnknownThought(IntOf(items[0])))
    else
      var rest := FirstReconcileProblem(items[1..], n);
      assert forall j :: 1 <= j < |items| ==> items[j] == items[1..][j - 1];
      rest
  }


  // ---------------------------------------------------------------------------
  // What the handlers keep true of every session
  // ---------------------------------------------------------------------------

  /** An endorsement map as the endorse handler leaves it. */
  ghost predicate EndorsementsOk(cfg: Config, agents: seq<string>, t: Thought)
  {
    && DistinctAgents(t.endorsements)
    && t.agentLens !in Agents(t.endorsements)
    && (forall a :: a in Agents(t.endorsements) ==> a in agents)
    && (t.endorsements == [] || |t.endorsements| <= cfg.maxEndorsementsPerThought)
    && (forall j :: 0 <= j < |t.endorsements| ==> -1.0 <= t.endorsements[j].level <= 1.0)
    && (forall j :: 0 <= j < |t.challenges| ==> t.challenges[j].level < 0.0 && t.challenges[j].concern != "")
  }

  /** Every `buildsOn` id names an earlier thought and the endorsements are sane. */
  ghost predicate ThoughtOk(cfg: Config, agents: seq<string>, t: Thought)
  {
    (forall x :: x in t.buildsOn ==> 1 <= x < t.id) && EndorsementsOk(cfg, agents, t)
  }

  ghost predicate ThoughtsOk(cfg: Config, agents: seq<string>, ts: seq<Thought>)
  {
    forall i :: 0 <= i < |ts| ==> ThoughtOk(cfg, agents, ts[i])
  }

  /** Every entry of every stored `reconciles` list is an int naming one of the first `n` thoughts. */
  ghost predicate ReconcilesOk(ps: seq<IntegrationProposal>, n: int)
  {
    forall i :: 0 <= i < |ps| ==> NamesThoughts(ps[i].reconciles, n)
  }

  /** The store invariant plus what the handlers' checks guarantee. */
  ghost predicate SessionOk(cfg: Config, s: EnsembleSession)
    reads s
  {
    s.Valid() && ThoughtsOk(cfg, s.agentLenses, s.thoughts) && ReconcilesOk(s.integrations, |s.thoughts|)
  }

  /** What the invariant buys `synthesize`: no cycles and endorsement levels within [-1, 1]. */
  lemma ThoughtsOkBounds(cfg: Config, agents: seq<string>, ts: seq<Thought>)
    requires ThoughtsOk(cfg, agents, ts)
    ensures EdgesDescend(ts)
    ensures LevelsWithin(ts, -1.0, 1.0)
  {
    forall i, j | 0 <= i < |ts| && 0 <= j < |ts[i].endorsements|
      ensures -1.0 <= ts[i].endorsements[j].level <= 1.0
    {
      assert ThoughtOk(cfg, agents, ts[i]);
    }
    forall i, x | 0 <= i < |ts| && x in ts[i].buildsOn ensures x < ts[i].id {
      assert ThoughtOk(cfg, agents, ts[i]);
    }
  }

  lemma AppendThoughtOk(cfg: Config, agents: seq<string>, ts: seq<Thought>, t: Thought)
    requires ThoughtsOk(cfg, agents, ts)
    requires t.id == |ts| + 1 && t.endorsements == [] && t.challenges == []
    requires forall x :: x in t.buildsOn ==> 1 <= x <= |ts|
    ensures ThoughtsOk(cfg, agents, ts + [t])
  {
    assert ThoughtOk(cfg, agents, t);
    forall i | 0 <= i < |ts| + 1 ensures ThoughtOk(cfg, agents, (ts + [t])[i]) {
      if i < |ts| {
        assert (ts + [t])[i] == ts[i];
      }
    }
  }

  /** The checks of `tool_contribute` after the session and membership checks, in
      source order: rate limit, length, `buildsOn` references, then the two
      capacities `add_thought` enforces by raising. */
  function ContributeVerdict(cfg: Config, thoughts: seq<Thought>, agent: string, text: string,
                             buildsOn: seq<int>, recent: nat, maxOps: int): (v: Option<ToolError>)
    ensures v.None? ==> forall x :: x in buildsOn ==> 1 <= x <= |thoughts|
    ensures v.None? ==> |text| <= cfg.maxThoughtLength && recent < maxOps
    ensures v.None? <==> recent < maxOps && |text| <= cfg.maxThoughtLength
                          && (forall x :: x in buildsOn ==> 1 <= x <= |thoughts|)
                          && |thoughts| < cfg.maxThoughtsPerSession
                          && |ThoughtsBy(thoughts, agent)| < cfg.maxThoughtsPerAgentPerSession
  {
    if recent >= maxOps then Some(RateLimited(agent))
    else if |text| > cfg.maxThoughtLength then Some(ThoughtTooLong(cfg.maxThoughtLength))
    else if FirstMissing(buildsOn, |thoughts|).Some? then Some(InvalidBuildsOn(FirstMissing(buildsOn, |thoughts|).value))
    else if |thoughts| >= cfg.maxThoughtsPerSession then Some(Raised(SessionFull))
    else if |ThoughtsBy(thoughts, agent)| >= cfg.maxThoughtsPerAgentPerSession then Some(Raised(AgentFull))
    else None
  }

  lemma {:induction false} PutLevels(es: seq<Endorsement>, agent: string, level: real)
    requires -1.0 <= level <= 1.0
    requires forall j :: 0 <= j < |es| ==> -1.0 <= es[j].level <= 1.0
    ensures forall j :: 0 <= j < |Put(es, agent, level)| ==> -1.0 <= Put(es, agent, level)[j].level <= 1.0
  {
    if es != [] && es[0].agent != agent {
      PutLevels(es[1..], agent, level);
      assert Put(es, agent, level) == [es[0]] + Put(es[1..], agent, level);
    }
  }

  /** An endorsement that passed the handler's checks keeps the thought within the invariant. */
  lemma EndorsedOk(cfg: Config, agents: seq<string>, t: Thought, agent: string, level: real, note: string)
    requires ThoughtOk(cfg, agents, t)
    requires agent in agents && agent != t.agentLens && -1.0 <= level <= 1.0
    requires |t.endorsements| < cfg.maxEndorsementsPerThought
    ensures ThoughtOk(cfg, agents, Endorsed(t, agent, level, note))
  {
    var u := Endorsed(t, agent, level, note);
    PutSpec(t.endorsements, agent, level);
    PutLevels(t.endorsements, agent, level);
    EndorsedChallenges(t, agent, level, note);
    assert forall a :: a in Agents(u.endorsements) ==> a in Agents(t.endorsements) || a == agent;
    assert EndorsementsOk(cfg, agents, u);
  }

  /** A challenge is filed only for a negative level with a note. */
  lemma EndorsedChallenges(t: Thought, agent: string, level: real, note: string)
    requires forall j :: 0 <= j < |t.challenges| ==> t.challenges[j].level < 0.0 && t.challenges[j].concern != ""
    ensures var u := Endorsed(t, agent, level, note);
            forall j :: 0 <= j < |u.challenges| ==> u.challenges[j].level < 0.0 && u.challenges[j].concern != ""
  {
    var u := Endorsed(t, agent, level, note);
    forall j | 0 <= j < |u.challenges| ensures u.challenges[j].level < 0.0 && u.challenges[j].concern != "" {
      if j < |t.challenges| {
        assert u.challenges[j] == t.challenges[j];
      }
    }
  }

  /** After the write the agent's entry holds the level; the map grows only for a new agent. */
  lemma EndorsedEntry(t: Thought, agent: string, level: real, note: string)
    ensures Lookup(Endorsed(t, agent, level, note).endorsements, agent) == Some(level)
    ensures |Endorsed(t, agent, level, note).endorsements|
              == |t.endorsements| + (if agent in Agents(t.endorsements) then 0 else 1)
  {
    PutLookup(t.endorsements, agent, level);
    PutAgents(t.endorsements, agent, level);
  }

  lemma ReplaceThoughtOk(cfg: Config, agents: seq<string>, ts: seq<Thought>, i: int, u: Thought)
    requires ThoughtsOk(cfg, agents, ts) && 0 <= i < |ts| && ThoughtOk(cfg, agents, u)
    ensures ThoughtsOk(cfg, agents, ts[i := u])
  {
    var v := ts[i := u];
    forall k | 0 <= k < |v| ensures ThoughtOk(cfg, agents, v[k]) {
      if k != i {
        assert v[k] == ts[k];
      }
    }
  }

  /** The checks of `tool_endorse_challenge` after the thought and membership checks, in source order. */
  function EndorseVerdict(cfg: Config, t: Thought, agent: string, note: string, recent: nat, maxOps: int): (v: Option<ToolError>)
    ensures v.None? <==> recent < maxOps && (note == "" || |note| <= cfg.maxNoteLength)
                          && agent != t.agentLens && |t.endorsements| < cfg.maxEndorsementsPerThought
  {
    if recent >= maxOps then Some(RateLimited(agent))
    else if note != "" && |note| > cfg.maxNoteLength then Some(NoteTooLong(cfg.maxNoteLength))
    else if agent == t.agentLens then Some(SelfEndorsementNotAllowed)
    else if |t.endorsements| >= cfg.maxEndorsementsPerThought then Some(MaxEndorsementsReached(cfg.maxEndorsementsPerThought))
    else None
  }

  /** The checks of `tool_propose_integration` after the membership check, in source order;
      `reconciles` is `None` when the argument is not a JSON list. */
  function ProposeVerdict(cfg: Config, n: int, agent: string, integration: string,
                          reconciles: Option<seq<Json>>, recent: nat, maxOps: int): (v: Option<ToolError>)
    ensures v.None? <==> recent < maxOps && |integration| <= cfg.maxIntegrationLength && reconciles.Some?
                          && |reconciles.value| <= cfg.maxReconcilesPerIntegration
                          && forall j :: 0 <= j < |reconciles.value| ==>
                               IsInt(reconciles.value[j]) && 1 <= IntOf(reconciles.value[j]) <= n
  {
    if recent >= maxOps then Some(RateLimited(agent))
    else if |integration| > cfg.maxIntegrationLength then Some(IntegrationTooLong(cfg.maxIntegrationLength))
    else if reconciles.None? then Some(InvalidReconciles(NotAList))
    else if |reconciles.value| > cfg.maxReconcilesPerIntegration then Some(TooManyReconciles(cfg.maxReconcilesPerIntegration))
    else if FirstReconcileProblem(reconciles.value, n).Some? then Some(InvalidReconciles(FirstReconcileProblem(reconciles.value, n).value))
    else None
  }

  const ToolNames: set<string> := {
    "start_collaborative_reasoning", "contribute_perspective", "endorse_or_challenge",
    "synthesize_convergence", "propose_integration", "get_convergence_map",
    "get_active_session", "get_metrics", "get_rate_status", "reset_agent_rate"
  }

  datatype Envelope = SuccessEnvelope | ErrorEnvelope(error: string)

  /** `handle_call_tool`: an unknown name is refused; an escaped exception becomes
      `internal_error`; otherwise the handler's own answer is passed through. */
  function HandleCallTool(name: string, handlerError: Option<ToolError>): (e: Envelope)
    ensures name !in ToolNames ==> e == ErrorEnvelope("unknown_tool")
    ensures name in ToolNames ==> (e.SuccessEnvelope? <==> handlerError.None?)
    ensures name in ToolNames && handlerError.Some? && handlerError.value.Raised? ==> e == ErrorEnvelope("internal_error")
  {
    if name !in ToolNames then ErrorEnvelope("unknown_tool")
    else if handlerError.None? then SuccessEnvelope
    else ErrorEnvelope(Code(handlerError.value))
  }

  // ---------------------------------------------------------------------------
  // The server
  // ---------------------------------------------------------------------------

  class EnsembleServer {
    const cfg: Config
    var activeSessions: map<string, EnsembleSession>
    var currentSessionId: Option<string>
    const limiter: SlidingWindow<(string, string)>
    const metrics: Metrics

    ghost predicate Valid()
      reads this, activeSessions.Values
    {
      forall id :: id in activeSessions ==>
        activeSessions[id].sessionId == id && SessionOk(cfg, activeSessions[id])
    }

    constructor (cfg: Config)
      ensures Valid() && this.cfg == cfg
      ensures activeSessions == map[] && currentSessionId == None
      ensures limiter.queues == map[] && limiter.window == cfg.rateLimitWindowSeconds as real
      ensures limiter.maxOps == cfg.rateLimitOpsPerWindow
      ensures metrics.enabled == cfg.enableMetrics && metrics.counters == map[]
    {
      this.cfg := cfg;
      activeSessions := map[];
      currentSessionId := None;
      limiter := new SlidingWindow(cfg.rateLimitWindowSeconds as real, cfg.rateLimitOpsPerWindow);
      metrics := new Metrics(cfg.enableMetrics);
    }

    /** `args.get("sessionId") or current_session_id`, then the existence check. */
    function Target(sessionArg: Option<string>): (t: Option<EnsembleSession>)
      reads this
      ensures t.Some? ==> t.value in activeSessions.Values
    {
      var id := if sessionArg.Some? && sessionArg.value != "" then sessionArg else currentSessionId;
      if id.Some? && id.value != "" && id.value in activeSessions then Some(activeSessions[id.value]) else None
    }

    /** The session id a successful resolution used. */
    function TargetId(sessionArg: Option<string>): string
      reads this
    {
      if sessionArg.Some? && sessionArg.value != "" then sessionArg.value
      else if currentSessionId.Some? then currentSessionId.value else ""
    }

    /** `record_agent_op`: one more timestamp for the key, and the operations counter.
        `queues`, `counters` and `latencies` are the limiter and metrics before the
        handler pruned the key's queue to `kept`. */
    method RecordAgentOp(key: (string, string), now: real,
                         ghost queues: map<(string, string), seq<real>>, ghost kept: seq<real>,
                         ghost counters: map<string, int>, ghost latencies: map<string, seq<real>>)
      requires limiter.queues == queues[key := kept]
      requires metrics.counters == counters && metrics.latencies == latencies
      modifies limiter, metrics
      ensures RecordedOver(queues, counters, latencies, key, kept, now)
    {
      assert limiter.Queue(key) == kept;
      limiter.Record(key, now);
      metrics.IncCounter("agent_ops_total", 1);
      assert queues[key := kept][key := kept + [now]] == queues[key := kept + [now]];
    }

    /** `tool_start_collaborative`. */
    method StartCollaborative(problem: string, lenses: seq<string>, newId: string, startedAt: string)
      returns (r: Result<StartReply, ToolError>)
      requires Valid()
      modifies this
      ensures Valid()
      ensures UnknownLenses(lenses) != [] ==> r == Failure(InvalidAgentLenses(UnknownLenses(lenses)))
      ensures UnknownLenses(lenses) == [] && |lenses| < 2 ==> r == Failure(InsufficientAgents)
      ensures r.Failure? ==> activeSessions == old(activeSessions) && currentSessionId == old(currentSessionId)
      ensures r.Success? <==> UnknownLenses(lenses) == [] && |lenses| >= 2
      ensures r.Success? ==>
                && newId in activeSessions && fresh(activeSessions[newId])
                && activeSessions == old(activeSessions)[newId := activeSessions[newId]]
                && activeSessions[newId].problem == problem && activeSessions[newId].agentLenses == lenses
                && activeSessions[newId].thoughts == [] && activeSessions[newId].integrations == []
                && currentSessionId == Some(newId)
                && r.value.sessionId == newId && r.value.problem == problem && r.value.agentLenses == lenses
                && r.value.lensDescriptions == map a | a in lenses :: AgentLenses[a]
    {
      var invalid := UnknownLenses(lenses);
      if invalid != [] {
        return Failure(InvalidAgentLenses(invalid));
      }
      if |lenses| < 2 {
        return Failure(InsufficientAgents);
      }
      var session := new EnsembleSession(newId, problem, lenses, startedAt);
      activeSessions := activeSessions[newId := session];
      currentSessionId := Some(newId);
      var info := map a | a in lenses :: AgentLenses[a];
      r := Success(StartReply(newId, problem, lenses, info));
    }

    /** The other sessions are untouched and `s` still meets the invariant. */
    twostate lemma ValidAfterUpdate(s: EnsembleSession)
      requires old(Valid()) && s in old(activeSessions.Values)
      requires activeSessions == old(activeSessions) && SessionOk(cfg, s)
      requires forall o :: o in activeSessions.Values && o != s ==> unchanged(o)
      ensures Valid()
    {
      forall id | id in activeSessions
        ensures activeSessions[id].sessionId == id && SessionOk(cfg, activeSessions[id])
      {
        var o := activeSessions[id];
        assert o in activeSessions.Values;
        if o != s {
          assert unchanged(o);
          assert old(SessionOk(cfg, o));
        }
      }
    }

    /** The `buildsOn` loop: the first id `get_thought` does not find. */
    method CheckBuildsOn(s: EnsembleSession, buildsOn: seq<int>) returns (missing: Option<int>)
      requires s.Valid()
      ensures missing == FirstMissing(buildsOn, |s.thoughts|)
    {
      var i := 0;
      while i < |buildsOn|
        invariant 0 <= i <= |buildsOn|
        invariant FirstMissing(buildsOn, |s.thoughts|) == FirstMissing(buildsOn[i..], |s.thoughts|)
      {
        assert buildsOn[i..] == [buildsOn[i]] + buildsOn[i + 1..];
        var found := s.GetThought(buildsOn[i]);
        if found.None? {
          return Some(buildsOn[i]);
        }
        i := i + 1;
      }
      return None;
    }

    /** `record_agent_op` happened: one more timestamp in the (already pruned) queue
        and one more on the operations counter. */
    twostate predicate Recorded(key: (string, string), kept: seq<real>, now: real)
      reads limiter, metrics
    {
      RecordedOver(old(limiter.queues), old(metrics.counters), old(metrics.latencies), key, kept, now)
    }

    /** `record_agent_op` seen from the queues, counters and latencies it started from. */
    predicate RecordedOver(queues: map<(string, string), seq<real>>, counters: map<string, int>,
                           latencies: map<string, seq<real>>, key: (string, string), kept: seq<real>, now: real)
      reads limiter, metrics
    {
      && limiter.queues == queues[key := kept + [now]]
      && metrics.latencies == latencies
      && (metrics.enabled ==>
            metrics.counters == counters["agent_ops_total" := (if "agent_ops_total" in counters then counters["agent_ops_total"] else 0) + 1])
      && (!metrics.enabled ==> metrics.counters == counters)
    }

    /** What `tool_contribute` does once the agent belongs to the session: the remaining
        checks decide the answer; a refusal only prunes the agent's queue; success appends
        the thought under the next id and records the operation. */
    twostate predicate ContributeEffect(s: EnsembleSession, agent: string, text: string, buildsOn: seq<int>,
                                        weight: real, now: real, timestamp: string,
                                        new r: Result<ContributeReply, ToolError>)
      reads s, limiter, metrics
    {
      var key := (s.sessionId, agent);
      var kept := Pruned(old(limiter.Queue(key)), now - limiter.window);
      var verdict := ContributeVerdict(cfg, old(s.thoughts), agent, text, buildsOn, |kept|, limiter.maxOps);
      && (r.Failure? <==> verdict.Some?)
      && (r.Failure? ==> r.error == verdict.value)
      && (r.Failure? ==> limiter.queues == old(limiter.queues)[key := kept] && unchanged(s) && unchanged(metrics))
      && (r.Success? ==>
            && r.value == ContributeReply(old(|s.thoughts|) + 1, agent, buildsOn, weight)
            && s.thoughts == old(s.thoughts) + [Thought(r.value.thoughtId, text, agent, buildsOn, weight, [], [], timestamp)]
            && s.integrations == old(s.integrations)
            && Recorded(key, kept, now))
    }

    /** `tool_contribute` from the rate check on, for a resolved session and a member agent. */
    method ContributeTo(s: EnsembleSession, agent: string, text: string, buildsOn: seq<int>,
                        weight: real, now: real, timestamp: string)
      returns (r: Result<ContributeReply, ToolError>)
      requires SessionOk(cfg, s) && agent in s.agentLenses
      modifies s, limiter, metrics
      ensures SessionOk(cfg, s)
      ensures ContributeEffect(s, agent, text, buildsOn, weight, now, timestamp, r)
    {
      var key := (s.sessionId, agent);
      ghost var kept := Pruned(limiter.Queue(key), now - limiter.window);
      ghost var verdict := ContributeVerdict(cfg, s.thoughts, agent, text, buildsOn, |kept|, limiter.maxOps);
      ghost var queues, counters, latencies := limiter.queues, metrics.counters, metrics.latencies;
      var limited := limiter.IsLimited(key, now);
      if limited {
        assert verdict == Some(RateLimited(agent));
        return Failure(RateLimited(agent));
      }
      if |text| > cfg.maxThoughtLength {
        assert verdict == Some(ThoughtTooLong(cfg.maxThoughtLength));
        return Failure(ThoughtTooLong(cfg.maxThoughtLength));
      }
      var missing := CheckBuildsOn(s, buildsOn);
      if missing.Some? {
        assert verdict == Some(InvalidBuildsOn(missing.value));
        return Failure(InvalidBuildsOn(missing.value));
      }
      r := AppendThought(s, agent, text, buildsOn, weight, now, timestamp, queues, kept, counters, latencies);
    }

    /** `add_thought` and `record_agent_op`, once every check of `tool_contribute` has passed. */
    method AppendThought(s: EnsembleSession, agent: string, text: string, buildsOn: seq<int>,
                         weight: real, now: real, timestamp: string,
                         ghost queues: map<(string, string), seq<real>>, ghost kept: seq<real>,
                         ghost counters: map<string, int>, ghost latencies: map<string, seq<real>>)
      returns (r: Result<ContributeReply, ToolError>)
      requires SessionOk(cfg, s) && forall x :: x in buildsOn ==> 1 <= x <= |s.thoughts|
      requires limiter.queues == queues[(s.sessionId, agent) := kept]
      requires metrics.counters == counters && metrics.latencies == latencies
      modifies s, limiter, metrics
      ensures SessionOk(cfg, s)
      ensures r.Success? <==> old(|s.thoughts|) < cfg.maxThoughtsPerSession
                              && old(|ThoughtsBy(s.thoughts, agent)|) < cfg.maxThoughtsPerAgentPerSession
      ensures r.Failure? ==> r.error == Raised(if old(|s.thoughts|) >= cfg.maxThoughtsPerSession then SessionFull else AgentFull)
      ensures r.Failure? ==> unchanged(s) && unchanged(limiter) && unchanged(metrics)
      ensures r.Success? ==>
                && r.value == ContributeReply(old(|s.thoughts|) + 1, agent, buildsOn, weight)
                && s.thoughts == old(s.thoughts) + [Thought(r.value.thoughtId, text, agent, buildsOn, weight, [], [], timestamp)]
                && s.integrations == old(s.integrations)
                && RecordedOver(queues, counters, latencies, (s.sessionId, agent), kept, now)
    {
      ghost var before := s.thoughts;
      var added := s.AddThought(cfg, Thought(0, text, agent, buildsOn, weight, [], [], timestamp));
      if added.Failure? {
        return Failure(Raised(added.error));
      }
      AppendThoughtOk(cfg, s.agentLenses, before, s.thoughts[|before|]);
      assert s.thoughts == before + [s.thoughts[|before|]];
      RecordAgentOp((s.sessionId, agent), now, queues, kept, counters, latencies);
      r := Success(ContributeReply(added.value, agent, buildsOn, weight));
    }

    /** `tool_contribute`. */
    method Contribute(sessionArg: Option<string>, agent: string, text: string, buildsOn: seq<int>,
                      weightArg: Option<real>, now: real, timestamp: string)
      returns (r: Result<ContributeReply, ToolError>)
      requires Valid()
      modifies activeSessions.Values, limiter, metrics
      ensures Valid()
      ensures activeSessions == old(activeSessions) && currentSessionId == old(currentSessionId)
      ensures forall o :: o in activeSessions.Values && Some(o) != Target(sessionArg) ==> unchanged(o)
      ensures Target(sessionArg).None? ==> r == Failure(NoActiveSession)
      ensures Target(sessionArg).None? || agent !in Target(sessionArg).value.agentLenses ==>
                unchanged(activeSessions.Values) && unchanged(limiter) && unchanged(metrics)
      ensures Target(sessionArg).Some? && agent !in Target(sessionArg).value.agentLenses ==>
                r == Failure(AgentNotInSession(agent))
      ensures Target(sessionArg).Some? && agent in Target(sessionArg).value.agentLenses ==>
                ContributeEffect(Target(sessionArg).value, agent, text, buildsOn,
                                 Clamp(0.0, 1.0, if weightArg.Some? then weightArg.value else 1.0), now, timestamp, r)
    {
      var t := Target(sessionArg);
      if t.None? {
        return Failure(NoActiveSession);
      }
      var s := t.value;
      if agent !in s.agentLenses {
        return Failure(AgentNotInSession(agent));
      }
      var weight := Clamp(0.0, 1.0, if weightArg.Some? then weightArg.value else 1.0);
      r := ContributeTo(s, agent, text, buildsOn, weight, now, timestamp);
      ValidAfterUpdate(s);
    }

    /** What `tool_endorse_challenge` does once the thought exists and the agent belongs
        to the session: the remaining checks decide the answer; a refusal only prunes the
        agent's queue; success overwrites or appends the agent's endorsement, records a
        challenge when the level is negative and a note was given, and records the operation. */
    twostate predicate EndorseEffect(s: EnsembleSession, thoughtId: int, agent: string, level: real,
                                     note: string, now: real, new r: Result<EndorseReply, ToolError>)
      reads s, limiter, metrics
    {
      var key := (s.sessionId, agent);
      var kept := Pruned(old(limiter.Queue(key)), now - limiter.window);
      && 1 <= thoughtId <= old(|s.thoughts|)
      && var t := old(s.thoughts[thoughtId - 1]);
      && (r.Failure? <==> EndorseVerdict(cfg, t, agent, note, |kept|, limiter.maxOps).Some?)
      && (r.Failure? ==> r.error == EndorseVerdict(cfg, t, agent, note, |kept|, limiter.maxOps).value)
      && (r.Failure? ==> limiter.queues == old(limiter.queues)[key := kept] && unchanged(s) && unchanged(metrics))
      && (r.Success? ==>
            && s.thoughts == old(s.thoughts)[thoughtId - 1 := Endorsed(t, agent, level, note)]
            && s.integrations == old(s.integrations)
            && Lookup(s.thoughts[thoughtId - 1].endorsements, agent) == Some(level)
            && r.value == EndorseReply(thoughtId, agent, level, |s.thoughts[thoughtId - 1].endorsements|)
            && r.value.totalEndorsements == |t.endorsements| + (if agent in Agents(t.endorsements) then 0 else 1)
            && Recorded(key, kept, now))
    }

    /** `tool_endorse_challenge` from the rate check on, for an existing thought and a member agent. */
    method EndorseIn(s: EnsembleSession, thoughtId: int, agent: string, level: real, note: string, now: real)
      returns (r: Result<EndorseReply, ToolError>)
      requires SessionOk(cfg, s) && 1 <= thoughtId <= |s.thoughts| && agent in s.agentLenses
      requires -1.0 <= level <= 1.0
      modifies s, limiter, metrics
      ensures SessionOk(cfg, s)
      ensures EndorseEffect(s, thoughtId, agent, level, note, now, r)
    {
      var key := (s.sessionId, agent);
      var t := s.thoughts[thoughtId - 1];
      ghost var kept := Pruned(limiter.Queue(key), now - limiter.window);
      ghost var verdict := EndorseVerdict(cfg, t, agent, note, |kept|, limiter.maxOps);
      ghost var queues, counters, latencies := limiter.queues, metrics.counters, metrics.latencies;
      var limited := limiter.IsLimited(key, now);
      if limited {
        return Failure(RateLimited(agent));
      }
      if note != "" && |note| > cfg.maxNoteLength {
        return Failure(NoteTooLong(cfg.maxNoteLength));
      }
      if agent == t.agentLens {
        return Failure(SelfEndorsementNotAllowed);
      }
      if |t.endorsements| >= cfg.maxEndorsementsPerThought {
        return Failure(MaxEndorsementsReached(cfg.maxEndorsementsPerThought));
      }
      assert verdict.None?;
      r := EndorseChecked(s, thoughtId, agent, level, note, now, queues, kept, counters, latencies);
    }

    /** The write of `tool_endorse_challenge` and `record_agent_op`, once every check has
        passed; `queues`, `counters` and `latencies` are the limiter and metrics on entry to
        the handler, before the agent's queue was pruned to `kept`. */
    method EndorseChecked(s: EnsembleSession, thoughtId: int, agent: string, level: real, note: string, now: real,
                          ghost queues: map<(string, string), seq<real>>, ghost kept: seq<real>,
                          ghost counters: map<string, int>, ghost latencies: map<string, seq<real>>)
      returns (r: Result<EndorseReply, ToolError>)
      requires SessionOk(cfg, s) && 1 <= thoughtId <= |s.thoughts| && agent in s.agentLenses
      requires -1.0 <= level <= 1.0
      requires agent != s.thoughts[thoughtId - 1].agentLens
      requires |s.thoughts[thoughtId - 1].endorsements| < cfg.maxEndorsementsPerThought
      requires limiter.queues == queues[(s.sessionId, agent) := kept]
      requires metrics.counters == counters && metrics.latencies == latencies
      modifies s, limiter, metrics
      ensures SessionOk(cfg, s)
      ensures RecordedOver(queues, counters, latencies, (s.sessionId, agent), kept, now)
      ensures var t := old(s.thoughts[thoughtId - 1]);
        && r.Success?
        && s.thoughts == old(s.thoughts)[thoughtId - 1 := Endorsed(t, agent, level, note)]
        && s.integrations == old(s.integrations)
        && Lookup(s.thoughts[thoughtId - 1].endorsements, agent) == Some(level)
        && r.value == EndorseReply(thoughtId, agent, level, |s.thoughts[thoughtId - 1].endorsements|)
        && r.value.totalEndorsements == |t.endorsements| + (if agent in Agents(t.endorsements) then 0 else 1)
    {
      r := ApplyChecked(s, thoughtId, agent, level, note);
      RecordAgentOp((s.sessionId, agent), now, queues, kept, counters, latencies);
    }

    /** The write of `tool_endorse_challenge`, once every check has passed. */
    method ApplyChecked(s: EnsembleSession, thoughtId: int, agent: string, level: real, note: string)
      returns (r: Result<EndorseReply, ToolError>)
      requires SessionOk(cfg, s) && 1 <= thoughtId <= |s.thoughts| && agent in s.agentLenses
      requires -1.0 <= level <= 1.0
      requires agent != s.thoughts[thoughtId - 1].agentLens
      requires |s.thoughts[thoughtId - 1].endorsements| < cfg.maxEndorsementsPerThought
      modifies s
      ensures SessionOk(cfg, s)
      ensures var t := old(s.thoughts[thoughtId - 1]);
        && r.Success?
        && s.thoughts == old(s.thoughts)[thoughtId - 1 := Endorsed(t, agent, level, note)]
        && s.integrations == old(s.integrations)
        && Lookup(s.thoughts[thoughtId - 1].endorsements, agent) == Some(level)
        && r.value == EndorseReply(thoughtId, agent, level, |s.thoughts[thoughtId - 1].endorsements|)
        && r.value.totalEndorsements == |t.endorsements| + (if agent in Agents(t.endorsements) then 0 else 1)
    {
      var t := s.thoughts[thoughtId - 1];
      ghost var before := s.thoughts;
      ghost var proposals := s.integrations;
      assert ThoughtOk(cfg, s.agentLenses, t);
      EndorsedOk(cfg, s.agentLenses, t, agent, level, note);
      EndorsedEntry(t, agent, level, note);
      ReplaceThoughtOk(cfg, s.agentLenses, before, thoughtId - 1, Endorsed(t, agent, level, note));
      assert ReconcilesOk(proposals, |before|);
      s.ApplyEndorsement(thoughtId, agent, level, note);
      assert |s.thoughts| == |before| && s.integrations == proposals;
      r := Success(EndorseReply(thoughtId, agent, level, |s.thoughts[thoughtId - 1].endorsements|));
    }

    /** `tool_endorse_challenge` on a resolved session: a missing thought, then a
        non-member agent, are refused with nothing changed; past those, `EndorseEffect`. */
    twostate predicate EndorseOutcome(s: EnsembleSession, thoughtId: int, agent: string, level: real,
                                      note: string, now: real, new r: Result<EndorseReply, ToolError>)
      reads s, limiter, metrics
    {
      && (!(1 <= thoughtId <= old(|s.thoughts|)) ==> r == Failure(ThoughtNotFound(thoughtId)))
      && (1 <= thoughtId <= old(|s.thoughts|) && agent !in s.agentLenses ==> r == Failure(AgentNotInSession(agent)))
      && (!(1 <= thoughtId <= old(|s.thoughts|)) || agent !in s.agentLenses ==>
            unchanged(s) && unchanged(limiter) && unchanged(metrics))
      && (1 <= thoughtId <= old(|s.thoughts|) && agent in s.agentLenses ==>
            EndorseEffect(s, thoughtId, agent, level, note, now, r))
    }

    /** `tool_endorse_challenge`: the level is clamped to [-1, 1]; an absent note is `""`. */
    method EndorseOrChallenge(sessionArg: Option<string>, thoughtId: int, agent: string, levelArg: real,
                              note: string, now: real)
      returns (r: Result<EndorseReply, ToolError>)
      requires Valid()
      modifies activeSessions.Values, limiter, metrics
      ensures Valid()
      ensures activeSessions == old(activeSessions) && currentSessionId == old(currentSessionId)
      ensures forall o :: o in activeSessions.Values && Some(o) != Target(sessionArg) ==> unchanged(o)
      ensures Target(sessionArg).None? ==> r == Failure(NoActiveSession)
      ensures Target(sessionArg).None? ==> unchanged(activeSessions.Values) && unchanged(limiter) && unchanged(metrics)
      ensures Target(sessionArg).Some? ==>
                EndorseOutcome(Target(sessionArg).value, thoughtId, agent, Clamp(-1.0, 1.0, levelArg), note, now, r)
    {
      var target := Target(sessionArg);
      if target.None? {
        return Failure(NoActiveSession);
      }
      var s := target.value;
      assert SessionOk(cfg, s);
      var level := Clamp(-1.0, 1.0, levelArg);
      var thought := s.GetThought(thoughtId);
      if thought.None? {
        return Failure(ThoughtNotFound(thoughtId));
      }
      if agent !in s.agentLenses {
        return Failure(AgentNotInSession(agent));
      }
      r := EndorseIn(s, thoughtId, agent, level, note, now);
      ValidAfterUpdate(s);
    }

    /** The `reconciles` loop: the first entry that is not an int or names no thought. */
    method CheckReconciles(s: EnsembleSession, items: seq<Json>) returns (problem: Option<ReconcileProblem>)
      requires s.Valid()
      ensures problem == FirstReconcileProblem(items, |s.thoughts|)
    {
      var i := 0;
      while i < |items|
        invariant 0 <= i <= |items|
        invariant FirstReconcileProblem(items, |s.thoughts|) == FirstReconcileProblem(items[i..], |s.thoughts|)
      {
        assert items[i..] == [items[i]] + items[i + 1..];
        if !IsInt(items[i]) {
          return Some(NotAnInteger(items[i]));
        }
        var found := s.GetThought(IntOf(items[i]));
        if found.None? {
          return Some(UnknownThought(IntOf(items[i])));
        }
        i := i + 1;
      }
      return None;
    }

    /** What `tool_propose_integration` does once the agent belongs to the session: the
        remaining checks decide the answer; a refusal only prunes the agent's queue; success
        appends the proposal under the next id and records the operation. */
    twostate predicate ProposeEffect(s: EnsembleSession, agent: string, integration: string,
                                     reconciles: Option<seq<Json>>, now: real, timestamp: string,
                                     new r: Result<ProposeReply, ToolError>)
      reads s, limiter, metrics
    {
      var key := (s.sessionId, agent);
      var kept := Pruned(old(limiter.Queue(key)), now - limiter.window);
      var verdict := ProposeVerdict(cfg, old(|s.thoughts|), agent, integration, reconciles, |kept|, limiter.maxOps);
      && (r.Failure? <==> verdict.Some?)
      && (r.Failure? ==> r.error == verdict.value)
      && (r.Failure? ==> limiter.queues == old(limiter.queues)[key := kept] && unchanged(s) && unchanged(metrics))
      && (r.Success? ==>
            && reconciles.Some?
            && NamesThoughts(reconciles.value, old(|s.thoughts|))
            && r.value == ProposeReply(old(|s.integrations|) + 1, agent, reconciles.value)
            && s.integrations == old(s.integrations)
                 + [IntegrationProposal(r.value.proposalId, agent, integration, reconciles.value, [], timestamp)]
            && s.thoughts == old(s.thoughts)
            && Recorded(key, kept, now))
    }

    /** `tool_propose_integration` from the rate check on, for a member agent. */
    method ProposeIn(s: EnsembleSession, agent: string, integration: string, reconciles: Option<seq<Json>>,
                     now: real, timestamp: string)
      returns (r: Result<ProposeReply, ToolError>)
      requires SessionOk(cfg, s) && agent in s.agentLenses
      modifies s, limiter, metrics
      ensures SessionOk(cfg, s)
      ensures ProposeEffect(s, agent, integration, reconciles, now, timestamp, r)
    {
      var key := (s.sessionId, agent);
      ghost var kept := Pruned(limiter.Queue(key), now - limiter.window);
      ghost var verdict := ProposeVerdict(cfg, |s.thoughts|, agent, integration, reconciles, |kept|, limiter.maxOps);
      ghost var queues, counters, latencies := limiter.queues, metrics.counters, metrics.latencies;
      var limited := limiter.IsLimited(key, now);
      if limited {
        return Failure(RateLimited(agent));
      }
      if |integration| > cfg.maxIntegrationLength {
        return Failure(IntegrationTooLong(cfg.maxIntegrationLength));
      }
      if reconciles.None? {
        return Failure(InvalidReconciles(NotAList));
      }
      var items := reconciles.value;
      if |items| > cfg.maxReconcilesPerIntegration {
        return Failure(TooManyReconciles(cfg.maxReconcilesPerIntegration));
      }
      var problem := CheckReconciles(s, items);
      if problem.Some? {
        return Failure(InvalidReconciles(problem.value));
      }
      assert verdict.None?;
      var id := AppendProposal(s, agent, integration, items, now, timestamp, queues, kept, counters, latencies);
      r := Success(ProposeReply(id, agent, items));
    }

    /** `add_integration` and `record_agent_op` once every check of `tool_propose_integration`
        has passed; the ghost parameters are as for `ApplyChecked`. */
    method AppendProposal(s: EnsembleSession, agent: string, integration: string, ids: seq<Json>,
                          now: real, timestamp: string,
                          ghost queues: map<(string, string), seq<real>>, ghost kept: seq<real>,
                          ghost counters: map<string, int>, ghost latencies: map<string, seq<real>>)
      returns (id: int)
      requires SessionOk(cfg, s) && NamesThoughts(ids, |s.thoughts|)
      requires limiter.queues == queues[(s.sessionId, agent) := kept]
      requires metrics.counters == counters && metrics.latencies == latencies
      modifies s, limiter, metrics
      ensures SessionOk(cfg, s)
      ensures RecordedOver(queues, counters, latencies, (s.sessionId, agent), kept, now)
      ensures id == old(|s.integrations|) + 1
      ensures s.integrations == old(s.integrations) + [IntegrationProposal(id, agent, integration, ids, [], timestamp)]
      ensures s.thoughts == old(s.thoughts)
    {
      ghost var before := s.integrations;
      id := s.AddIntegration(IntegrationProposal(0, agent, integration, ids, [], timestamp));
      assert ReconcilesOk(s.integrations, |s.thoughts|) by {
        forall i | 0 <= i < |s.integrations| ensures NamesThoughts(s.integrations[i].reconciles, |s.thoughts|) {
          if i < |before| {
            assert s.integrations[i] == before[i];
          }
        }
      }
      RecordAgentOp((s.sessionId, agent), now, queues, kept, counters, latencies);
    }

    /** `tool_propose_integration`; `reconciles` is `None` when the argument is not a list. */
    method ProposeIntegration(sessionArg: Option<string>, agent: string, integration: string,
                              reconciles: Option<seq<Json>>, now: real, timestamp: string)
      returns (r: Result<ProposeReply, ToolError>)
      requires Valid()
      modifies activeSessions.Values, limiter, metrics
      ensures Valid()
      ensures activeSessions == old(activeSessions) && currentSessionId == old(currentSessionId)
      ensures forall o :: o in activeSessions.Values && Some(o) != Target(sessionArg) ==> unchanged(o)
      ensures Target(sessionArg).None? ==> r == Failure(NoActiveSession)
      ensures Target(sessionArg).None? || agent !in Target(sessionArg).value.agentLenses ==>
                unchanged(activeSessions.Values) && unchanged(limiter) && unchanged(metrics)
      ensures Target(sessionArg).Some? && agent !in Target(sessionArg).value.agentLenses ==>
                r == Failure(AgentNotInSession(agent))
      ensures Target(sessionArg).Some? && agent in Target(sessionArg).value.agentLenses ==>
                ProposeEffect(Target(sessionArg).value, agent, integration, reconciles, now, timestamp, r)
    {
      var target := Target(sessionArg);
      if target.None? {
        return Failure(NoActiveSession);
      }
      var s := target.value;
      if agent !in s.agentLenses {
        return Failure(AgentNotInSession(agent));
      }
      r := ProposeIn(s, agent, integration, reconciles, now, timestamp);
      ValidAfterUpdate(s);
    }

    /** The synthesis of one session: consensus, tensions, convergence, cycles and
        per-agent counts. The invariant rules out cycles and keeps the mean agreement
        within [-1, 1]. */
    method SynthesizeSession(s: EnsembleSession, sessionId: string, threshold: real) returns (syn: Synthesis)
      requires SessionOk(cfg, s)
      ensures syn.sessionId == sessionId
      ensures syn.consensus == CalculateConsensus(s.thoughts, threshold)
      ensures syn.tensions == IdentifyTensions(s.thoughts, cfg)
      ensures syn.convergenceScore == ConvergenceScore(s.thoughts, cfg)
      ensures syn.totalThoughts == |s.thoughts|
      ensures syn.agentContributions == (map a | a in s.agentLenses :: |ThoughtsBy(s.thoughts, a)|)
      ensures syn.circularReasoning == []
      ensures 0.0 <= syn.convergenceScore <= 1.0
      ensures -1.0 <= syn.consensus.avgAgreement <= 1.0
    {
      ThoughtsOkBounds(cfg, s.agentLenses, s.thoughts);
      var consensus := CalculateConsensus(s.thoughts, threshold);
      AvgAgreementBounded(s.thoughts, threshold);
      var tensions := IdentifyTensions(s.thoughts, cfg);
      var convergence := ConvergenceScore(s.thoughts, cfg);
      var cycles := DetectCycles(s);
      var contributions := map a | a in s.agentLenses :: |s.GetAgentThoughts(a)|;
      syn := Synthesis(sessionId, convergence, consensus, tensions, cycles, |s.thoughts|, contributions);
    }

    /** `tool_synthesize`; an absent threshold is the configured default. */
    method Synthesize(sessionArg: Option<string>, thresholdArg: Option<real>) returns (r: Result<Synthesis, ToolError>)
      requires Valid()
      ensures Target(sessionArg).None? <==> r == Failure(NoActiveSession)
      ensures r.Success? <==> Target(sessionArg).Some?
      ensures r.Success? ==>
        var s := Target(sessionArg).value;
        var threshold := if thresholdArg.Some? then thresholdArg.value else cfg.defaultSynthesisThreshold;
        && r.value.sessionId == TargetId(sessionArg)
        && r.value.consensus == CalculateConsensus(s.thoughts, threshold)
        && r.value.tensions == IdentifyTensions(s.thoughts, cfg)
        && r.value.convergenceScore == ConvergenceScore(s.thoughts, cfg)
        && r.value.totalThoughts == |s.thoughts|
        && r.value.agentContributions == (map a | a in s.agentLenses :: |ThoughtsBy(s.thoughts, a)|)
        && r.value.circularReasoning == []
        && 0.0 <= r.value.convergenceScore <= 1.0
        && -1.0 <= r.value.consensus.avgAgreement <= 1.0
    {
      var target := Target(sessionArg);
      if target.None? {
        return Failure(NoActiveSession);
      }
      assert SessionOk(cfg, target.value);
      var threshold := if thresholdArg.Some? then thresholdArg.value else cfg.defaultSynthesisThreshold;
      var syn := SynthesizeSession(target.value, TargetId(sessionArg), threshold);
      r := Success(syn);
    }

    /** `tool_get_rate_status`: prunes every queue to the window and reports its length. */
    method GetRateStatus(now: real) returns (status: map<(string, string), nat>)
      modifies limiter
      ensures limiter.queues.Keys == old(limiter.queues).Keys
      ensures forall k :: k in limiter.queues ==> limiter.queues[k] == Pruned(old(limiter.queues)[k], now - limiter.window)
      ensures status.Keys == limiter.queues.Keys
      ensures forall k :: k in status ==> status[k] == |limiter.queues[k]|
    {
      status := limiter.PruneAll(now);
    }

    /** `tool_reset_agent_rate`: clears one queue when a session is named, otherwise the
        agent's queue in every session the limiter knows. Empty strings count as absent. */
    method ResetAgentRate(agent: string, sessionArg: string) returns (r: Result<(), ToolError>)
      modifies limiter
      ensures agent == "" <==> r == Failure(MissingAgentLens)
      ensures r.Success? <==> agent != ""
      ensures agent == "" ==> unchanged(limiter)
      ensures agent != "" && sessionArg != "" ==> limiter.queues == old(limiter.queues)[(sessionArg, agent) := []]
      ensures agent != "" && sessionArg == "" ==>
                && limiter.queues.Keys == old(limiter.queues).Keys + (set k | k in old(limiter.queues) :: (k.0, agent))
                && forall k :: k in limiter.queues ==>
                     limiter.queues[k] == if k.1 == agent then [] else old(limiter.queues)[k]
    {
      if agent == "" {
        return Failure(MissingAgentLens);
      }
      if sessionArg != "" {
        limiter.Clear((sessionArg, agent));
        return Success(());
      }
      ghost var q0 := limiter.queues;
      var sessions := set k | k in limiter.queues :: k.0;
      ghost var done: set<string> := {};
      while sessions != {}
        invariant sessions + done == (set k | k in q0 :: k.0) && sessions !! done
        invariant limiter.queues.Keys == q0.Keys + (set d | d in done :: (d, agent))
        invariant forall k :: k in limiter.queues ==>
                    limiter.queues[k] == if k.1 == agent && k.0 in done then [] else q0[k]
        decreases sessions
      {
        var sid :| sid in sessions;
        limiter.Clear((sid, agent));
        sessions := sessions - {sid};
        done := done + {sid};
      }
      assert (set d | d in done :: (d, agent)) == (set k | k in q0 :: (k.0, agent));
      r := Success(());
    }
  }
}
