/** The lateral-synthesis data model: a session holds an origin, the divergent
    concepts drawn for it, one synthesis per concept and a closing reflection.
    Sessions are values here; the server keeps them in a map it updates. */
module LateralModels {
  import opened Common

  const ConnectionTypes: seq<string> :=
    ["analogy", "contrast", "causal", "metaphor", "structural", "arbitrary", "other"]

  // ---------------------------------------------------------------------------
  // Configuration
  // ---------------------------------------------------------------------------

  /** `DivergenceConfig`; its `method` field is `strategy` here, `method` being a Dafny keyword. */
  datatype DivergenceConfig = DivergenceConfig(strategy: string, count: int)
  datatype LimitsConfig = LimitsConfig(maxOriginChars: int, maxInsightChars: int)
  datatype Config = Config(divergence: DivergenceConfig, persistenceEnabled: bool, limits: LimitsConfig)

  const DefaultConfig: Config :=
    Config(DivergenceConfig("random", 5), true, LimitsConfig(1000, 2000))

  // ---------------------------------------------------------------------------
  // Syntheses and reflections
  // ---------------------------------------------------------------------------

  datatype ConceptSynthesis = ConceptSynthesis(
    divergentConcept: string,
    connectionType: string,
    connectionTypeDetail: Option<string>,
    confidence: real,
    insight: string,
    recordedAt: string)

  /** Python truthiness of an optional string: present and non-empty. */
  predicate Truthy(s: Option<string>)
  {
    s.Some? && s.value != ""
  }

  datatype SynthesisProblem =
    | UnknownConnectionType(connectionType: string)
    | MissingDetail
    | ConfidenceOutOfRange(confidence: real)
    | EmptyInsight

  /** `ConceptSynthesis.validate`: the problems in the order they are checked. An insight
      fails `insight.strip()` exactly when it is blank (`Common.StripEmptyIffBlank`). */
  function ValidateSynthesis(c: ConceptSynthesis): (errs: seq<SynthesisProblem>)
    ensures UnknownConnectionType(c.connectionType) in errs <==> c.connectionType !in ConnectionTypes
    ensures MissingDetail in errs <==> c.connectionType == "other" && !Truthy(c.connectionTypeDetail)
    ensures ConfidenceOutOfRange(c.confidence) in errs <==> !(0.0 <= c.confidence <= 1.0)
    ensures EmptyInsight in errs <==> IsBlank(c.insight)
    ensures errs == [] <==> ValidSynthesis(c)
  {
    (if c.connectionType !in ConnectionTypes then [UnknownConnectionType(c.connectionType)] else [])
    + (if c.connectionType == "other" && !Truthy(c.connectionTypeDetail) then [MissingDetail] else [])
    + (if !(0.0 <= c.confidence <= 1.0) then [ConfidenceOutOfRange(c.confidence)] else [])
    + (if IsBlank(c.insight) then [EmptyInsight] else [])
  }

  predicate ValidSynthesis(c: ConceptSynthesis)
  {
    && c.connectionType in ConnectionTypes
    && (c.connectionType == "other" ==> Truthy(c.connectionTypeDetail))
    && 0.0 <= c.confidence <= 1.0
    && !IsBlank(c.insight)
  }

  datatype SessionReflection = SessionReflection(
    mostValuableInsight: string,
    whyValuable: string,
    surprisingConnections: seq<string>,
    overallRating: real,
    recordedAt: string)

  datatype ReflectionProblem = RatingOutOfRange(rating: real) | EmptyMostValuable | EmptyWhyValuable

  /** `SessionReflection.validate`: the problems in the order they are checked. */
  function ValidateReflection(r: SessionReflection): (errs: seq<ReflectionProblem>)
    ensures RatingOutOfRange(r.overallRating) in errs <==> !(0.0 <= r.overallRating <= 1.0)
    ensures EmptyMostValuable in errs <==> IsBlank(r.mostValuableInsight)
    ensures EmptyWhyValuable in errs <==> IsBlank(r.whyValuable)
    ensures errs == [] <==> ValidReflection(r)
  {
    (if !(0.0 <= r.overallRating <= 1.0) then [RatingOutOfRange(r.overallRating)] else [])
    + (if IsBlank(r.mostValuableInsight) then [EmptyMostValuable] else [])
    + (if IsBlank(r.whyValuable) then [EmptyWhyValuable] else [])
  }

  predicate ValidReflection(r: SessionReflection)
  {
    0.0 <= r.overallRating <= 1.0 && !IsBlank(r.mostValuableInsight) && !IsBlank(r.whyValuable)
  }

  // ---------------------------------------------------------------------------
  // Sessions
  // ---------------------------------------------------------------------------

  /** `createdAt` is `None` only for a history record whose `created_at` was null; the
      `method` field is `divergenceMethod` here, `method` being a Dafny keyword. */
  datatype LateralSession = LateralSession(
    sessionId: string,
    origin: string,
    divergentConcepts: seq<string>,
    syntheses: seq<ConceptSynthesis>,
    reflection: Option<SessionReflection>,
    divergenceMethod: string,
    createdAt: Option<string>,
    completedAt: Option<string>)

  /** `LateralSession.create`; the uuid and the clock are parameters. */
  function CreateSession(sessionId: string, origin: string, divergenceMethod: string, now: string): (s: LateralSession)
    ensures s.divergentConcepts == [] && s.syntheses == [] && s.reflection == None && s.completedAt == None
    ensures s.sessionId == sessionId && s.origin == origin && s.divergenceMethod == divergenceMethod && s.createdAt == Some(now)
  {
    LateralSession(sessionId, origin, [], [], None, divergenceMethod, Some(now), None)
  }

  /** The concepts of a list of syntheses, in order. */
  function ConceptsOf(syn: seq<ConceptSynthesis>): (r: seq<string>)
    ensures |r| == |syn| && forall i :: 0 <= i < |syn| ==> r[i] == syn[i].divergentConcept
  {
    if syn == [] then [] else ConceptsOf(syn[..|syn| - 1]) + [syn[|syn| - 1].divergentConcept]
  }

  /** `get_synthesized_concepts`. */
  function SynthesizedConcepts(s: LateralSession): (r: set<string>)
    ensures forall c :: c in r <==> c in ConceptsOf(s.syntheses)
  {
    set i | 0 <= i < |s.syntheses| :: s.syntheses[i].divergentConcept
  }

  /** The elements of `xs` outside `drop`, in order. */
  function Without(xs: seq<string>, drop: set<string>): (r: seq<string>)
    ensures forall c :: c in r <==> c in xs && c !in drop
    ensures |r| <= |xs|
  {
    if xs == [] then []
    else Without(xs[..|xs| - 1], drop) + (if xs[|xs| - 1] in drop then [] else [xs[|xs| - 1]])
  }

  /** `get_remaining_concepts`: the divergent concepts, in order, not yet synthesised. */
  function RemainingConcepts(s: LateralSession): (r: seq<string>)
    ensures forall c :: c in r <==> c in s.divergentConcepts && c !in SynthesizedConcepts(s)
  {
    Without(s.divergentConcepts, SynthesizedConcepts(s))
  }

  lemma RemainingDisjointFromSynthesized(s: LateralSession)
    ensures forall c :: c in RemainingConcepts(s) ==> c !in SynthesizedConcepts(s)
    ensures forall c :: c in s.divergentConcepts ==> c in RemainingConcepts(s) || c in SynthesizedConcepts(s)
  {
  }

  /** `is_synthesis_complete`: a count comparison, not a set comparison. */
  predicate IsSynthesisComplete(s: LateralSession)
  {
    |s.syntheses| >= |s.divergentConcepts| && |s.divergentConcepts| > 0
  }

  predicate IsComplete(s: LateralSession)
  {
    IsSynthesisComplete(s) && s.reflection.Some?
  }

  // ---------------------------------------------------------------------------
  // Dictionary form
  // ---------------------------------------------------------------------------

  /** A JSON field that may be missing, null or present. */
  datatype Field<T> = Missing | Null | Present(value: T)

  /** The dictionary `to_dict` builds and `from_dict` reads. A key `from_dict` reads with a
      default is optional; `None` means the key is missing. */
  datatype SessionData = SessionData(
    sessionId: Option<string>,
    origin: Option<string>,
    divergentConcepts: Option<seq<string>>,
    syntheses: Option<seq<ConceptSynthesis>>,
    reflection: Option<SessionReflection>,
    divergenceMethod: Option<string>,
    createdAt: Field<string>,
    completedAt: Option<string>)

  /** `to_dict`. */
  function ToDict(s: LateralSession): (d: SessionData)
    ensures d.sessionId == Some(s.sessionId) && d.origin == Some(s.origin)
    ensures d.divergentConcepts == Some(s.divergentConcepts) && d.syntheses == Some(s.syntheses)
  {
    SessionData(Some(s.sessionId), Some(s.origin), Some(s.divergentConcepts), Some(s.syntheses),
                s.reflection, Some(s.divergenceMethod),
                if s.createdAt.Some? then Present(s.createdAt.value) else Null,
                s.completedAt)
  }

  /** What `from_dict` builds: the two required keys or nothing (a `KeyError`), the
      documented defaults for the rest; `now` is the clock reading a missing
      `created_at` falls back to. */
  function Decode(d: SessionData, now: string): (r: Option<LateralSession>)
    ensures r.Some? <==> d.sessionId.Some? && d.origin.Some?
    ensures r.Some? ==> r.value.sessionId == d.sessionId.value && r.value.origin == d.origin.value
    ensures r.Some? && d.divergenceMethod.None? ==> r.value.divergenceMethod == "random"
    ensures r.Some? && d.divergentConcepts.None? ==> r.value.divergentConcepts == [] && r.value.syntheses == Decoded(d.syntheses)
    ensures r.Some? ==> (r.value.createdAt.None? <==> d.createdAt.Null?)
  {
    if d.sessionId.None? || d.origin.None? then None
    else Some(LateralSession(
      d.sessionId.value, d.origin.value,
      if d.divergentConcepts.Some? then d.divergentConcepts.value else [],
      Decoded(d.syntheses),
      d.reflection,
      if d.divergenceMethod.Some? then d.divergenceMethod.value else "random",
      match d.createdAt
        case Missing => Some(now)
        case Null => None
        case Present(v) => Some(v),
      d.completedAt))
  }

  function Decoded(syn: Option<seq<ConceptSynthesis>>): seq<ConceptSynthesis>
  {
    if syn.Some? then syn.value else []
  }

  /** `from_dict(to_dict(s))` gives back `s`, whatever the clock says. */
  lemma DecodeToDict(s: LateralSession, now: string)
    ensures Decode(ToDict(s), now) == Some(s)
  {
  }

  /** `LateralSession.from_dict`: the session is built from the scalar keys, then the
      syntheses are appended one by one. */
  method FromDict(d: SessionData, now: string) returns (r: Option<LateralSession>)
    ensures r == Decode(d, now)
  {
    if d.sessionId.None? || d.origin.None? {
      return None;
    }
    var session := LateralSession(
      d.sessionId.value, d.origin.value,
      if d.divergentConcepts.Some? then d.divergentConcepts.value else [],
      [], None,
      if d.divergenceMethod.Some? then d.divergenceMethod.value else "random",
      match d.createdAt
        case Missing => Some(now)
        case Null => None
        case Present(v) => Some(v),
      d.completedAt);
    var items := Decoded(d.syntheses);
    var i := 0;
    while i < |items|
      invariant 0 <= i <= |items|
      invariant session == Decode(d, now).value.(syntheses := items[..i], reflection := None)
    {
      session := session.(syntheses := session.syntheses + [items[i]]);
      assert items[..i + 1] == items[..i] + [items[i]];
      i := i + 1;
    }
    assert items[..i] == items;
    if d.reflection.Some? {
      session := session.(reflection := d.reflection);
    }
    r := Some(session);
  }
}
