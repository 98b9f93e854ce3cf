/** The lateral-synthesis tool handlers: start a session on an origin, draw divergent
    concepts, record one synthesis per concept, close with a reflection, and read
    sessions back. The server's state is the in-memory session table, its insertion
    order, the current session id and the history directory. */
module LateralTools {
  import opened Common
  import opened LateralModels
  import opened LateralPersistence

  // ---------------------------------------------------------------------------
  // Arguments
  // ---------------------------------------------------------------------------

  /** A number argument: missing or null, a JSON number (or a string `float()` accepts),
      or anything else. */
  datatype NumArg = NumMissing | Number(value: real) | NotNumeric

  /** `count`: missing, something `int()` accepts, or something it refuses. */
  datatype CountArg = CountAbsent | CountValue(n: int) | CountInvalid

  /** `surprising_connections`: missing, a list, or a single value. */
  datatype SurprisingArg = SurprisingAbsent | SurprisingList(items: seq<string>) | SurprisingOne(item: string)

  /** A string argument is `None` when its key is missing. `strategy` is the `method`
      argument, `method` being a Dafny keyword. */
  datatype StartArgs = StartArgs(origin: Option<string>, strategy: Option<string>)
  datatype GenerateArgs = GenerateArgs(sessionId: Option<string>, count: CountArg, override: bool)
  datatype RecordArgs = RecordArgs(
    sessionId: Option<string>,
    divergentConcept: Option<string>,
    connectionType: Option<string>,
    connectionTypeDetail: Option<string>,
    confidence: NumArg,
    insight: Option<string>)
  datatype ReflectArgs = ReflectArgs(
    sessionId: Option<string>,
    mostValuableInsight: Option<string>,
    whyValuable: Option<string>,
    surprisingConnections: SurprisingArg,
    overallRating: NumArg)

  /** `args.get(key, "")`. */
  function OrEmpty(s: Option<string>): string
  {
    if s.Some? then s.value else ""
  }

  /** `args.get(key, "").strip()`. */
  function Arg(s: Option<string>): (r: string)
    ensures r == [] <==> IsBlank(OrEmpty(s))
    ensures r != [] ==> !IsBlank(r)
  {
    StripEmptyIffBlank(OrEmpty(s));
    StrippedNotBlank(OrEmpty(s));
    if s.Some? then Strip(s.value) else []
  }

  /** A string argument after `.strip()`: empty, or neither empty nor blank. */
  predicate Stripped(x: string)
  {
    x == [] || !IsBlank(x)
  }

  /** The arguments of `tool_record_synthesis` as the handler reads them: the strings
      stripped, the detail and the confidence as given. */
  datatype RecordInput = RecordInput(
    concept: string,
    connectionType: string,
    detail: Option<string>,
    confidence: NumArg,
    insight: string)

  function RecordInputOf(a: RecordArgs): (r: RecordInput)
    ensures r.concept == [] <==> IsBlank(OrEmpty(a.divergentConcept))
    ensures r.connectionType == [] <==> IsBlank(OrEmpty(a.connectionType))
    ensures r.insight == [] <==> IsBlank(OrEmpty(a.insight))
    ensures Stripped(r.concept) && Stripped(r.connectionType) && Stripped(r.insight)
    ensures r.detail == a.connectionTypeDetail && r.confidence == a.confidence
  {
    RecordInput(Arg(a.divergentConcept), Arg(a.connectionType), a.connectionTypeDetail, a.confidence, Arg(a.insight))
  }

  /** The arguments of `tool_reflect_on_session` as the handler reads them. */
  datatype ReflectInput = ReflectInput(
    mostValuable: string,
    whyValuable: string,
    surprising: seq<string>,
    rating: NumArg)

  function ReflectInputOf(a: ReflectArgs): (r: ReflectInput)
    ensures r.mostValuable == [] <==> IsBlank(OrEmpty(a.mostValuableInsight))
    ensures r.whyValuable == [] <==> IsBlank(OrEmpty(a.whyValuable))
    ensures Stripped(r.mostValuable) && Stripped(r.whyValuable)
    ensures r.surprising == SurprisingOf(a.surprisingConnections) && r.rating == a.overallRating
  {
    ReflectInput(Arg(a.mostValuableInsight), Arg(a.whyValuable), SurprisingOf(a.surprisingConnections), a.overallRating)
  }

  /** `surprising if isinstance(surprising, list) else [surprising]`. */
  function SurprisingOf(a: SurprisingArg): (r: seq<string>)
    ensures a.SurprisingList? ==> r == a.items
    ensures a.SurprisingOne? ==> r == [a.item]
    ensures a.SurprisingAbsent? ==> r == []
  {
    match a
    case SurprisingAbsent => []
    case SurprisingList(items) => items
    case SurprisingOne(item) => [item]
  }


  // ---------------------------------------------------------------------------
  // Errors and replies
  // ---------------------------------------------------------------------------

  datatype LateralError =
    | NoSession
    | MissingOrigin
    | OriginTooLong(length: nat, maxLength: int)
    | AlreadyGenerated(concepts: seq<string>)
    | InvalidCount(given: Option<int>)
    | NoDivergence
    | MissingConcept
    | InvalidConcept(validConcepts: seq<string>)
    | AlreadySynthesized(remaining: seq<string>)
    | MissingConnectionType
    | MissingConfidence
    | ValueNotNumeric(field: string)
    | ValueOutOfRange(field: string, got: real)
    | InvalidSynthesis(synthesisProblems: seq<SynthesisProblem>)
    | MissingInsight
    | InsightTooLong(length: nat, maxLength: int)
    | SynthesisIncomplete(completed: nat, required: nat, remainingConcepts: seq<string>)
    | AlreadyReflected
    | MissingMostValuable
    | MissingWhyValuable
    | MissingRating
    | InvalidReflection(reflectionProblems: seq<ReflectionProblem>)
    | InternalError

  /** The `error` string of the reply. */
  function Code(e: LateralError): string
  {
    match e
    case NoSession => "no_session"
    case MissingOrigin => "missing_origin"
    case OriginTooLong(_, _) => "origin_too_long"
    case AlreadyGenerated(_) => "already_generated"
    case InvalidCount(_) => "invalid_count"
    case NoDivergence => "no_divergence"
    case MissingConcept => "missing_concept"
    case InvalidConcept(_) => "invalid_concept"
    case AlreadySynthesized(_) => "already_synthesized"
    case MissingConnectionType => "missing_connection_type"
    case MissingConfidence => "missing_confidence"
    case ValueNotNumeric(_) => "validation_error"
    case ValueOutOfRange(_, _) => "validation_error"
    case InvalidSynthesis(_) => "validation_error"
    case MissingInsight => "missing_insight"
    case InsightTooLong(_, _) => "insight_too_long"
    case SynthesisIncomplete(_, _, _) => "synthesis_incomplete"
    case AlreadyReflected => "already_reflected"
    case MissingMostValuable => "missing_most_valuable"
    case MissingWhyValuable => "missing_why_valuable"
    case MissingRating => "missing_rating"
    case InvalidReflection(_) => "validation_error"
    case InternalError => "internal_error"
  }

  datatype StartReply = StartReply(sessionId: string, origin: string, strategy: string, createdAt: string)
  datatype GenerateReply = GenerateReply(sessionId: string, origin: string, divergentConcepts: seq<string>, overridden: bool)
  datatype RecordReply = RecordReply(
    sessionId: string, recorded: string, connectionType: string, confidence: real,
    synthesesCompleted: nat, synthesesRequired: nat, remainingConcepts: seq<string>)
  datatype ReflectReply = ReflectReply(
    sessionId: string, completedAt: string, overallRating: real,
    origin: string, divergentConcepts: seq<string>, synthesesCount: nat, mostValuable: string)
  datatype SessionStatus = SessionStatus(
    hasDivergence: bool, synthesesCompleted: nat, synthesesRequired: nat, remainingConcepts: seq<string>,
    synthesisComplete: bool, hasReflection: bool, fullyComplete: bool)

  datatype Source = Memory | History
  datatype ListEntry = ListEntry(
    sessionId: string, origin: string, strategy: string, createdAt: Option<string>,
    completedAt: Option<string>, isComplete: bool, source: Source)
  datatype ListReply = ListReply(sessions: seq<ListEntry>, total: nat, limit: int, currentSessionId: Option<string>)

  // ---------------------------------------------------------------------------
  // The session invariant
  // ---------------------------------------------------------------------------

  predicate Distinct(xs: seq<string>)
  {
    forall i, j :: 0 <= i < j < |xs| ==> xs[i] != xs[j]
  }

  function Elements(xs: seq<string>): (r: set<string>)
    ensures forall x :: x in r <==> x in xs
  {
    set x | x in xs
  }

  /** What every session the handlers build satisfies: a stored origin, syntheses for
      distinct divergent concepts that each pass validation, and a reflection (with its
      completion time) only once every concept has a synthesis. */
  predicate SessionOk(cfg: Config, s: LateralSession)
  {
    && s.createdAt.Some?
    && !IsBlank(s.origin) && |s.origin| <= cfg.limits.maxOriginChars
    && Distinct(ConceptsOf(s.syntheses))
    && (forall i :: 0 <= i < |s.syntheses| ==>
          && s.syntheses[i].divergentConcept in s.divergentConcepts
          && ValidSynthesis(s.syntheses[i])
          && |s.syntheses[i].insight| <= cfg.limits.maxInsightChars)
    && (s.reflection.Some? ==> IsSynthesisComplete(s) && ValidReflection(s.reflection.value))
    && (s.completedAt.Some? <==> s.reflection.Some?)
  }

  lemma {:induction false} ElementsCard(xs: seq<string>)
    ensures |Elements(xs)| <= |xs|
    ensures Distinct(xs) <==> |Elements(xs)| == |xs|
  {
    if xs != [] {
      var p := xs[..|xs| - 1];
      var x := xs[|xs| - 1];
      ElementsCard(p);
      assert xs == p + [x];
      assert Elements(xs) == Elements(p) + {x};
      if x in p {
        assert Elements(xs) == Elements(p);
        var k :| 0 <= k < |p| && p[k] == x;
        assert xs[k] == xs[|xs| - 1];
      } else if Distinct(p) {
        forall i, j | 0 <= i < j < |xs| ensures xs[i] != xs[j] {
          if j == |xs| - 1 {
            assert xs[i] == p[i];
          } else {
            assert xs[i] == p[i] && xs[j] == p[j];
          }
        }
      } else {
        var i, j :| 0 <= i < j < |p| && p[i] == p[j];
        assert xs[i] == xs[j];
      }
    }
  }

  lemma {:induction false} SubsetCard(a: set<string>, b: set<string>)
    requires a <= b
    ensures |a| <= |b|
    ensures |a| == |b| ==> a == b
  {
    assert b == a + (b - a);
    assert a * (b - a) == {};
  }

  lemma {:induction false} WithoutAllDropped(xs: seq<string>, drop: set<string>)
    requires forall i :: 0 <= i < |xs| ==> xs[i] in drop
    ensures Without(xs, drop) == []
  {
    if xs != [] {
      WithoutAllDropped(xs[..|xs| - 1], drop);
    }
  }

  /** Once every concept has a synthesis the concepts were distinct and none remains:
      the synthesised concepts are distinct members of the divergent ones, so there are
      no more of them than distinct divergent concepts. */
  lemma SynthesisCompleteShape(cfg: Config, s: LateralSession)
    requires SessionOk(cfg, s) && IsSynthesisComplete(s)
    ensures Distinct(s.divergentConcepts)
    ensures |s.syntheses| == |s.divergentConcepts|
    ensures RemainingConcepts(s) == []
  {
    var done := Elements(ConceptsOf(s.syntheses));
    var all := Elements(s.divergentConcepts);
    ElementsCard(ConceptsOf(s.syntheses));
    ElementsCard(s.divergentConcepts);
    forall c | c in done ensures c in all {
      var i :| 0 <= i < |s.syntheses| && ConceptsOf(s.syntheses)[i] == c;
    }
    SubsetCard(done, all);
    assert done == all;
    forall i | 0 <= i < |s.divergentConcepts| ensures s.divergentConcepts[i] in SynthesizedConcepts(s) {
      assert s.divergentConcepts[i] in all;
    }
    WithoutAllDropped(s.divergentConcepts, SynthesizedConcepts(s));
  }

  /** The dead end: when the drawn concepts repeat one, the synthesis can never be
      complete, so the session never gets a reflection. */
  lemma DuplicateConceptNeverCompletes(cfg: Config, s: LateralSession)
    requires SessionOk(cfg, s) && !Distinct(s.divergentConcepts)
    ensures !IsSynthesisComplete(s) && !IsComplete(s)
    ensures s.reflection == None && s.completedAt == None
  {
    if IsSynthesisComplete(s) {
      SynthesisCompleteShape(cfg, s);
    }
  }

  // ---------------------------------------------------------------------------
  // What each handler decides
  // ---------------------------------------------------------------------------

  /** `count` after the override check: `int(count_raw)` and the range 1..50. */
  function CountVerdict(cfg: Config, count: CountArg): (r: Result<int, LateralError>)
    ensures r.Success? <==> count != CountInvalid && 1 <= (if count.CountValue? then count.n else cfg.divergence.count) <= 50
    ensures r.Success? ==> r.value == (if count.CountValue? then count.n else cfg.divergence.count)
  {
    match count
    case CountInvalid => Failure(InvalidCount(None))
    case CountAbsent => InRange(cfg.divergence.count)
    case CountValue(n) => InRange(n)
  }

  function InRange(n: int): Result<int, LateralError>
  {
    if n < 1 || n > 50 then Failure(InvalidCount(Some(n))) else Success(n)
  }

  /** The checks of `tool_generate_divergence` after the session is found, in order. */
  function GenerateVerdict(cfg: Config, s: LateralSession, a: GenerateArgs): (r: Result<int, LateralError>)
    ensures s.divergentConcepts != [] && !a.override ==> r == Failure(AlreadyGenerated(s.divergentConcepts))
    ensures r.Success? ==> 1 <= r.value <= 50 && (s.divergentConcepts == [] || a.override)
  {
    if s.divergentConcepts != [] && !a.override then Failure(AlreadyGenerated(s.divergentConcepts))
    else CountVerdict(cfg, a.count)
  }

  /** The session after a draw: an override first clears the concepts, the syntheses,
      the reflection and the completion time. */
  function Generated(s: LateralSession, override: bool, concepts: seq<string>): (t: LateralSession)
    ensures t.divergentConcepts == concepts
    ensures t.sessionId == s.sessionId && t.origin == s.origin && t.divergenceMethod == s.divergenceMethod && t.createdAt == s.createdAt
    ensures override ==> t.syntheses == [] && t.reflection == None && t.completedAt == None
    ensures !override ==> t.syntheses == s.syntheses && t.reflection == s.reflection && t.completedAt == s.completedAt
  {
    var cleared := if override then s.(divergentConcepts := [], syntheses := [], reflection := None, completedAt := None) else s;
    cleared.(divergentConcepts := concepts)
  }

  /** A draw the verdict allows keeps the invariant, whatever the concepts drawn: without
      an override there were no concepts, hence no syntheses and no reflection. */
  lemma GeneratedOk(cfg: Config, s: LateralSession, a: GenerateArgs, concepts: seq<string>)
    requires SessionOk(cfg, s) && GenerateVerdict(cfg, s, a).Success?
    ensures SessionOk(cfg, Generated(s, a.override, concepts))
  {
  }

  /** The concept checks of `tool_record_synthesis`, in order, on the stripped concept. */
  function ConceptVerdict(s: LateralSession, concept: string): (r: Result<string, LateralError>)
    ensures s.divergentConcepts == [] ==> r == Failure(NoDivergence)
    ensures s.divergentConcepts != [] && concept == [] ==> r == Failure(MissingConcept)
    ensures r.Success? <==> concept != [] && concept in RemainingConcepts(s)
    ensures r.Success? ==> r.value == concept
  {
    if s.divergentConcepts == [] then Failure(NoDivergence)
    else if concept == [] then Failure(MissingConcept)
    else if concept !in s.divergentConcepts then Failure(InvalidConcept(s.divergentConcepts))
    else if concept in SynthesizedConcepts(s) then Failure(AlreadySynthesized(RemainingConcepts(s)))
    else Success(concept)
  }

  /** The field checks of `tool_record_synthesis`, in order, and the synthesis they let through. */
  function SynthesisVerdict(cfg: Config, concept: string, inp: RecordInput, now: string): (r: Result<ConceptSynthesis, LateralError>)
    ensures r.Success? ==> ValidSynthesis(r.value) && |r.value.insight| <= cfg.limits.maxInsightChars
    ensures r.Success? ==> r.value.divergentConcept == concept && r.value.recordedAt == now
    ensures r.Success? ==> inp.confidence.Number? && r.value.confidence == inp.confidence.value
    ensures inp.connectionType == [] ==> r == Failure(MissingConnectionType)
  {
    if inp.connectionType == [] then Failure(MissingConnectionType)
    else if inp.confidence.NumMissing? then Failure(MissingConfidence)
    else if inp.confidence.NotNumeric? then Failure(ValueNotNumeric("confidence"))
    else if !(0.0 <= inp.confidence.value <= 1.0) then Failure(ValueOutOfRange("confidence", inp.confidence.value))
    else if inp.insight == [] then Failure(MissingInsight)
    else if |inp.insight| > cfg.limits.maxInsightChars then Failure(InsightTooLong(|inp.insight|, cfg.limits.maxInsightChars))
    else
      var synthesis := ConceptSynthesis(concept, inp.connectionType, inp.detail, inp.confidence.value, inp.insight, now);
      var problems := ValidateSynthesis(synthesis);
      if problems != [] then Failure(InvalidSynthesis(problems)) else Success(synthesis)
  }

  /** The converse: stripped fields that pass every check give the synthesis built from them. */
  lemma SynthesisAccepted(cfg: Config, concept: string, inp: RecordInput, now: string)
    requires Stripped(inp.insight)
    requires inp.connectionType in ConnectionTypes
    requires inp.connectionType == "other" ==> Truthy(inp.detail)
    requires inp.confidence.Number? && 0.0 <= inp.confidence.value <= 1.0
    requires inp.insight != [] && |inp.insight| <= cfg.limits.maxInsightChars
    ensures SynthesisVerdict(cfg, concept, inp, now)
              == Success(ConceptSynthesis(concept, inp.connectionType, inp.detail, inp.confidence.value, inp.insight, now))
  {
    var c := ConceptSynthesis(concept, inp.connectionType, inp.detail, inp.confidence.value, inp.insight, now);
    assert ValidSynthesis(c);
  }

  /** Every check of `tool_record_synthesis` after the session is found. */
  function RecordVerdict(cfg: Config, s: LateralSession, inp: RecordInput, now: string): (r: Result<ConceptSynthesis, LateralError>)
    ensures r.Success? ==> r.value.divergentConcept in RemainingConcepts(s)
    ensures ConceptVerdict(s, inp.concept).Failure? ==> r == Failure(ConceptVerdict(s, inp.concept).error)
  {
    match ConceptVerdict(s, inp.concept)
    case Failure(e) => Failure(e)
    case Success(concept) => SynthesisVerdict(cfg, concept, inp, now)
  }

  lemma ConceptsOfAppend(syn: seq<ConceptSynthesis>, c: ConceptSynthesis)
    ensures ConceptsOf(syn + [c]) == ConceptsOf(syn) + [c.divergentConcept]
  {
    assert (syn + [c])[..|syn|] == syn;
  }

  /** Appending a valid synthesis of a remaining concept keeps the invariant: the
      synthesised concepts stay distinct members of the divergent ones. */
  lemma RecordedOk(cfg: Config, s: LateralSession, c: ConceptSynthesis)
    requires SessionOk(cfg, s) && c.divergentConcept in RemainingConcepts(s)
    requires ValidSynthesis(c) && |c.insight| <= cfg.limits.maxInsightChars
    ensures SessionOk(cfg, s.(syntheses := s.syntheses + [c]))
  {
    var t := s.(syntheses := s.syntheses + [c]);
    ConceptsOfAppend(s.syntheses, c);
    var xs := ConceptsOf(t.syntheses);
    assert c.divergentConcept !in ConceptsOf(s.syntheses);
    forall i, j | 0 <= i < j < |xs| ensures xs[i] != xs[j] {
      if j == |xs| - 1 {
        assert xs[i] == ConceptsOf(s.syntheses)[i];
      }
    }
    assert forall i :: 0 <= i < |s.syntheses| ==> t.syntheses[i] == s.syntheses[i];
  }

  /** The dead end, step by step: when the draw gives the same concept twice, the first
      synthesis of it is accepted, and after it every further synthesis is refused,
      while the session stays short of complete. */
  lemma DuplicateDrawStuck(cfg: Config, s: LateralSession, x: string, inp: RecordInput, later: RecordInput, now: string, now2: string)
    requires SessionOk(cfg, s) && s.divergentConcepts == [x, x] && s.syntheses == []
    requires RecordVerdict(cfg, s, inp, now).Success?
    ensures RecordVerdict(cfg, s, inp, now).value.divergentConcept == x
    ensures var t := s.(syntheses := [RecordVerdict(cfg, s, inp, now).value]);
            && SessionOk(cfg, t)
            && RecordVerdict(cfg, t, later, now2).Failure?
            && (later.concept == x ==> RecordVerdict(cfg, t, later, now2) == Failure(AlreadySynthesized([])))
            && !IsSynthesisComplete(t)
  {
    var c := RecordVerdict(cfg, s, inp, now).value;
    var t := s.(syntheses := [c]);
    assert s.syntheses + [c] == [c];
    RecordedOk(cfg, s, c);
    assert c.divergentConcept == x;
    assert SynthesizedConcepts(t) == {x} by {
      assert t.syntheses[0].divergentConcept == x;
    }
    WithoutAllDropped(t.divergentConcepts, SynthesizedConcepts(t));
  }

  /** The field checks of `tool_reflect_on_session`, in order, and the reflection they let
      through; for stripped strings `validate()` never rejects one of those. */
  function ReflectionVerdict(inp: ReflectInput, now: string): (r: Result<SessionReflection, LateralError>)
    ensures r.Success? ==> ValidReflection(r.value)
    ensures r.Success? ==> inp.rating.Number? && r.value.overallRating == inp.rating.value
    ensures r.Success? ==> r.value.surprisingConnections == inp.surprising && r.value.recordedAt == now
    ensures Stripped(inp.mostValuable) && Stripped(inp.whyValuable) ==> !(r.Failure? && r.error.InvalidReflection?)
  {
    if inp.mostValuable == [] then Failure(MissingMostValuable)
    else if inp.whyValuable == [] then Failure(MissingWhyValuable)
    else if inp.rating.NumMissing? then Failure(MissingRating)
    else if inp.rating.NotNumeric? then Failure(ValueNotNumeric("overall_rating"))
    else if !(0.0 <= inp.rating.value <= 1.0) then Failure(ValueOutOfRange("overall_rating", inp.rating.value))
    else
      var reflection := SessionReflection(inp.mostValuable, inp.whyValuable, inp.surprising, inp.rating.value, now);
      var problems := ValidateReflection(reflection);
      if problems != [] then Failure(InvalidReflection(problems)) else Success(reflection)
  }

  /** Every check of `tool_reflect_on_session` after the session is found, in order. */
  function ReflectVerdict(s: LateralSession, inp: ReflectInput, now: string): (r: Result<SessionReflection, LateralError>)
    ensures !IsSynthesisComplete(s) ==> r == Failure(SynthesisIncomplete(|s.syntheses|, |s.divergentConcepts|, RemainingConcepts(s)))
    ensures IsSynthesisComplete(s) && s.reflection.Some? ==> r == Failure(AlreadyReflected)
    ensures r.Success? ==> IsSynthesisComplete(s) && s.reflection == None && ValidReflection(r.value)
  {
    if !IsSynthesisComplete(s) then
      Failure(SynthesisIncomplete(|s.syntheses|, |s.divergentConcepts|, RemainingConcepts(s)))
    else if s.reflection.Some? then Failure(AlreadyReflected)
    else ReflectionVerdict(inp, now)
  }

  /** The session after a reflection: it and the completion time are set together. */
  function Reflected(s: LateralSession, reflection: SessionReflection, now: string): (t: LateralSession)
    ensures t.reflection == Some(reflection) && t.completedAt == Some(now)
    ensures t.divergentConcepts == s.divergentConcepts && t.syntheses == s.syntheses && t.origin == s.origin
  {
    s.(reflection := Some(reflection), completedAt := Some(now))
  }

  /** A valid reflection on a session whose syntheses are complete keeps the invariant
      and completes the session. */
  lemma ReflectedOk(cfg: Config, s: LateralSession, reflection: SessionReflection, now: string)
    requires SessionOk(cfg, s) && IsSynthesisComplete(s) && ValidReflection(reflection)
    ensures SessionOk(cfg, Reflected(s, reflection, now))
    ensures IsComplete(Reflected(s, reflection, now))
  {
    var t := Reflected(s, reflection, now);
    assert forall i :: 0 <= i < |t.syntheses| ==> t.syntheses[i] == s.syntheses[i];
  }

  /** A session with a repeated concept answers every reflection with
      `synthesis_incomplete`. */
  lemma DuplicateConceptBlocksReflection(cfg: Config, s: LateralSession, inp: ReflectInput, now: string)
    requires SessionOk(cfg, s) && !Distinct(s.divergentConcepts)
    ensures ReflectVerdict(s, inp, now) == Failure(SynthesisIncomplete(|s.syntheses|, |s.divergentConcepts|, RemainingConcepts(s)))
  {
    DuplicateConceptNeverCompletes(cfg, s);
  }

  /** A string that starts and ends with a non-space character is its own strip. */
  lemma StripFixed(s: string)
    requires s != [] && !IsSpace(s[0]) && !IsSpace(s[|s| - 1])
    ensures Strip(s) == s
  {
  }

  /** An argument that starts and ends with a non-space character is taken as given. */
  lemma ArgUnchanged(x: string)
    requires x != [] && !IsSpace(x[0]) && !IsSpace(x[|x| - 1])
    ensures Arg(Some(x)) == x
  {
    StripFixed(x);
  }


  /** `get_session`'s status block. */
  function StatusOf(s: LateralSession): (st: SessionStatus)
    ensures st.hasDivergence <==> st.synthesesRequired > 0
    ensures st.fullyComplete ==> st.synthesisComplete && st.hasReflection
    ensures st.synthesisComplete ==> st.hasDivergence && st.synthesesCompleted >= st.synthesesRequired
  {
    SessionStatus(
      |s.divergentConcepts| > 0, |s.syntheses|, |s.divergentConcepts|, RemainingConcepts(s),
      IsSynthesisComplete(s), s.reflection.Some?, IsComplete(s))
  }

  /** For a session the handlers built, "synthesis complete" means exactly that there
      are concepts, they are distinct and none remains; and a reflection means the
      session is fully complete. */
  lemma StatusOfHandlerSession(cfg: Config, s: LateralSession)
    requires SessionOk(cfg, s)
    ensures StatusOf(s).synthesisComplete <==> StatusOf(s).hasDivergence && StatusOf(s).remainingConcepts == [] && Distinct(s.divergentConcepts)
    ensures StatusOf(s).hasReflection <==> StatusOf(s).fullyComplete
  {
    if |s.divergentConcepts| > 0 && RemainingConcepts(s) == [] && Distinct(s.divergentConcepts) {
      var done := Elements(ConceptsOf(s.syntheses));
      var all := Elements(s.divergentConcepts);
      forall c | c in all ensures c in done {
        assert c !in RemainingConcepts(s);
      }
      ElementsCard(ConceptsOf(s.syntheses));
      ElementsCard(s.divergentConcepts);
      SubsetCard(all, done);
    }
    if IsSynthesisComplete(s) {
      SynthesisCompleteShape(cfg, s);
    }
  }

  // ---------------------------------------------------------------------------
  // Listing
  // ---------------------------------------------------------------------------

  /** `origin[:100] + ("..." if len(origin) > 100 else "")`. */
  function Preview(origin: string): (p: string)
    ensures |origin| <= 100 ==> p == origin
    ensures |origin| > 100 ==> |p| == 103 && p[..100] == origin[..100] && p[100..] == "..."
  {
    Take(origin, 100) + (if |origin| > 100 then "..." else "")
  }

  function EntryOf(s: LateralSession, source: Source): (e: ListEntry)
    ensures e.sessionId == s.sessionId && e.createdAt == s.createdAt && e.source == source
  {
    ListEntry(s.sessionId, Preview(s.origin), s.divergenceMethod, s.createdAt, s.completedAt, IsComplete(s), source)
  }

  /** One memory entry per id, in table order. */
  function MemoryEntries(ids: seq<string>, sessions: map<string, LateralSession>): (r: seq<ListEntry>)
    requires forall id :: id in ids ==> id in sessions
    ensures |r| == |ids|
    ensures forall i :: 0 <= i < |ids| ==> r[i] == EntryOf(sessions[ids[i]], Memory)
  {
    if ids == [] then [] else MemoryEntries(ids[..|ids| - 1], sessions) + [EntryOf(sessions[ids[|ids| - 1]], Memory)]
  }

  function IdsOf(entries: seq<ListEntry>): (r: set<string>)
    ensures forall id :: id in r <==> exists i :: 0 <= i < |entries| && entries[i].sessionId == id
  {
    set i | 0 <= i < |entries| :: entries[i].sessionId
  }

  /** The history sessions whose id no memory entry has, in load order. */
  function HistoryEntries(hist: seq<LateralSession>, memoryIds: set<string>): (r: seq<ListEntry>)
    ensures |r| <= |hist|
    ensures forall e :: e in r ==> e.sessionId !in memoryIds && e.source == History
    ensures forall h :: h in hist && h.sessionId !in memoryIds ==> EntryOf(h, History) in r
    ensures forall e :: e in r ==> exists h :: h in hist && h.sessionId !in memoryIds && e == EntryOf(h, History)
  {
    if hist == [] then []
    else
      var h := hist[|hist| - 1];
      HistoryEntries(hist[..|hist| - 1], memoryIds) + (if h.sessionId in memoryIds then [] else [EntryOf(h, History)])
  }

  /** The sort key; only used when every entry has a `created_at`. */
  function EntryKey(e: ListEntry): string
  {
    if e.createdAt.Some? then e.createdAt.value else ""
  }

  predicate SomeUndated(entries: seq<ListEntry>)
  {
    exists i :: 0 <= i < |entries| && entries[i].createdAt.None?
  }

  /** The end of `tool_list_sessions`: sorting raises once an entry without `created_at`
      has to be compared; otherwise newest first, cut at `limit`, `total` before the cut. */
  function Listing(entries: seq<ListEntry>, limit: int, current: Option<string>): (r: Result<ListReply, LateralError>)
    ensures r.Failure? <==> |entries| >= 2 && SomeUndated(entries)
    ensures r.Failure? ==> r.error == InternalError
    ensures r.Success? ==> r.value.total == |entries| && r.value.limit == limit && r.value.currentSessionId == current
    ensures r.Success? && limit >= 0 ==> |r.value.sessions| == if |entries| <= limit then |entries| else limit
    ensures r.Success? ==> multiset(r.value.sessions) <= multiset(entries)
    ensures r.Success? ==> forall x, y :: x in r.value.sessions && y in multiset(entries) - multiset(r.value.sessions) ==>
                             StrLe(EntryKey(y), EntryKey(x))
  {
    if |entries| >= 2 && SomeUndated(entries) then Failure(InternalError)
    else
      NewestCut(entries, EntryKey, limit);
      Success(ListReply(SliceTo(SortDesc(entries, EntryKey), limit), |entries|, limit, current))
  }

  /** The listing is newest first. */
  lemma ListingSorted(entries: seq<ListEntry>, limit: int, current: Option<string>)
    requires Listing(entries, limit, current).Success?
    ensures SortedDesc(Listing(entries, limit, current).value.sessions, EntryKey)
  {
    SortDescSorted(entries, EntryKey);
    var sorted := SortDesc(entries, EntryKey);
    SortedPrefix(sorted, |SliceTo(sorted, limit)|, EntryKey);
  }

  // ---------------------------------------------------------------------------
  // Dispatch
  // ---------------------------------------------------------------------------

  const ToolNames: set<string> := {
    "start_session", "generate_divergence", "record_synthesis",
    "reflect_on_session", "get_session", "list_sessions"
  }

  datatype Envelope = SuccessEnvelope | ErrorEnvelope(error: string)

  /** `handle_call_tool`: an unknown name is refused before any handler runs; a handler's
      own error or an escaped exception (`InternalError`) is passed on as its code. */
  function HandleCallTool(name: string, handlerError: Option<LateralError>): (e: Envelope)
    ensures name !in ToolNames ==> e == ErrorEnvelope("unknown_tool")
    ensures name in ToolNames ==> (e.SuccessEnvelope? <==> handlerError.None?)
    ensures name in ToolNames && handlerError == Some(InternalError) ==> e == ErrorEnvelope("internal_error")
  {
    if name !in ToolNames then ErrorEnvelope("unknown_tool")
    else if handlerError.None? then SuccessEnvelope
    else ErrorEnvelope(Code(handlerError.value))
  }

  /** The session table: each session stored under its own id and kept sane, and
      the insertion order listing every id once. */
  ghost predicate TableOk(cfg: Config, sessions: map<string, LateralSession>, order: seq<string>)
  {
    && (forall id :: id in sessions ==> sessions[id].sessionId == id && SessionOk(cfg, sessions[id]))
    && Distinct(order)
    && (forall id :: id in sessions <==> id in order)
  }

  lemma StoreKeepsTable(cfg: Config, sessions: map<string, LateralSession>, order: seq<string>, s: LateralSession)
    requires TableOk(cfg, sessions, order) && SessionOk(cfg, s)
    ensures TableOk(cfg, sessions[s.sessionId := s], order + (if s.sessionId in sessions then [] else [s.sessionId]))
  {
  }

  lemma ReplaceKeepsTable(cfg: Config, sessions: map<string, LateralSession>, order: seq<string>,
                          id: string, s: LateralSession)
    requires TableOk(cfg, sessions, order) && id in sessions && s.sessionId == id && SessionOk(cfg, s)
    ensures TableOk(cfg, sessions[id := s], order)
  {
  }

  // ---------------------------------------------------------------------------
  // The server
  // ---------------------------------------------------------------------------

  class LateralServer {
    const cfg: Config
    var sessions: map<string, LateralSession>
    /** The insertion order of `sessions`, which is the order `SESSIONS.values()` yields. */
    var order: seq<string>
    var currentSessionId: Option<string>
    const history: HistoryDir

    ghost predicate Valid()
      reads this, history
    {
      history.Valid() && TableOk(cfg, sessions, order)
    }

    constructor (cfg: Config, history: HistoryDir)
      requires history.Valid()
      ensures Valid()
      ensures this.cfg == cfg && this.history == history
      ensures sessions == map[] && order == [] && currentSessionId == None
    {
      this.cfg := cfg;
      this.history := history;
      sessions := map[];
      order := [];
      currentSessionId := None;
    }

    /** `get_current_session`: nothing when the id is unset, empty or not in the table. */
    function CurrentSession(): (r: Option<LateralSession>)
      reads this
      ensures r.Some? <==> Truthy(currentSessionId) && currentSessionId.value in sessions
      ensures r.Some? ==> r.value == sessions[currentSessionId.value]
    {
      if currentSessionId.Some? && currentSessionId.value != "" && currentSessionId.value in sessions
      then Some(sessions[currentSessionId.value])
      else None
    }

    /** `set_current_session`. */
    method SetCurrentSession(id: Option<string>)
      requires Valid()
      modifies this
      ensures Valid()
      ensures currentSessionId == id && sessions == old(sessions) && order == old(order)
    {
      currentSessionId := id;
    }

    /** The session a handler works on: a non-empty `session_id` argument is looked up
        with no fallback; otherwise the current session. */
    function Resolve(sessionArg: Option<string>): (id: Option<string>)
      reads this
      ensures id.Some? ==> id.value in sessions
      ensures Truthy(sessionArg) ==> id == (if sessionArg.value in sessions then sessionArg else None)
      ensures !Truthy(sessionArg) ==> (id.Some? <==> CurrentSession().Some?)
      ensures !Truthy(sessionArg) && id.Some? ==> sessions[id.value] == CurrentSession().value
    {
      if Truthy(sessionArg) then (if sessionArg.value in sessions then sessionArg else None)
      else if CurrentSession().Some? then currentSessionId
      else None
    }

    /** `SESSIONS[session.session_id] = session`: a new id goes to the end of the order. */
    method Store(s: LateralSession)
      requires Valid() && SessionOk(cfg, s)
      modifies this
      ensures Valid()
      ensures sessions == old(sessions)[s.sessionId := s]
      ensures order == old(order) + (if s.sessionId in old(sessions) then [] else [s.sessionId])
      ensures currentSessionId == old(currentSessionId)
    {
      StoreKeepsTable(cfg, sessions, order, s);
      if s.sessionId !in sessions {
        order := order + [s.sessionId];
      }
      sessions := sessions[s.sessionId := s];
    }

    /** `tool_start_session`; `newId` is the fresh uuid and `now` the clock. */
    method StartSession(a: StartArgs, newId: string, now: string) returns (r: Result<StartReply, LateralError>)
      requires Valid()
      modifies this
      ensures Valid()
      ensures IsBlank(OrEmpty(a.origin)) ==> r == Failure(MissingOrigin)
      ensures !IsBlank(OrEmpty(a.origin)) && |Arg(a.origin)| > cfg.limits.maxOriginChars ==>
                r == Failure(OriginTooLong(|Arg(a.origin)|, cfg.limits.maxOriginChars))
      ensures r.Success? <==> !IsBlank(OrEmpty(a.origin)) && |Arg(a.origin)| <= cfg.limits.maxOriginChars
      ensures r.Failure? ==> sessions == old(sessions) && order == old(order) && currentSessionId == old(currentSessionId)
      ensures r.Success? ==>
                var strategy := if a.strategy.Some? then a.strategy.value else cfg.divergence.strategy;
                && sessions == old(sessions)[newId := CreateSession(newId, Arg(a.origin), strategy, now)]
                && order == old(order) + (if newId in old(sessions) then [] else [newId])
                && currentSessionId == Some(newId)
                && r.value == StartReply(newId, Arg(a.origin), strategy, now)
    {
      var origin := Arg(a.origin);
      if origin == [] {
        return Failure(MissingOrigin);
      }
      if |origin| > cfg.limits.maxOriginChars {
        return Failure(OriginTooLong(|origin|, cfg.limits.maxOriginChars));
      }
      var strategy := if a.strategy.Some? then a.strategy.value else cfg.divergence.strategy;
      var session := CreateSession(newId, origin, strategy, now);
      Store(session);
      currentSessionId := Some(newId);
      r := Success(StartReply(newId, origin, strategy, now));
    }

    /** `tool_generate_divergence`; `draw` stands for the generator, which answers an
        origin, a strategy and a count with a list of concepts. */
    method GenerateDivergence(a: GenerateArgs, draw: (string, string, int) -> seq<string>)
      returns (r: Result<GenerateReply, LateralError>)
      requires Valid()
      modifies this
      ensures Valid()
      ensures order == old(order) && currentSessionId == old(currentSessionId)
      ensures old(Resolve(a.sessionId)) == None ==> r == Failure(NoSession) && sessions == old(sessions)
      ensures old(Resolve(a.sessionId)).Some? ==>
                var id := old(Resolve(a.sessionId)).value;
                var s := old(sessions[id]);
                match GenerateVerdict(cfg, s, a)
                case Failure(e) => r == Failure(e) && sessions == old(sessions)
                case Success(n) =>
                  var t := Generated(s, a.override, draw(s.origin, s.divergenceMethod, n));
                  && sessions == old(sessions)[id := t]
                  && r == Success(GenerateReply(id, s.origin, t.divergentConcepts, a.override))
    {
      var id := Resolve(a.sessionId);
      if id.None? {
        return Failure(NoSession);
      }
      var s := sessions[id.value];
      var verdict := GenerateVerdict(cfg, s, a);
      if verdict.Failure? {
        return Failure(verdict.error);
      }
      var concepts := draw(s.origin, s.divergenceMethod, verdict.value);
      var t := Generated(s, a.override, concepts);
      GeneratedOk(cfg, s, a, concepts);
      sessions := sessions[id.value := t];
      r := Success(GenerateReply(id.value, s.origin, concepts, a.override));
    }

    /** `tool_record_synthesis`; `now` is the synthesis's `recorded_at`. */
    method RecordSynthesis(a: RecordArgs, now: string) returns (r: Result<RecordReply, LateralError>)
      requires Valid()
      modifies this
      ensures Valid()
      ensures order == old(order) && currentSessionId == old(currentSessionId)
      ensures old(Resolve(a.sessionId)) == None ==> r == Failure(NoSession) && sessions == old(sessions)
      ensures old(Resolve(a.sessionId)).Some? ==>
                var id := old(Resolve(a.sessionId)).value;
                var s := old(sessions[id]);
                match RecordVerdict(cfg, s, RecordInputOf(a), now)
                case Failure(e) => r == Failure(e) && sessions == old(sessions)
                case Success(c) =>
                  var t := s.(syntheses := s.syntheses + [c]);
                  && sessions == old(sessions)[id := t]
                  && r == Success(RecordReply(id, c.divergentConcept, c.connectionType, c.confidence,
                                              |t.syntheses|, |t.divergentConcepts|, RemainingConcepts(t)))
    {
      var id := Resolve(a.sessionId);
      if id.None? {
        return Failure(NoSession);
      }
      r := RecordIn(id.value, RecordInputOf(a), now);
    }

    /** `tool_record_synthesis` on a resolved session. */
    method RecordIn(id: string, inp: RecordInput, now: string) returns (r: Result<RecordReply, LateralError>)
      requires Valid() && id in sessions
      modifies this
      ensures Valid()
      ensures order == old(order) && currentSessionId == old(currentSessionId)
      ensures var s := old(sessions[id]);
              match RecordVerdict(cfg, s, inp, now)
              case Failure(e) => r == Failure(e) && sessions == old(sessions)
              case Success(c) =>
                var t := s.(syntheses := s.syntheses + [c]);
                && sessions == old(sessions)[id := t]
                && r == Success(RecordReply(id, c.divergentConcept, c.connectionType, c.confidence,
                                            |t.syntheses|, |t.divergentConcepts|, RemainingConcepts(t)))
    {
      var s := sessions[id];
      var verdict := RecordVerdict(cfg, s, inp, now);
      if verdict.Failure? {
        return Failure(verdict.error);
      }
      var c := verdict.value;
      var t := s.(syntheses := s.syntheses + [c]);
      RecordedOk(cfg, s, c);
      Replace(id, t);
      r := Success(RecordReply(id, c.divergentConcept, c.connectionType, c.confidence,
                               |t.syntheses|, |t.divergentConcepts|, RemainingConcepts(t)));
    }

    /** The store step of the handlers that update a session already in the table. */
    method Replace(id: string, t: LateralSession)
      requires Valid() && id in sessions && t.sessionId == id && SessionOk(cfg, t)
      modifies this
      ensures Valid()
      ensures order == old(order) && currentSessionId == old(currentSessionId)
      ensures sessions == old(sessions)[id := t]
    {
      var updated := sessions[id := t];
      ReplaceKeepsTable(cfg, sessions, order, id, t);
      sessions := updated;
      assert TableOk(cfg, sessions, order);
      assert history.Valid();
    }

    /** `tool_reflect_on_session`: the reflection and `completed_at` are set together and
        the completed session is written to the history. */
    method ReflectOnSession(a: ReflectArgs, now: string) returns (r: Result<ReflectReply, LateralError>)
      requires Valid()
      modifies this, history
      ensures Valid()
      ensures order == old(order) && currentSessionId == old(currentSessionId)
      ensures r.Failure? ==> sessions == old(sessions) && unchanged(history)
      ensures !cfg.persistenceEnabled ==> unchanged(history)
      ensures old(Resolve(a.sessionId)) == None ==> r == Failure(NoSession)
      ensures old(Resolve(a.sessionId)).Some? ==>
                var id := old(Resolve(a.sessionId)).value;
                var s := old(sessions[id]);
                match ReflectVerdict(s, ReflectInputOf(a), now)
                case Failure(e) => r == Failure(e)
                case Success(refl) =>
                  var t := Reflected(s, refl, now);
                  && sessions == old(sessions)[id := t]
                  && IsComplete(t)
                  && (cfg.persistenceEnabled ==>
                        (&& history.present
                         && history.contents == old(history.contents)[HistoryFileName(now, id) := [Record(ToDict(t))]]
                         && history.names == old(history.names)
                              + (if HistoryFileName(now, id) in old(history.names) then [] else [HistoryFileName(now, id)])))
                  && r == Success(ReflectReply(id, now, refl.overallRating, s.origin, s.divergentConcepts,
                                               |s.syntheses|, refl.mostValuableInsight))
    {
      var id := Resolve(a.sessionId);
      if id.None? {
        return Failure(NoSession);
      }
      var s := sessions[id.value];
      var verdict := ReflectVerdict(s, ReflectInputOf(a), now);
      if verdict.Failure? {
        return Failure(verdict.error);
      }
      var refl := verdict.value;
      CompleteSession(id.value, refl, now);
      r := Success(ReflectReply(id.value, now, refl.overallRating, s.origin, s.divergentConcepts,
                                |s.syntheses|, refl.mostValuableInsight));
    }

    /** The success path of `tool_reflect_on_session`: the reflected session replaces the
        stored one and, when persistence is on, is written to its history file. */
    method CompleteSession(id: string, refl: SessionReflection, now: string)
      requires Valid() && id in sessions && IsSynthesisComplete(sessions[id]) && ValidReflection(refl)
      modifies this, history
      ensures Valid()
      ensures sessions == old(sessions)[id := Reflected(old(sessions[id]), refl, now)]
      ensures order == old(order) && currentSessionId == old(currentSessionId)
      ensures !cfg.persistenceEnabled ==> unchanged(history)
      ensures cfg.persistenceEnabled ==>
                && history.present
                && history.contents == old(history.contents)[HistoryFileName(now, id) := [Record(ToDict(Reflected(old(sessions[id]), refl, now)))]]
                && history.names == old(history.names)
                     + (if HistoryFileName(now, id) in old(history.names) then [] else [HistoryFileName(now, id)])
    {
      var t := Reflected(sessions[id], refl, now);
      ReflectedOk(cfg, sessions[id], refl, now);
      sessions := sessions[id := t];
      assert SaveTimestamp(t.completedAt, now) == now;
      history.Save(cfg.persistenceEnabled, t, now);
    }

    /** `tool_get_session`: the session's dictionary and its status block. */
    method GetSession(sessionArg: Option<string>) returns (r: Result<(SessionData, SessionStatus), LateralError>)
      requires Valid()
      ensures r.Success? <==> Resolve(sessionArg).Some?
      ensures r.Success? ==>
                var s := sessions[Resolve(sessionArg).value];
                r.value == (ToDict(s), StatusOf(s))
      ensures r.Failure? ==> r.error == NoSession
    {
      var id := Resolve(sessionArg);
      if id.None? {
        return Failure(NoSession);
      }
      var s := sessions[id.value];
      r := Success((ToDict(s), StatusOf(s)));
    }

    /** `tool_list_sessions`: memory entries in table order, then (on request) the loaded
        history sessions no memory entry shadows; sorted, cut and counted by `Listing`. */
    method ListSessions(includeHistory: bool, limit: int, now: string) returns (r: Result<ListReply, LateralError>)
      requires Valid()
      ensures
        var memory := MemoryEntries(order, sessions);
        var hist := if includeHistory then Loaded(history.present, history.names, history.contents, limit, now) else [];
        var current := if CurrentSession().Some? then Some(CurrentSession().value.sessionId) else None;
        r == Listing(memory + HistoryEntries(hist, IdsOf(memory)), limit, current)
      ensures !includeHistory ==> r.Success?
    {
      var entries := ListedEntries(includeHistory, limit, now);
      var current := CurrentSession();
      var currentId := if current.Some? then Some(current.value.sessionId) else None;
      r := Listing(entries, limit, currentId);
    }

    /** The entries `tool_list_sessions` collects before sorting. */
    method ListedEntries(includeHistory: bool, limit: int, now: string) returns (entries: seq<ListEntry>)
      requires Valid()
      ensures
        var memory := MemoryEntries(order, sessions);
        var hist := if includeHistory then Loaded(history.present, history.names, history.contents, limit, now) else [];
        entries == memory + HistoryEntries(hist, IdsOf(memory))
      ensures !includeHistory ==> !SomeUndated(entries)
    {
      var memory := MemoryListing();
      entries := memory;
      if includeHistory {
        var hist := history.Load(limit, now);
        entries := AppendUnshadowed(entries, hist, IdsOf(memory));
      } else {
        MemoryEntriesDated(order, sessions);
        assert HistoryEntries([], IdsOf(memory)) == [];
        assert entries == memory + [];
      }
    }

    /** The memory loop of `tool_list_sessions`: one entry per session, in table order. */
    method MemoryListing() returns (entries: seq<ListEntry>)
      requires forall id :: id in order ==> id in sessions
      ensures entries == MemoryEntries(order, sessions)
    {
      entries := [];
      var i := 0;
      while i < |order|
        invariant 0 <= i <= |order| && |entries| == i
        invariant forall k :: 0 <= k < i ==> entries[k] == EntryOf(sessions[order[k]], Memory)
      {
        entries := entries + [EntryOf(sessions[order[i]], Memory)];
        i := i + 1;
      }
    }

    /** Every memory entry of a valid table has its `created_at`. */
    lemma MemoryEntriesDated(ids: seq<string>, table: map<string, LateralSession>)
      requires table == sessions && Valid()
      requires forall id :: id in ids ==> id in table
      ensures !SomeUndated(MemoryEntries(ids, table))
    {
      var m := MemoryEntries(ids, table);
      forall k | 0 <= k < |m| ensures m[k].createdAt.Some? {
        assert SessionOk(cfg, table[ids[k]]);
      }
    }
  }

  /** One more history session adds its entry unless memory holds its id. */
  lemma HistoryEntriesStep(hist: seq<LateralSession>, j: nat, memoryIds: set<string>)
    requires j < |hist|
    ensures HistoryEntries(hist[..j + 1], memoryIds)
            == HistoryEntries(hist[..j], memoryIds)
               + (if hist[j].sessionId in memoryIds then [] else [EntryOf(hist[j], History)])
  {
    assert hist[..j + 1][..j] == hist[..j];
  }

  /** The history loop of `tool_list_sessions`. */
  method AppendUnshadowed(entries: seq<ListEntry>, hist: seq<LateralSession>, memoryIds: set<string>)
    returns (out: seq<ListEntry>)
    ensures out == entries + HistoryEntries(hist, memoryIds)
  {
    out := entries;
    var j := 0;
    while j < |hist|
      invariant 0 <= j <= |hist|
      invariant out == entries + HistoryEntries(hist[..j], memoryIds)
    {
      if hist[j].sessionId !in memoryIds {
        out := out + [EntryOf(hist[j], History)];
      }
      HistoryEntriesStep(hist, j, memoryIds);
      j := j + 1;
    }
    assert hist[..j] == hist;
  }
}
