/** The audit record and its schema (src/auditSchema.ts).

    Every field of the record is required: "missing" detail is an empty string
    or an empty list, never an absent property.  The enumerations are closed.
    `Parse` is the all-or-nothing validation the zod schema performs on an
    untrusted JSON value; `Conforms` is the same schema written as a plain
    predicate, and the two are proved to agree. */
module AuditSchema {
  import opened Results
  import opened Json

  // ---------------------------------------------------------------------
  // Closed enumerations.  `Name` is the JSON spelling; each `Parse…` accepts
  // exactly the names of its enumeration and nothing else.
  // ---------------------------------------------------------------------

  const AmbiguityTypeNames: set<string> :=
    {"semantic", "contextual", "mapping", "structural", "normative"}

  datatype AmbiguityType = Semantic | Contextual | Mapping | Structural | Normative {
    function Name(): string
    {
      match this
      case Semantic => "semantic"
      case Contextual => "contextual"
      case Mapping => "mapping"
      case Structural => "structural"
      case Normative => "normative"
    }
  }

  function ParseAmbiguityType(s: string): (r: Option<AmbiguityType>)
    ensures r.Some? <==> s in AmbiguityTypeNames
    ensures r.Some? ==> r.value.Name() == s
  {
    if s == "semantic" then Some(Semantic)
    else if s == "contextual" then Some(Contextual)
    else if s == "mapping" then Some(Mapping)
    else if s == "structural" then Some(Structural)
    else if s == "normative" then Some(Normative)
    else None
  }

  /** What the representation is meant to be used for.  There is no
      `unknown` member. */
  const IntendedUseNames: set<string> :=
    {"exploration", "explanation", "decision_support", "justification"}

  datatype IntendedUse = Exploration | Explanation | DecisionSupport | Justification {
    function Name(): string
    {
      match this
      case Exploration => "exploration"
      case Explanation => "explanation"
      case DecisionSupport => "decision_support"
      case Justification => "justification"
    }
  }

  function ParseIntendedUse(s: string): (r: Option<IntendedUse>)
    ensures r.Some? <==> s in IntendedUseNames
    ensures r.Some? ==> r.value.Name() == s
  {
    if s == "exploration" then Some(Exploration)
    else if s == "explanation" then Some(Explanation)
    else if s == "decision_support" then Some(DecisionSupport)
    else if s == "justification" then Some(Justification)
    else None
  }

  const UseTierNames: set<string> :=
    {"exploratory", "explanatory", "operational", "high_stakes"}

  datatype UseTier = Exploratory | Explanatory | Operational | HighStakes {
    function Name(): string
    {
      match this
      case Exploratory => "exploratory"
      case Explanatory => "explanatory"
      case Operational => "operational"
      case HighStakes => "high_stakes"
    }
  }

  function ParseUseTier(s: string): (r: Option<UseTier>)
    ensures r.Some? <==> s in UseTierNames
    ensures r.Some? ==> r.value.Name() == s
  {
    if s == "exploratory" then Some(Exploratory)
    else if s == "explanatory" then Some(Explanatory)
    else if s == "operational" then Some(Operational)
    else if s == "high_stakes" then Some(HighStakes)
    else None
  }

  /** The value set shared by the stakes, reversibility and time-pressure
      axes of the decision context; each admits `unknown`. */
  const GradeNames: set<string> := {"low", "medium", "high", "unknown"}

  datatype Grade = Low | Medium | High | Unknown {
    function Name(): string
    {
      match this
      case Low => "low"
      case Medium => "medium"
      case High => "high"
      case Unknown => "unknown"
    }
  }

  type Stakes = Grade
  type Reversibility = Grade
  type TimePressure = Grade

  function ParseGrade(s: string): (r: Option<Grade>)
    ensures r.Some? <==> s in GradeNames
    ensures r.Some? ==> r.value.Name() == s
  {
    if s == "low" then Some(Grade.Low)
    else if s == "medium" then Some(Grade.Medium)
    else if s == "high" then Some(Grade.High)
    else if s == "unknown" then Some(Grade.Unknown)
    else None
  }

  /** Decision-context detectability: four values, including `unknown`. */
  const DetectabilityNames: set<string> := {"easy", "moderate", "hard", "unknown"}

  datatype Detectability = Easy | Moderate | Hard | Unknown {
    function Name(): string
    {
      match this
      case Easy => "easy"
      case Moderate => "moderate"
      case Hard => "hard"
      case Unknown => "unknown"
    }
  }

  function ParseDetectability(s: string): (r: Option<Detectability>)
    ensures r.Some? <==> s in DetectabilityNames
    ensures r.Some? ==> r.value.Name() == s
  {
    if s == "easy" then Some(Detectability.Easy)
    else if s == "moderate" then Some(Detectability.Moderate)
    else if s == "hard" then Some(Detectability.Hard)
    else if s == "unknown" then Some(Detectability.Unknown)
    else None
  }

  /** The detectability grade of one failure mode: three values, no
      `unknown`; a different type from `Detectability`. */
  const FailureDetectabilityNames: set<string> := {"easy", "moderate", "hard"}

  datatype FailureDetectability = Easy | Moderate | Hard {
    function Name(): string
    {
      match this
      case Easy => "easy"
      case Moderate => "moderate"
      case Hard => "hard"
    }
  }

  function ParseFailureDetectability(s: string): (r: Option<FailureDetectability>)
    ensures r.Some? <==> s in FailureDetectabilityNames
    ensures r.Some? ==> r.value.Name() == s
  {
    if s == "easy" then Some(FailureDetectability.Easy)
    else if s == "moderate" then Some(FailureDetectability.Moderate)
    else if s == "hard" then Some(FailureDetectability.Hard)
    else None
  }

  const RelianceLevelNames: set<string> := {"very_low", "low", "medium", "high"}

  datatype RelianceLevel = VeryLow | Low | Medium | High {
    function Name(): string
    {
      match this
      case VeryLow => "very_low"
      case Low => "low"
      case Medium => "medium"
      case High => "high"
    }
  }

  function ParseRelianceLevel(s: string): (r: Option<RelianceLevel>)
    ensures r.Some? <==> s in RelianceLevelNames
    ensures r.Some? ==> r.value.Name() == s
  {
    if s == "very_low" then Some(VeryLow)
    else if s == "low" then Some(RelianceLevel.Low)
    else if s == "medium" then Some(RelianceLevel.Medium)
    else if s == "high" then Some(RelianceLevel.High)
    else None
  }

  const RelianceCapNames: set<string> :=
    {"input_only", "supporting", "weight_bearing", "decisive"}

  datatype RelianceCap = InputOnly | Supporting | WeightBearing | Decisive {
    function Name(): string
    {
      match this
      case InputOnly => "input_only"
      case Supporting => "supporting"
      case WeightBearing => "weight_bearing"
      case Decisive => "decisive"
    }
  }

  function ParseRelianceCap(s: string): (r: Option<RelianceCap>)
    ensures r.Some? <==> s in RelianceCapNames
    ensures r.Some? ==> r.value.Name() == s
  {
    if s == "input_only" then Some(InputOnly)
    else if s == "supporting" then Some(Supporting)
    else if s == "weight_bearing" then Some(WeightBearing)
    else if s == "decisive" then Some(Decisive)
    else None
  }

  /** Every enumeration value parses back from its name. */
  lemma NamesRoundTrip()
    ensures forall t: AmbiguityType :: ParseAmbiguityType(t.Name()) == Some(t)
    ensures forall t: IntendedUse :: ParseIntendedUse(t.Name()) == Some(t)
    ensures forall t: UseTier :: ParseUseTier(t.Name()) == Some(t)
    ensures forall t: Grade :: ParseGrade(t.Name()) == Some(t)
    ensures forall t: Detectability :: ParseDetectability(t.Name()) == Some(t)
    ensures forall t: FailureDetectability :: ParseFailureDetectability(t.Name()) == Some(t)
    ensures forall t: RelianceLevel :: ParseRelianceLevel(t.Name()) == Some(t)
    ensures forall t: RelianceCap :: ParseRelianceCap(t.Name()) == Some(t)
  {
  }

  // ---------------------------------------------------------------------
  // The record.
  // ---------------------------------------------------------------------

  datatype Representation = Representation(raw: string, kind: string, short: string)

  datatype IntendedUseInfo = IntendedUseInfo(
    primary: IntendedUse,
    tier: UseTier,
    notes: string,
    alternatives: seq<IntendedUse>)

  datatype DecisionContext = DecisionContext(
    stakes: Stakes,
    reversibility: Reversibility,
    detectability: Detectability,
    timePressure: TimePressure,
    alternativesAvailable: seq<string>,
    notes: string)

  datatype Scope = Scope(within: seq<string>, outside: seq<string>, assumptions: seq<string>)

  datatype Ambiguity = Ambiguity(
    kind: AmbiguityType,
    description: string,
    whyItMatters: string,
    signals: seq<string>,
    whatToDoNow: seq<string>)

  datatype Confidence = Confidence(
    reliance: RelianceLevel,
    relianceCap: RelianceCap,
    rationale: string,
    verificationSteps: seq<string>,
    safeguards: seq<string>,
    whatWouldRaise: seq<string>,
    whatWouldLower: seq<string>)

  datatype FailureMode = FailureMode(
    mode: string,
    impact: string,
    detectability: FailureDetectability,
    mitigations: seq<string>,
    fallback: seq<string>)

  datatype JudgmentHandoff = JudgmentHandoff(
    unresolved: seq<string>,
    whoOwnsIt: string,
    nextQuestions: seq<string>)

  datatype Meta = Meta(
    generatedAtIso: string,
    model: string,
    warnings: seq<string>,
    schemaVersion: string)

  datatype Audit = Audit(
    representation: Representation,
    intendedUse: IntendedUseInfo,
    decisionContext: DecisionContext,
    scope: Scope,
    ambiguities: seq<Ambiguity>,
    confidence: Confidence,
    failureModes: seq<FailureMode>,
    judgmentHandoff: JudgmentHandoff,
    meta: Meta)

  // ---------------------------------------------------------------------
  // Validation: the schema applied to an arbitrary JSON value.
  // ---------------------------------------------------------------------

  /** The first schema violation found, in schema order, and what was
      expected there. */
  datatype Issue = Issue(path: Path, expected: string)

  function ParseStr(v: Json, path: Path): Result<string, Issue> {
    if v.Str? then Ok(v.s) else Err(Issue(path, "string"))
  }

  function ParseEnum<T>(v: Json, path: Path, parse: string -> Option<T>): Result<T, Issue> {
    if v.Str? && parse(v.s).Some? then Ok(parse(v.s).value) else Err(Issue(path, "enum value"))
  }

  /** The elements of an array, each parsed with `elem` at its index; fails
      as soon as one element fails. */
  function ParseItems<T>(items: seq<Json>, path: Path, elem: (Json, Path) -> Result<T, Issue>)
    : (r: Result<seq<T>, Issue>)
    ensures r.Ok? <==> forall i :: 0 <= i < |items| ==> elem(items[i], path + [Index(i)]).Ok?
    ensures r.Ok? ==> |r.value| == |items|
    ensures r.Ok? ==> forall i :: 0 <= i < |items| ==> r.value[i] == elem(items[i], path + [Index(i)]).value
    decreases |items|
  {
    if items == [] then Ok([])
    else
      var n := |items| - 1;
      var init :- ParseItems(items[..n], path, elem);
      var last :- elem(items[n], path + [Index(n)]);
      assert forall i :: 0 <= i < n ==> items[..n][i] == items[i];
      Ok(init + [last])
  }

  function ParseArray<T>(v: Json, path: Path, elem: (Json, Path) -> Result<T, Issue>)
    : Result<seq<T>, Issue>
  {
    if v.Arr? then ParseItems(v.items, path, elem) else Err(Issue(path, "array"))
  }

  function ParseStrings(v: Json, path: Path): Result<seq<string>, Issue> {
    ParseArray(v, path, ParseStr)
  }

  function ObjectExpected<T>(path: Path): Result<T, Issue> {
    Err(Issue(path, "object"))
  }

  function ParseRepresentation(v: Json, p: Path): Result<Representation, Issue> {
    if !v.Obj? then ObjectExpected(p) else
    var raw :- ParseStr(Field(v, "raw"), p + [Key("raw")]);
    var kind :- ParseStr(Field(v, "kind"), p + [Key("kind")]);
    var short :- ParseStr(Field(v, "short"), p + [Key("short")]);
    Ok(Representation(raw, kind, short))
  }

  function ParseIntendedUseElem(v: Json, p: Path): Result<IntendedUse, Issue> {
    ParseEnum(v, p, ParseIntendedUse)
  }

  function ParseIntendedUseInfo(v: Json, p: Path): Result<IntendedUseInfo, Issue> {
    if !v.Obj? then ObjectExpected(p) else
    var primary :- ParseEnum(Field(v, "primary"), p + [Key("primary")], ParseIntendedUse);
    var tier :- ParseEnum(Field(v, "tier"), p + [Key("tier")], ParseUseTier);
    var notes :- ParseStr(Field(v, "notes"), p + [Key("notes")]);
    var alternatives :- ParseArray(Field(v, "alternatives"), p + [Key("alternatives")], ParseIntendedUseElem);
    Ok(IntendedUseInfo(primary, tier, notes, alternatives))
  }

  function ParseDecisionContext(v: Json, p: Path): Result<DecisionContext, Issue> {
    if !v.Obj? then ObjectExpected(p) else
    var stakes :- ParseEnum(Field(v, "stakes"), p + [Key("stakes")], ParseGrade);
    var reversibility :- ParseEnum(Field(v, "reversibility"), p + [Key("reversibility")], ParseGrade);
    var detectability :- ParseEnum(Field(v, "detectability"), p + [Key("detectability")], ParseDetectability);
    var timePressure :- ParseEnum(Field(v, "time_pressure"), p + [Key("time_pressure")], ParseGrade);
    var alternatives :- ParseStrings(Field(v, "alternatives_available"), p + [Key("alternatives_available")]);
    var notes :- ParseStr(Field(v, "notes"), p + [Key("notes")]);
    Ok(DecisionContext(stakes, reversibility, detectability, timePressure, alternatives, notes))
  }

  function ParseScope(v: Json, p: Path): Result<Scope, Issue> {
    if !v.Obj? then ObjectExpected(p) else
    var within :- ParseStrings(Field(v, "within"), p + [Key("within")]);
    var outside :- ParseStrings(Field(v, "outside"), p + [Key("outside")]);
    var assumptions :- ParseStrings(Field(v, "assumptions"), p + [Key("assumptions")]);
    Ok(Scope(within, outside, assumptions))
  }

  function ParseAmbiguity(v: Json, p: Path): Result<Ambiguity, Issue> {
    if !v.Obj? then ObjectExpected(p) else
    var kind :- ParseEnum(Field(v, "type"), p + [Key("type")], ParseAmbiguityType);
    var description :- ParseStr(Field(v, "description"), p + [Key("description")]);
    var why :- ParseStr(Field(v, "why_it_matters"), p + [Key("why_it_matters")]);
    var signals :- ParseStrings(Field(v, "signals"), p + [Key("signals")]);
    var todo :- ParseStrings(Field(v, "what_to_do_now"), p + [Key("what_to_do_now")]);
    Ok(Ambiguity(kind, description, why, signals, todo))
  }

  function ParseConfidence(v: Json, p: Path): Result<Confidence, Issue> {
    if !v.Obj? then ObjectExpected(p) else
    var reliance :- ParseEnum(Field(v, "reliance"), p + [Key("reliance")], ParseRelianceLevel);
    var cap :- ParseEnum(Field(v, "reliance_cap"), p + [Key("reliance_cap")], ParseRelianceCap);
    var rationale :- ParseStr(Field(v, "rationale"), p + [Key("rationale")]);
    var steps :- ParseStrings(Field(v, "verification_steps"), p + [Key("verification_steps")]);
    var safeguards :- ParseStrings(Field(v, "safeguards"), p + [Key("safeguards")]);
    var raise :- ParseStrings(Field(v, "what_would_raise"), p + [Key("what_would_raise")]);
    var lower :- ParseStrings(Field(v, "what_would_lower"), p + [Key("what_would_lower")]);
    Ok(Confidence(reliance, cap, rationale, steps, safeguards, raise, lower))
  }

  function ParseFailureMode(v: Json, p: Path): Result<FailureMode, Issue> {
    if !v.Obj? then ObjectExpected(p) else
    var mode :- ParseStr(Field(v, "mode"), p + [Key("mode")]);
    var impact :- ParseStr(Field(v, "impact"), p + [Key("impact")]);
    var det :- ParseEnum(Field(v, "detectability"), p + [Key("detectability")], ParseFailureDetectability);
    var mitigations :- ParseStrings(Field(v, "mitigations"), p + [Key("mitigations")]);
    var fallback :- ParseStrings(Field(v, "fallback"), p + [Key("fallback")]);
    Ok(FailureMode(mode, impact, det, mitigations, fallback))
  }

  function ParseJudgmentHandoff(v: Json, p: Path): Result<JudgmentHandoff, Issue> {
    if !v.Obj? then ObjectExpected(p) else
    var unresolved :- ParseStrings(Field(v, "unresolved"), p + [Key("unresolved")]);
    var owner :- ParseStr(Field(v, "who_owns_it"), p + [Key("who_owns_it")]);
    var next :- ParseStrings(Field(v, "next_questions"), p + [Key("next_questions")]);
    Ok(JudgmentHandoff(unresolved, owner, next))
  }

  function ParseMeta(v: Json, p: Path): Result<Meta, Issue> {
    if !v.Obj? then ObjectExpected(p) else
    var at :- ParseStr(Field(v, "generated_at_iso"), p + [Key("generated_at_iso")]);
    var model :- ParseStr(Field(v, "model"), p + [Key("model")]);
    var warnings :- ParseStrings(Field(v, "warnings"), p + [Key("warnings")]);
    var version :- ParseStr(Field(v, "schema_version"), p + [Key("schema_version")]);
    Ok(Meta(at, model, warnings, version))
  }

  /** `AuditSchema.parse`: a complete record, or the first violation.
      Properties the schema does not name are ignored. */
  function Parse(j: Json): Result<Audit, Issue> {
    if !j.Obj? then ObjectExpected([])
    else
      Assemble(
        ParseRepresentation(Field(j, "representation"), [Key("representation")]),
        ParseIntendedUseInfo(Field(j, "intended_use"), [Key("intended_use")]),
        ParseDecisionContext(Field(j, "decision_context"), [Key("decision_context")]),
        ParseScope(Field(j, "scope"), [Key("scope")]),
        ParseArray(Field(j, "ambiguities"), [Key("ambiguities")], ParseAmbiguity),
        ParseConfidence(Field(j, "confidence"), [Key("confidence")]),
        ParseArray(Field(j, "failure_modes"), [Key("failure_modes")], ParseFailureMode),
        ParseJudgmentHandoff(Field(j, "judgment_handoff"), [Key("judgment_handoff")]),
        ParseMeta(Field(j, "meta"), [Key("meta")]))
  }

  /** The record from its nine parsed components, or the issue of the first
      component (in schema order) that failed. */
  function Assemble(
    representation: Result<Representation, Issue>,
    intendedUse: Result<IntendedUseInfo, Issue>,
    context: Result<DecisionContext, Issue>,
    scope: Result<Scope, Issue>,
    ambiguities: Result<seq<Ambiguity>, Issue>,
    confidence: Result<Confidence, Issue>,
    failureModes: Result<seq<FailureMode>, Issue>,
    handoff: Result<JudgmentHandoff, Issue>,
    meta: Result<Meta, Issue>): (r: Result<Audit, Issue>)
    ensures r.Ok? <==>
      && representation.Ok? && intendedUse.Ok? && context.Ok? && scope.Ok? && ambiguities.Ok?
      && confidence.Ok? && failureModes.Ok? && handoff.Ok? && meta.Ok?
    ensures r.Ok? ==> r.value == Audit(
      representation.value, intendedUse.value, context.value, scope.value, ambiguities.value,
      confidence.value, failureModes.value, handoff.value, meta.value)
  {
    var representation :- representation;
    var intendedUse :- intendedUse;
    var context :- context;
    var scope :- scope;
    var ambiguities :- ambiguities;
    var confidence :- confidence;
    var failureModes :- failureModes;
    var handoff :- handoff;
    var meta :- meta;
    Ok(Audit(representation, intendedUse, context, scope, ambiguities, confidence, failureModes, handoff, meta))
  }

  // ---------------------------------------------------------------------
  // The schema as a predicate.
  // ---------------------------------------------------------------------

  predicate IsStr(v: Json) {
    v.Str?
  }

  predicate IsName(v: Json, names: set<string>) {
    v.Str? && v.s in names
  }

  predicate IsArrayOf(v: Json, p: Json -> bool) {
    v.Arr? && forall i :: 0 <= i < |v.items| ==> p(v.items[i])
  }

  predicate IsStrArray(v: Json) {
    IsArrayOf(v, IsStr)
  }

  predicate RepresentationConforms(v: Json) {
    v.Obj? && IsStr(Field(v, "raw")) && IsStr(Field(v, "kind")) && IsStr(Field(v, "short"))
  }

  predicate IsIntendedUseName(v: Json) {
    IsName(v, IntendedUseNames)
  }

  predicate IntendedUseConforms(v: Json) {
    && v.Obj?
    && IsName(Field(v, "primary"), IntendedUseNames)
    && IsName(Field(v, "tier"), UseTierNames)
    && IsStr(Field(v, "notes"))
    && IsArrayOf(Field(v, "alternatives"), IsIntendedUseName)
  }

  predicate DecisionContextConforms(v: Json) {
    && v.Obj?
    && IsName(Field(v, "stakes"), GradeNames)
    && IsName(Field(v, "reversibility"), GradeNames)
    && IsName(Field(v, "detectability"), DetectabilityNames)
    && IsName(Field(v, "time_pressure"), GradeNames)
    && IsStrArray(Field(v, "alternatives_available"))
    && IsStr(Field(v, "notes"))
  }

  predicate ScopeConforms(v: Json) {
    && v.Obj?
    && IsStrArray(Field(v, "within"))
    && IsStrArray(Field(v, "outside"))
    && IsStrArray(Field(v, "assumptions"))
  }

  predicate AmbiguityConforms(v: Json) {
    && v.Obj?
    && IsName(Field(v, "type"), AmbiguityTypeNames)
    && IsStr(Field(v, "description"))
    && IsStr(Field(v, "why_it_matters"))
    && IsStrArray(Field(v, "signals"))
    && IsStrArray(Field(v, "what_to_do_now"))
  }

  predicate ConfidenceConforms(v: Json) {
    && v.Obj?
    && IsName(Field(v, "reliance"), RelianceLevelNames)
    && IsName(Field(v, "reliance_cap"), RelianceCapNames)
    && IsStr(Field(v, "rationale"))
    && IsStrArray(Field(v, "verification_steps"))
    && IsStrArray(Field(v, "safeguards"))
    && IsStrArray(Field(v, "what_would_raise"))
    && IsStrArray(Field(v, "what_would_lower"))
  }

  predicate FailureModeConforms(v: Json) {
    && v.Obj?
    && IsStr(Field(v, "mode"))
    && IsStr(Field(v, "impact"))
    && IsName(Field(v, "detectability"), FailureDetectabilityNames)
    && IsStrArray(Field(v, "mitigations"))
    && IsStrArray(Field(v, "fallback"))
  }

  predicate JudgmentHandoffConforms(v: Json) {
    && v.Obj?
    && IsStrArray(Field(v, "unresolved"))
    && IsStr(Field(v, "who_owns_it"))
    && IsStrArray(Field(v, "next_questions"))
  }

  predicate MetaConforms(v: Json) {
    && v.Obj?
    && IsStr(Field(v, "generated_at_iso"))
    && IsStr(Field(v, "model"))
    && IsStrArray(Field(v, "warnings"))
    && IsStr(Field(v, "schema_version"))
  }

  /** Every property of the record is present with the right type, and every
      enumerated value is one of its enumeration's names. */
  predicate Conforms(j: Json) {
    && j.Obj?
    && RepresentationConforms(Field(j, "representation"))
    && IntendedUseConforms(Field(j, "intended_use"))
    && DecisionContextConforms(Field(j, "decision_context"))
    && ScopeConforms(Field(j, "scope"))
    && IsArrayOf(Field(j, "ambiguities"), AmbiguityConforms)
    && ConfidenceConforms(Field(j, "confidence"))
    && IsArrayOf(Field(j, "failure_modes"), FailureModeConforms)
    && JudgmentHandoffConforms(Field(j, "judgment_handoff"))
    && MetaConforms(Field(j, "meta"))
  }

  // ---------------------------------------------------------------------
  // Encoding a record back to JSON.
  // ---------------------------------------------------------------------

  function EncodeItems<T>(xs: seq<T>, enc: T -> Json): (r: seq<Json>)
    ensures |r| == |xs|
    ensures forall i :: 0 <= i < |xs| ==> r[i] == enc(xs[i])
  {
    seq(|xs|, i requires 0 <= i < |xs| => enc(xs[i]))
  }

  function EncodeStr(s: string): Json {
    Str(s)
  }

  function EncodeStrings(xs: seq<string>): Json {
    Arr(EncodeItems(xs, EncodeStr))
  }

  function EncodeIntendedUse(u: IntendedUse): Json {
    Str(u.Name())
  }

  function EncodeRepresentation(x: Representation): Json {
    Obj(map["raw" := Str(x.raw), "kind" := Str(x.kind), "short" := Str(x.short)])
  }

  function EncodeIntendedUseInfo(x: IntendedUseInfo): Json {
    Obj(map[
      "primary" := Str(x.primary.Name()),
      "tier" := Str(x.tier.Name()),
      "notes" := Str(x.notes),
      "alternatives" := Arr(EncodeItems(x.alternatives, EncodeIntendedUse))])
  }

  function EncodeDecisionContext(x: DecisionContext): Json {
    Obj(map[
      "stakes" := Str(x.stakes.Name()),
      "reversibility" := Str(x.reversibility.Name()),
      "detectability" := Str(x.detectability.Name()),
      "time_pressure" := Str(x.timePressure.Name()),
      "alternatives_available" := EncodeStrings(x.alternativesAvailable),
      "notes" := Str(x.notes)])
  }

  function EncodeScope(x: Scope): Json {
    Obj(map[
      "within" := EncodeStrings(x.within),
      "outside" := EncodeStrings(x.outside),
      "assumptions" := EncodeStrings(x.assumptions)])
  }

  function EncodeAmbiguity(x: Ambiguity): Json {
    Obj(map[
      "type" := Str(x.kind.Name()),
      "description" := Str(x.description),
      "why_it_matters" := Str(x.whyItMatters),
      "signals" := EncodeStrings(x.signals),
      "what_to_do_now" := EncodeStrings(x.whatToDoNow)])
  }

  function EncodeConfidence(x: Confidence): Json {
    Obj(map[
      "reliance" := Str(x.reliance.Name()),
      "reliance_cap" := Str(x.relianceCap.Name()),
      "rationale" := Str(x.rationale),
      "verification_steps" := EncodeStrings(x.verificationSteps),
      "safeguards" := EncodeStrings(x.safeguards),
      "what_would_raise" := EncodeStrings(x.whatWouldRaise),
      "what_would_lower" := EncodeStrings(x.whatWouldLower)])
  }

  function EncodeFailureMode(x: FailureMode): Json {
    Obj(map[
      "mode" := Str(x.mode),
      "impact" := Str(x.impact),
      "detectability" := Str(x.detectability.Name()),
      "mitigations" := EncodeStrings(x.mitigations),
      "fallback" := EncodeStrings(x.fallback)])
  }

  function EncodeJudgmentHandoff(x: JudgmentHandoff): Json {
    Obj(map[
      "unresolved" := EncodeStrings(x.unresolved),
      "who_owns_it" := Str(x.whoOwnsIt),
      "next_questions" := EncodeStrings(x.nextQuestions)])
  }

  function EncodeMeta(x: Meta): Json {
    Obj(map[
      "generated_at_iso" := Str(x.generatedAtIso),
      "model" := Str(x.model),
      "warnings" := EncodeStrings(x.warnings),
      "schema_version" := Str(x.schemaVersion)])
  }

  const TopLevelKeys: set<string> := {
    "representation", "intended_use", "decision_context", "scope", "ambiguities",
    "confidence", "failure_modes", "judgment_handoff", "meta"}

  /** The record as the JSON object it is serialised to. */
  function Encode(a: Audit): (j: Json)
    ensures j.Obj? && j.fields.Keys == TopLevelKeys
  {
    Obj(map[
      "representation" := EncodeRepresentation(a.representation),
      "intended_use" := EncodeIntendedUseInfo(a.intendedUse),
      "decision_context" := EncodeDecisionContext(a.decisionContext),
      "scope" := EncodeScope(a.scope),
      "ambiguities" := Arr(EncodeItems(a.ambiguities, EncodeAmbiguity)),
      "confidence" := EncodeConfidence(a.confidence),
      "failure_modes" := Arr(EncodeItems(a.failureModes, EncodeFailureMode)),
      "judgment_handoff" := EncodeJudgmentHandoff(a.judgmentHandoff),
      "meta" := EncodeMeta(a.meta)])
  }
}
