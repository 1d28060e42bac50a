/** What the schema promises (src/auditSchema.ts): validation agrees with the
    plain-predicate reading of the schema, every record survives a JSON round
    trip, unknown properties are dropped, and no required property may be
    left out. */
module SchemaLemmas {
  import opened Results
  import opened Json
  import opened AuditSchema

  // ----- arrays -----------------------------------------------------------

  lemma ParseArrayEncode<T>(xs: seq<T>, enc: T -> Json, elem: (Json, Path) -> Result<T, Issue>, path: Path)
    requires forall x: T, p: Path :: elem(enc(x), p) == Ok(x)
    ensures ParseArray(Arr(EncodeItems(xs, enc)), path, elem) == Ok(xs)
  {
    var items := EncodeItems(xs, enc);
    assert forall i :: 0 <= i < |items| ==> elem(items[i], path + [Index(i)]) == Ok(xs[i]);
    var r := ParseArray(Arr(items), path, elem);
    assert r.Ok?;
    assert r.value == xs;
  }

  lemma ParseArrayIff<T>(v: Json, path: Path, elem: (Json, Path) -> Result<T, Issue>, pred: Json -> bool)
    requires forall x: Json, q: Path :: elem(x, q).Ok? <==> pred(x)
    ensures ParseArray(v, path, elem).Ok? <==> IsArrayOf(v, pred)
  {
  }

  lemma StringsIff(v: Json, path: Path)
    ensures ParseStrings(v, path).Ok? <==> IsStrArray(v)
  {
    ParseArrayIff(v, path, ParseStr, IsStr);
  }

  lemma StringsRoundTrip(xs: seq<string>, path: Path)
    ensures ParseStrings(EncodeStrings(xs), path) == Ok(xs)
  {
    ParseArrayEncode(xs, EncodeStr, ParseStr, path);
  }

  // ----- one record part at a time ----------------------------------------

  lemma RepresentationRoundTrip(x: Representation, p: Path)
    ensures ParseRepresentation(EncodeRepresentation(x), p) == Ok(x)
  {
  }

  lemma IntendedUseInfoRoundTrip(x: IntendedUseInfo, p: Path)
    ensures ParseIntendedUseInfo(EncodeIntendedUseInfo(x), p) == Ok(x)
  {
    NamesRoundTrip();
    ParseArrayEncode(x.alternatives, EncodeIntendedUse, ParseIntendedUseElem, p + [Key("alternatives")]);
  }

  lemma DecisionContextRoundTrip(x: DecisionContext, p: Path)
    ensures ParseDecisionContext(EncodeDecisionContext(x), p) == Ok(x)
  {
    NamesRoundTrip();
    StringsRoundTrip(x.alternativesAvailable, p + [Key("alternatives_available")]);
  }

  lemma ScopeRoundTrip(x: Scope, p: Path)
    ensures ParseScope(EncodeScope(x), p) == Ok(x)
  {
    StringsRoundTrip(x.within, p + [Key("within")]);
    StringsRoundTrip(x.outside, p + [Key("outside")]);
    StringsRoundTrip(x.assumptions, p + [Key("assumptions")]);
  }

  lemma AmbiguityRoundTrip(x: Ambiguity, p: Path)
    ensures ParseAmbiguity(EncodeAmbiguity(x), p) == Ok(x)
  {
    NamesRoundTrip();
    StringsRoundTrip(x.signals, p + [Key("signals")]);
    StringsRoundTrip(x.whatToDoNow, p + [Key("what_to_do_now")]);
  }

  lemma ConfidenceRoundTrip(x: Confidence, p: Path)
    ensures ParseConfidence(EncodeConfidence(x), p) == Ok(x)
  {
    var v := EncodeConfidence(x);
    assert Field(v, "reliance") == Str(x.reliance.Name());
    assert Field(v, "reliance_cap") == Str(x.relianceCap.Name());
    assert Field(v, "rationale") == Str(x.rationale);
    assert Field(v, "verification_steps") == EncodeStrings(x.verificationSteps);
    assert Field(v, "safeguards") == EncodeStrings(x.safeguards);
    assert Field(v, "what_would_raise") == EncodeStrings(x.whatWouldRaise);
    assert Field(v, "what_would_lower") == EncodeStrings(x.whatWouldLower);
    NamesRoundTrip();
    StringsRoundTrip(x.verificationSteps, p + [Key("verification_steps")]);
    StringsRoundTrip(x.safeguards, p + [Key("safeguards")]);
    StringsRoundTrip(x.whatWouldRaise, p + [Key("what_would_raise")]);
    StringsRoundTrip(x.whatWouldLower, p + [Key("what_would_lower")]);
  }

  lemma FailureModeRoundTrip(x: FailureMode, p: Path)
    ensures ParseFailureMode(EncodeFailureMode(x), p) == Ok(x)
  {
    NamesRoundTrip();
    StringsRoundTrip(x.mitigations, p + [Key("mitigations")]);
    StringsRoundTrip(x.fallback, p + [Key("fallback")]);
  }

  lemma JudgmentHandoffRoundTrip(x: JudgmentHandoff, p: Path)
    ensures ParseJudgmentHandoff(EncodeJudgmentHandoff(x), p) == Ok(x)
  {
    StringsRoundTrip(x.unresolved, p + [Key("unresolved")]);
    StringsRoundTrip(x.nextQuestions, p + [Key("next_questions")]);
  }

  lemma MetaRoundTrip(x: Meta, p: Path)
    ensures ParseMeta(EncodeMeta(x), p) == Ok(x)
  {
    StringsRoundTrip(x.warnings, p + [Key("warnings")]);
  }

  /** Every record validates after serialisation and comes back unchanged:
      the schema accepts everything the datatypes can express. */
  lemma ParseEncode(a: Audit)
    ensures Parse(Encode(a)) == Ok(a)
  {
    var j := Encode(a);
    assert Field(j, "representation") == EncodeRepresentation(a.representation);
    assert Field(j, "intended_use") == EncodeIntendedUseInfo(a.intendedUse);
    assert Field(j, "decision_context") == EncodeDecisionContext(a.decisionContext);
    assert Field(j, "scope") == EncodeScope(a.scope);
    assert Field(j, "ambiguities") == Arr(EncodeItems(a.ambiguities, EncodeAmbiguity));
    assert Field(j, "confidence") == EncodeConfidence(a.confidence);
    assert Field(j, "failure_modes") == Arr(EncodeItems(a.failureModes, EncodeFailureMode));
    assert Field(j, "judgment_handoff") == EncodeJudgmentHandoff(a.judgmentHandoff);
    assert Field(j, "meta") == EncodeMeta(a.meta);
    RepresentationRoundTrip(a.representation, [Key("representation")]);
    IntendedUseInfoRoundTrip(a.intendedUse, [Key("intended_use")]);
    DecisionContextRoundTrip(a.decisionContext, [Key("decision_context")]);
    ScopeRoundTrip(a.scope, [Key("scope")]);
    forall x: Ambiguity, p: Path ensures ParseAmbiguity(EncodeAmbiguity(x), p) == Ok(x) {
      AmbiguityRoundTrip(x, p);
    }
    ParseArrayEncode(a.ambiguities, EncodeAmbiguity, ParseAmbiguity, [Key("ambiguities")]);
    ConfidenceRoundTrip(a.confidence, [Key("confidence")]);
    forall x: FailureMode, p: Path ensures ParseFailureMode(EncodeFailureMode(x), p) == Ok(x) {
      FailureModeRoundTrip(x, p);
    }
    ParseArrayEncode(a.failureModes, EncodeFailureMode, ParseFailureMode, [Key("failure_modes")]);
    JudgmentHandoffRoundTrip(a.judgmentHandoff, [Key("judgment_handoff")]);
    MetaRoundTrip(a.meta, [Key("meta")]);
  }

  // ----- validation agrees with the predicate -----------------------------

  lemma IntendedUseIff(v: Json, p: Path)
    ensures ParseIntendedUseInfo(v, p).Ok? <==> IntendedUseConforms(v)
  {
    ParseArrayIff(Field(v, "alternatives"), p + [Key("alternatives")], ParseIntendedUseElem, IsIntendedUseName);
  }

  lemma DecisionContextIff(v: Json, p: Path)
    ensures ParseDecisionContext(v, p).Ok? <==> DecisionContextConforms(v)
  {
    StringsIff(Field(v, "alternatives_available"), p + [Key("alternatives_available")]);
  }

  lemma ScopeIff(v: Json, p: Path)
    ensures ParseScope(v, p).Ok? <==> ScopeConforms(v)
  {
    StringsIff(Field(v, "within"), p + [Key("within")]);
    StringsIff(Field(v, "outside"), p + [Key("outside")]);
    StringsIff(Field(v, "assumptions"), p + [Key("assumptions")]);
  }

  lemma AmbiguityIff(v: Json, p: Path)
    ensures ParseAmbiguity(v, p).Ok? <==> AmbiguityConforms(v)
  {
    StringsIff(Field(v, "signals"), p + [Key("signals")]);
    StringsIff(Field(v, "what_to_do_now"), p + [Key("what_to_do_now")]);
  }

  lemma ConfidenceIff(v: Json, p: Path)
    ensures ParseConfidence(v, p).Ok? <==> ConfidenceConforms(v)
  {
    StringsIff(Field(v, "verification_steps"), p + [Key("verification_steps")]);
    StringsIff(Field(v, "safeguards"), p + [Key("safeguards")]);
    StringsIff(Field(v, "what_would_raise"), p + [Key("what_would_raise")]);
    StringsIff(Field(v, "what_would_lower"), p + [Key("what_would_lower")]);
  }

  lemma FailureModeIff(v: Json, p: Path)
    ensures ParseFailureMode(v, p).Ok? <==> FailureModeConforms(v)
  {
    StringsIff(Field(v, "mitigations"), p + [Key("mitigations")]);
    StringsIff(Field(v, "fallback"), p + [Key("fallback")]);
  }

  lemma JudgmentHandoffIff(v: Json, p: Path)
    ensures ParseJudgmentHandoff(v, p).Ok? <==> JudgmentHandoffConforms(v)
  {
    StringsIff(Field(v, "unresolved"), p + [Key("unresolved")]);
    StringsIff(Field(v, "next_questions"), p + [Key("next_questions")]);
  }

  lemma MetaIff(v: Json, p: Path)
    ensures ParseMeta(v, p).Ok? <==> MetaConforms(v)
  {
    StringsIff(Field(v, "warnings"), p + [Key("warnings")]);
  }

  /** Validation succeeds exactly on the values the schema describes: all
      properties present, strings where strings are due, arrays where arrays
      are due, enumeration names where an enumeration is due. */
  lemma ParseIffConforms(j: Json)
    ensures Parse(j).Ok? <==> Conforms(j)
  {
    IntendedUseIff(Field(j, "intended_use"), [Key("intended_use")]);
    DecisionContextIff(Field(j, "decision_context"), [Key("decision_context")]);
    ScopeIff(Field(j, "scope"), [Key("scope")]);
    forall x: Json, q: Path ensures ParseAmbiguity(x, q).Ok? <==> AmbiguityConforms(x) {
      AmbiguityIff(x, q);
    }
    ParseArrayIff(Field(j, "ambiguities"), [Key("ambiguities")], ParseAmbiguity, AmbiguityConforms);
    ConfidenceIff(Field(j, "confidence"), [Key("confidence")]);
    forall x: Json, q: Path ensures ParseFailureMode(x, q).Ok? <==> FailureModeConforms(x) {
      FailureModeIff(x, q);
    }
    ParseArrayIff(Field(j, "failure_modes"), [Key("failure_modes")], ParseFailureMode, FailureModeConforms);
    JudgmentHandoffIff(Field(j, "judgment_handoff"), [Key("judgment_handoff")]);
    MetaIff(Field(j, "meta"), [Key("meta")]);
  }

  // ----- all or nothing ---------------------------------------------------

  /** Leaving out any top-level property fails validation: nothing is
      optional, so absence is never accepted in place of "" or []. */
  lemma MissingFieldRejected(j: Json, k: string)
    requires j.Obj? && k in TopLevelKeys
    ensures Parse(Obj(j.fields - {k})).Err?
  {
    var j' := Obj(j.fields - {k});
    assert Field(j', k) == Null;
    ParseIffConforms(j');
  }

  /** A property the schema does not name is dropped, not rejected. */
  lemma ExtraFieldIgnored(j: Json, k: string, v: Json)
    requires j.Obj? && k !in TopLevelKeys
    ensures Parse(Obj(j.fields[k := v])) == Parse(j)
  {
    var j' := Obj(j.fields[k := v]);
    assert forall key :: key in TopLevelKeys ==> Field(j', key) == Field(j, key);
  }

  /** A failure mode may not be graded `unknown`, while the decision context's
      detectability may: the two scales are different. */
  lemma FailureModeRejectsUnknown(v: Json, p: Path)
    requires Field(v, "detectability") == Str("unknown")
    ensures ParseFailureMode(v, p).Err?
    ensures ParseEnum(Field(v, "detectability"), p, ParseDetectability) == Ok(Detectability.Unknown)
  {
  }
}

/** The record the test suite validates (tests/fixtures.ts), written as the
    JSON object literal it is there; its timestamp is a parameter. */
module SchemaFixture {
  import opened Results
  import opened Json
  import opened AuditSchema
  import SchemaLemmas

  // The fixture of tests/fixtures.ts, one section at a time: the JSON value
  // and the typed record it validates to.

  function RepresentationJson(): Json {
    Obj(map["raw" := Str("X"), "kind" := Str("metric"), "short" := Str("X short")])
  }

  function RepresentationRecord(): Representation {
    Representation("X", "metric", "X short")
  }

  function IntendedUseJson(): Json {
    Obj(map[
      "primary" := Str("decision_support"),
      "tier" := Str("operational"),
      "notes" := Str(""),
      "alternatives" := Arr([])])
  }

  function IntendedUseRecord(): IntendedUseInfo {
    IntendedUseInfo(DecisionSupport, Operational, "", [])
  }

  function DecisionContextJson(): Json {
    Obj(map[
      "stakes" := Str("medium"),
      "reversibility" := Str("medium"),
      "detectability" := Str("moderate"),
      "time_pressure" := Str("medium"),
      "alternatives_available" := EncodeStrings(["second source"]),
      "notes" := Str("")])
  }

  function DecisionContextRecord(): DecisionContext {
    DecisionContext(Grade.Medium, Grade.Medium, Detectability.Moderate, Grade.Medium, ["second source"], "")
  }

  function ScopeJson(): Json {
    Obj(map[
      "within" := EncodeStrings(["planning"]),
      "outside" := EncodeStrings(["final justification"]),
      "assumptions" := EncodeStrings(["data is recent"])])
  }

  function ScopeRecord(): Scope {
    Scope(["planning"], ["final justification"], ["data is recent"])
  }

  function AmbiguityJson(): Json {
    Obj(map[
      "type" := Str("mapping"),
      "description" := Str("Proxy may not track outcome."),
      "why_it_matters" := Str("Could optimize the wrong thing."),
      "signals" := EncodeStrings(["metric moved but outcomes didn’t"]),
      "what_to_do_now" := EncodeStrings(["validate against outcome metric"])])
  }

  function AmbiguityRecord(): Ambiguity {
    Ambiguity(Mapping, "Proxy may not track outcome.", "Could optimize the wrong thing.",
              ["metric moved but outcomes didn’t"], ["validate against outcome metric"])
  }

  function ConfidenceJson(): Json {
    Obj(map[
      "reliance" := Str("medium"),
      "reliance_cap" := Str("supporting"),
      "rationale" := Str("Useful as one input, not decisive."),
      "verification_steps" := EncodeStrings(["compare to retention cohort"]),
      "safeguards" := EncodeStrings(["monitor regressions"]),
      "what_would_raise" := EncodeStrings(["validated on holdout"]),
      "what_would_lower" := EncodeStrings(["regime change"])])
  }

  function ConfidenceRecord(): Confidence {
    Confidence(RelianceLevel.Medium, Supporting, "Useful as one input, not decisive.",
               ["compare to retention cohort"], ["monitor regressions"],
               ["validated on holdout"], ["regime change"])
  }

  function FailureModeJson(): Json {
    Obj(map[
      "mode" := Str("Metric improves while user outcomes worsen"),
      "impact" := Str("Bad decisions"),
      "detectability" := Str("moderate"),
      "mitigations" := EncodeStrings(["track outcome metric"]),
      "fallback" := EncodeStrings(["pause rollout"])])
  }

  function FailureModeRecord(): FailureMode {
    FailureMode("Metric improves while user outcomes worsen", "Bad decisions",
                FailureDetectability.Moderate, ["track outcome metric"], ["pause rollout"])
  }

  function HandoffJson(): Json {
    Obj(map[
      "unresolved" := EncodeStrings(["acceptable tradeoffs"]),
      "who_owns_it" := Str("PM"),
      "next_questions" := EncodeStrings(["what outcomes matter most?"])])
  }

  function HandoffRecord(): JudgmentHandoff {
    JudgmentHandoff(["acceptable tradeoffs"], "PM", ["what outcomes matter most?"])
  }

  function MetaJson(generatedAt: string): Json {
    Obj(map[
      "generated_at_iso" := Str(generatedAt),
      "model" := Str("test"),
      "warnings" := Arr([]),
      "schema_version" := Str("2")])
  }

  function MetaRecord(generatedAt: string): Meta {
    Meta(generatedAt, "test", [], "2")
  }

  function FixtureJson(generatedAt: string): Json {
    Obj(map[
      "representation" := RepresentationJson(),
      "intended_use" := IntendedUseJson(),
      "decision_context" := DecisionContextJson(),
      "scope" := ScopeJson(),
      "ambiguities" := Arr([AmbiguityJson()]),
      "confidence" := ConfidenceJson(),
      "failure_modes" := Arr([FailureModeJson()]),
      "judgment_handoff" := HandoffJson(),
      "meta" := MetaJson(generatedAt)])
  }

  /** The fixture as the typed record validation yields. */
  function FixtureAudit(generatedAt: string): Audit {
    Audit(RepresentationRecord(), IntendedUseRecord(), DecisionContextRecord(), ScopeRecord(),
          [AmbiguityRecord()], ConfidenceRecord(), [FailureModeRecord()], HandoffRecord(),
          MetaRecord(generatedAt))
  }

  lemma FixtureUseSections()
    ensures RepresentationJson() == EncodeRepresentation(RepresentationRecord())
    ensures IntendedUseJson() == EncodeIntendedUseInfo(IntendedUseRecord())
    ensures DecisionContextJson() == EncodeDecisionContext(DecisionContextRecord())
    ensures ScopeJson() == EncodeScope(ScopeRecord())
  {
    assert EncodeItems(IntendedUseRecord().alternatives, EncodeIntendedUse) == [];
  }

  lemma FixtureFindingSections()
    ensures AmbiguityJson() == EncodeAmbiguity(AmbiguityRecord())
    ensures FailureModeJson() == EncodeFailureMode(FailureModeRecord())
  {
  }

  lemma FixtureJudgmentSections(generatedAt: string)
    ensures ConfidenceJson() == EncodeConfidence(ConfidenceRecord())
    ensures HandoffJson() == EncodeJudgmentHandoff(HandoffRecord())
    ensures MetaJson(generatedAt) == EncodeMeta(MetaRecord(generatedAt))
  {
    assert EncodeItems(MetaRecord(generatedAt).warnings, EncodeStr) == [];
  }

  /** Each section of the fixture is the serialisation of its record. */
  lemma FixtureSections(generatedAt: string)
    ensures RepresentationJson() == EncodeRepresentation(RepresentationRecord())
    ensures IntendedUseJson() == EncodeIntendedUseInfo(IntendedUseRecord())
    ensures DecisionContextJson() == EncodeDecisionContext(DecisionContextRecord())
    ensures ScopeJson() == EncodeScope(ScopeRecord())
    ensures AmbiguityJson() == EncodeAmbiguity(AmbiguityRecord())
    ensures ConfidenceJson() == EncodeConfidence(ConfidenceRecord())
    ensures FailureModeJson() == EncodeFailureMode(FailureModeRecord())
    ensures HandoffJson() == EncodeJudgmentHandoff(HandoffRecord())
    ensures MetaJson(generatedAt) == EncodeMeta(MetaRecord(generatedAt))
  {
    FixtureUseSections();
    FixtureFindingSections();
    FixtureJudgmentSections(generatedAt);
  }

  /** The fixture validates, to the typed record above, and keeps schema
      version "2" (tests/schema.test.ts). */
  lemma FixtureValidates(generatedAt: string)
    ensures Parse(FixtureJson(generatedAt)) == Ok(FixtureAudit(generatedAt))
    ensures Parse(FixtureJson(generatedAt)).value.meta.schemaVersion == "2"
  {
    FixtureEncodes(generatedAt);
    SchemaLemmas.ParseEncode(FixtureAudit(generatedAt));
  }

  /** The fixture is the serialisation of the typed record. */
  lemma FixtureEncodes(generatedAt: string)
    ensures FixtureJson(generatedAt) == Encode(FixtureAudit(generatedAt))
  {
    var a := FixtureAudit(generatedAt);
    FixtureSections(generatedAt);
    assert EncodeItems(a.ambiguities, EncodeAmbiguity) == [EncodeAmbiguity(a.ambiguities[0])];
    assert EncodeItems(a.failureModes, EncodeFailureMode) == [EncodeFailureMode(a.failureModes[0])];
  }
}
