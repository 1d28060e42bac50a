/** What `runAmbiguityPass` (src/openaiAudit.ts) does with the model's
    structured output: refuse a missing output, hard-fill the `meta` block,
    validate, lint, merge the warnings and validate once more.  The request
    itself, the API key and the clock are outside the model: the parsed
    output, the timestamp and the model name arrive as parameters. */
module AuditRun {
  import opened Results
  import opened Json
  import opened AuditSchema
  import SchemaLemmas
  import Lint

  const DefaultModel := "gpt-4o-mini"
  const DefaultSchemaVersion := "2"
  const NoOutputMessage := "Ambiguity Pass failed: model did not return schema-valid output."

  datatype RunError =
    | NoParsedOutput        // the OpenAI response carried no parsed output
    | SchemaViolation(issue: Issue)
  {
    /** The text of the error the run throws; a schema violation carries
        zod's own report, whose wording is not part of this model. */
    function Message(): Option<string> {
      match this
      case NoParsedOutput => Some(NoOutputMessage)
      case SchemaViolation(_) => None
    }
  }

  /** `args.model ?? "gpt-4o-mini"`. */
  function ModelName(requested: Option<string>): (m: string)
    ensures requested.Some? ==> m == requested.value
    ensures requested.None? ==> m == DefaultModel
  {
    if requested.Some? then requested.value else DefaultModel
  }

  /** The candidate's `meta.warnings` when it is an array, else `[]`. */
  function PriorWarnings(parsed: Json): (w: Json)
    ensures w.Arr?
    ensures Field(Field(parsed, "meta"), "warnings").Arr? ==> w == Field(Field(parsed, "meta"), "warnings")
    ensures !Field(Field(parsed, "meta"), "warnings").Arr? ==> w == Arr([])
  {
    var w := Field(Field(parsed, "meta"), "warnings");
    if w.Arr? then w else Arr([])
  }

  /** The candidate's `meta.schema_version` when it is a string, else "2". */
  function PriorVersion(parsed: Json): (v: Json)
    ensures v.Str?
    ensures Field(Field(parsed, "meta"), "schema_version").Str? ==> v == Field(Field(parsed, "meta"), "schema_version")
    ensures !Field(Field(parsed, "meta"), "schema_version").Str? ==> v == Str(DefaultSchemaVersion)
  {
    var v := Field(Field(parsed, "meta"), "schema_version");
    if v.Str? then v else Str(DefaultSchemaVersion)
  }

  function EnrichedMeta(parsed: Json, generatedAt: string, model: string): Json {
    Obj(map[
      "generated_at_iso" := Str(generatedAt),
      "model" := Str(model),
      "warnings" := PriorWarnings(parsed),
      "schema_version" := PriorVersion(parsed)])
  }

  /** `{...parsed, meta: {...}}`: every property of the candidate except
      `meta` is copied, and `meta` is replaced by the filled-in block. */
  function Enrich(parsed: Json, generatedAt: string, model: string): (e: Json)
    ensures e.Obj? && "meta" in e.fields
    ensures forall k :: k != "meta" ==> Field(e, k) == Field(parsed, k)
  {
    Obj(Spread(parsed)["meta" := EnrichedMeta(parsed, generatedAt, model)])
  }

  /** The validated record with the lint's warnings appended to its own. */
  function MergeWarnings(validated: Audit): Audit {
    var meta := validated.meta;
    validated.(meta := meta.(warnings := meta.warnings + Lint.LintWarnings(validated)))
  }

  /** From the model's structured output to the returned record.  The final validation
      cannot fail (see `SchemaLemmas.ParseEncode`), so the run fails exactly
      when the output is missing or the enriched candidate is invalid. */
  function RunTail(parsed: Json, generatedAt: string, model: string): (r: Result<Audit, RunError>)
    ensures Falsy(parsed) ==> r == Err(NoParsedOutput)
    ensures !Falsy(parsed) ==> (r.Ok? <==> Parse(Enrich(parsed, generatedAt, model)).Ok?)
    ensures r.Ok? ==> r == Ok(MergeWarnings(Parse(Enrich(parsed, generatedAt, model)).value))
  {
    if Falsy(parsed) then Err(NoParsedOutput)
    else
      var validated :- Parse(Enrich(parsed, generatedAt, model)).MapError(e => SchemaViolation(e));
      var merged := MergeWarnings(validated);
      SchemaLemmas.ParseEncode(merged);
      Parse(Encode(merged)).MapError(e => SchemaViolation(e))
  }

  /** `runAmbiguityPass` after the request: the model named by the caller,
      or the default, is the one recorded. */
  function Run(parsed: Json, generatedAt: string, requested: Option<string>): Result<Audit, RunError> {
    RunTail(parsed, generatedAt, ModelName(requested))
  }

  // ----- properties of the run -------------------------------------------

  /** Validation reads exactly the nine components, one parser each. */
  lemma ParseComponents(j: Json)
    requires Parse(j).Ok?
    ensures ParseRepresentation(Field(j, "representation"), [Key("representation")]) == Ok(Parse(j).value.representation)
    ensures ParseIntendedUseInfo(Field(j, "intended_use"), [Key("intended_use")]) == Ok(Parse(j).value.intendedUse)
    ensures ParseDecisionContext(Field(j, "decision_context"), [Key("decision_context")]) == Ok(Parse(j).value.decisionContext)
    ensures ParseScope(Field(j, "scope"), [Key("scope")]) == Ok(Parse(j).value.scope)
    ensures ParseArray(Field(j, "ambiguities"), [Key("ambiguities")], ParseAmbiguity) == Ok(Parse(j).value.ambiguities)
    ensures ParseConfidence(Field(j, "confidence"), [Key("confidence")]) == Ok(Parse(j).value.confidence)
    ensures ParseArray(Field(j, "failure_modes"), [Key("failure_modes")], ParseFailureMode) == Ok(Parse(j).value.failureModes)
    ensures ParseJudgmentHandoff(Field(j, "judgment_handoff"), [Key("judgment_handoff")]) == Ok(Parse(j).value.judgmentHandoff)
    ensures ParseMeta(Field(j, "meta"), [Key("meta")]) == Ok(Parse(j).value.meta)
  {
  }

  /** The filled-in block, once validated, holds the run's timestamp and
      model and the candidate's warnings and version (or their defaults). */
  lemma EnrichedMetaParses(parsed: Json, generatedAt: string, model: string)
    requires ParseMeta(EnrichedMeta(parsed, generatedAt, model), [Key("meta")]).Ok?
    ensures var meta := ParseMeta(EnrichedMeta(parsed, generatedAt, model), [Key("meta")]).value;
      && meta.generatedAtIso == generatedAt
      && meta.model == model
      && Str(meta.schemaVersion) == PriorVersion(parsed)
      && EncodeStrings(meta.warnings) == PriorWarnings(parsed)
  {
    var m := EnrichedMeta(parsed, generatedAt, model);
    assert Field(m, "generated_at_iso") == Str(generatedAt);
    assert Field(m, "model") == Str(model);
    assert Field(m, "warnings") == PriorWarnings(parsed);
    assert Field(m, "schema_version") == PriorVersion(parsed);
    var ws := ParseMeta(m, [Key("meta")]).value.warnings;
    SchemaLemmas.StringsIff(PriorWarnings(parsed), [Key("meta"), Key("warnings")]);
    var items := PriorWarnings(parsed).items;
    assert |items| == |ws|;
    assert forall i :: 0 <= i < |ws| ==> items[i] == Str(ws[i]);
  }

  /** The returned `meta` carries the run's timestamp and model, keeps a
      string `schema_version` from the output and otherwise says "2", and
      lists the output's own warnings followed by the lint's. */
  lemma RunTailMeta(parsed: Json, generatedAt: string, model: string)
    requires RunTail(parsed, generatedAt, model).Ok?
    ensures var a := RunTail(parsed, generatedAt, model).value;
      && a.meta.generatedAtIso == generatedAt
      && a.meta.model == model
      && Str(a.meta.schemaVersion) == PriorVersion(parsed)
      && |Lint.LintWarnings(a)| <= |a.meta.warnings|
      && EncodeStrings(a.meta.warnings[..|a.meta.warnings| - |Lint.LintWarnings(a)|]) == PriorWarnings(parsed)
      && a.meta.warnings[|a.meta.warnings| - |Lint.LintWarnings(a)|..] == Lint.LintWarnings(a)
  {
    var e := Enrich(parsed, generatedAt, model);
    var v := Parse(e).value;
    ParseComponents(e);
    assert Field(e, "meta") == EnrichedMeta(parsed, generatedAt, model);
    EnrichedMetaParses(parsed, generatedAt, model);
    var a := MergeWarnings(v);
    Lint.LintIgnoresMeta(v, a.meta);
    assert a.meta.warnings[..|v.meta.warnings|] == v.meta.warnings;
  }

  /** The returned `meta.model` is the model the caller asked for, and
      `gpt-4o-mini` when none was named. */
  lemma RunRecordsModel(parsed: Json, generatedAt: string, requested: Option<string>)
    requires Run(parsed, generatedAt, requested).Ok?
    ensures requested.Some? ==> Run(parsed, generatedAt, requested).value.meta.model == requested.value
    ensures requested.None? ==> Run(parsed, generatedAt, requested).value.meta.model == "gpt-4o-mini"
  {
    RunTailMeta(parsed, generatedAt, ModelName(requested));
  }

  /** Apart from `meta`, the returned record is what the candidate's own
      properties validate to: the run adds and removes nothing else. */
  lemma RunTailKeepsContent(parsed: Json, generatedAt: string, model: string)
    requires RunTail(parsed, generatedAt, model).Ok?
    ensures var a := RunTail(parsed, generatedAt, model).value;
      && ParseRepresentation(Field(parsed, "representation"), [Key("representation")]) == Ok(a.representation)
      && ParseIntendedUseInfo(Field(parsed, "intended_use"), [Key("intended_use")]) == Ok(a.intendedUse)
      && ParseDecisionContext(Field(parsed, "decision_context"), [Key("decision_context")]) == Ok(a.decisionContext)
      && ParseScope(Field(parsed, "scope"), [Key("scope")]) == Ok(a.scope)
      && ParseArray(Field(parsed, "ambiguities"), [Key("ambiguities")], ParseAmbiguity) == Ok(a.ambiguities)
      && ParseConfidence(Field(parsed, "confidence"), [Key("confidence")]) == Ok(a.confidence)
      && ParseArray(Field(parsed, "failure_modes"), [Key("failure_modes")], ParseFailureMode) == Ok(a.failureModes)
      && ParseJudgmentHandoff(Field(parsed, "judgment_handoff"), [Key("judgment_handoff")]) == Ok(a.judgmentHandoff)
  {
    var e := Enrich(parsed, generatedAt, model);
    ParseComponents(e);
    assert Field(e, "representation") == Field(parsed, "representation");
    assert Field(e, "intended_use") == Field(parsed, "intended_use");
    assert Field(e, "decision_context") == Field(parsed, "decision_context");
    assert Field(e, "scope") == Field(parsed, "scope");
    assert Field(e, "ambiguities") == Field(parsed, "ambiguities");
    assert Field(e, "confidence") == Field(parsed, "confidence");
    assert Field(e, "failure_modes") == Field(parsed, "failure_modes");
    assert Field(e, "judgment_handoff") == Field(parsed, "judgment_handoff");
  }

  /** Filling in the `meta` block of a serialised record serialises the
      record with the run's timestamp and model. */
  lemma EnrichRecord(c: Audit, generatedAt: string, model: string)
    ensures Enrich(Encode(c), generatedAt, model) ==
      Encode(c.(meta := Meta(generatedAt, model, c.meta.warnings, c.meta.schemaVersion)))
  {
    var filled := c.(meta := Meta(generatedAt, model, c.meta.warnings, c.meta.schemaVersion));
    var j := Encode(c);
    var mj := EncodeMeta(c.meta);
    assert Field(j, "meta") == mj;
    assert Field(mj, "warnings") == EncodeStrings(c.meta.warnings);
    assert Field(mj, "schema_version") == Str(c.meta.schemaVersion);
    assert EnrichedMeta(j, generatedAt, model) == EncodeMeta(filled.meta);
  }

  /** A candidate that is a well-formed record comes back as that record,
      with the run's timestamp and model and the lint's warnings appended. */
  lemma RunTailOnRecord(c: Audit, generatedAt: string, model: string)
    ensures RunTail(Encode(c), generatedAt, model) ==
      Ok(c.(meta := Meta(generatedAt, model, c.meta.warnings + Lint.LintWarnings(c), c.meta.schemaVersion)))
  {
    var filled := c.(meta := Meta(generatedAt, model, c.meta.warnings, c.meta.schemaVersion));
    EnrichRecord(c, generatedAt, model);
    SchemaLemmas.ParseEncode(filled);
    Lint.LintIgnoresMeta(c, filled.meta);
  }

  /** The component conditions the run checks on the candidate itself. */
  predicate ComponentsConform(parsed: Json) {
    && RepresentationConforms(Field(parsed, "representation"))
    && IntendedUseConforms(Field(parsed, "intended_use"))
    && DecisionContextConforms(Field(parsed, "decision_context"))
    && ScopeConforms(Field(parsed, "scope"))
    && IsArrayOf(Field(parsed, "ambiguities"), AmbiguityConforms)
    && ConfidenceConforms(Field(parsed, "confidence"))
    && IsArrayOf(Field(parsed, "failure_modes"), FailureModeConforms)
    && JudgmentHandoffConforms(Field(parsed, "judgment_handoff"))
  }

  /** The filled-in block conforms exactly when the candidate's `warnings`,
      if an array, holds only strings. */
  lemma EnrichedMetaConforms(parsed: Json, generatedAt: string, model: string)
    ensures MetaConforms(EnrichedMeta(parsed, generatedAt, model)) <==> IsStrArray(PriorWarnings(parsed))
  {
    var m := EnrichedMeta(parsed, generatedAt, model);
    assert Field(m, "generated_at_iso") == Str(generatedAt);
    assert Field(m, "model") == Str(model);
    assert Field(m, "warnings") == PriorWarnings(parsed);
    assert Field(m, "schema_version") == PriorVersion(parsed);
  }

  /** The enriched candidate conforms exactly when the candidate's own
      components do and its `warnings`, if an array, holds only strings. */
  lemma EnrichConforms(parsed: Json, generatedAt: string, model: string)
    ensures Conforms(Enrich(parsed, generatedAt, model)) <==>
      ComponentsConform(parsed) && IsStrArray(PriorWarnings(parsed))
  {
    var e := Enrich(parsed, generatedAt, model);
    assert Field(e, "representation") == Field(parsed, "representation");
    assert Field(e, "intended_use") == Field(parsed, "intended_use");
    assert Field(e, "decision_context") == Field(parsed, "decision_context");
    assert Field(e, "scope") == Field(parsed, "scope");
    assert Field(e, "ambiguities") == Field(parsed, "ambiguities");
    assert Field(e, "confidence") == Field(parsed, "confidence");
    assert Field(e, "failure_modes") == Field(parsed, "failure_modes");
    assert Field(e, "judgment_handoff") == Field(parsed, "judgment_handoff");
    assert Field(e, "meta") == EnrichedMeta(parsed, generatedAt, model);
    EnrichedMetaConforms(parsed, generatedAt, model);
  }

  /** Nothing the candidate says in `meta` decides whether the run succeeds,
      except a `warnings` array holding a non-string: everything else there
      is overwritten or defaulted. */
  lemma RunTailAcceptance(parsed: Json, generatedAt: string, model: string)
    ensures RunTail(parsed, generatedAt, model).Ok? <==>
      && !Falsy(parsed)
      && RepresentationConforms(Field(parsed, "representation"))
      && IntendedUseConforms(Field(parsed, "intended_use"))
      && DecisionContextConforms(Field(parsed, "decision_context"))
      && ScopeConforms(Field(parsed, "scope"))
      && IsArrayOf(Field(parsed, "ambiguities"), AmbiguityConforms)
      && ConfidenceConforms(Field(parsed, "confidence"))
      && IsArrayOf(Field(parsed, "failure_modes"), FailureModeConforms)
      && JudgmentHandoffConforms(Field(parsed, "judgment_handoff"))
      && IsStrArray(PriorWarnings(parsed))
  {
    SchemaLemmas.ParseIffConforms(Enrich(parsed, generatedAt, model));
    EnrichConforms(parsed, generatedAt, model);
  }

  /** Warnings that end with the lint's and whose own part serialises to
      `[]` are the lint's alone. */
  lemma NoOwnWarnings(w: seq<string>, lint: seq<string>)
    requires |lint| <= |w| && w[|w| - |lint|..] == lint
    requires EncodeStrings(w[..|w| - |lint|]) == Arr([])
    ensures w == lint
  {
    var n := |w| - |lint|;
    assert |EncodeItems(w[..n], EncodeStr)| == n;
    assert w == w[..n] + w[n..];
  }

  /** An output without a `meta` block still validates when the rest does:
      the run supplies version "2" and only the lint's warnings. */
  lemma RunTailWithoutMeta(parsed: Json, generatedAt: string, model: string)
    requires parsed.Obj? && "meta" !in parsed.fields
    requires RunTail(parsed, generatedAt, model).Ok?
    ensures var a := RunTail(parsed, generatedAt, model).value;
      a.meta.schemaVersion == DefaultSchemaVersion && a.meta.warnings == Lint.LintWarnings(a)
  {
    RunTailMeta(parsed, generatedAt, model);
    var a := RunTail(parsed, generatedAt, model).value;
    assert Field(parsed, "meta") == Null;
    NoOwnWarnings(a.meta.warnings, Lint.LintWarnings(a));
  }
}
