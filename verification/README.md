# Ambiguity Pass — a verified model of its deterministic core

Ambiguity Pass is a command-line tool. It asks a language model for an
"ambiguity audit" of a piece of text (a claim, a metric, a summary), then
validates and post-processes the answer. This project models the parts of the
tool that are pure and deterministic, and proves properties of them in Dafny:

- **The audit record** (`AuditSchema`, `Json`). The record is built from closed
  enumerations. `Parse` is the all-or-nothing validation the zod schema
  performs on an untrusted JSON value. `Conforms` is the same schema written
  as a plain predicate, and the two are proved to agree. `Encode` writes a
  record back to JSON, and every record survives the round trip
  (`SchemaLemmas`, `SchemaFixture`).
- **The post-parse lint and the meta merge** (`Lint`, `AuditRun`):
  - `lintWarnings` returns its advisory warnings in check order, with each
    trigger proved as an if-and-only-if.
  - The tail of `runAmbiguityPass` runs from the model's parsed output to the
    returned record. It hard-fills `meta`, validates, lints, appends the
    lint's warnings after the output's own, and validates again.
- **Prompt construction** (`Prompt`). `buildMessages` is modelled down to the
  exact text:
  - each decision-context axis is defaulted to `unknown` or trimmed;
  - the alternatives are joined with a spaced vertical bar;
  - the context block, the notes line and the self-audit hint are optional
    sections.
- **Renderer helpers** (`Render`): `wrapBullets`, `maybeLine` and
  `trimOneLine`, including whitespace collapsing.
- **Input selection** (`InputSource`). `readMaybeFileOrStdin` becomes a pure
  choice between a file, the positional text and stdin. `normalizeText`
  replaces each CR LF with LF.
- **JavaScript string primitives** (`Strings`): `trim`, `\s`, `join`,
  `split`, `slice` and substring search, over the full ECMAScript whitespace
  set.

The only policy code is the advisory lint. It never changes `reliance_cap`,
and no code reads `attemptedUse`: src/index.ts passes it and
src/openaiAudit.ts ignores it. `AuditRun.RunTailOnRecord` and
`AuditRun.RunTailKeepsContent` prove what the run changes. The content of
the schema's properties comes back unchanged, and properties the schema does
not name are stripped. In `meta`, the timestamp and model are replaced by the
run's, and the lint's warnings are appended after the output's own.

## Model

| member | source | states |
|---|---|---|
| `AuditSchema.ParseAmbiguityType` | src/auditSchema.ts:11-17 | accepts exactly the five ambiguity-type names, and the value it yields is spelled as its input |
| `AuditSchema.ParseIntendedUse` | src/auditSchema.ts:19-24 | accepts exactly the four intended uses; there is no `unknown` |
| `AuditSchema.ParseUseTier` | src/auditSchema.ts:27-32 | accepts exactly the four use tiers; any other string is rejected |
| `AuditSchema.ParseGrade` | src/auditSchema.ts:35-38 | stakes, reversibility and time pressure accept exactly low, medium, high and `unknown` |
| `AuditSchema.ParseDetectability` | src/auditSchema.ts:37 | decision-context detectability accepts exactly easy, moderate, hard and `unknown` |
| `AuditSchema.ParseFailureDetectability` | src/auditSchema.ts:104 | failure-mode detectability accepts only easy, moderate and hard |
| `AuditSchema.ParseRelianceLevel` | src/auditSchema.ts:41 | accepts exactly the four reliance levels |
| `AuditSchema.ParseRelianceCap` | src/auditSchema.ts:44-49 | accepts exactly the four reliance caps |
| `AuditSchema.NamesRoundTrip` | src/auditSchema.ts:11-49 | every enumeration value parses back from its own name |
| `AuditSchema.ParseItems` | src/auditSchema.ts:80-88 | an array validates iff every element does, and the result keeps each parsed element at its index |
| `AuditSchema.Assemble` | src/auditSchema.ts:51-122 | the record is produced iff all nine components validated, and then holds exactly those components |
| `AuditSchema.Encode` | src/auditSchema.ts:51-122 | a record serialises to an object with exactly the nine top-level properties |
| `AuditSchema.Parse` | src/auditSchema.ts:51-122 | zod's `AuditSchema.parse`, with no contract of its own: it accepts exactly the values `SchemaLemmas.ParseIffConforms` characterises, and `SchemaLemmas.ParseEncode` gives back every encoded record |
| `SchemaLemmas.RepresentationRoundTrip` | src/auditSchema.ts:52-56 | the representation block parses back from its serialisation |
| `SchemaLemmas.IntendedUseInfoRoundTrip` | src/auditSchema.ts:58-63 | the intended-use block, alternatives included, parses back from its serialisation |
| `SchemaLemmas.DecisionContextRoundTrip` | src/auditSchema.ts:65-72 | the decision-context block parses back from its serialisation |
| `SchemaLemmas.ScopeRoundTrip` | src/auditSchema.ts:74-78 | the scope block parses back from its serialisation |
| `SchemaLemmas.AmbiguityRoundTrip` | src/auditSchema.ts:80-88 | an ambiguity item parses back from its serialisation |
| `SchemaLemmas.ConfidenceRoundTrip` | src/auditSchema.ts:90-98 | the confidence block parses back from its serialisation |
| `SchemaLemmas.FailureModeRoundTrip` | src/auditSchema.ts:100-108 | a failure mode parses back from its serialisation |
| `SchemaLemmas.JudgmentHandoffRoundTrip` | src/auditSchema.ts:110-114 | the hand-off block parses back from its serialisation |
| `SchemaLemmas.MetaRoundTrip` | src/auditSchema.ts:116-121 | the meta block parses back from its serialisation |
| `SchemaLemmas.ParseEncode` | src/auditSchema.ts:51-122 | every record validates after serialisation and comes back unchanged |
| `SchemaLemmas.IntendedUseIff` | src/auditSchema.ts:58-63 | the intended-use block validates iff it conforms to the schema predicate |
| `SchemaLemmas.DecisionContextIff` | src/auditSchema.ts:65-72 | the decision-context block validates iff it conforms |
| `SchemaLemmas.ScopeIff` | src/auditSchema.ts:74-78 | the scope block validates iff it conforms |
| `SchemaLemmas.AmbiguityIff` | src/auditSchema.ts:80-88 | an ambiguity item validates iff it conforms |
| `SchemaLemmas.ConfidenceIff` | src/auditSchema.ts:90-98 | the confidence block validates iff it conforms |
| `SchemaLemmas.FailureModeIff` | src/auditSchema.ts:100-108 | a failure mode validates iff it conforms |
| `SchemaLemmas.JudgmentHandoffIff` | src/auditSchema.ts:110-114 | the hand-off block validates iff it conforms |
| `SchemaLemmas.MetaIff` | src/auditSchema.ts:116-121 | the meta block validates iff it conforms |
| `SchemaLemmas.ParseIffConforms` | src/auditSchema.ts:51-122 | validation succeeds exactly on the values the schema describes |
| `SchemaLemmas.MissingFieldRejected` | src/auditSchema.ts:5-9 | removing any top-level property makes validation fail: absence is never accepted in place of "" or [] |
| `SchemaLemmas.ExtraFieldIgnored` | src/auditSchema.ts:51 | a property the schema does not name is dropped, not rejected |
| `SchemaLemmas.FailureModeRejectsUnknown` | src/auditSchema.ts:100-108 | a failure mode graded `unknown` is rejected, though the same value is a valid decision-context detectability |
| `SchemaFixture.FixtureSections` | tests/fixtures.ts:3-62 | each section of the test fixture is the serialisation of the corresponding typed record |
| `SchemaFixture.FixtureValidates` | tests/schema.test.ts:6-9 | the fixture validates to the expected record, and its schema version is "2" |
| `Lint.LintWarnings` | src/openaiAudit.ts:15-81 | `lintWarnings`, with no contract of its own: `Lint.LintTriggers` states when each warning appears, and `Lint.LintIsSelection` and `Lint.LintBound` state their order and number |
| `Lint.Some` | src/openaiAudit.ts:47-48 | `xs.some(p)` holds iff some element satisfies `p` |
| `Lint.HasFallback` | src/openaiAudit.ts:46-49 | true iff some failure mode has a fallback or a mitigation, or a safeguard is listed |
| `Lint.LintIsSelection` | src/openaiAudit.ts:15-81 | the lint's output is exactly the firing checks, taken in check order |
| `Lint.LintBound` | src/openaiAudit.ts:15-81 | the lint emits only its eight known warnings and never more than eight |
| `Lint.CheckOrderDistinct` | src/openaiAudit.ts:19-78 | the eight warning texts are pairwise different |
| `Lint.EmittedIffFires` | src/openaiAudit.ts:15-81 | each warning appears iff its check fires |
| `Lint.LintTriggers` | src/openaiAudit.ts:19-78 | each of the eight warnings appears iff its source condition holds, the three decisive ones only under cap `decisive` |
| `Lint.LintGuards` | src/openaiAudit.ts:39-78 | below `decisive` no decisive warning appears; without high stakes no high-stakes warning appears |
| `Lint.LintAllFire` | src/openaiAudit.ts:15-81 | when every condition holds, all eight warnings appear, in check order |
| `Lint.LintIgnoresMeta` | src/openaiAudit.ts:15-81 | the lint does not read `meta` |
| `AuditRun.Run` | src/openaiAudit.ts:83-149 | `runAmbiguityPass` after the request, with no contract of its own: `AuditRun.RunRecordsModel` states the recorded model, and `AuditRun.RunTail`, `AuditRun.RunTailMeta` and `AuditRun.RunTailOnRecord` state the rest of the run |
| `AuditRun.RunRecordsModel` | src/openaiAudit.ts:92-121 | the returned `meta.model` is the model the caller named, and `gpt-4o-mini` when none was named |
| `AuditRun.PriorWarnings` | src/openaiAudit.ts:122-124 | the output's `meta.warnings`, when it is an array, else an empty array |
| `AuditRun.PriorVersion` | src/openaiAudit.ts:125-128 | the output's `meta.schema_version`, when it is a string, else "2" |
| `AuditRun.Enrich` | src/openaiAudit.ts:116-130 | every property other than `meta` is copied unchanged, and `meta` is present |
| `AuditRun.RunTail` | src/openaiAudit.ts:107-149 | a falsy output is refused; otherwise the run succeeds iff the enriched candidate validates, and returns it with the lint's warnings merged in |
| `AuditRun.MergeWarnings` | src/openaiAudit.ts:138-149 | the warning merge, with no contract of its own: `AuditRun.RunTailMeta` and `AuditRun.RunTailOnRecord` state that the output's warnings come first and the lint's follow |
| `AuditRun.ParseComponents` | src/openaiAudit.ts:133 | a validated record's components are what the component parsers give for the nine properties |
| `AuditRun.EnrichedMetaParses` | src/openaiAudit.ts:119-129 | the filled-in meta block carries the run's timestamp and model, and the output's warnings and version or their defaults |
| `AuditRun.RunTailMeta` | src/openaiAudit.ts:116-149 | the returned `meta` has the run's timestamp and model and the kept-or-defaulted version, and its warnings are the output's followed by the lint's |
| `AuditRun.RunTailKeepsContent` | src/openaiAudit.ts:116-149 | apart from `meta`, the returned record is what the output's own properties validate to |
| `AuditRun.EnrichRecord` | src/openaiAudit.ts:116-130 | enriching a serialised record serialises the record with the run's timestamp and model |
| `AuditRun.RunTailOnRecord` | src/openaiAudit.ts:116-149 | a well-formed record comes back as itself, with the run's timestamp and model and the lint's warnings appended |
| `AuditRun.EnrichedMetaConforms` | src/openaiAudit.ts:119-129 | the filled-in meta block conforms iff the output's warnings, when an array, hold only strings |
| `AuditRun.EnrichConforms` | src/openaiAudit.ts:116-133 | the enriched candidate conforms iff the output's components do and its warnings hold only strings |
| `AuditRun.RunTailAcceptance` | src/openaiAudit.ts:107-149 | the run succeeds iff the output is truthy, its eight non-meta components conform, and its warnings hold only strings; nothing else in `meta` matters |
| `AuditRun.RunTailWithoutMeta` | src/openaiAudit.ts:116-149 | an output with no `meta` gets version "2" and only the lint's warnings |
| `Prompt.BuildMessages` | src/prompt.ts:24-136 | `buildMessages`, with no contract of its own: `Prompt.SystemMessage` and `Prompt.UserMessage` state the two messages' text, and the placement lemmas below state their sections |
| `Prompt.AxisValue` | src/prompt.ts:94-109 | an axis shows its trimmed value when non-blank, and `unknown` when blank or missing |
| `Prompt.AlternativesValue` | src/prompt.ts:124 | the alternatives joined in their order with a spaced vertical bar between each pair, or `(none provided)` when there are none |
| `Prompt.ContextBlock` | src/prompt.ts:117 | the context block is present iff a non-empty context is given, and then holds it verbatim |
| `Prompt.NotesLine` | src/prompt.ts:125 | the notes line is present iff the notes trim to something, and then carries the trimmed notes |
| `Prompt.SelfAuditHintText` | src/prompt.ts:80-92 | the trimmed self-audit template is the self-audit text |
| `Prompt.SystemTextMentionsRule` | src/prompt.ts:48 | the system text contains "ANTI-PERFORMATIVITY" |
| `Prompt.SystemMessage` | src/prompt.ts:30-78 | the system message is the fixed system text, whatever the arguments |
| `Prompt.UserMessage` | src/prompt.ts:111-133 | trimming the user template gives the core text, followed by the self-audit text exactly when one is requested |
| `Prompt.DecisionLinesInUser` | src/prompt.ts:119-124 | whatever occurs in the decision lines occurs in the user message |
| `Prompt.UserMentionsDecisionContext` | src/prompt.ts:119-124 | the user message carries the heading and one `name: value` entry per axis and for the alternatives, each value normalised |
| `Prompt.NoDecisionContextDefaults` | src/prompt.ts:25-28 | with no decision context, every axis reads `unknown`, the alternatives read `(none provided)`, and there is no notes line |
| `Prompt.ContextPlacement` | src/prompt.ts:117 | after the representation block, the message starts a `Context:` block iff a context is given, holding that context |
| `Prompt.NotesPlacement` | src/prompt.ts:125 | after the alternatives line, a `- notes:` line appears iff the notes trim to something, carrying the trimmed notes |
| `Prompt.SelfAuditPlacement` | src/prompt.ts:111-133 | the user message ends with the self-audit text iff a self-audit is requested; otherwise it ends with the fixed notes |
| `Prompt.AxisValueKept` | src/prompt.ts:94-97 | an already-trimmed, non-blank axis value shows unchanged |
| `Prompt.StakesShown` | src/prompt.ts:120 | trimmed stakes `v` appear as `stakes: v`, and the alternatives line is always present |
| `Prompt.HighStakesShown` | tests/prompt.test.ts:18-21 | with stakes "high", the user message contains the heading, `stakes: high` and `alternatives_available:` |
| `Render.BulletLines` | src/render.ts:10 | one line per item, line `i` being `indent + "- " + items[i]` |
| `Render.WrapBullets` | src/render.ts:8-11 | an empty list gives the indent and the styled `(none)`; otherwise the bullet lines joined by newlines |
| `Render.WrapBulletsLines` | src/render.ts:10 | without embedded newlines, the output splits back into exactly one bullet per item, in order |
| `Render.WrapBulletsDefault` | src/render.ts:8-11 | with the default two-space indent, an empty list is `  ` and the styled `(none)`, and newline-free items split back into `  - item` lines, one per item |
| `Render.MaybeLine` | src/render.ts:13-16 | empty iff the value is missing or blank; otherwise two spaces, the styled label, a space and the trimmed value |
| `Render.MaybeLineTrimmed` | src/render.ts:13-16 | trimming the value first changes nothing |
| `Render.Collapse` | src/render.ts:292 | `replace(/\s+/g, " ")`, with no contract of its own: `Render.CollapseSeparates`, `Render.CollapseSpacing` and `Render.CollapseKeepsVisible` state that each whitespace run becomes one space and nothing else changes |
| `Render.CollapseKeepsVisible` | src/render.ts:292 | collapsing whitespace runs keeps every non-whitespace character, in order |
| `Render.CollapseSpacing` | src/render.ts:292 | after collapsing, no two whitespace characters are adjacent and each one is a plain space |
| `Render.CollapseIdempotent` | src/render.ts:292 | collapsing twice is collapsing once |
| `Render.CollapseAppend` | src/render.ts:292 | a text ending in a visible character collapses independently of what follows it |
| `Render.CollapseRun` | src/render.ts:292 | a leading whitespace run before a visible character becomes exactly one space |
| `Render.CollapseSeparates` | src/render.ts:292 | a non-empty whitespace run between two visible characters becomes exactly one space, so words stay apart |
| `Render.TrimKeepsShape` | src/render.ts:292 | trimming keeps the no-adjacent-whitespace property and removes only whitespace |
| `Render.OneLine` | src/render.ts:292 | the one-line form has no edge whitespace and no whitespace run, and keeps every visible character in order |
| `Render.TrimOneLine` | src/render.ts:291-294 | the one-line form when it fits in `max`; otherwise its `slice(0, max - 1)` followed by "…" |
| `Render.TrimOneLineBound` | src/render.ts:291-294 | for `max >= 1` the result has at most `max` characters, and a cut result keeps the first `max - 1` |
| `Render.TrimOneLineDefault` | src/render.ts:291-294 | with the default bound of 140, the result has at most 140 characters: the whole one-line form when it fits, else its first 139 characters and "…" |
| `Render.TrimOneLineZero` | src/render.ts:293 | for `max = 0` the cut keeps all but the last character, so the result is longer than the bound |
| `Strings.TrimStart` | src/prompt.ts:95 | the suffix left after a whitespace-only prefix, starting with a non-whitespace character |
| `Strings.TrimEnd` | src/prompt.ts:95 | the prefix left before a whitespace-only suffix, ending with a non-whitespace character |
| `Strings.Trim` | src/prompt.ts:95 | the result has no whitespace at either end |
| `Strings.TrimPadded` | src/prompt.ts:95 | trimming whitespace padding off a text with non-whitespace ends gives that text back |
| `Strings.TrimIdempotent` | src/render.ts:14 | trimming twice is trimming once |
| `Strings.BlankIffAllSpace` | src/prompt.ts:95 | a string trims to "" iff it is all whitespace |
| `Strings.JoinLength` | src/prompt.ts:124 | a join is as long as its parts plus one separator between each pair |
| `Strings.SplitJoin` | src/render.ts:10 | splitting a newline-join of newline-free lines gives the lines back |
| `Strings.Slice` | src/render.ts:293 | `slice(start, end)` within bounds is the plain subsequence, and never longer than its input |
| `Strings.SliceIndex` | src/render.ts:293 | negative positions count from the end; a position past the end becomes the length, and one before the start becomes 0 |
| `InputSource.NormalizeText` | src/io.ts:53-56 | normalising never lengthens the text |
| `InputSource.NormalizeUnchanged` | src/io.ts:53-56 | normalising leaves a text unchanged iff it holds no CR LF pair |
| `InputSource.NormalizeLength` | src/io.ts:55 | the text shrinks by exactly the number of CR LF pairs |
| `InputSource.NormalizeKeepsContent` | src/io.ts:54-55 | apart from carriage returns, the text keeps the same characters in the same order |
| `InputSource.NormalizeBlank` | src/io.ts:53-56 | a text is blank after normalising iff it was before |
| `InputSource.NormalizeNotIdempotent` | src/io.ts:55 | CR CR LF becomes CR LF, which normalises again to LF |
| `InputSource.NormalizeChar` | src/io.ts:53-56 | a single character is left unchanged, a lone CR included |
| `InputSource.NormalizeCrlf` | src/io.ts:55 | CR LF becomes LF |
| `InputSource.NormalizeAppend` | src/io.ts:53-56 | normalising a concatenation normalises each part, unless the cut splits a CR LF pair; with the two lemmas above this fixes the result on every text |
| `InputSource.NormalizeLoneCr` | src/io.ts:54-55 | a CR not followed by LF stays in place: CR x CR LF becomes CR x LF |
| `InputSource.ReadInput` | src/io.ts:4-49 | a named file other than "-" is read, its read error passed on; else non-blank positional text; else a terminal is an error; else a stdin stream error is passed on; else blank stdin is an error; else stdin; every text normalised |
| `InputSource.FileWins` | src/io.ts:10-13 | with a named file, the positional text, the terminal flag and stdin do not matter |
| `InputSource.DashMeansStdin` | src/io.ts:10 | `--file -` and an empty file name behave as if no file were named |
| `InputSource.ArgsBeforeStdin` | src/io.ts:16-18 | without a file, non-blank positional text is used and neither the file system nor stdin matters |
| `InputSource.TerminalNotRead` | src/io.ts:21-25 | with no file or usable text and a terminal on stdin, the call fails with the no-input error, whatever stdin holds |
| `InputSource.ReadInputFails` | src/io.ts:10-49 | the call fails iff the named file cannot be read, or there is no file and no usable text and stdin is a terminal, fails to drain, or is blank |
| `InputSource.ReadInputNotBlank` | src/io.ts:16-33 | text taken from the arguments or from stdin is never blank |
| `InputSource.ReadInputContent` | src/io.ts:4-34 | the returned text is the chosen source, less one CR per CR LF pair |

## Left out

- The text of a zod validation error is not modelled: `AuditRun.RunError.Message` gives the no-output message and nothing for a schema violation.
- The OpenAI request, `zodTextFormat` and the `OPENAI_API_KEY` check (src/openaiAudit.ts:84-105) are a network call and an environment read. The parsed output, the timestamp (`new Date().toISOString()`) and the requested model are parameters of `AuditRun.Run`.
- `renderFriendly` and `renderTechnical` (src/render.ts:18-289) are presentation. `chalk` is an opaque library, so the grey styling is the function parameter `style`.
- src/index.ts is not part of this model. It holds argument parsing, the second self-audit model call, output-file writing, stdout/stderr and `process.exit`.
- `readStdin` and `fs.readFile` are stream and file I/O. The file system is the parameter `readFile`, and the outcome of draining stdin is the parameter `stdin`: its text, or the stream's error. A thrown file-system error is `ReadFailed` and a stdin stream error is `StdinFailed`, each carrying its message.
- Strings are sequences of Unicode code points. JavaScript's `length` and `slice` count UTF-16 code units, so the bound in `trimOneLine` differs for text outside the Basic Multilingual Plane.
- Regular expressions are not modelled as an engine. `\s+` collapsing and the `\r\n` replacement are explicit recursive functions over the ECMAScript whitespace set.
- AuditSchema.Parse reports only the first failing property, in schema order, while zod collects every issue. Whether a value is accepted is modelled exactly.
- A decision-context axis that is present but not a string is treated as missing, which is what the `typeof` test does. `dc.notes` of a non-string type, which would throw in the source, is not modelled.
- `wrapBullets` with a `null` or `undefined` list, and `trimOneLine` of `null`, are not modelled: they are typed as arrays and strings.
- Prompt.UserMessage: the user-message properties are stated on `UserText`, the trimmed form; this lemma links it to `UserContent`. Likewise Prompt.SystemMessage with Prompt.SystemTextMentionsRule gives the rule's presence in the system message.
- Strings.Trim: its contract states only that the ends are not whitespace; what is removed is stated by Strings.TrimStart, Strings.TrimEnd and Strings.TrimPadded.
