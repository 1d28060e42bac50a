/** Prompt construction (`buildMessages`, src/prompt.ts): the fixed system
    text and the user text built from the representation, an optional
    context, a normalised decision context and the self-audit switch. */
module Prompt {
  import opened Results
  import opened Strings

  /** The decision context as the command line hands it over.  An axis that
      is absent or not a string is `None`; `alternativesAvailable` is `None`
      when absent or not an array. */
  datatype DecisionContextArgs = DecisionContextArgs(
    stakes: Option<string>,
    reversibility: Option<string>,
    detectability: Option<string>,
    timePressure: Option<string>,
    alternativesAvailable: Option<seq<string>>,
    notes: Option<string>)

  datatype PromptArgs = PromptArgs(
    representation: string,
    context: Option<string>,
    decisionContext: Option<DecisionContextArgs>,
    selfAudit: bool)

  datatype Messages = Messages(system: string, user: string)

  /** `args.decisionContext ?? {}`. */
  const NoDecisionContext := DecisionContextArgs(None, None, None, None, None, None)

  const Unknown := "unknown"
  const NoneProvided := "(none provided)"
  const AlternativesSeparator := " | "

  // ----- the fixed texts --------------------------------------------------

  /** The system text before the anti-performativity rule. */
  const SystemHead :=
    "You perform an \"Ambiguity Pass\": "
    + ("annotate representations to calibrate epistemic trust.\n"
    + "You do NOT decide truth. You do NOT enforce correctness. You do NOT claim certainty.\n"
    + "\n"
    + "OUTPUT MUST MATCH THE PROVIDED JSON SCHEMA EXACTLY.\n"
    + "\n"
    + "NON-NEGOTIABLES:\n"
    + "- Never output \"true/false\", \"correct/incorrect\", or final verdicts.\n"
    + "- Avoid moralizing and authority tone.\n"
    + "- Keep bullets concrete, checkable, and use-case oriented.\n"
    + "\n"
    + "REQUIRED FIELDS (v2):\n"
    + "- intended_use.tier ∈ {exploratory, explanatory, operational, high_stakes}\n"
    + "- confidence.reliance_cap ∈ {input_only, supporting, weight_bearing, decisive}\n"
    + "- decision_context fields populated; if unknown, use \"unknown\" (do not invent).\n"
    + "- confidence.verification_steps: include 1–3 concrete checks whenever possible.\n"
    + "- failure_modes[].fallback: include 1–2 fallback/rollback actions where applicable.\n"
    + "\n")

  const AntiPerformativityRule :=
    "ANTI-PERFORMATIVITY" + " RULE:\n"
    + "If you cannot name BOTH:\n"
    + "(1) how failure would be detected, and\n"
    + "(2) what we do when detection happens (fallback / rollback / stop),\n"
    + "then confidence.reliance_cap MUST NOT be \"decisive\".\n"
    + "\n"

  /** The system text after the anti-performativity rule. */
  const SystemTail :=
    "AMBIGUITY SELECTION RULE:\n"
    + "- Include 0–3 ambiguity items maximum.\n"
    + "- If tempted to list many, merge or select the dominant ones.\n"
    + "- It is acceptable to include 0 ambiguity types when the representation is tightly scoped and directly verifiable now.\n"
    + "\n"
    + "“KNIFE RULES” (classification aids):\n"
    + "- Contextual vs Scope:\n"
    + "  * contextual ambiguity: situation changed (stake/incentives/users/environment) OR original context is unclear/forgotten\n"
    + "  * scope creep: job changed (explore -> decide, explain -> justify, monitor -> incentivize)\n"
    + "  Use contextual when reuse context is unclear; use scope fields to describe boundaries.\n"
    + "- Mapping vs Structural:\n"
    + "  * mapping ambiguity: \"does this output/metric correspond to the underlying thing?\"\n"
    + "  * structural ambiguity: \"even if it did, the representation cannot express what matters / omits key factors\"\n"
    + "\n"
    + "CALIBRATION NOTE:\n"
    + "High stakes does NOT automatically imply low reliance.\n"
    + "If the representation is directly verifiable now, tightly scoped, and failures are quickly detectable + reversible,\n"
    + "then reliance may be high — but emphasize verification_steps and safeguards.\n"
    + "If intent/context is unclear OR claim is not verifiable here, treat contextual/mapping ambiguity as likely and reduce reliance.\n"
    + "\n"
    + "STYLE:\n"
    + "- Prefer short, concrete bullets.\n"
    + "- Avoid jargon unless necessary.\n"
    + "- Do not imply this is a complete analysis."

  const SystemText := SystemHead + AntiPerformativityRule + SystemTail

  /** The system template literal, before `.trim()`. */
  const SystemTemplate := "\n" + SystemText + "\n"

  const SelfAuditText :=
    "THIS PASS IS A SELF-AUDIT"
    + (" of a prior Ambiguity Pass output.\n"
    + "Focus on:\n"
    + "- overreach (unscoped claims, implied finality)\n"
    + "- hidden normative assumptions\n"
    + "- missing ambiguity types\n"
    + "- where judgment is laundered as certainty\n"
    + "- scope too broad / reliance_cap too high\n"
    + "- missing verification/fallback pathways\n"
    + "Do not just restate the prior audit; critique it.")

  /** The self-audit template literal, before `.trim()`. */
  const SelfAuditTemplate := "\n" + SelfAuditText + "\n"

  const FooterText :=
    "\n\nNotes:\n"
    + "- If the representation looks like a slogan/argument, treat it as such.\n"
    + "- If it looks like a metric/model output, mapping ambiguity is likely.\n"
    + "- If it looks like a summary, structural omission is likely.\n"
    + "- Include only ambiguity types that are truly present (0–3)."

  const DecisionHeading := "Decision context:"

  // ----- decision-context normalisation -----------------------------------

  /** An axis value as the user text shows it: the trimmed string when it is
      non-blank, "unknown" when it is blank or missing.  Either way it is a
      non-empty string with no whitespace at its ends. */
  function AxisValue(v: Option<string>): (r: string)
    ensures v.None? || IsBlank(v.value) ==> r == Unknown
    ensures v.Some? && !IsBlank(v.value) ==> r == Trim(v.value)
    ensures r != [] && NoEdgeSpace(r)
  {
    if v.Some? && !IsBlank(v.value) then Trim(v.value) else Unknown
  }

  /** The alternatives when they were given as an array, otherwise none. */
  function AlternativesList(dc: DecisionContextArgs): seq<string> {
    if dc.alternativesAvailable.Some? then dc.alternativesAvailable.value else []
  }

  /** The alternatives joined with " | ", first to last, or the placeholder
      when there are none. */
  function AlternativesValue(alt: seq<string>): (r: string)
    ensures |alt| == 0 ==> r == NoneProvided
    ensures |alt| > 0 ==> r == Join(alt, AlternativesSeparator)
    ensures |alt| > 0 ==> StartsWith(r, alt[0]) && EndsWith(r, alt[|alt| - 1])
    ensures |alt| > 0 ==> |r| == TotalLength(alt) + 3 * (|alt| - 1)
  {
    if |alt| > 0 then
      JoinAgrees(alt, AlternativesSeparator);
      JoinLength(alt, AlternativesSeparator);
      Join(alt, AlternativesSeparator)
    else NoneProvided
  }

  /** One `- name: value` line of the decision-context block. */
  function Entry(name: string, value: string): string {
    "- " + name + ": " + value + "\n"
  }

  function DecisionContextOf(args: PromptArgs): DecisionContextArgs {
    if args.decisionContext.Some? then args.decisionContext.value else NoDecisionContext
  }

  function DecisionLines(dc: DecisionContextArgs): string {
    Entry("stakes", AxisValue(dc.stakes))
    + Entry("reversibility", AxisValue(dc.reversibility))
    + Entry("detectability", AxisValue(dc.detectability))
    + Entry("time_pressure", AxisValue(dc.timePressure))
    + Entry("alternatives_available", AlternativesValue(AlternativesList(dc)))
  }

  // ----- optional sections -------------------------------------------------

  /** JavaScript truthiness of `args.context`. */
  predicate ContextGiven(c: Option<string>) {
    c.Some? && c.value != []
  }

  function ContextBlock(c: Option<string>): (r: string)
    ensures r == [] <==> !ContextGiven(c)
    ensures ContextGiven(c) ==> r == "Context:\n" + c.value + "\n"
  {
    if ContextGiven(c) then "Context:\n" + c.value + "\n" else ""
  }

  /** The notes line: present exactly when the notes trim to something, and
      then carrying the trimmed notes. */
  function NotesLine(notes: Option<string>): (r: string)
    ensures r == [] <==> notes.None? || IsBlank(notes.value)
    ensures r != [] ==> r == "- notes: " + Trim(notes.value)
  {
    if notes.Some? && !IsBlank(notes.value) then "- notes: " + Trim(notes.value) else ""
  }

  /** The self-audit hint: the trimmed self-audit text, or nothing. */
  function SelfAuditHint(selfAudit: bool): string {
    if selfAudit then Trim(SelfAuditTemplate) else ""
  }

  // ----- the user text -------------------------------------------------------

  function RepresentationBlock(representation: string): string {
    "Representation to audit" + " (verbatim):\n---\n" + representation + "\n---\n\n"
  }

  /** The decision-context heading and its five lines. */
  function DecisionPrefix(dc: DecisionContextArgs): string {
    "\n\n" + DecisionHeading + "\n" + DecisionLines(dc)
  }

  function DecisionBlock(dc: DecisionContextArgs): string {
    DecisionPrefix(dc) + NotesLine(dc.notes)
  }

  /** The user text between the template's leading and trailing newlines,
      up to the self-audit hint. */
  function UserCore(args: PromptArgs): string {
    RepresentationBlock(args.representation) + ContextBlock(args.context)
    + DecisionBlock(DecisionContextOf(args)) + FooterText
  }

  /** The user template literal, before `.trim()`. */
  function UserTemplate(args: PromptArgs): string {
    "\n" + UserCore(args) + "\n" + SelfAuditHint(args.selfAudit) + "\n"
  }

  /** The system message: the trimmed system template. */
  function SystemContent(): string {
    Trim(SystemTemplate)
  }

  /** The user message: the trimmed user template. */
  function UserContent(args: PromptArgs): string {
    Trim(UserTemplate(args))
  }

  /** `buildMessages`. */
  function BuildMessages(args: PromptArgs): Messages {
    Messages(SystemContent(), UserContent(args))
  }

  // ----- properties ------------------------------------------------------------

  lemma SelfAuditHintText()
    ensures Trim(SelfAuditTemplate) == SelfAuditText
  {
    assert SelfAuditText[0] == 'T';
    assert SelfAuditText[|SelfAuditText| - 1] == '.';
    TrimPadded("\n", SelfAuditText, "\n");
  }

  lemma SystemHeadFirst()
    ensures SystemHead != [] && SystemHead[0] == 'Y'
  {
  }

  lemma SystemTailLast()
    ensures SystemTail != [] && SystemTail[|SystemTail| - 1] == '.'
  {
  }

  /** A text framed by pieces that start and end with non-space characters
      has no space at its edges. */
  lemma FramedEdges(a: string, b: string, c: string)
    requires a != [] && !IsSpace(a[0])
    requires c != [] && !IsSpace(c[|c| - 1])
    ensures a + b + c != [] && NoEdgeSpace(a + b + c)
  {
    assert (a + b + c)[0] == a[0];
    assert (a + b + c)[|a + b + c| - 1] == c[|c| - 1];
  }

  /** Trimming a newline-framed text whose first and last characters are
      not spaces gives the text back. */
  lemma TrimFramed(a: string, b: string, c: string)
    requires a != [] && !IsSpace(a[0])
    requires c != [] && !IsSpace(c[|c| - 1])
    ensures Trim("\n" + (a + b + c) + "\n") == a + b + c
  {
    FramedEdges(a, b, c);
    TrimPadded("\n", a + b + c, "\n");
  }

  lemma Regroup(h: string, n: string, r: string, t: string)
    ensures h + (n + r) + t == h + n + (r + t)
  {
  }

  /** The system text states the anti-performativity rule. */
  lemma SystemTextMentionsRule()
    ensures Contains(SystemText, "ANTI-PERFORMATIVITY")
  {
    var rule := AntiPerformativityRule[|"ANTI-PERFORMATIVITY"|..];
    assert AntiPerformativityRule == "ANTI-PERFORMATIVITY" + rule;
    Regroup(SystemHead, "ANTI-PERFORMATIVITY", rule, SystemTail);
    ContainsMiddle(SystemHead, "ANTI-PERFORMATIVITY", rule + SystemTail);
  }

  /** Trimming the system template leaves exactly the system text, whatever
      the arguments. */
  lemma SystemMessage()
    ensures SystemContent() == SystemText
  {
    SystemHeadFirst();
    SystemTailLast();
    TrimFramed(SystemHead, AntiPerformativityRule, SystemTail);
  }

  lemma HeadOf(a: string, b: string)
    requires a != []
    ensures (a + b)[0] == a[0]
  {
  }

  lemma LastOf(a: string, b: string)
    requires b != []
    ensures (a + b)[|a + b| - 1] == b[|b| - 1]
  {
  }

  lemma FooterLast()
    ensures FooterText != [] && FooterText[|FooterText| - 1] == '.'
  {
  }

  lemma UserCoreEdges(args: PromptArgs)
    ensures UserCore(args) != [] && NoEdgeSpace(UserCore(args))
  {
    var rb := RepresentationBlock(args.representation);
    assert rb[0] == 'R';
    FooterLast();
    HeadOf(rb, ContextBlock(args.context));
    FramedEdges(rb + ContextBlock(args.context), DecisionBlock(DecisionContextOf(args)), FooterText);
  }

  lemma SelfAuditTextEdges()
    ensures SelfAuditText != [] && NoEdgeSpace(SelfAuditText)
  {
    assert SelfAuditText[0] == 'T';
    assert SelfAuditText[|SelfAuditText| - 1] == '.';
  }

  lemma Associate(a: string, b: string, c: string)
    ensures a + b + c == a + (b + c)
  {
  }

  lemma TrimFrameBare(core: string)
    requires core != [] && NoEdgeSpace(core)
    ensures Trim("\n" + core + "\n" + [] + "\n") == core
  {
    assert "\n" + core + "\n" + [] + "\n" == "\n" + core + "\n\n";
    TrimPadded("\n", core, "\n\n");
  }

  lemma TrimFrameHint(core: string, hint: string)
    requires core != [] && NoEdgeSpace(core)
    requires hint != [] && NoEdgeSpace(hint)
    ensures Trim("\n" + core + "\n" + hint + "\n") == core + ("\n" + hint)
  {
    FramedEdges(core, "\n", hint);
    TrimPadded("\n", core + "\n" + hint, "\n");
    Associate("\n" + core, "\n", hint);
    Associate("\n", core, "\n" + hint);
    Associate(core, "\n", hint);
  }

  /** Trimming a core text framed by newlines, with an optional hint after it. */
  lemma TrimFrame(core: string, hint: string)
    requires core != [] && NoEdgeSpace(core)
    requires hint == [] || NoEdgeSpace(hint)
    ensures Trim("\n" + core + "\n" + hint + "\n") == core + (if hint == [] then "" else "\n" + hint)
  {
    if hint == [] {
      TrimFrameBare(core);
      assert core + "" == core;
    } else {
      TrimFrameHint(core, hint);
    }
  }

  /** The text after the core: a newline and the self-audit text when a
      self-audit is asked for, nothing otherwise. */
  function UserTail(selfAudit: bool): string {
    if selfAudit then "\n" + SelfAuditText else ""
  }

  /** The user message as it reads after trimming: the core text, then a
      newline and the self-audit text exactly when a self-audit is asked for. */
  function UserText(args: PromptArgs): string {
    UserCore(args) + UserTail(args.selfAudit)
  }

  /** Trimming the user template leaves exactly the user text. */
  lemma UserMessage(args: PromptArgs)
    ensures UserContent(args) == UserText(args)
  {
    UserCoreEdges(args);
    SelfAuditTextEdges();
    SelfAuditHintText();
    TrimFrame(UserCore(args), SelfAuditHint(args.selfAudit));
  }

  lemma EntryMentions(name: string, value: string)
    ensures Contains(Entry(name, value), name + ": " + value)
  {
    assert Entry(name, value) == "- " + (name + ": " + value) + "\n";
    ContainsMiddle("- ", name + ": " + value, "\n");
  }

  /** Whatever occurs in the decision lines occurs in the user text. */
  lemma DecisionLinesInUser(args: PromptArgs, needle: string)
    requires Contains(DecisionLines(DecisionContextOf(args)), needle)
    ensures Contains(UserText(args), needle)
  {
    var dc := DecisionContextOf(args);
    var pre := "\n\n" + DecisionHeading + "\n";
    ContainsRight(pre, DecisionLines(dc), needle);
    ContainsLeft(pre + DecisionLines(dc), NotesLine(dc.notes), needle);
    var head := RepresentationBlock(args.representation) + ContextBlock(args.context);
    ContainsRight(head, DecisionBlock(dc), needle);
    ContainsLeft(head + DecisionBlock(dc), FooterText, needle);
    ContainsLeft(UserCore(args), UserTail(args.selfAudit), needle);
  }

  /** The user text carries the decision-context heading and one line per
      axis and for the alternatives, each with its normalised value. */
  lemma UserMentionsDecisionContext(args: PromptArgs)
    ensures var dc := DecisionContextOf(args); var user := UserText(args);
      && Contains(user, DecisionHeading)
      && Contains(user, "stakes" + ": " + AxisValue(dc.stakes))
      && Contains(user, "reversibility" + ": " + AxisValue(dc.reversibility))
      && Contains(user, "detectability" + ": " + AxisValue(dc.detectability))
      && Contains(user, "time_pressure" + ": " + AxisValue(dc.timePressure))
      && Contains(user, "alternatives_available" + ": " + AlternativesValue(AlternativesList(dc)))
  {
    var dc := DecisionContextOf(args);
    var e1 := Entry("stakes", AxisValue(dc.stakes));
    var e2 := Entry("reversibility", AxisValue(dc.reversibility));
    var e3 := Entry("detectability", AxisValue(dc.detectability));
    var e4 := Entry("time_pressure", AxisValue(dc.timePressure));
    var e5 := Entry("alternatives_available", AlternativesValue(AlternativesList(dc)));
    EntryMentions("stakes", AxisValue(dc.stakes));
    EntryMentions("reversibility", AxisValue(dc.reversibility));
    EntryMentions("detectability", AxisValue(dc.detectability));
    EntryMentions("time_pressure", AxisValue(dc.timePressure));
    EntryMentions("alternatives_available", AlternativesValue(AlternativesList(dc)));
    var n1 := "stakes" + ": " + AxisValue(dc.stakes);
    ContainsLeft(e1, e2, n1);
    ContainsLeft(e1 + e2, e3, n1);
    ContainsLeft(e1 + e2 + e3, e4, n1);
    ContainsLeft(e1 + e2 + e3 + e4, e5, n1);
    DecisionLinesInUser(args, n1);
    var n2 := "reversibility" + ": " + AxisValue(dc.reversibility);
    ContainsRight(e1, e2, n2);
    ContainsLeft(e1 + e2, e3, n2);
    ContainsLeft(e1 + e2 + e3, e4, n2);
    ContainsLeft(e1 + e2 + e3 + e4, e5, n2);
    DecisionLinesInUser(args, n2);
    var n3 := "detectability" + ": " + AxisValue(dc.detectability);
    ContainsRight(e1 + e2, e3, n3);
    ContainsLeft(e1 + e2 + e3, e4, n3);
    ContainsLeft(e1 + e2 + e3 + e4, e5, n3);
    DecisionLinesInUser(args, n3);
    var n4 := "time_pressure" + ": " + AxisValue(dc.timePressure);
    ContainsRight(e1 + e2 + e3, e4, n4);
    ContainsLeft(e1 + e2 + e3 + e4, e5, n4);
    DecisionLinesInUser(args, n4);
    var n5 := "alternatives_available" + ": " + AlternativesValue(AlternativesList(dc));
    ContainsRight(e1 + e2 + e3 + e4, e5, n5);
    DecisionLinesInUser(args, n5);
    // The heading.
    var pre := "\n\n" + DecisionHeading;
    ContainsSelf(DecisionHeading);
    ContainsRight("\n\n", DecisionHeading, DecisionHeading);
    ContainsLeft(pre, "\n", DecisionHeading);
    ContainsLeft(pre + "\n", DecisionLines(dc), DecisionHeading);
    ContainsLeft(pre + "\n" + DecisionLines(dc), NotesLine(dc.notes), DecisionHeading);
    var head := RepresentationBlock(args.representation) + ContextBlock(args.context);
    ContainsRight(head, DecisionBlock(dc), DecisionHeading);
    ContainsLeft(head + DecisionBlock(dc), FooterText, DecisionHeading);
    ContainsLeft(UserCore(args), UserTail(args.selfAudit), DecisionHeading);
  }

  /** With no decision context at all, every axis reads "unknown", the
      alternatives read "(none provided)" and there is no notes line. */
  lemma NoDecisionContextDefaults()
    ensures DecisionLines(NoDecisionContext) ==
      Entry("stakes", Unknown) + Entry("reversibility", Unknown) + Entry("detectability", Unknown)
      + Entry("time_pressure", Unknown) + Entry("alternatives_available", NoneProvided)
    ensures NotesLine(NoDecisionContext.notes) == ""
  {
  }

  /** An optional piece of text sits at a fixed offset; it is there exactly
      when the text at that offset starts with its tag, because what
      follows it never does. */
  lemma OptionalSlot(user: string, p: string, x: string, rest: string, tag: string)
    requires user == p + x + rest
    requires x == [] || StartsWith(x, tag)
    requires tag != [] && rest != [] && rest[0] != tag[0]
    ensures |p| <= |user|
    ensures StartsWith(user[|p|..], tag) <==> x != []
    ensures StartsWith(user[|p|..], x)
  {
    assert user[|p|..] == x + rest;
    if x != [] {
      assert (x + rest)[..|tag|] == x[..|tag|];
    } else {
      assert (x + rest)[0] == rest[0];
    }
  }

  lemma Reassoc(x: string, d: string, f: string, t: string)
    ensures x + d + f + t == x + (d + f + t)
  {
  }

  lemma ReassocNotes(x: string, p: string, n: string, f: string, t: string)
    ensures x + (p + n) + f + t == x + p + n + (f + t)
  {
  }

  /** The user text, spelled out to the context block. */
  lemma UserAroundContext(args: PromptArgs)
    ensures UserText(args) == RepresentationBlock(args.representation) + ContextBlock(args.context)
      + (DecisionBlock(DecisionContextOf(args)) + FooterText + UserTail(args.selfAudit))
  {
    Reassoc(RepresentationBlock(args.representation) + ContextBlock(args.context),
      DecisionBlock(DecisionContextOf(args)), FooterText, UserTail(args.selfAudit));
  }

  /** The user text, spelled out to the notes line. */
  lemma UserAroundNotes(args: PromptArgs)
    ensures var dc := DecisionContextOf(args);
      UserText(args) == RepresentationBlock(args.representation) + ContextBlock(args.context)
      + DecisionPrefix(dc) + NotesLine(dc.notes) + (FooterText + UserTail(args.selfAudit))
  {
    var dc := DecisionContextOf(args);
    ReassocNotes(RepresentationBlock(args.representation) + ContextBlock(args.context),
      DecisionPrefix(dc), NotesLine(dc.notes), FooterText, UserTail(args.selfAudit));
  }

  lemma ContextBlockTag(c: Option<string>)
    ensures ContextBlock(c) == [] || StartsWith(ContextBlock(c), "Context:")
  {
    if ContextGiven(c) {
      assert ContextBlock(c) == "Context:" + ("\n" + c.value + "\n");
    }
  }

  lemma AfterContextHead(dc: DecisionContextArgs, tail: string)
    ensures var rest := DecisionBlock(dc) + FooterText + tail; rest != [] && rest[0] == '\n'
  {
    var d := DecisionBlock(dc);
    assert d[0] == '\n';
    HeadOf(d, FooterText + tail);
    assert d + FooterText + tail == d + (FooterText + tail);
  }

  /** The context block follows the representation block exactly when a
      non-empty context was given, and then holds the context verbatim. */
  lemma ContextPlacement(args: PromptArgs)
    ensures var user := UserText(args); var at := |RepresentationBlock(args.representation)|;
      && at <= |user|
      && (StartsWith(user[at..], "Context:") <==> ContextGiven(args.context))
      && (ContextGiven(args.context) ==> StartsWith(user[at..], "Context:\n" + args.context.value + "\n"))
  {
    UserAroundContext(args);
    ContextBlockTag(args.context);
    AfterContextHead(DecisionContextOf(args), UserTail(args.selfAudit));
    OptionalSlot(UserText(args), RepresentationBlock(args.representation), ContextBlock(args.context),
      DecisionBlock(DecisionContextOf(args)) + FooterText + UserTail(args.selfAudit), "Context:");
  }

  /** Where the notes line goes: right after the alternatives line. */
  function NotesOffset(args: PromptArgs): nat {
    var dc := DecisionContextOf(args);
    |RepresentationBlock(args.representation) + ContextBlock(args.context) + DecisionPrefix(dc)|
  }

  lemma NotesLineTag(notes: Option<string>)
    ensures NotesLine(notes) == [] || StartsWith(NotesLine(notes), "- notes: ")
  {
  }

  lemma AfterNotesHead(tail: string)
    ensures var rest := FooterText + tail; rest != [] && rest[0] == '\n'
  {
    assert FooterText[0] == '\n';
    HeadOf(FooterText, tail);
  }

  /** The notes line appears, after the alternatives line, exactly when the
      notes trim to something, and then carries the trimmed notes. */
  lemma NotesPlacement(args: PromptArgs)
    ensures var user := UserText(args); var notes := DecisionContextOf(args).notes;
      && NotesOffset(args) <= |user|
      && (StartsWith(user[NotesOffset(args)..], "- notes: ") <==> notes.Some? && !IsBlank(notes.value))
      && (notes.Some? && !IsBlank(notes.value) ==>
            StartsWith(user[NotesOffset(args)..], "- notes: " + Trim(notes.value)))
  {
    var dc := DecisionContextOf(args);
    UserAroundNotes(args);
    NotesLineTag(dc.notes);
    AfterNotesHead(UserTail(args.selfAudit));
    OptionalSlot(UserText(args),
      RepresentationBlock(args.representation) + ContextBlock(args.context) + DecisionPrefix(dc),
      NotesLine(dc.notes), FooterText + UserTail(args.selfAudit), "- notes: ");
  }

  lemma FooterNotSelfAudit(u: string)
    requires EndsWith(u, FooterText)
    ensures !EndsWith(u, SelfAuditText)
  {
    assert FooterText[|FooterText| - 2] == ')';
    assert SelfAuditText[|SelfAuditText| - 2] == 't';
    assert u[|u| - 2] == FooterText[|FooterText| - 2];
  }

  lemma EndsWithSuffix(a: string, b: string)
    ensures EndsWith(a + b, b)
  {
    assert (a + b)[|a + b| - |b|..] == b;
  }

  lemma EndsWithShorter(x: string, a: string, b: string)
    requires EndsWith(x, a + b)
    ensures EndsWith(x, b)
  {
    assert x[|x| - |b|..] == (a + b)[|a|..];
  }

  /** The user text ends with the self-audit text exactly when a self-audit
      is asked for; otherwise it ends with the fixed notes. */
  lemma SelfAuditPlacement(args: PromptArgs)
    ensures EndsWith(UserText(args), SelfAuditText) <==> args.selfAudit
    ensures !args.selfAudit ==> EndsWith(UserText(args), FooterText)
  {
    if args.selfAudit {
      EndsWithSuffix(UserCore(args), "\n" + SelfAuditText);
      EndsWithShorter(UserText(args), "\n", SelfAuditText);
    } else {
      var front := RepresentationBlock(args.representation) + ContextBlock(args.context)
        + DecisionBlock(DecisionContextOf(args));
      assert UserText(args) == front + FooterText;
      EndsWithSuffix(front, FooterText);
      FooterNotSelfAudit(UserText(args));
    }
  }

  /** A trimmed, non-blank axis value reads back unchanged. */
  lemma AxisValueKept(v: string)
    requires v != [] && NoEdgeSpace(v)
    ensures AxisValue(Some(v)) == v
  {
    TrimPadded([], v, []);
    assert [] + v + [] == v;
    BlankIffAllSpace(v);
  }

  lemma StakesLabel(v: string)
    ensures "stakes" + ": " + v == "stakes: " + v
  {
    assert "stakes" + ": " == "stakes: ";
  }

  lemma AlternativesLabel(alt: string)
    ensures "alternatives_available" + ": " + alt == "alternatives_available:" + (" " + alt)
  {
    assert "alternatives_available" + ": " == "alternatives_available:" + " ";
    Associate("alternatives_available:", " ", alt);
  }

  /** Whatever the stakes are given as, once trimmed, the user text carries
      them on the stakes line; the alternatives line is always there. */
  lemma StakesShown(args: PromptArgs, v: string)
    requires DecisionContextOf(args).stakes == Some(v)
    requires v != [] && NoEdgeSpace(v)
    ensures Contains(UserText(args), "stakes: " + v)
    ensures Contains(UserText(args), "alternatives_available:")
  {
    UserMentionsDecisionContext(args);
    AxisValueKept(v);
    StakesLabel(v);
    var alt := AlternativesValue(AlternativesList(DecisionContextOf(args)));
    AlternativesLabel(alt);
    ContainsPrefix(UserText(args), "alternatives_available:", " " + alt);
  }

  lemma HighIsTrimmed()
    ensures "high" != [] && NoEdgeSpace("high")
    ensures "stakes: " + "high" == "stakes: high"
  {
    assert "high"[0] == 'h' && "high"[3] == 'h';
  }

  /** The test suite's case: stakes given as "high" show as "stakes: high",
      next to the heading and the alternatives line. */
  lemma HighStakesShown(args: PromptArgs)
    requires DecisionContextOf(args).stakes == Some("high")
    ensures Contains(UserText(args), DecisionHeading)
    ensures Contains(UserText(args), "stakes: high")
    ensures Contains(UserText(args), "alternatives_available:")
  {
    UserMentionsDecisionContext(args);
    HighIsTrimmed();
    StakesShown(args, "high");
  }
}
