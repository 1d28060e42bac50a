/** The deterministic post-parse lint (`lintWarnings`, src/openaiAudit.ts).
    It reads a validated record and returns advisory warnings in check order;
    it never changes the record, and in particular never touches the reliance
    cap. */
module Lint {
  import opened AuditSchema

  const TooManyAmbiguities :=
    "Too many ambiguity items (>3). Pick dominant 1–3 or merge related ones."
  const NoVerificationSteps :=
    "No verification_steps provided. Add 1–3 concrete checks."
  const NoFailureModes :=
    "No failure_modes listed. Add at least 1 plausible failure mode."
  const DecisiveHardDetectability :=
    "reliance_cap=\"decisive\" but decision_context.detectability is hard/unknown."
  const DecisiveNoFallback :=
    "reliance_cap=\"decisive\" but no fallback/rollback/stop plan is present."
  const DecisiveNoVerification :=
    "reliance_cap=\"decisive\" but verification_steps is empty."
  const HighStakesHighCap :=
    "High stakes + hard/unknown detectability while reliance_cap is weight-bearing/decisive. "
    + "Consider downgrading cap or adding stronger monitoring + fallback."
  const HighStakesNoAlternatives :=
    "High stakes with no alternatives_available provided. "
    + "Consider adding an independent check/second source."

  /** Every warning the lint can emit, in the order it checks for them. */
  const CheckOrder: seq<string> := [
    TooManyAmbiguities, NoVerificationSteps, NoFailureModes,
    DecisiveHardDetectability, DecisiveNoFallback, DecisiveNoVerification,
    HighStakesHighCap, HighStakesNoAlternatives]

  /** `xs.some(p)`. */
  function Some<T>(xs: seq<T>, p: T -> bool): (r: bool)
    ensures r <==> exists i :: 0 <= i < |xs| && p(xs[i])
    decreases |xs|
  {
    if xs == [] then false
    else if p(xs[0]) then true
    else
      assert forall i :: 1 <= i < |xs| ==> xs[1..][i - 1] == xs[i];
      Some(xs[1..], p)
  }

  predicate HardOrUnknown(d: Detectability) {
    d == Detectability.Hard || d == Detectability.Unknown
  }

  /** Some failure mode names a fallback or a mitigation, or the confidence
      block lists a safeguard. */
  function HasFallback(a: Audit): (r: bool)
    ensures r <==>
      || (exists i :: 0 <= i < |a.failureModes| && |a.failureModes[i].fallback| > 0)
      || (exists i :: 0 <= i < |a.failureModes| && |a.failureModes[i].mitigations| > 0)
      || |a.confidence.safeguards| > 0
  {
    || Some(a.failureModes, (f: FailureMode) => |f.fallback| > 0)
    || Some(a.failureModes, (f: FailureMode) => |f.mitigations| > 0)
    || |a.confidence.safeguards| > 0
  }

  /** `[m]` when the check fires, nothing otherwise. */
  function When(fires: bool, m: string): seq<string> {
    if fires then [m] else []
  }

  /** The checks in the order the source runs them; the three `decisive`
      checks only run when the cap is `decisive`. */
  function LintWarnings(a: Audit): seq<string> {
    var cap := a.confidence.relianceCap;
    var dc := a.decisionContext;
    When(|a.ambiguities| > 3, TooManyAmbiguities)
    + When(|a.confidence.verificationSteps| == 0, NoVerificationSteps)
    + When(|a.failureModes| == 0, NoFailureModes)
    + (if cap == Decisive then
         When(HardOrUnknown(dc.detectability), DecisiveHardDetectability)
         + When(!HasFallback(a), DecisiveNoFallback)
         + When(|a.confidence.verificationSteps| == 0, DecisiveNoVerification)
       else [])
    + When(dc.stakes == Grade.High && HardOrUnknown(dc.detectability)
           && (cap == WeightBearing || cap == Decisive), HighStakesHighCap)
    + When(dc.stakes == Grade.High && |dc.alternativesAvailable| == 0, HighStakesNoAlternatives)
  }

  /** The elements of `xs` whose flag in `keep` is set, in order. */
  function Select(xs: seq<string>, keep: seq<bool>): seq<string>
    requires |keep| == |xs|
    decreases |xs|
  {
    if xs == [] then [] else (if keep[0] then [xs[0]] else []) + Select(xs[1..], keep[1..])
  }

  /** Which checks fire, position by position in `CheckOrder`, read off as a
      flat table rather than the source's nested branches. */
  function Fires(a: Audit): (f: seq<bool>)
    ensures |f| == |CheckOrder|
  {
    var cap := a.confidence.relianceCap;
    var dc := a.decisionContext;
    var decisive := cap == Decisive;
    var noSteps := |a.confidence.verificationSteps| == 0;
    [ |a.ambiguities| > 3,
      noSteps,
      |a.failureModes| == 0,
      decisive && HardOrUnknown(dc.detectability),
      decisive && !HasFallback(a),
      decisive && noSteps,
      dc.stakes == Grade.High && HardOrUnknown(dc.detectability) && (cap == WeightBearing || cap == Decisive),
      dc.stakes == Grade.High && |dc.alternativesAvailable| == 0 ]
  }

  lemma SelectStep(xs: seq<string>, keep: seq<bool>, k: nat)
    requires |keep| == |xs| && k < |xs|
    ensures Select(xs[k..], keep[k..]) == When(keep[k], xs[k]) + Select(xs[k + 1..], keep[k + 1..])
  {
    assert xs[k..][1..] == xs[k + 1..] && keep[k..][1..] == keep[k + 1..];
  }

  /** `Select` over eight elements, unrolled. */
  lemma SelectEight(xs: seq<string>, keep: seq<bool>)
    requires |xs| == 8 && |keep| == 8
    ensures Select(xs, keep) ==
      When(keep[0], xs[0]) + (When(keep[1], xs[1]) + (When(keep[2], xs[2])
      + (When(keep[3], xs[3]) + (When(keep[4], xs[4]) + (When(keep[5], xs[5])
      + (When(keep[6], xs[6]) + When(keep[7], xs[7])))))))
  {
    var w0, w1, w2, w3 := When(keep[0], xs[0]), When(keep[1], xs[1]), When(keep[2], xs[2]), When(keep[3], xs[3]);
    var w4, w5, w6, w7 := When(keep[4], xs[4]), When(keep[5], xs[5]), When(keep[6], xs[6]), When(keep[7], xs[7]);
    SelectStep(xs, keep, 0);
    SelectStep(xs, keep, 1);
    SelectStep(xs, keep, 2);
    SelectStep(xs, keep, 3);
    SelectStep(xs, keep, 4);
    SelectStep(xs, keep, 5);
    SelectStep(xs, keep, 6);
    SelectStep(xs, keep, 7);
    assert xs[8..] == [] && keep[8..] == [];
    assert xs[0..] == xs && keep[0..] == keep;
    assert w7 + [] == w7;
  }

  lemma Assoc(a: seq<string>, b: seq<string>, c: seq<string>)
    ensures (a + b) + c == a + (b + c)
  {
  }

  /** The lint's output is exactly the firing checks, taken in check order. */
  lemma LintIsSelection(a: Audit)
    ensures LintWarnings(a) == Select(CheckOrder, Fires(a))
  {
    var f := Fires(a);
    var c := CheckOrder;
    SelectEight(c, f);
    var w0, w1, w2, w3 := When(f[0], c[0]), When(f[1], c[1]), When(f[2], c[2]), When(f[3], c[3]);
    var w4, w5, w6, w7 := When(f[4], c[4]), When(f[5], c[5]), When(f[6], c[6]), When(f[7], c[7]);
    var block := if a.confidence.relianceCap == Decisive then w3 + w4 + w5 else [];
    assert block == w3 + w4 + w5;
    assert LintWarnings(a) == w0 + w1 + w2 + block + w6 + w7;
    Assoc(w0, w1, w2);
    Assoc(w0 + w1 + w2, w3 + w4 + w5, w6);
    Assoc(w0 + w1 + w2, (w3 + w4 + w5) + w6, w7);
    Assoc(w0, w1 + w2, (w3 + w4 + w5) + w6 + w7);
    Assoc(w1, w2, (w3 + w4 + w5) + w6 + w7);
    Assoc(w3 + w4 + w5, w6, w7);
    Assoc(w3 + w4, w5, w6 + w7);
    Assoc(w3, w4, w5 + (w6 + w7));
  }

  lemma {:induction false} SelectIsSubsequence(xs: seq<string>, keep: seq<bool>, m: string)
    requires |keep| == |xs|
    ensures m in Select(xs, keep) <==> exists i :: 0 <= i < |xs| && keep[i] && xs[i] == m
    decreases |xs|
  {
    if xs != [] {
      SelectIsSubsequence(xs[1..], keep[1..], m);
      if exists i :: 0 <= i < |xs[1..]| && keep[1..][i] && xs[1..][i] == m {
        var i :| 0 <= i < |xs[1..]| && keep[1..][i] && xs[1..][i] == m;
        assert keep[i + 1] && xs[i + 1] == m;
      }
      if exists i :: 0 <= i < |xs| && keep[i] && xs[i] == m {
        var i :| 0 <= i < |xs| && keep[i] && xs[i] == m;
        if i > 0 {
          assert keep[1..][i - 1] && xs[1..][i - 1] == m;
        }
      }
    }
  }

  /** The lint emits only the eight known warnings, at most once each, so
      never more than eight. */
  lemma LintBound(a: Audit)
    ensures |LintWarnings(a)| <= |CheckOrder|
    ensures forall m :: m in LintWarnings(a) ==> m in CheckOrder
  {
    LintIsSelection(a);
    SelectLength(CheckOrder, Fires(a));
    forall m | m in LintWarnings(a) ensures m in CheckOrder {
      SelectIsSubsequence(CheckOrder, Fires(a), m);
    }
  }

  lemma {:induction false} SelectLength(xs: seq<string>, keep: seq<bool>)
    requires |keep| == |xs|
    ensures |Select(xs, keep)| <= |xs|
    decreases |xs|
  {
    if xs != [] {
      SelectLength(xs[1..], keep[1..]);
    }
  }

  /** The eight warnings are pairwise different texts. */
  lemma CheckOrderDistinct()
    ensures forall i, j :: 0 <= i < j < |CheckOrder| ==> CheckOrder[i] != CheckOrder[j]
  {
  }

  /** A warning is emitted exactly when its check fires. */
  lemma EmittedIffFires(a: Audit, k: nat)
    requires k < |CheckOrder|
    ensures CheckOrder[k] in LintWarnings(a) <==> Fires(a)[k]
  {
    LintIsSelection(a);
    SelectIsSubsequence(CheckOrder, Fires(a), CheckOrder[k]);
    CheckOrderDistinct();
  }

  /** Each trigger condition of the source, as an if-and-only-if. */
  lemma LintTriggers(a: Audit)
    ensures TooManyAmbiguities in LintWarnings(a) <==> |a.ambiguities| > 3
    ensures NoVerificationSteps in LintWarnings(a) <==> |a.confidence.verificationSteps| == 0
    ensures NoFailureModes in LintWarnings(a) <==> |a.failureModes| == 0
    ensures DecisiveHardDetectability in LintWarnings(a) <==>
      a.confidence.relianceCap == Decisive && HardOrUnknown(a.decisionContext.detectability)
    ensures DecisiveNoFallback in LintWarnings(a) <==>
      a.confidence.relianceCap == Decisive && !HasFallback(a)
    ensures DecisiveNoVerification in LintWarnings(a) <==>
      a.confidence.relianceCap == Decisive && |a.confidence.verificationSteps| == 0
    ensures HighStakesHighCap in LintWarnings(a) <==>
      && a.decisionContext.stakes == Grade.High
      && HardOrUnknown(a.decisionContext.detectability)
      && (a.confidence.relianceCap == WeightBearing || a.confidence.relianceCap == Decisive)
    ensures HighStakesNoAlternatives in LintWarnings(a) <==>
      a.decisionContext.stakes == Grade.High && |a.decisionContext.alternativesAvailable| == 0
  {
    EmittedIffFires(a, 0);
    EmittedIffFires(a, 1);
    EmittedIffFires(a, 2);
    EmittedIffFires(a, 3);
    EmittedIffFires(a, 4);
    EmittedIffFires(a, 5);
    EmittedIffFires(a, 6);
    EmittedIffFires(a, 7);
  }

  /** Below `decisive` none of the three decisive-specific warnings appears,
      and without high stakes neither high-stakes warning appears. */
  lemma LintGuards(a: Audit)
    ensures a.confidence.relianceCap != Decisive ==>
      DecisiveHardDetectability !in LintWarnings(a)
      && DecisiveNoFallback !in LintWarnings(a)
      && DecisiveNoVerification !in LintWarnings(a)
    ensures a.decisionContext.stakes != Grade.High ==>
      HighStakesHighCap !in LintWarnings(a) && HighStakesNoAlternatives !in LintWarnings(a)
  {
    LintTriggers(a);
  }

  /** When every check fires the lint returns all eight warnings, so eight is
      the exact maximum. */
  lemma LintAllFire(a: Audit)
    requires |a.ambiguities| > 3
    requires a.failureModes == [] && a.confidence.safeguards == []
    requires a.confidence.verificationSteps == []
    requires a.confidence.relianceCap == Decisive
    requires a.decisionContext.stakes == Grade.High
    requires HardOrUnknown(a.decisionContext.detectability)
    requires a.decisionContext.alternativesAvailable == []
    ensures LintWarnings(a) == CheckOrder
  {
  }

  /** The lint does not read `meta`: provenance and earlier warnings cannot
      change what it reports. */
  lemma LintIgnoresMeta(a: Audit, m: Meta)
    ensures LintWarnings(a.(meta := m)) == LintWarnings(a)
  {
    assert HasFallback(a.(meta := m)) == HasFallback(a);
  }
}
