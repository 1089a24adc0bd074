// The broker's escalation policy: one decision tree over the evidence of an attempt.
module EscalationPolicy {
  import opened Prelude
  import opened Classifications

  const MAX_GTX_ATTEMPTS := 3
  const MAX_P40_ATTEMPTS := 3

  type WorkerName = string

  const P40_WORKER: WorkerName := "p40_qwen35"
  const CODEX: WorkerName := "codex"
  const SECOND_SHIFT: WorkerName := "second_shift"

  datatype Workflow = DirectEscalation | LayeredReview

  datatype Decision = RetryLocal | EscalateToP40 | EscalateToCodex | EscalateToSecondShift | AcceptNeedsVerification

  /** What reviewers and keyword search report about an attempt. */
  datatype Findings = Findings(
    architectural: bool,
    crossFile: bool,
    repeated: bool,
    saysArchitectural: bool,
    saysCrossFile: bool,
    saysRepeated: bool,
    saysSolvesTest: bool,
    count: nat)

  datatype Reason = Architectural | CrossFile | Repeated | SolvesTest | UnrelatedFiles

  datatype Result = Result(decision: Decision, target: WorkerName, freshVerification: bool)

  /** The first trigger that applies, flags before keywords. */
  function Trigger(f: Findings): Option<Reason> {
    if f.architectural then Some(Architectural)
    else if f.crossFile then Some(CrossFile)
    else if f.repeated then Some(Repeated)
    else if f.saysArchitectural then Some(Architectural)
    else if f.saysCrossFile then Some(CrossFile)
    else if f.saysRepeated then Some(Repeated)
    else if f.saysSolvesTest then Some(SolvesTest)
    else if f.count > 5 then Some(UnrelatedFiles)
    else None
  }

  function ToCodex(): Result { Result(EscalateToCodex, CODEX, false) }
  function ToSecondShift(): Result { Result(EscalateToSecondShift, SECOND_SHIFT, false) }
  function Retry(): Result { Result(RetryLocal, P40_WORKER, false) }

  function HandleNonSubstantive(attempt: nat, workflow: Workflow): Result {
    if attempt > MAX_P40_ATTEMPTS then (if workflow.LayeredReview? then ToSecondShift() else ToCodex())
    else Retry()
  }

  function HandleEscalation(reason: Reason, workflow: Workflow): Result {
    if reason in {Architectural, CrossFile} then ToCodex()
    else if reason in {Repeated, SolvesTest} then Result(EscalateToP40, P40_WORKER, false)
    else if workflow.LayeredReview? then ToSecondShift()
    else ToCodex()
  }

  function HandleRetryLocal(attempt: nat, gtxFailures: nat, workflow: Workflow): Result {
    if workflow.DirectEscalation? then (if attempt > MAX_P40_ATTEMPTS then ToCodex() else Retry())
    else if gtxFailures >= MAX_GTX_ATTEMPTS then ToSecondShift()
    else Retry()
  }

  function Evaluate(c: Classification, f: Findings, attempt: nat, gtxFailures: nat, workflow: Workflow): Result {
    if c.Success? then Result(AcceptNeedsVerification, CODEX, true)
    else if !Substantive(c) then HandleNonSubstantive(attempt, workflow)
    else if Trigger(f).Some? then HandleEscalation(Trigger(f).value, workflow)
    else HandleRetryLocal(attempt, gtxFailures, workflow)
  }

  // ---------- What the findings ask for ----------

  /** An architectural or cross-file finding; one that is only reported in words gives way to a repeated
      error. */
  predicate AsksCodex(f: Findings) {
    f.architectural || f.crossFile || (!f.repeated && (f.saysArchitectural || f.saysCrossFile))
  }

  /** A repeated error or a wrongly solved test, unless Codex is asked for. */
  predicate SendsToP40(f: Findings) {
    !AsksCodex(f) && (f.repeated || f.saysRepeated || f.saysSolvesTest)
  }

  /** Nothing of the kind, but more than five findings. */
  predicate Sprawls(f: Findings) {
    !AsksCodex(f) && !SendsToP40(f) && f.count > 5
  }

  predicate Unremarkable(f: Findings) {
    !AsksCodex(f) && !SendsToP40(f) && f.count <= 5
  }

  lemma TriggerExactly(f: Findings)
    ensures AsksCodex(f) <==> Trigger(f) in {Some(Architectural), Some(CrossFile)}
    ensures SendsToP40(f) <==> Trigger(f) in {Some(Repeated), Some(SolvesTest)}
    ensures Sprawls(f) <==> Trigger(f) == Some(UnrelatedFiles)
    ensures Unremarkable(f) <==> Trigger(f) == None
  {
  }

  /** The whole policy, decision by decision. */
  lemma DecisionExactly(c: Classification, f: Findings, attempt: nat, gtxFailures: nat, workflow: Workflow)
    ensures var r := Evaluate(c, f, attempt, gtxFailures, workflow);
      var code := c == PartialCode || c == IncorrectCode || c == TestsFailed;
      var other := c != Success && !code;
      var layered := workflow == LayeredReview;
      (r.decision == AcceptNeedsVerification <==> c == Success) &&
      (r.decision == EscalateToP40 <==> code && SendsToP40(f)) &&
      (r.decision == EscalateToCodex <==>
        || (code && AsksCodex(f))
        || (!layered && code && Sprawls(f))
        || (!layered && attempt > 3 && (other || (code && Unremarkable(f))))) &&
      (r.decision == EscalateToSecondShift <==>
        || (layered && code && Sprawls(f))
        || (layered && code && Unremarkable(f) && gtxFailures >= 3)
        || (layered && other && attempt > 3)) &&
      (r.decision == RetryLocal <==>
        || (other && attempt <= 3)
        || (code && Unremarkable(f) && if layered then gtxFailures < 3 else attempt <= 3))
    ensures var r := Evaluate(c, f, attempt, gtxFailures, workflow);
      r.freshVerification == (c == Success) &&
      match r.decision
      case AcceptNeedsVerification => r.target == "codex"
      case EscalateToCodex => r.target == "codex"
      case EscalateToSecondShift => r.target == "second_shift"
      case EscalateToP40 => r.target == "p40_qwen35"
      case RetryLocal => r.target == "p40_qwen35"
  {
    TriggerExactly(f);
  }

  /** The next worker is the P40 exactly for a failure within the attempt limit that no trigger
      takes elsewhere, and for a substantive one with a repeated-error or solves-test trigger. */
  lemma P40ExactlyWithinLimit(c: Classification, f: Findings, attempt: nat, gtxFailures: nat)
    ensures Evaluate(c, f, attempt, gtxFailures, DirectEscalation).target == P40_WORKER <==>
      || (Substantive(c) && SendsToP40(f))
      || (!c.Success? && attempt <= MAX_P40_ATTEMPTS && (Substantive(c) ==> Unremarkable(f)))
  {
    TriggerExactly(f);
  }

  /** Layered review: a failure without a trigger stays on the P40 while fewer than three GTX
      failures are counted, whatever the attempt number; only operational ones are limited by it. */
  lemma LayeredLeavesP40Exactly(c: Classification, f: Findings, attempt: nat, gtxFailures: nat)
    requires !c.Success?
    ensures Evaluate(c, f, attempt, gtxFailures, LayeredReview).target == SECOND_SHIFT <==>
      || (!Substantive(c) && attempt > MAX_P40_ATTEMPTS)
      || (Substantive(c) && Sprawls(f))
      || (Substantive(c) && Unremarkable(f) && gtxFailures >= MAX_GTX_ATTEMPTS)
  {
    TriggerExactly(f);
  }
}
