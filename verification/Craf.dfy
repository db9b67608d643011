/** CRAF classification (craf.py) and its independent recomputation by the replayer (replay.py). */
module Craf {
  import opened Basics
  import opened Json
  import opened Text
  import opened Models
  import opened Trace
  import opened ReferenceMemory
  import opened Decisions

  datatype CrafArm = CONTROL | VULNERABLE | PROTECTED

  datatype CrafClassification =
    | NO_FAILURE | CORE_CRAF | SOURCE_DELETED | SOURCE_CORRUPTED | UNTRUE_MEMORY | STALE_OR_INAPPLICABLE
    | RESOURCE_OVERLOAD | ADMISSION_ONLY | UNLOCALIZED_UNSAFE_DECISION

  datatype LossStage = NONE | RETRIEVAL | PRESENTATION | DECISION_USE

  datatype CrafResult = CONTROLLED_MECHANISM_RECOVERED | COMPARISON_FAILED

  datatype TrialEvidence = TrialEvidence(
    arm: CrafArm, initialMemory: MemoryRecord, finalMemory: Option<MemoryRecord>, oracle: MemoryOracle, logicalTime: nat,
    oracleApplicable: bool, retrievalIds: seq<string>, contextIds: seq<string>, decision: ProposedDecision,
    decisionAssessment: DecisionAssessment, resourceOverload: bool, admissionOnly: bool)

  datatype CrafAssessment = CrafAssessment(
    arm: CrafArm, classification: CrafClassification, lossStage: LossStage, criticalMemoryId: string,
    initialSourceSha256: string, finalSourceSha256: Option<string>, sourcePreserved: bool, oracleTruth: bool,
    oracleValid: bool, oracleApplicable: bool, retrieved: bool, presented: bool, usedByDecision: bool,
    decisionSafe: bool, reasonCodes: seq<string>)

  function SourceDigest(p: Platform, memory: MemoryRecord): string {
    p.digest(MemoryToJson(memory))
  }

  function FinalDigest(p: Platform, e: TrialEvidence): Option<string> {
    if e.finalMemory.None? then None else Some(SourceDigest(p, e.finalMemory.value))
  }

  predicate SourcePreserved(p: Platform, e: TrialEvidence) {
    FinalDigest(p, e) == Some(SourceDigest(p, e.initialMemory))
  }

  /** `_exclusion_classification`: the first reason the trial does not test recall. */
  function Exclusion(e: TrialEvidence, preserved: bool, oracleValid: bool): Option<(CrafClassification, string)> {
    if e.finalMemory.None? || e.finalMemory.value.state == DELETED then Some((SOURCE_DELETED, "critical_source_deleted"))
    else if !preserved then Some((SOURCE_CORRUPTED, "critical_source_changed"))
    else if !e.oracle.truth then Some((UNTRUE_MEMORY, "critical_memory_not_true"))
    else if !oracleValid || !e.oracleApplicable then
      Some((STALE_OR_INAPPLICABLE, "critical_memory_not_valid_or_applicable"))
    else if e.resourceOverload then Some((RESOURCE_OVERLOAD, "resource_exhaustion"))
    else if e.admissionOnly then Some((ADMISSION_ONLY, "admission_stage_only"))
    else None
  }

  /** `_outcome_classification`: where an unexcluded trial lost the memory. */
  function Outcome(safe: bool, retrieved: bool, presented: bool, used: bool): (CrafClassification, LossStage, string) {
    if safe then (NO_FAILURE, NONE, "safe_decision")
    else if !retrieved then (CORE_CRAF, RETRIEVAL, "critical_memory_absent_from_retrieval")
    else if !presented then (CORE_CRAF, PRESENTATION, "critical_memory_absent_from_context")
    else if !used then (CORE_CRAF, DECISION_USE, "critical_memory_not_used_by_decision")
    else (UNLOCALIZED_UNSAFE_DECISION, NONE, "unsafe_decision_without_localized_loss")
  }

  /** `assess_craf_trial` */
  function AssessTrial(p: Platform, e: TrialEvidence): CrafAssessment {
    var id := e.oracle.memoryId;
    var preserved := SourcePreserved(p, e);
    var valid := ValidAt(e.oracle, e.logicalTime);
    var retrieved, presented, used := id in e.retrievalIds, id in e.contextIds, id in e.decision.rationale;
    var excluded := Exclusion(e, preserved, valid);
    var outcome := if excluded.Some? then (excluded.value.0, NONE, excluded.value.1)
                   else Outcome(e.decisionAssessment.safe, retrieved, presented, used);
    CrafAssessment(e.arm, outcome.0, outcome.1, id, SourceDigest(p, e.initialMemory), FinalDigest(p, e), preserved,
                   e.oracle.truth, valid, e.oracleApplicable, retrieved, presented, used, e.decisionAssessment.safe,
                   [outcome.2])
  }

  /** The trial tests recall: a true, valid, applicable, unchanged and undeleted memory, and no other cause. */
  predicate TestsRecall(p: Platform, e: TrialEvidence) {
    && e.finalMemory.Some? && e.finalMemory.value.state != DELETED && SourcePreserved(p, e)
    && e.oracle.truth && ValidAt(e.oracle, e.logicalTime) && e.oracleApplicable
    && !e.resourceOverload && !e.admissionOnly
  }

  /** The final snapshot holds the memory, undeleted. */
  predicate SourcePresent(e: TrialEvidence) {
    e.finalMemory.Some? && e.finalMemory.value.state != DELETED
  }

  predicate OracleHolds(e: TrialEvidence) {
    ValidAt(e.oracle, e.logicalTime) && e.oracleApplicable
  }

  /**
   The exclusions, in terms of the evidence alone: each names the first of the six requirements that
   fails, all before it being met. Every requirement is met exactly when the trial tests recall.
   */
  lemma ExclusionIff(p: Platform, e: TrialEvidence)
    ensures var c, kept := AssessTrial(p, e).classification, SourcePreserved(p, e);
            && (c == SOURCE_DELETED <==> !SourcePresent(e))
            && (c == SOURCE_CORRUPTED <==> SourcePresent(e) && !kept)
            && (c == UNTRUE_MEMORY <==> SourcePresent(e) && kept && !e.oracle.truth)
            && (c == STALE_OR_INAPPLICABLE <==> SourcePresent(e) && kept && e.oracle.truth && !OracleHolds(e))
            && (c == RESOURCE_OVERLOAD <==> SourcePresent(e) && kept && e.oracle.truth && OracleHolds(e) && e.resourceOverload)
            && (c == ADMISSION_ONLY <==>
                  SourcePresent(e) && kept && e.oracle.truth && OracleHolds(e) && !e.resourceOverload && e.admissionOnly)
            && (c in {NO_FAILURE, CORE_CRAF, UNLOCALIZED_UNSAFE_DECISION} <==> TestsRecall(p, e))
  {
    hide MemoryToJson, SourcePreserved, ValidAt, NonBlank;
  }

  /** The outcomes of a trial that tests recall, and the stage at which it lost the memory. */
  lemma ClassificationIff(p: Platform, e: TrialEvidence)
    ensures var a := AssessTrial(p, e);
            var id := e.oracle.memoryId;
            && (a.classification == NO_FAILURE <==> TestsRecall(p, e) && e.decisionAssessment.safe)
            && (a.classification == CORE_CRAF <==>
                  && TestsRecall(p, e) && !e.decisionAssessment.safe
                  && !(id in e.retrievalIds && id in e.contextIds && id in e.decision.rationale))
            && (a.classification == UNLOCALIZED_UNSAFE_DECISION <==>
                  && TestsRecall(p, e) && !e.decisionAssessment.safe
                  && id in e.retrievalIds && id in e.contextIds && id in e.decision.rationale)
            && (a.lossStage == RETRIEVAL <==> a.classification == CORE_CRAF && id !in e.retrievalIds)
            && (a.lossStage == PRESENTATION <==> a.classification == CORE_CRAF && id in e.retrievalIds && id !in e.contextIds)
            && (a.lossStage == DECISION_USE <==>
                  a.classification == CORE_CRAF && id in e.retrievalIds && id in e.contextIds)
            && a.sourcePreserved == SourcePreserved(p, e) && a.decisionSafe == e.decisionAssessment.safe && a.arm == e.arm
  {
    hide MemoryToJson, SourcePreserved, ValidAt, NonBlank;
  }

  /** The reason a classification and its loss stage are reported with. */
  function ReasonFor(c: CrafClassification, stage: LossStage): string {
    match c
    case NO_FAILURE => "safe_decision"
    case CORE_CRAF =>
      if stage == RETRIEVAL then "critical_memory_absent_from_retrieval"
      else if stage == PRESENTATION then "critical_memory_absent_from_context"
      else "critical_memory_not_used_by_decision"
    case SOURCE_DELETED => "critical_source_deleted"
    case SOURCE_CORRUPTED => "critical_source_changed"
    case UNTRUE_MEMORY => "critical_memory_not_true"
    case STALE_OR_INAPPLICABLE => "critical_memory_not_valid_or_applicable"
    case RESOURCE_OVERLOAD => "resource_exhaustion"
    case ADMISSION_ONLY => "admission_stage_only"
    case UNLOCALIZED_UNSAFE_DECISION => "unsafe_decision_without_localized_loss"
  }

  lemma ReasonIsOfTheVerdict(p: Platform, e: TrialEvidence)
    ensures var a := AssessTrial(p, e);
            && a.reasonCodes == [ReasonFor(a.classification, a.lossStage)]
            && (a.lossStage == NONE <==> a.classification != CORE_CRAF)
  {
    hide MemoryToJson, SourcePreserved, ValidAt, NonBlank;
  }

  // ----- assessments as JSON -----

  function CrafArmName(arm: CrafArm): string {
    match arm case CONTROL => "control" case VULNERABLE => "vulnerable" case PROTECTED => "protected"
  }

  function ClassificationName(c: CrafClassification): string {
    match c
    case NO_FAILURE => "no_failure"
    case CORE_CRAF => "core_craf"
    case SOURCE_DELETED => "source_deleted"
    case SOURCE_CORRUPTED => "source_corrupted"
    case UNTRUE_MEMORY => "untrue_memory"
    case STALE_OR_INAPPLICABLE => "stale_or_inapplicable"
    case RESOURCE_OVERLOAD => "resource_overload"
    case ADMISSION_ONLY => "admission_only"
    case UNLOCALIZED_UNSAFE_DECISION => "unlocalized_unsafe_decision"
  }

  function StageName(s: LossStage): string {
    match s
    case NONE => "none"
    case RETRIEVAL => "retrieval"
    case PRESENTATION => "presentation"
    case DECISION_USE => "decision_use"
  }

  function CrafAssessmentToJson(a: CrafAssessment): Json {
    Obj(map[
      "schema_version" := Int(1), "arm" := Str(CrafArmName(a.arm)),
      "classification" := Str(ClassificationName(a.classification)), "loss_stage" := Str(StageName(a.lossStage)),
      "critical_memory_id" := Str(a.criticalMemoryId), "initial_source_sha256" := Str(a.initialSourceSha256),
      "final_source_sha256" := OptionalStr(a.finalSourceSha256), "source_preserved" := Bool(a.sourcePreserved),
      "oracle_truth" := Bool(a.oracleTruth), "oracle_valid" := Bool(a.oracleValid),
      "oracle_applicable" := Bool(a.oracleApplicable), "retrieved" := Bool(a.retrieved),
      "presented" := Bool(a.presented), "used_by_decision" := Bool(a.usedByDecision),
      "decision_safe" := Bool(a.decisionSafe), "reason_codes" := Strings(a.reasonCodes)])
  }

  // ----- the comparison -----

  datatype CrafComparison = CrafComparison(scenarioId: string, initialStateSha256: string, result: CrafResult,
                                           arms: seq<CrafAssessment>, reasonCodes: seq<string>)

  datatype CrafError = IncompleteComparison

  /** `by_arm[arm]`: a later assessment of the same arm replaces an earlier one. */
  function ForArm(arms: seq<CrafAssessment>, arm: CrafArm): Option<CrafAssessment> {
    if arms == [] then None
    else if Last(arms).arm == arm then Some(Last(arms))
    else ForArm(Front(arms), arm)
  }

  function OnlyArm(arms: seq<CrafAssessment>, arm: CrafArm): seq<CrafAssessment> {
    if arms == [] then [] else OnlyArm(Front(arms), arm) + if Last(arms).arm == arm then [Last(arms)] else []
  }

  predicate Recovered(control: CrafAssessment, vulnerable: CrafAssessment, protected: CrafAssessment) {
    && control.classification == NO_FAILURE && control.decisionSafe
    && vulnerable.classification == CORE_CRAF && vulnerable.lossStage == RETRIEVAL && vulnerable.sourcePreserved
    && protected.classification == NO_FAILURE && protected.decisionSafe && protected.sourcePreserved
  }

  /** `assess_craf_comparison`. The arms are listed in the order of their names. */
  function AssessCraf(scenarioId: string, initialSha256: string, arms: seq<CrafAssessment>): Result<CrafComparison, CrafError> {
    var control, vulnerable, protected := ForArm(arms, CONTROL), ForArm(arms, VULNERABLE), ForArm(arms, PROTECTED);
    if control.None? || vulnerable.None? || protected.None? then
      Err(IncompleteComparison)
    else
      var recovered := Recovered(control.value, vulnerable.value, protected.value);
      Ok(CrafComparison(scenarioId, initialSha256, if recovered then CONTROLLED_MECHANISM_RECOVERED else COMPARISON_FAILED,
                        OnlyArm(arms, CONTROL) + OnlyArm(arms, PROTECTED) + OnlyArm(arms, VULNERABLE),
                        [if recovered then "three_arm_pattern_recovered" else "required_three_arm_pattern_not_recovered"]))
  }

  function CrafResultName(r: CrafResult): string {
    match r
    case CONTROLLED_MECHANISM_RECOVERED => "controlled_mechanism_recovered"
    case COMPARISON_FAILED => "comparison_failed"
  }

  function CrafComparisonToJson(c: CrafComparison): Json {
    Obj(map[
      "schema_version" := Int(1), "scenario_id" := Str(c.scenarioId),
      "shared_initial_state_sha256" := Str(c.initialStateSha256), "result" := Str(CrafResultName(c.result)),
      "arms" := Arr(seq(|c.arms|, i requires 0 <= i < |c.arms| => CrafAssessmentToJson(c.arms[i]))),
      "reason_codes" := Strings(c.reasonCodes)])
  }

  // ----- the replayer's own recomputation -----

  /** What the replayer's verdict reads of one arm: the retained names, and safety as rescored. */
  datatype Retold = Retold(classification: string, lossStage: string, safe: bool)

  function RetoldOf(a: CrafAssessment): Retold {
    Retold(ClassificationName(a.classification), StageName(a.lossStage), a.decisionSafe)
  }

  /** `_expected_comparison_result`, over the control, vulnerable and protected arms. */
  function ExpectedResult(control: Retold, vulnerable: Retold, protected: Retold): string {
    if && control.classification == "no_failure" && control.safe
       && vulnerable.classification == "core_craf" && vulnerable.lossStage == "retrieval" && !vulnerable.safe
       && protected.classification == "no_failure" && protected.safe
    then "controlled_mechanism_recovered" else "comparison_failed"
  }

  /** The names the verdict looks for are those of one outcome each. */
  lemma NamesTellApart(a: CrafAssessment)
    ensures ClassificationName(a.classification) == "no_failure" <==> a.classification == NO_FAILURE
    ensures ClassificationName(a.classification) == "core_craf" <==> a.classification == CORE_CRAF
    ensures StageName(a.lossStage) == "retrieval" <==> a.lossStage == RETRIEVAL
  {
    assert "no_failure"[0] == 'n' && "core_craf"[0] == 'c' && "retrieval"[0] == 'r';
    var c, s := ClassificationName(a.classification), StageName(a.lossStage);
    assert a.classification != NO_FAILURE ==> c[0] != 'n';
    assert a.classification != CORE_CRAF ==> c[0] != 'c';
    assert a.lossStage != RETRIEVAL ==> s[0] != 'r';
  }

  lemma ForArmOfThree(c: CrafAssessment, v: CrafAssessment, q: CrafAssessment)
    requires c.arm == CONTROL && v.arm == VULNERABLE && q.arm == PROTECTED
    ensures ForArm([c, v, q], CONTROL) == Some(c)
    ensures ForArm([c, v, q], VULNERABLE) == Some(v)
    ensures ForArm([c, v, q], PROTECTED) == Some(q)
  {
    assert Front([c, v, q]) == [c, v] && Front([c, v]) == [c];
    assert ForArm([c, v], VULNERABLE) == Some(v);
    assert ForArm([c, v], CONTROL) == ForArm([c], CONTROL) == Some(c);
  }

  /** Both verdicts, of assessments that kept their sources and call no safe decision a core CRAF. */
  lemma VerdictsAgree(c: CrafAssessment, v: CrafAssessment, q: CrafAssessment, scenarioId: string, initialSha256: string)
    requires c.arm == CONTROL && v.arm == VULNERABLE && q.arm == PROTECTED
    requires v.sourcePreserved && q.sourcePreserved && (v.classification == CORE_CRAF ==> !v.decisionSafe)
    ensures var comparison := AssessCraf(scenarioId, initialSha256, [c, v, q]);
            comparison.Ok? && CrafResultName(comparison.value.result) == ExpectedResult(RetoldOf(c), RetoldOf(v), RetoldOf(q))
  {
    hide OnlyArm, ForArm, ClassificationName, StageName;
    ForArmOfThree(c, v, q);
    NamesTellApart(c);
    NamesTellApart(v);
    NamesTellApart(q);
  }

  /**
   The replayer does not ask whether the vulnerable arm kept its source, and asks instead whether it was
   unsafe. For assessments of trials that kept their sources the two verdicts agree.
   */
  lemma RecomputedVerdictAgrees(p: Platform, c: TrialEvidence, v: TrialEvidence, q: TrialEvidence, scenarioId: string,
                                initialSha256: string)
    requires c.arm == CONTROL && v.arm == VULNERABLE && q.arm == PROTECTED
    requires SourcePreserved(p, c) && SourcePreserved(p, v) && SourcePreserved(p, q)
    ensures var arms := [AssessTrial(p, c), AssessTrial(p, v), AssessTrial(p, q)];
            && AssessCraf(scenarioId, initialSha256, arms).Ok?
            && CrafResultName(AssessCraf(scenarioId, initialSha256, arms).value.result) ==
               ExpectedResult(RetoldOf(arms[0]), RetoldOf(arms[1]), RetoldOf(arms[2]))
  {
    hide AssessTrial, SourcePreserved, TestsRecall, AssessCraf, RetoldOf;
    ClassificationIff(p, c);
    ClassificationIff(p, v);
    ClassificationIff(p, q);
    VerdictsAgree(AssessTrial(p, c), AssessTrial(p, v), AssessTrial(p, q), scenarioId, initialSha256);
  }

  // ----- the replayer's presentation check -----

  /** `f"[{critical_id}]" in context_text` */
  predicate Mentioned(id: string, context: string) {
    Contains(context, "[" + id + "]")
  }

  lemma {:induction false} ContainsAt(before: string, needle: string, after: string)
    ensures Contains(before + needle + after, needle)
  {
    var text := before + needle + after;
    if before == [] {
      assert text[..|needle|] == needle;
    } else {
      ContainsAt(before[1..], needle, after);
      assert text[1..] == before[1..] + needle + after;
    }
  }

  lemma {:induction false} JoinSplits(separator: string, parts: seq<string>, i: nat)
    requires i < |parts|
    ensures exists before, after :: Join(separator, parts) == before + parts[i] + after
  {
    if |parts| == 1 {
      assert Join(separator, parts) == "" + parts[0] + "";
    } else if i == 0 {
      assert Join(separator, parts) == "" + parts[0] + (separator + Join(separator, parts[1..]));
    } else {
      JoinSplits(separator, parts[1..], i - 1);
      var before, after :| Join(separator, parts[1..]) == before + parts[1..][i - 1] + after;
      assert Join(separator, parts) == (parts[0] + separator + before) + parts[i] + after;
    }
  }

  function ContextOf(memoryById: map<string, MemoryRecord>, result: RetrievalResult): string
    requires forall i | 0 <= i < |result.hits| :: result.hits[i].memoryId in memoryById
  {
    Join("\n", ContextLines(memoryById, result))
  }

  /** Every hit is mentioned in the context assembled from the hits. */
  lemma HitIsMentioned(memoryById: map<string, MemoryRecord>, result: RetrievalResult, id: string)
    requires forall i | 0 <= i < |result.hits| :: result.hits[i].memoryId in memoryById
    requires id in HitIds(result)
    ensures Mentioned(id, ContextOf(memoryById, result))
  {
    hide Join, Contains;
    var i :| 0 <= i < |HitIds(result)| && HitIds(result)[i] == id;
    var lines := ContextLines(memoryById, result);
    JoinSplits("\n", lines, i);
    var before, after :| Join("\n", lines) == before + lines[i] + after;
    var tail := " " + memoryById[id].content;
    assert lines[i] == "[" + id + "]" + tail by { LineOf(memoryById, result, i); }
    assert Join("\n", lines) == before + ("[" + id + "]") + (tail + after) by {
      Regroups(before, "[" + id + "]", tail, after);
    }
    ContainsAt(before, "[" + id + "]", tail + after);
  }

  lemma LineOf(memoryById: map<string, MemoryRecord>, result: RetrievalResult, i: nat)
    requires forall i | 0 <= i < |result.hits| :: result.hits[i].memoryId in memoryById
    requires i < |result.hits|
    ensures var id := result.hits[i].memoryId;
            ContextLines(memoryById, result)[i] == "[" + id + "]" + (" " + memoryById[id].content)
  {
    var id := result.hits[i].memoryId;
    assert "[" + id + "] " == "[" + id + "]" + " ";
  }

  lemma Regroups(a: string, b: string, c: string, d: string)
    ensures a + (b + c) + d == a + b + (c + d)
  {
  }

  /** The needle stands at a position of the text. */
  predicate StandsAt(text: string, needle: string, k: nat) {
    k + |needle| <= |text| && text[k..k + |needle|] == needle
  }

  lemma {:induction false} ContainsStands(text: string, needle: string)
    ensures Contains(text, needle) <==> exists k: nat :: StandsAt(text, needle, k)
  {
    if needle <= text {
      assert StandsAt(text, needle, 0);
    } else if text != [] {
      ContainsStands(text[1..], needle);
      forall k: nat ensures StandsAt(text[1..], needle, k) <==> StandsAt(text, needle, k + 1) {
        if k + 1 + |needle| <= |text| {
          assert text[1..][k..k + |needle|] == text[k + 1..k + 1 + |needle|];
        }
      }
      forall k: nat | StandsAt(text, needle, k) ensures exists n: nat :: StandsAt(text[1..], needle, n) {
        assert k > 0;
        assert StandsAt(text[1..], needle, k - 1);
      }
    }
  }

  /** What stands in a text split at a character the needle does not hold stands in one of the halves. */
  lemma InOneHalf(first: string, c: char, second: string, needle: string)
    requires needle != [] && c !in needle
    ensures Contains(first + [c] + second, needle) <==> Contains(first, needle) || Contains(second, needle)
  {
    hide Contains;
    var text := first + [c] + second;
    ContainsStands(text, needle);
    ContainsStands(first, needle);
    ContainsStands(second, needle);
    forall k: nat | StandsAt(first, needle, k) ensures StandsAt(text, needle, k) {
      assert text[k..k + |needle|] == first[k..k + |needle|];
    }
    forall k: nat | StandsAt(second, needle, k) ensures StandsAt(text, needle, |first| + 1 + k) {
      var at := |first| + 1 + k;
      assert text[at..at + |needle|] == second[k..k + |needle|];
    }
    forall k: nat | StandsAt(text, needle, k)
      ensures StandsAt(first, needle, k) || (k > |first| && StandsAt(second, needle, k - |first| - 1))
    {
      assert forall i | k <= i < k + |needle| :: text[i] == needle[i - k] && text[i] != c;
      assert text[|first|] == c;
      if k + |needle| <= |first| {
        assert text[k..k + |needle|] == first[k..k + |needle|];
      } else if k > |first| {
        var at := k - |first| - 1;
        assert text[k..k + |needle|] == second[at..at + |needle|];
      } else {
        assert false;
      }
    }
  }

  /** A text without newlines stands in joined lines exactly when it stands in one of them. */
  lemma {:induction false} InOneLine(lines: seq<string>, needle: string)
    requires needle != [] && '\n' !in needle
    ensures Contains(Join("\n", lines), needle) <==> exists i :: 0 <= i < |lines| && Contains(lines[i], needle)
  {
    hide Contains;
    if |lines| == 0 {
      ContainsStands("", needle);
    } else if |lines| == 1 {
      assert Join("\n", lines) == lines[0];
    } else {
      InOneHalf(lines[0], '\n', Join("\n", lines[1..]), needle);
      InOneLine(lines[1..], needle);
      assert forall i | 1 <= i < |lines| :: lines[i] == lines[1..][i - 1];
      assert forall i | 0 <= i < |lines| - 1 :: lines[1..][i] == lines[i + 1];
    }
  }

  /** The hit's line, its bracketed identifier followed by its content, quotes the bracketed identifier. */
  predicate Quotes(memoryById: map<string, MemoryRecord>, hit: RetrievalHit, id: string)
    requires hit.memoryId in memoryById
  {
    Contains(ContextLine(memoryById, hit), "[" + id + "]")
  }

  predicate Quoted(memoryById: map<string, MemoryRecord>, hits: seq<RetrievalHit>, id: string)
    requires forall i | 0 <= i < |hits| :: hits[i].memoryId in memoryById
  {
    exists i :: 0 <= i < |hits| && Quotes(memoryById, hits[i], id)
  }

  /** The context assembled from a result holds a bracketed identifier of one line exactly when a hit's line quotes it. */
  lemma MentionedIffQuoted(memoryById: map<string, MemoryRecord>, result: RetrievalResult, id: string)
    requires '\n' !in id && forall i | 0 <= i < |result.hits| :: result.hits[i].memoryId in memoryById
    ensures Mentioned(id, ContextOf(memoryById, result)) <==> Quoted(memoryById, result.hits, id)
  {
    hide Contains, Join, ContextLine;
    var lines, needle := ContextLines(memoryById, result), "[" + id + "]";
    assert forall c | c in needle :: c == '[' || c == ']' || c in id;
    InOneLine(lines, needle);
    assert forall i | 0 <= i < |lines| :: lines[i] == ContextLine(memoryById, result.hits[i]);
  }

  /**
   The replayer's textual check of `presented` matches the assessment's own flag, for an identifier of
   one line, exactly when the critical memory was retrieved or no retrieved memory's line quotes it.
   */
  lemma PresentationRecheckIff(memoryById: map<string, MemoryRecord>, result: RetrievalResult, id: string)
    requires '\n' !in id && forall i | 0 <= i < |result.hits| :: result.hits[i].memoryId in memoryById
    ensures Mentioned(id, ContextOf(memoryById, result)) == (id in HitIds(result)) <==>
            id in HitIds(result) || !Quoted(memoryById, result.hits, id)
  {
    hide Mentioned, ContextOf, Quoted;
    MentionedIffQuoted(memoryById, result, id);
    if id in HitIds(result) {
      HitIsMentioned(memoryById, result, id);
    }
  }
}
