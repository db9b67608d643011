/** The three-arm CRAF reference execution (runner.py). */
module CrafRun {
  import opened Basics
  import opened Json
  import opened Text
  import opened Bytes
  import opened Models
  import opened Trace
  import opened Decisions
  import opened ReferenceMemory
  import opened Replay
  import opened AdapterRuns
  import opened PolicyRefinement
  import opened Runs
  import opened Craf
  import Budget

  /** A scenario with its CRAF interaction, as the loader returns them. */
  datatype CrafPlan = CrafPlan(scenario: Scenario, protocol: ApprovalProtocol, interactionQuery: RetrievalQuery,
                               triggerMemoryId: string, manifestSha256: string, profile: string)

  function CrafStart(plan: CrafPlan): StateSnapshot {
    InitialState(plan.scenario, map[], plan.protocol.query.topK)
  }

  lemma AdaptiveNamed()
    ensures NonBlank("memory-eclipsing") && NonBlank("protected-critical-recall") && NonBlank("1")
  {
  }

  function AdaptiveSettings(plan: CrafPlan): Fields {
    map["top_k" := Int(plan.protocol.query.topK), "read_side_updates" := Bool(true),
        "trigger_memory_id" := Str(plan.triggerMemoryId), "suppressed_memory_id" := Str(plan.protocol.requiredMemoryId)]
  }

  function CrafPolicy(plan: CrafPlan, arm: CrafArm): PolicyConfiguration {
    AdaptiveNamed();
    hide NonBlank;
    match arm
    case CONTROL => PureReadPolicy(plan.protocol.query.topK)
    case VULNERABLE => RawPolicy("memory-eclipsing", "1", AdaptiveSettings(plan))
    case PROTECTED => RawPolicy("protected-critical-recall", "1",
                                AdaptiveSettings(plan)["protected_criticality" := Str(PROTECTED_CRITICALITY)])
  }

  function CrafStartPayload(plan: CrafPlan, arm: CrafArm): Fields {
    map["arm" := Str(CrafArmName(arm)), "manifest_sha256" := Str(plan.manifestSha256), "profile" := Str(plan.profile)]
  }

  /** `_critical_oracle_applicable`, for the approval protocol. */
  predicate OracleApplicable(plan: CrafPlan, oracle: MemoryOracle) {
    && PyEq(Get(oracle.applicability, "environment"), Get(plan.scenario.facts, "target_environment"))
    && PyEq(Get(oracle.applicability, "minimum_approvals"), Int(plan.protocol.minimumApprovals))
  }

  // ----- payloads -----

  function SuppressionPayload(a: CrafAssessment): Fields {
    map["assessment" := CrafAssessmentToJson(a), "arm" := Str(CrafArmName(a.arm))]
  }

  function EvaluatedPayload(d: DecisionAssessment, a: CrafAssessment): Fields {
    map["decision_assessment" := DecisionAssessmentToJson(d), "craf_assessment" := CrafAssessmentToJson(a)]
  }

  function CrafCompletedPayload(d: DecisionAssessment, a: CrafAssessment): Fields {
    map["arm" := Str(CrafArmName(a.arm)), "classification" := Str(ClassificationName(a.classification)), "safe" := Bool(d.safe)]
  }

  // ----- one arm -----

  datatype CrafMaterial = CrafMaterial(arm: CrafArm, finalState: StateSnapshot, interaction: RetrievalResult,
                                       interactionContext: string, decided: RetrievalResult, decidedContext: string,
                                       decision: ProposedDecision,
                                       decisionAssessment: DecisionAssessment, assessment: CrafAssessment,
                                       events: seq<TraceEvent>)

  /** What the classifier is shown of the arm once its decision is recorded. */
  function EvidenceOf(plan: CrafPlan, arm: CrafArm, critical: MemoryRecord, oracle: MemoryOracle, state: StateSnapshot,
                      decided: RetrievalResult, decision: ProposedDecision, assessment: DecisionAssessment): TrialEvidence {
    TrialEvidence(arm, critical, FindMemory(state.sourceMemories, oracle.memoryId), oracle, state.logicalTime,
                  OracleApplicable(plan, oracle), HitIds(decided), HitIds(decided), decision, assessment, false, false)
  }

  /** A suppression is recorded only for a core CRAF. */
  function NoteSuppression(p: Platform, a: AdapterState, craf: CrafAssessment): Result<AdapterState, RunError> {
    if craf.classification != CORE_CRAF then Ok(a)
    else
      var noted :- Called(Record(p, a, CRITICAL_MEMORY_SUPPRESSION, EVALUATOR, SuppressionPayload(craf), None));
      Ok(noted.next)
  }

  function CrafClose(p: Platform, a: AdapterState, assessment: DecisionAssessment, craf: CrafAssessment): Result<AdapterState, RunError> {
    var noted :- NoteSuppression(p, a, craf);
    var evaluated :- Called(Record(p, noted, ORACLE_EVALUATED, EVALUATOR, EvaluatedPayload(assessment, craf), None));
    var completed :- Called(Record(p, evaluated.next, EPISODE_COMPLETED, EVALUATOR, CrafCompletedPayload(assessment, craf), None));
    Ok(completed.next)
  }

  datatype CrafInteraction = CrafInteraction(next: AdapterState, interaction: RetrievalResult, context: string, ledger: Budget.Ledger)

  function CrafInteract(p: Platform, plan: CrafPlan, arm: CrafArm, ledger: Budget.Ledger): Result<CrafInteraction, RunError> {
    hide Begin, Ask, Charge, InitialState, CrafPolicy;
    var started :- Charge(ledger, Budget.EpisodeStart);
    var begun :- Begin(p, CrafStart(plan), CrafStartPayload(plan, arm), CrafPolicy(plan, arm));
    var charged :- Charge(started, Budget.RetrievalCall);
    var asked :- Ask(p, begun, plan.interactionQuery);
    if HitIds(asked.result) != [plan.triggerMemoryId] then Err(UnexpectedHits)
    else Ok(CrafInteraction(asked.next, asked.result, asked.context, charged))
  }

  function CrafFinish(p: Platform, plan: CrafPlan, arm: CrafArm, critical: MemoryRecord, oracle: MemoryOracle, x: CrafInteraction)
    : Result<(CrafMaterial, Budget.Ledger), RunError>
  {
    hide Ask, ProposeApproval, Charge, CrafClose, AssessTrial, EvidenceOf, EvaluateDecision, Record;
    var asked :- Charge(x.ledger, Budget.RetrievalCall);
    var decided :- Ask(p, x.next, plan.protocol.query);
    var charged :- Charge(asked, Budget.DecisionMade);
    var decision :- Decided(ProposeApproval(plan.scenario.episode, decided.result, plan.scenario.facts, plan.protocol));
    var proposed :- Called(Record(p, decided.next, DECISION, BOTH, DecisionPayload(decision), None));
    var assessment :- Decided(EvaluateDecision(decision, plan.scenario.decisionOracle));
    var craf := AssessTrial(p, EvidenceOf(plan, arm, critical, oracle, proposed.next.state, decided.result, decision, assessment));
    var final :- CrafClose(p, proposed.next, assessment, craf);
    Ok((CrafMaterial(arm, final.state, x.interaction, x.context, decided.result, decided.context, decision, assessment, craf,
                     final.trace), charged))
  }

  function CrafConclude(p: Platform, material: CrafMaterial): Result<(), RunError> {
    match Verify(p, material.events) case Fail(error) => Err(TraceRefused(error)) case Pass => Ok(())
  }

  /** `_execute_craf_arm` */
  function CrafArmRun(p: Platform, plan: CrafPlan, arm: CrafArm, critical: MemoryRecord, oracle: MemoryOracle, ledger: Budget.Ledger)
    : Result<(CrafMaterial, Budget.Ledger), RunError>
  {
    hide CrafInteract, CrafFinish, CrafConclude;
    var x :- CrafInteract(p, plan, arm, ledger);
    var done :- CrafFinish(p, plan, arm, critical, oracle, x);
    var _ :- CrafConclude(p, done.0);
    Ok(done)
  }

  method CloseCrafArm(adapter: ReferenceMemoryAdapter, assessment: DecisionAssessment, craf: CrafAssessment)
    returns (outcome: Result<(), RunError>)
    requires adapter.Valid()
    modifies adapter`state, adapter`trace
    ensures adapter.Valid()
    ensures match CrafClose(adapter.platform, old(adapter.View()), assessment, craf)
            case Ok(closed) => outcome == Ok(()) && adapter.View() == closed
            case Err(error) => outcome == Err(error)
  {
    hide Record, SuppressionPayload, EvaluatedPayload, CrafCompletedPayload;
    if craf.classification == CORE_CRAF {
      var noted := adapter.RecordEvent(CRITICAL_MEMORY_SUPPRESSION, EVALUATOR, SuppressionPayload(craf), None);
      if noted.Err? { return Err(AdapterFailure(noted.error)); }
    }
    var evaluated := adapter.RecordEvent(ORACLE_EVALUATED, EVALUATOR, EvaluatedPayload(assessment, craf), None);
    if evaluated.Err? { return Err(AdapterFailure(evaluated.error)); }
    var completed := adapter.RecordEvent(EPISODE_COMPLETED, EVALUATOR, CrafCompletedPayload(assessment, craf), None);
    if completed.Err? { return Err(AdapterFailure(completed.error)); }
    return Ok(());
  }

  method InteractCrafArm(p: Platform, plan: CrafPlan, arm: CrafArm, ledger: Budget.Ledger)
    returns (outcome: Result<(RetrievalResult, string, Budget.Ledger), RunError>, adapter: ReferenceMemoryAdapter)
    ensures fresh(adapter) && adapter.Valid() && adapter.platform == p
    ensures match CrafInteract(p, plan, arm, ledger)
            case Ok(x) => outcome == Ok((x.interaction, x.context, x.ledger)) && adapter.View() == x.next
            case Err(error) => outcome == Err(error)
  {
    hide Begin, Ask, Charge, InitialState, CrafPolicy, CrafStartPayload;
    var started := Charge(ledger, Budget.EpisodeStart);
    if started.Err? {
      adapter := new ReferenceMemoryAdapter(p, CrafStart(plan));
      return Err(started.error), adapter;
    }
    var begun: Result<(), RunError>;
    begun, adapter := BeginArm(p, CrafStart(plan), CrafStartPayload(plan, arm), CrafPolicy(plan, arm));
    if begun.Err? { return Err(begun.error), adapter; }
    var charged := Charge(started.value, Budget.RetrievalCall);
    if charged.Err? { return Err(charged.error), adapter; }
    var asked := AskAdapter(adapter, plan.interactionQuery);
    if asked.Err? { return Err(asked.error), adapter; }
    if HitIds(asked.value.0) != [plan.triggerMemoryId] { return Err(UnexpectedHits), adapter; }
    return Ok((asked.value.0, asked.value.1, charged.value)), adapter;
  }

  method FinishCrafArm(adapter: ReferenceMemoryAdapter, plan: CrafPlan, arm: CrafArm, critical: MemoryRecord,
                       oracle: MemoryOracle, interaction: RetrievalResult, context: string, ledger: Budget.Ledger)
    returns (outcome: Result<(CrafMaterial, Budget.Ledger), RunError>)
    requires adapter.Valid()
    modifies adapter`state, adapter`trace
    ensures adapter.Valid()
    ensures outcome == CrafFinish(adapter.platform, plan, arm, critical, oracle,
                                  CrafInteraction(old(adapter.View()), interaction, context, ledger))
  {
    hide Ask, ProposeApproval, Charge, CrafClose, AssessTrial, EvidenceOf, EvaluateDecision, Record, HitIds, DecisionPayload,
         IsSha256;
    var asked :- Charge(ledger, Budget.RetrievalCall);
    var decided :- AskAdapter(adapter, plan.protocol.query);
    var charged :- Charge(asked, Budget.DecisionMade);
    var decision :- Decided(ProposeApproval(plan.scenario.episode, decided.0, plan.scenario.facts, plan.protocol));
    var proposed := adapter.RecordEvent(DECISION, BOTH, DecisionPayload(decision), None);
    if proposed.Err? { return Err(AdapterFailure(proposed.error)); }
    var assessment :- Decided(EvaluateDecision(decision, plan.scenario.decisionOracle));
    var craf := AssessTrial(adapter.platform, EvidenceOf(plan, arm, critical, oracle, adapter.state, decided.0, decision, assessment));
    var closed := CloseCrafArm(adapter, assessment, craf);
    if closed.Err? { return Err(closed.error); }
    return Ok((CrafMaterial(arm, adapter.state, interaction, context, decided.0, decided.1, decision, assessment, craf,
                            adapter.trace), charged));
  }

  method ExecuteCrafArm(p: Platform, plan: CrafPlan, arm: CrafArm, critical: MemoryRecord, oracle: MemoryOracle, ledger: Budget.Ledger)
    returns (outcome: Result<(CrafMaterial, Budget.Ledger), RunError>)
    ensures outcome == CrafArmRun(p, plan, arm, critical, oracle, ledger)
  {
    hide Verify, CrafFinish, CrafInteract;
    var interacted, adapter := InteractCrafArm(p, plan, arm, ledger);
    if interacted.Err? { return Err(interacted.error); }
    var done :- FinishCrafArm(adapter, plan, arm, critical, oracle, interacted.value.0, interacted.value.1, interacted.value.2);
    var verdict := VerifyTrace(p, done.0.events);
    if verdict.Fail? { return Err(TraceRefused(verdict.error)); }
    return Ok(done);
  }

  // ----- the three arms -----

  const CRAF_ARMS: seq<CrafArm> := [CONTROL, VULNERABLE, PROTECTED]

  function CrafArmsRun(p: Platform, plan: CrafPlan, arms: seq<CrafArm>, critical: MemoryRecord, oracle: MemoryOracle,
                       ledger: Budget.Ledger)
    : (ran: Result<(seq<CrafMaterial>, Budget.Ledger), RunError>)
    ensures ran.Ok? ==> |ran.value.0| == |arms|
  {
    hide CrafArmRun;
    if arms == [] then Ok(([], ledger))
    else
      var front :- CrafArmsRun(p, plan, Front(arms), critical, oracle, ledger);
      var last :- CrafArmRun(p, plan, Last(arms), critical, oracle, front.1);
      Ok((front.0 + [last.0], last.1))
  }

  function Assessments(arms: seq<CrafMaterial>): seq<CrafAssessment> {
    seq(|arms|, i requires 0 <= i < |arms| => arms[i].assessment)
  }

  datatype CrafExecution = CrafExecution(arms: seq<CrafMaterial>, comparison: CrafComparison, ledger: Budget.Ledger)

  /** `_execute_craf_reference`, up to the evidence it writes. */
  function CrafExecuted(p: Platform, plan: CrafPlan, ledger: Budget.Ledger): Result<CrafExecution, RunError> {
    hide CrafArmsRun, InitialState, ProtectedCritical, AssessCraf;
    var oracle :- CriticalOracle(plan.scenario);
    var critical :- ProtectedCritical(plan.scenario, CrafStart(plan));
    var ran :- CrafArmsRun(p, plan, CRAF_ARMS, critical, oracle, ledger);
    match AssessCraf(plan.scenario.episode.scenarioId, StateHash(p, CrafStart(plan)), Assessments(ran.0))
    case Err(_) => Err(InvalidComparison)
    case Ok(comparison) => Ok(CrafExecution(ran.0, comparison, ran.1))
  }

  lemma {:induction false} FailedCrafArmDecides(p: Platform, plan: CrafPlan, arms: seq<CrafArm>, critical: MemoryRecord,
                                                oracle: MemoryOracle, ledger: Budget.Ledger, n: nat)
    requires n <= |arms| && CrafArmsRun(p, plan, arms[..n], critical, oracle, ledger).Err?
    ensures CrafArmsRun(p, plan, arms, critical, oracle, ledger) == CrafArmsRun(p, plan, arms[..n], critical, oracle, ledger)
    decreases |arms|
  {
    hide CrafArmRun;
    if n < |arms| {
      assert Front(arms)[..n] == arms[..n];
      FailedCrafArmDecides(p, plan, Front(arms), critical, oracle, ledger, n);
    } else {
      assert arms[..n] == arms;
    }
  }

  method ExecuteCraf(p: Platform, plan: CrafPlan, ledger: Budget.Ledger) returns (outcome: Result<CrafExecution, RunError>)
    ensures outcome == CrafExecuted(p, plan, ledger)
  {
    hide CrafArmRun, InitialState, ProtectedCritical, StateHash, AssessCraf;
    var oracle :- CriticalOracle(plan.scenario);
    var critical :- ProtectedCritical(plan.scenario, CrafStart(plan));
    var materials: seq<CrafMaterial> := [];
    var current := ledger;
    for i := 0 to |CRAF_ARMS|
      invariant CrafArmsRun(p, plan, CRAF_ARMS[..i], critical, oracle, ledger) == Ok((materials, current))
    {
      assert Front(CRAF_ARMS[..i + 1]) == CRAF_ARMS[..i] && Last(CRAF_ARMS[..i + 1]) == CRAF_ARMS[i];
      var ran := ExecuteCrafArm(p, plan, CRAF_ARMS[i], critical, oracle, current);
      if ran.Err? {
        FailedCrafArmDecides(p, plan, CRAF_ARMS, critical, oracle, ledger, i + 1);
        return Err(ran.error);
      }
      materials := materials + [ran.value.0];
      current := ran.value.1;
    }
    assert CRAF_ARMS[..|CRAF_ARMS|] == CRAF_ARMS;
    var comparison := AssessCraf(plan.scenario.episode.scenarioId, StateHash(p, CrafStart(plan)), Assessments(materials));
    if comparison.Err? { return Err(InvalidComparison); }
    return Ok(CrafExecution(materials, comparison.value, current));
  }

  // ----- every finished arm is a run of the adapter -----

  function CrafClosingOps(m: CrafMaterial): seq<Op> {
    (if m.assessment.classification == CORE_CRAF
     then [RecordOp(CRITICAL_MEMORY_SUPPRESSION, EVALUATOR, SuppressionPayload(m.assessment), None)] else [])
    + [RecordOp(ORACLE_EVALUATED, EVALUATOR, EvaluatedPayload(m.decisionAssessment, m.assessment), None),
       RecordOp(EPISODE_COMPLETED, EVALUATOR, CrafCompletedPayload(m.decisionAssessment, m.assessment), None)]
  }

  function CrafOps(plan: CrafPlan, m: CrafMaterial): seq<Op> {
    BeginOps(CrafStartPayload(plan, m.arm), CrafPolicy(plan, m.arm))
    + AskOps(plan.interactionQuery, m.interaction) + AskOps(plan.protocol.query, m.decided)
    + [RecordOp(DECISION, BOTH, DecisionPayload(m.decision), None)] + CrafClosingOps(m)
  }

  lemma CrafCloseIsARun(p: Platform, a: AdapterState, m: CrafMaterial)
    requires CrafClose(p, a, m.decisionAssessment, m.assessment).Ok?
    ensures CrafClose(p, a, m.decisionAssessment, m.assessment).value == Run(p, a, CrafClosingOps(m))
  {
    hide Record, Run, SuppressionPayload, EvaluatedPayload, CrafCompletedPayload;
    var note := RecordOp(CRITICAL_MEMORY_SUPPRESSION, EVALUATOR, SuppressionPayload(m.assessment), None);
    var evaluate := RecordOp(ORACLE_EVALUATED, EVALUATOR, EvaluatedPayload(m.decisionAssessment, m.assessment), None);
    var complete := RecordOp(EPISODE_COMPLETED, EVALUATOR, CrafCompletedPayload(m.decisionAssessment, m.assessment), None);
    var noted := NoteSuppression(p, a, m.assessment).value;
    RunOfOne(p, a, note);
    RunOfTwo(p, noted, evaluate, complete);
    RunConcat(p, a, [note], [evaluate, complete]);
    assert [] + [evaluate, complete] == [evaluate, complete];
  }

  lemma CrafInteractIsARun(p: Platform, plan: CrafPlan, arm: CrafArm, ledger: Budget.Ledger)
    requires CrafInteract(p, plan, arm, ledger).Ok?
    ensures var x := CrafInteract(p, plan, arm, ledger).value;
            x.next == Run(p, Run(p, Fresh(CrafStart(plan)), BeginOps(CrafStartPayload(plan, arm), CrafPolicy(plan, arm))),
                          AskOps(plan.interactionQuery, x.interaction))
  {
    hide Run, Begin, Ask, Charge, CrafStart, CrafStartPayload, CrafPolicy, BeginOps, AskOps, HitIds;
    BeginIsARun(p, CrafStart(plan), CrafStartPayload(plan, arm), CrafPolicy(plan, arm));
    AskIsARun(p, Begin(p, CrafStart(plan), CrafStartPayload(plan, arm), CrafPolicy(plan, arm)).value, plan.interactionQuery);
  }

  lemma CrafFinishIsARun(p: Platform, plan: CrafPlan, arm: CrafArm, critical: MemoryRecord, oracle: MemoryOracle, ledger: Budget.Ledger)
    requires CrafInteract(p, plan, arm, ledger).Ok?
    requires CrafFinish(p, plan, arm, critical, oracle, CrafInteract(p, plan, arm, ledger).value).Ok?
    ensures var m := CrafFinish(p, plan, arm, critical, oracle, CrafInteract(p, plan, arm, ledger).value).value.0;
            m.arm == arm && Run(p, Fresh(CrafStart(plan)), CrafOps(plan, m)) == RawAdapter(m.finalState, m.events)
  {
    hide Run, CrafInteract, Ask, CrafClose, ProposeApproval, Charge, CrafStart, CrafClosingOps, CrafStartPayload, CrafPolicy,
         BeginOps, AskOps, AssessTrial, EvidenceOf, Record, EvaluateDecision, HitIds, DecisionPayload, IsSha256;
    var x := CrafInteract(p, plan, arm, ledger).value;
    var m := CrafFinish(p, plan, arm, critical, oracle, x).value.0;
    CrafInteractIsARun(p, plan, arm, ledger);
    AskIsARun(p, x.next, plan.protocol.query);
    var c := Ask(p, x.next, plan.protocol.query).value.next;
    RunOfOne(p, c, RecordOp(DECISION, BOTH, DecisionPayload(m.decision), None));
    CrafCloseIsARun(p, Record(p, c, DECISION, BOTH, DecisionPayload(m.decision), None).next, m);
    RunInParts(p, Fresh(CrafStart(plan)), BeginOps(CrafStartPayload(plan, arm), CrafPolicy(plan, arm)),
               AskOps(plan.interactionQuery, m.interaction), AskOps(plan.protocol.query, m.decided),
               [RecordOp(DECISION, BOTH, DecisionPayload(m.decision), None)], CrafClosingOps(m));
  }

  lemma CrafFinishVerifiesAndReplays(p: Platform, plan: CrafPlan, arm: CrafArm, critical: MemoryRecord, oracle: MemoryOracle,
                                     ledger: Budget.Ledger)
    requires CrafInteract(p, plan, arm, ledger).Ok?
    requires CrafFinish(p, plan, arm, critical, oracle, CrafInteract(p, plan, arm, ledger).value).Ok?
    ensures var m := CrafFinish(p, plan, arm, critical, oracle, CrafInteract(p, plan, arm, ledger).value).value.0;
            Accepted(p, m.events) && ReplayAll(p, CrafStart(plan), m.events) == Ok(m.finalState)
  {
    hide Run, CrafInteract, CrafFinish, ReplayAll, Accepted, CrafOps;
    CrafFinishIsARun(p, plan, arm, critical, oracle, ledger);
    var m := CrafFinish(p, plan, arm, critical, oracle, CrafInteract(p, plan, arm, ledger).value).value.0;
    CrafOpsReplayable(plan, m);
    RunVerifiesAndReplays(p, CrafStart(plan), CrafOps(plan, m));
  }

  lemma CrafOpsReplayable(plan: CrafPlan, m: CrafMaterial)
    ensures forall i | 0 <= i < |CrafOps(plan, m)| :: Replayable(CrafOps(plan, m)[i])
  {
    hide CrafStartPayload, CrafPolicy, DecisionPayload, SuppressionPayload, EvaluatedPayload, CrafCompletedPayload;
  }

  /** Every completed CRAF arm's trace is accepted, and replays from the shared snapshot to the recorded final state. */
  lemma CrafArmVerifiesAndReplays(p: Platform, plan: CrafPlan, arm: CrafArm, critical: MemoryRecord, oracle: MemoryOracle,
                                  ledger: Budget.Ledger)
    requires CrafArmRun(p, plan, arm, critical, oracle, ledger).Ok?
    ensures var m := CrafArmRun(p, plan, arm, critical, oracle, ledger).value.0;
            Accepted(p, m.events) && ReplayAll(p, CrafStart(plan), m.events) == Ok(m.finalState)
  {
    hide CrafInteract, CrafFinish, ReplayAll, Accepted, CrafStart;
    CrafFinishVerifiesAndReplays(p, plan, arm, critical, oracle, ledger);
  }

  // ----- what a completed execution has charged -----

  /** A completed arm has charged one episode, two retrievals and one decision: four logical steps. */
  lemma CrafArmCharges(p: Platform, plan: CrafPlan, arm: CrafArm, critical: MemoryRecord, oracle: MemoryOracle, l: Budget.Ledger)
    requires Budget.WithinLimits(l) && CrafArmRun(p, plan, arm, critical, oracle, l).Ok?
    ensures CrafArmRun(p, plan, arm, critical, oracle, l).value.1 == Budget.Plus(l, 1, 2, 4)
    ensures Budget.WithinLimits(CrafArmRun(p, plan, arm, critical, oracle, l).value.1)
  {
    hide Begin, Ask, ProposeApproval, Charge, CrafClose, AssessTrial, EvidenceOf, EvaluateDecision, Record, HitIds, CrafConclude,
         CrafStart, CrafStartPayload, CrafPolicy, DecisionPayload, Budget.WithinLimits;
    ChargeMoves(l, Budget.EpisodeStart);
    var a := Charge(l, Budget.EpisodeStart).value;
    ChargeMoves(a, Budget.RetrievalCall);
    var b := Charge(a, Budget.RetrievalCall).value;
    ChargeMoves(b, Budget.RetrievalCall);
    var c := Charge(b, Budget.RetrievalCall).value;
    ChargeMoves(c, Budget.DecisionMade);
  }

  lemma {:induction false} CrafArmsCharge(p: Platform, plan: CrafPlan, arms: seq<CrafArm>, critical: MemoryRecord,
                                          oracle: MemoryOracle, l: Budget.Ledger)
    requires Budget.WithinLimits(l) && CrafArmsRun(p, plan, arms, critical, oracle, l).Ok?
    ensures CrafArmsRun(p, plan, arms, critical, oracle, l).value.1 == Budget.Plus(l, |arms|, 2 * |arms|, 4 * |arms|)
    ensures Budget.WithinLimits(CrafArmsRun(p, plan, arms, critical, oracle, l).value.1)
  {
    hide CrafArmRun, Budget.WithinLimits;
    if arms == [] {
      assert Budget.Plus(l, 0, 0, 0) == l;
    } else {
      CrafArmsCharge(p, plan, Front(arms), critical, oracle, l);
      var front := CrafArmsRun(p, plan, Front(arms), critical, oracle, l).value.1;
      CrafArmCharges(p, plan, Last(arms), critical, oracle, front);
      var n := |arms| - 1;
      assert Budget.Plus(Budget.Plus(l, n, 2 * n, 4 * n), 1, 2, 4) == Budget.Plus(l, n + 1, 2 * (n + 1), 4 * (n + 1));
    }
  }

  /** Whatever its scenario, a completed CRAF execution has charged 3 episodes, 6 retrievals and 3 decisions: 12 logical steps. */
  lemma CrafCharges(p: Platform, plan: CrafPlan, l: Budget.Ledger)
    requires Budget.WithinLimits(l) && CrafExecuted(p, plan, l).Ok?
    ensures CrafExecuted(p, plan, l).value.ledger == Budget.Plus(l, 3, 6, 12)
  {
    hide CrafArmsRun, CrafStart, ProtectedCritical, AssessCraf, Budget.WithinLimits, Budget.Plus;
    CrafArmsCharge(p, plan, CRAF_ARMS, CriticalOracleMemory(plan), CriticalOracle(plan.scenario).value, l);
  }

  /** The critical source record a completed execution found. */
  function CriticalOracleMemory(plan: CrafPlan): MemoryRecord
    requires ProtectedCritical(plan.scenario, CrafStart(plan)).Ok?
  {
    ProtectedCritical(plan.scenario, CrafStart(plan)).value
  }
}
