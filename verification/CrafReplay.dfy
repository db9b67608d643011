/** Replaying one CRAF arm from its retained documents alone (replay.py), against the execution that wrote them. */
module CrafReplay {
  import opened Basics
  import opened Json
  import opened Text
  import opened Bytes
  import opened Models
  import opened Decoding
  import opened Trace
  import opened Decisions
  import opened ReferenceMemory
  import opened Replay
  import opened AdapterRuns
  import opened Runs
  import opened Recorded
  import opened Retained
  import opened Craf
  import opened CrafRun
  import Budget

  // ----- the documents of one arm -----

  /** What the bundle retains of an arm. */
  datatype CrafDocuments = CrafDocuments(events: seq<Json>, finalState: Json, interaction: Fields, retrieval: Fields,
                                         context: Fields, decision: Fields, decisionAssessment: Fields, assessment: Fields)

  /** What the writer retains of a completed arm. */
  function CrafDocumentsOf(plan: CrafPlan, m: CrafMaterial): CrafDocuments {
    CrafDocuments(
      EventsToJson(m.events), StateToJson(m.finalState),
      map["query" := QueryToJson(plan.interactionQuery), "result" := ResultToJson(m.interaction),
          "context" := Str(m.interactionContext)],
      map["query" := QueryToJson(plan.protocol.query), "result" := ResultToJson(m.decided)],
      map["context" := Str(m.decidedContext)],
      DecisionToJson(m.decision).fields,
      DecisionAssessmentToJson(m.decisionAssessment).fields,
      CrafAssessmentToJson(m.assessment).fields)
  }

  // ----- replaying one arm -----

  /** `_verify_source_assessment` does not raise. */
  predicate SourcesAgree(p: Platform, initial: StateSnapshot, final: StateSnapshot, assessment: Fields) {
    match Get(assessment, "critical_memory_id")
    case Str(id) =>
      var first, last := FindMemory(initial.sourceMemories, id), FindMemory(final.sourceMemories, id);
      && first.Some? && last.Some?
      && Get(assessment, "initial_source_sha256") == Str(SourceDigest(p, first.value))
      && Get(assessment, "final_source_sha256") == Str(SourceDigest(p, last.value))
      && SourceDigest(p, first.value) == SourceDigest(p, last.value)
    case _ => false
  }

  /** `_verify_arm_output_events` does not raise. */
  predicate OutputsAgree(events: seq<TraceEvent>, d: CrafDocuments) {
    var retrievals, contexts, decisions :=
      PayloadsOf(events, RETRIEVAL_COMPLETED), PayloadsOf(events, CONTEXT_ASSEMBLED), PayloadsOf(events, DECISION);
    && |retrievals| == 2 && |contexts| == 2 && |decisions| == 1
    && SameAt(retrievals[0], "result", d.interaction) && SameAt(retrievals[1], "result", d.retrieval)
    && SameAt(contexts[0], "context", d.interaction) && SameAt(contexts[1], "context", d.context)
    && PyEq(Get(decisions[0], "decision"), Obj(d.decision))
  }

  /** `_rescore_arm_decision` does not raise, of the given action. */
  predicate Rescores(d: CrafDocuments, action: string, safeActions: seq<string>) {
    && Get(d.decisionAssessment, "safe") == Bool(action in safeActions)
    && Get(d.assessment, "decision_safe") == Bool(action in safeActions)
  }

  /** `_verify_craf_localization` does not raise: the three flags are those of the outputs, and the source is preserved. */
  predicate Localizes(d: CrafDocuments) {
    match (Get(d.assessment, "critical_memory_id"), Get(d.context, "context"), Get(d.decision, "rationale_memory_ids"))
    case (Str(id), Str(text), Arr(items)) =>
      var retrieved, rationale := RecordedIds(Get(d.retrieval, "result")), StringItems(items, "rationale_memory_id");
      && retrieved.Some? && rationale.Ok?
      && Get(d.assessment, "retrieved") == Bool(id in retrieved.value)
      && Get(d.assessment, "presented") == Bool(Mentioned(id, text))
      && Get(d.assessment, "used_by_decision") == Bool(id in rationale.value)
      && Get(d.assessment, "source_preserved") == Bool(true)
    case _ => false
  }

  /** `CrafArmReplay` */
  datatype CrafArmReplay = CrafArmReplay(arm: CrafArm, eventCount: nat, finalState: StateSnapshot, action: string, told: Retold)

  /** `_replay_craf_arm` */
  function ReplayCrafArm(p: Platform, initial: StateSnapshot, arm: CrafArm, d: CrafDocuments, safeActions: seq<string>)
    : Result<CrafArmReplay, ReplayError>
  {
    hide Reconstructed, SourcesAgree, OutputsAgree, Rescores, Localizes;
    var rebuilt :- Reconstructed(p, initial, d.events, d.finalState);
    if !SourcesAgree(p, initial, rebuilt.1, d.assessment) then Err(WrongSources)
    else if !OutputsAgree(rebuilt.0, d) then Err(WrongOutputs)
    else
      var action :- Readable(ReadString(d.decision, "action"));
      if !Rescores(d, action, safeActions) then Err(WrongAssessment)
      else if !Localizes(d) then Err(Mislocalized)
      else
        var classification :- Readable(ReadString(d.assessment, "classification"));
        var stage :- Readable(ReadString(d.assessment, "loss_stage"));
        Ok(CrafArmReplay(arm, |rebuilt.0|, rebuilt.1, action, Retold(classification, stage, action in safeActions)))
  }

  // ----- what a completed arm recorded -----

  /** What a finished arm's trace has recorded. */
  predicate RecordsCrafArm(plan: CrafPlan, m: CrafMaterial) {
    && PayloadsOf(m.events, RETRIEVAL_COMPLETED) ==
       [CompletedPayload(plan.interactionQuery, m.interaction), CompletedPayload(plan.protocol.query, m.decided)]
    && PayloadsOf(m.events, CONTEXT_ASSEMBLED) ==
       [ContextPayload(m.interaction, m.interactionContext), ContextPayload(m.decided, m.decidedContext)]
    && PayloadsOf(m.events, DECISION) == [DecisionPayload(m.decision)]
  }

  /** What an interaction is made of. */
  lemma InteractionParts(p: Platform, plan: CrafPlan, arm: CrafArm, ledger: Budget.Ledger)
    requires CrafInteract(p, plan, arm, ledger).Ok?
    ensures var begun := Begin(p, CrafStart(plan), CrafStartPayload(plan, arm), CrafPolicy(plan, arm));
            var x := CrafInteract(p, plan, arm, ledger).value;
            && begun.Ok? && Ask(p, begun.value, plan.interactionQuery).Ok?
            && var r := Ask(p, begun.value, plan.interactionQuery).value;
               x.next == r.next && x.interaction == r.result && x.context == r.context
  {
    hide Begin, Ask, Charge, CrafStart, CrafStartPayload, CrafPolicy, HitIds;
  }

  /** One ask after a beginning. */
  predicate HoldsOne(trace: seq<TraceEvent>, retrieval: Fields, context: Fields) {
    && PayloadsOf(trace, RETRIEVAL_COMPLETED) == [retrieval] && PayloadsOf(trace, CONTEXT_ASSEMBLED) == [context]
    && PayloadsOf(trace, DECISION) == []
  }

  lemma InteractionRecords(p: Platform, plan: CrafPlan, arm: CrafArm, ledger: Budget.Ledger)
    requires CrafInteract(p, plan, arm, ledger).Ok?
    ensures var x := CrafInteract(p, plan, arm, ledger).value;
            HoldsOne(x.next.trace, CompletedPayload(plan.interactionQuery, x.interaction), ContextPayload(x.interaction, x.context))
  {
    hide CrafInteract, Begin, Ask, CrafStart, CrafStartPayload, CrafPolicy, CompletedPayload, ContextPayload, PayloadsOf, Adds,
         IsSha256;
    InteractionParts(p, plan, arm, ledger);
    var begun := Begin(p, CrafStart(plan), CrafStartPayload(plan, arm), CrafPolicy(plan, arm)).value;
    var r := Ask(p, begun, plan.interactionQuery).value;
    BeginUnrecorded(p, CrafStart(plan), CrafStartPayload(plan, arm), CrafPolicy(plan, arm));
    AskRecords(p, begun, plan.interactionQuery);
    FromNothing(begun, r.next, RETRIEVAL_COMPLETED, [CompletedPayload(plan.interactionQuery, r.result)]);
    FromNothing(begun, r.next, CONTEXT_ASSEMBLED, [ContextPayload(r.result, r.context)]);
    FromNothing(begun, r.next, DECISION, []);
  }

  /** What a finished arm's material is made of. */
  lemma FinishedParts(p: Platform, plan: CrafPlan, arm: CrafArm, critical: MemoryRecord, oracle: MemoryOracle, x: CrafInteraction)
    requires CrafFinish(p, plan, arm, critical, oracle, x).Ok?
    ensures Ask(p, x.next, plan.protocol.query).Ok?
    ensures var m := CrafFinish(p, plan, arm, critical, oracle, x).value.0;
            var r := Ask(p, x.next, plan.protocol.query).value;
            var proposed := Record(p, r.next, DECISION, BOTH, DecisionPayload(m.decision), None);
            var closed := CrafClose(p, proposed.next, m.decisionAssessment, m.assessment);
            && m.arm == arm && m.interaction == x.interaction && m.interactionContext == x.context
            && m.decided == r.result && m.decidedContext == r.context && proposed.outcome.Ok?
            && EvaluateDecision(m.decision, plan.scenario.decisionOracle) == Ok(m.decisionAssessment)
            && m.assessment == AssessTrial(p, EvidenceOf(plan, arm, critical, oracle, proposed.next.state, m.decided, m.decision,
                                                         m.decisionAssessment))
            && closed.Ok? && m.events == closed.value.trace
  {
    hide Ask, ProposeApproval, Charge, CrafClose, AssessTrial, EvidenceOf, EvaluateDecision, Record, HitIds, DecisionPayload;
  }

  /** What closing an arm is made of. */
  lemma ClosingParts(p: Platform, a: AdapterState, assessment: DecisionAssessment, craf: CrafAssessment)
    requires CrafClose(p, a, assessment, craf).Ok?
    ensures var noted := Record(p, a, CRITICAL_MEMORY_SUPPRESSION, EVALUATOR, SuppressionPayload(craf), None).next;
            var before := if craf.classification == CORE_CRAF then noted else a;
            var evaluated := Record(p, before, ORACLE_EVALUATED, EVALUATOR, EvaluatedPayload(assessment, craf), None).next;
            CrafClose(p, a, assessment, craf).value ==
            Record(p, evaluated, EPISODE_COMPLETED, EVALUATOR, CrafCompletedPayload(assessment, craf), None).next
  {
    hide Record, SuppressionPayload, EvaluatedPayload, CrafCompletedPayload;
  }

  lemma AddsNothingInTurn(a: AdapterState, b: AdapterState, c: AdapterState, t: EventType)
    requires Adds(a, b, t, []) && Adds(b, c, t, [])
    ensures Adds(a, c, t, [])
  {
    hide Adds, IsSha256;
    var none: seq<Fields> := [];
    assert none + none == none;
    AddsInTurn(a, b, c, t, [], []);
  }

  /** Closing adds none of the events an arm's outputs are checked against. */
  lemma ClosingAddsNothing(p: Platform, a: AdapterState, assessment: DecisionAssessment, craf: CrafAssessment, t: EventType)
    requires CrafClose(p, a, assessment, craf).Ok? && t in {RETRIEVAL_COMPLETED, CONTEXT_ASSEMBLED, DECISION}
    ensures Adds(a, CrafClose(p, a, assessment, craf).value, t, [])
  {
    hide Record, CrafClose, Adds, SuppressionPayload, EvaluatedPayload, CrafCompletedPayload, IsSha256;
    ClosingParts(p, a, assessment, craf);
    var noted := Record(p, a, CRITICAL_MEMORY_SUPPRESSION, EVALUATOR, SuppressionPayload(craf), None).next;
    var before := if craf.classification == CORE_CRAF then noted else a;
    var evaluated := Record(p, before, ORACLE_EVALUATED, EVALUATOR, EvaluatedPayload(assessment, craf), None).next;
    AddsNothing(a, t);
    RecordOther(p, a, CRITICAL_MEMORY_SUPPRESSION, EVALUATOR, SuppressionPayload(craf), None, t);
    RecordOther(p, before, ORACLE_EVALUATED, EVALUATOR, EvaluatedPayload(assessment, craf), None, t);
    RecordOther(p, evaluated, EPISODE_COMPLETED, EVALUATOR, CrafCompletedPayload(assessment, craf), None, t);
    AddsNothingInTurn(a, before, evaluated, t);
    AddsNothingInTurn(a, evaluated, CrafClose(p, a, assessment, craf).value, t);
  }

  lemma FinishingGrows(p: Platform, plan: CrafPlan, arm: CrafArm, critical: MemoryRecord, oracle: MemoryOracle, x: CrafInteraction,
                       t: EventType)
    requires CrafFinish(p, plan, arm, critical, oracle, x).Ok? && t in {RETRIEVAL_COMPLETED, CONTEXT_ASSEMBLED, DECISION}
    ensures var m := CrafFinish(p, plan, arm, critical, oracle, x).value.0;
            PayloadsOf(m.events, t) ==
            PayloadsOf(x.next.trace, t)
            + (Only(t == RETRIEVAL_COMPLETED, CompletedPayload(plan.protocol.query, m.decided))
               + Only(t == CONTEXT_ASSEMBLED, ContextPayload(m.decided, m.decidedContext)))
            + Only(t == DECISION, DecisionPayload(m.decision))
  {
    hide CrafFinish, Ask, CrafClose, Record, AssessTrial, EvidenceOf, EvaluateDecision, CompletedPayload, ContextPayload,
         DecisionPayload, PayloadsOf, Adds, Only, IsSha256;
    FinishedParts(p, plan, arm, critical, oracle, x);
    var m := CrafFinish(p, plan, arm, critical, oracle, x).value.0;
    var r := Ask(p, x.next, plan.protocol.query).value;
    var proposed := Record(p, r.next, DECISION, BOTH, DecisionPayload(m.decision), None).next;
    var closed := CrafClose(p, proposed, m.decisionAssessment, m.assessment).value;
    var asked := Only(t == RETRIEVAL_COMPLETED, CompletedPayload(plan.protocol.query, m.decided))
                 + Only(t == CONTEXT_ASSEMBLED, ContextPayload(m.decided, m.decidedContext));
    var decided := Only(t == DECISION, DecisionPayload(m.decision));
    AskRecordsOf(p, x.next, plan.protocol.query, t);
    RecordRecords(p, r.next, DECISION, BOTH, DecisionPayload(m.decision), None, t);
    ClosingAddsNothing(p, proposed, m.decisionAssessment, m.assessment, t);
    AddsInTurn(r.next, proposed, closed, t, decided, []);
    assert decided + [] == decided;
    Grows(x.next, r.next, closed, t, asked, decided);
  }

  lemma FinishedRecords(p: Platform, plan: CrafPlan, arm: CrafArm, critical: MemoryRecord, oracle: MemoryOracle, ledger: Budget.Ledger)
    requires CrafInteract(p, plan, arm, ledger).Ok?
    requires CrafFinish(p, plan, arm, critical, oracle, CrafInteract(p, plan, arm, ledger).value).Ok?
    ensures RecordsCrafArm(plan, CrafFinish(p, plan, arm, critical, oracle, CrafInteract(p, plan, arm, ledger).value).value.0)
  {
    hide CrafInteract, CrafFinish, Ask, CrafClose, Record, AssessTrial, EvidenceOf, EvaluateDecision, CompletedPayload,
         ContextPayload, DecisionPayload, PayloadsOf, Only, IsSha256;
    var x := CrafInteract(p, plan, arm, ledger).value;
    var m := CrafFinish(p, plan, arm, critical, oracle, x).value.0;
    FinishedParts(p, plan, arm, critical, oracle, x);
    InteractionRecords(p, plan, arm, ledger);
    var c, k, d := CompletedPayload(plan.protocol.query, m.decided), ContextPayload(m.decided, m.decidedContext),
                   DecisionPayload(m.decision);
    FinishingGrows(p, plan, arm, critical, oracle, x, RETRIEVAL_COMPLETED);
    FinishingGrows(p, plan, arm, critical, oracle, x, CONTEXT_ASSEMBLED);
    FinishingGrows(p, plan, arm, critical, oracle, x, DECISION);
    OneOfThree(PayloadsOf(x.next.trace, RETRIEVAL_COMPLETED), c, k, d);
    OneOfThree(PayloadsOf(x.next.trace, CONTEXT_ASSEMBLED), c, k, d);
    OneOfThree(PayloadsOf(x.next.trace, DECISION), c, k, d);
  }

  // ----- the world an arm decides in -----

  /** The calls before the decision retrieval. */
  function OpeningOps(plan: CrafPlan, arm: CrafArm, interaction: RetrievalResult): seq<Op> {
    BeginOps(CrafStartPayload(plan, arm), CrafPolicy(plan, arm)) + AskOps(plan.interactionQuery, interaction)
  }

  /** The calls of the decision, as a run. */
  function DecidingOps(plan: CrafPlan, decided: RetrievalResult, decision: ProposedDecision): seq<Op> {
    AskOps(plan.protocol.query, decided) + [RecordOp(DECISION, BOTH, DecisionPayload(decision), None)]
  }

  lemma OpeningIsARun(p: Platform, plan: CrafPlan, arm: CrafArm, ledger: Budget.Ledger)
    requires CrafInteract(p, plan, arm, ledger).Ok?
    ensures var x := CrafInteract(p, plan, arm, ledger).value;
            x.next == Run(p, Fresh(CrafStart(plan)), OpeningOps(plan, arm, x.interaction))
  {
    hide Run, CrafInteract, CrafStart, CrafStartPayload, CrafPolicy, BeginOps, AskOps;
    CrafInteractIsARun(p, plan, arm, ledger);
    RunConcat(p, Fresh(CrafStart(plan)), BeginOps(CrafStartPayload(plan, arm), CrafPolicy(plan, arm)),
              AskOps(plan.interactionQuery, CrafInteract(p, plan, arm, ledger).value.interaction));
  }

  lemma OpsAreReplayable(plan: CrafPlan, arm: CrafArm, interaction: RetrievalResult, decided: RetrievalResult, decision: ProposedDecision)
    ensures var ops := OpeningOps(plan, arm, interaction) + [RetrieveOp(plan.protocol.query)];
            forall i | 0 <= i < |ops| :: Replayable(ops[i])
    ensures var ops := OpeningOps(plan, arm, interaction) + DecidingOps(plan, decided, decision);
            forall i | 0 <= i < |ops| :: Replayable(ops[i])
  {
    hide CrafStartPayload, CrafPolicy, DecisionPayload;
  }

  lemma DecidingIsARun(p: Platform, plan: CrafPlan, a: AdapterState, decision: ProposedDecision)
    requires Ask(p, a, plan.protocol.query).Ok?
    ensures var r := Ask(p, a, plan.protocol.query).value;
            Record(p, r.next, DECISION, BOTH, DecisionPayload(decision), None).next ==
            Run(p, a, DecidingOps(plan, r.result, decision))
  {
    hide Run, Ask, Record, AskOps, DecisionPayload;
    var r := Ask(p, a, plan.protocol.query).value;
    AskIsARun(p, a, plan.protocol.query);
    RunOfOne(p, r.next, RecordOp(DECISION, BOTH, DecisionPayload(decision), None));
    RunConcat(p, a, AskOps(plan.protocol.query, r.result), [RecordOp(DECISION, BOTH, DecisionPayload(decision), None)]);
  }

  /** The sources and the time are the shared snapshot's when the arm retrieves for its decision, and when it has decided. */
  lemma DecidesInSharedWorld(p: Platform, plan: CrafPlan, arm: CrafArm, ledger: Budget.Ledger, decision: ProposedDecision)
    requires CrafInteract(p, plan, arm, ledger).Ok?
    requires Ask(p, CrafInteract(p, plan, arm, ledger).value.next, plan.protocol.query).Ok?
    ensures var a := CrafInteract(p, plan, arm, ledger).value.next;
            var r := Ask(p, a, plan.protocol.query).value;
            && SameWorld(CrafStart(plan), Retrieval(p, a, plan.protocol.query).next.state)
            && SameWorld(CrafStart(plan), Record(p, r.next, DECISION, BOTH, DecisionPayload(decision), None).next.state)
  {
    hide Run, CrafInteract, Ask, Record, Retrieval, CrafStart, OpeningOps, DecidingOps, DecisionPayload, Replayable;
    var x := CrafInteract(p, plan, arm, ledger).value;
    var r := Ask(p, x.next, plan.protocol.query).value;
    OpeningIsARun(p, plan, arm, ledger);
    OpsAreReplayable(plan, arm, x.interaction, r.result, decision);
    RunKeepsWorld(p, CrafStart(plan), OpeningOps(plan, arm, x.interaction), [RetrieveOp(plan.protocol.query)]);
    RunOfRetrieval(p, x.next, plan.protocol.query);
    DecidingIsARun(p, plan, x.next, decision);
    RunKeepsWorld(p, CrafStart(plan), OpeningOps(plan, arm, x.interaction), DecidingOps(plan, r.result, decision));
  }

  lemma RunOfRetrieval(p: Platform, a: AdapterState, q: RetrievalQuery)
    ensures Run(p, a, [RetrieveOp(q)]) == Retrieval(p, a, q).next
  {
    hide Run, Retrieval;
    RunOfOne(p, a, RetrieveOp(q));
  }

  // ----- what a completed arm guarantees -----

  /** The assessment's fields, in terms of the plan and the arm's own outputs. */
  predicate AssessedFrom(p: Platform, plan: CrafPlan, critical: MemoryRecord, oracle: MemoryOracle, m: CrafMaterial) {
    var a := m.assessment;
    && a.arm == m.arm && a.criticalMemoryId == oracle.memoryId
    && a.initialSourceSha256 == SourceDigest(p, critical) && a.finalSourceSha256 == Some(SourceDigest(p, critical))
    && a.sourcePreserved
    && a.oracleTruth == oracle.truth && a.oracleValid == ValidAt(oracle, plan.scenario.logicalTime)
    && a.oracleApplicable == OracleApplicable(plan, oracle)
    && a.retrieved == (oracle.memoryId in HitIds(m.decided)) && a.presented == (oracle.memoryId in HitIds(m.decided))
    && a.usedByDecision == (oracle.memoryId in m.decision.rationale)
    && a.decisionSafe == m.decisionAssessment.safe && (a.classification == CORE_CRAF ==> !a.decisionSafe)
  }

  /** The decision context is that of the decision hits, read from the shared sources. */
  predicate ContextBelongs(plan: CrafPlan, m: CrafMaterial) {
    && (forall i | 0 <= i < |m.decided.hits| :: m.decided.hits[i].memoryId in ById(plan.scenario.memories))
    && m.decidedContext == ContextOf(ById(plan.scenario.memories), m.decided)
  }

  lemma AssessedInSharedWorld(p: Platform, plan: CrafPlan, arm: CrafArm, critical: MemoryRecord, oracle: MemoryOracle,
                              s: StateSnapshot, decided: RetrievalResult, decision: ProposedDecision, assessment: DecisionAssessment)
    requires SameWorld(CrafStart(plan), s) && FindMemory(plan.scenario.memories, oracle.memoryId) == Some(critical)
    ensures var e := EvidenceOf(plan, arm, critical, oracle, s, decided, decision, assessment);
            var a := AssessTrial(p, e);
            && SourcePreserved(p, e) && a.arm == arm && a.criticalMemoryId == oracle.memoryId
            && a.initialSourceSha256 == SourceDigest(p, critical) && a.finalSourceSha256 == Some(SourceDigest(p, critical))
            && a.sourcePreserved && a.oracleTruth == oracle.truth
            && a.oracleValid == ValidAt(oracle, plan.scenario.logicalTime) && a.oracleApplicable == OracleApplicable(plan, oracle)
            && a.retrieved == (oracle.memoryId in HitIds(decided)) && a.presented == (oracle.memoryId in HitIds(decided))
            && a.usedByDecision == (oracle.memoryId in decision.rationale) && a.decisionSafe == assessment.safe
  {
    hide FindMemory, MemoryToJson, ValidAt, OracleApplicable, HitIds, Exclusion, Craf.Outcome, NonBlank;
    StartsFromScenario(plan);
  }

  lemma StartsFromScenario(plan: CrafPlan)
    ensures CrafStart(plan).sourceMemories == plan.scenario.memories && CrafStart(plan).logicalTime == plan.scenario.logicalTime
    ensures CrafStart(plan).nextEventSequence == 0
  {
    hide NonBlank;
  }

  /** The critical memory and its oracle, as the execution finds them. */
  predicate Critically(plan: CrafPlan, critical: MemoryRecord, oracle: MemoryOracle) {
    && CriticalOracle(plan.scenario) == Ok(oracle)
    && FindMemory(plan.scenario.memories, oracle.memoryId) == Some(critical)
  }

  /** What an arm run guarantees of its material. */
  predicate Guaranteed(p: Platform, plan: CrafPlan, critical: MemoryRecord, oracle: MemoryOracle, m: CrafMaterial) {
    && RecordsCrafArm(plan, m) && ContextBelongs(plan, m) && AssessedFrom(p, plan, critical, oracle, m)
    && EvaluateDecision(m.decision, plan.scenario.decisionOracle) == Ok(m.decisionAssessment)
    && Accepted(p, m.events) && ReplayAll(p, CrafStart(plan), m.events) == Ok(m.finalState)
    && m.finalState.sourceMemories == CrafStart(plan).sourceMemories
  }

  lemma FinishedGuarantees(p: Platform, plan: CrafPlan, arm: CrafArm, critical: MemoryRecord, oracle: MemoryOracle,
                           ledger: Budget.Ledger)
    requires Critically(plan, critical, oracle) && CrafInteract(p, plan, arm, ledger).Ok?
    requires CrafFinish(p, plan, arm, critical, oracle, CrafInteract(p, plan, arm, ledger).value).Ok?
    ensures var m := CrafFinish(p, plan, arm, critical, oracle, CrafInteract(p, plan, arm, ledger).value).value.0;
            m.arm == arm && ContextBelongs(plan, m) && AssessedFrom(p, plan, critical, oracle, m)
  {
    hide CrafInteract, CrafFinish, Ask, Retrieval, CrafClose, Record, AssessTrial, EvidenceOf, EvaluateDecision, DecisionPayload,
         CrafStart, FindMemory, CriticalOracle, OracleApplicable, ValidAt, HitIds, ById, ContextLines, Join, MemoryToJson,
         SourcePreserved, TestsRecall;
    var x := CrafInteract(p, plan, arm, ledger).value;
    var m := CrafFinish(p, plan, arm, critical, oracle, x).value.0;
    FinishedParts(p, plan, arm, critical, oracle, x);
    var r := Ask(p, x.next, plan.protocol.query).value;
    var s := Record(p, r.next, DECISION, BOTH, DecisionPayload(m.decision), None).next.state;
    DecidesInSharedWorld(p, plan, arm, ledger, m.decision);
    StartsFromScenario(plan);
    AskContext(p, x.next, plan.protocol.query, plan.scenario.memories);
    AssessedInSharedWorld(p, plan, arm, critical, oracle, s, m.decided, m.decision, m.decisionAssessment);
    EvidenceIsOfArm(plan, arm, critical, oracle, s, m.decided, m.decision, m.decisionAssessment);
    ClassificationIff(p, EvidenceOf(plan, arm, critical, oracle, s, m.decided, m.decision, m.decisionAssessment));
  }

  lemma EvidenceIsOfArm(plan: CrafPlan, arm: CrafArm, critical: MemoryRecord, oracle: MemoryOracle, s: StateSnapshot,
                        decided: RetrievalResult, decision: ProposedDecision, assessment: DecisionAssessment)
    ensures var e := EvidenceOf(plan, arm, critical, oracle, s, decided, decision, assessment);
            e.arm == arm && e.decisionAssessment == assessment
  {
    hide FindMemory, OracleApplicable, HitIds;
  }

  lemma CompletedArmGuarantees(p: Platform, plan: CrafPlan, arm: CrafArm, critical: MemoryRecord, oracle: MemoryOracle,
                               ledger: Budget.Ledger)
    requires Critically(plan, critical, oracle) && CrafArmRun(p, plan, arm, critical, oracle, ledger).Ok?
    ensures var m := CrafArmRun(p, plan, arm, critical, oracle, ledger).value.0;
            m.arm == arm && Guaranteed(p, plan, critical, oracle, m)
  {
    hide CrafInteract, CrafFinish, CrafConclude, RecordsCrafArm, ContextBelongs, AssessedFrom, EvaluateDecision, ReplayAll, Accepted,
         CrafStart, Critically;
    var x := CrafInteract(p, plan, arm, ledger).value;
    FinishedGuarantees(p, plan, arm, critical, oracle, ledger);
    FinishedRecords(p, plan, arm, critical, oracle, ledger);
    FinishedParts(p, plan, arm, critical, oracle, x);
    CrafFinishVerifiesAndReplays(p, plan, arm, critical, oracle, ledger);
    AcceptedReplayPreservesWorld(p, CrafStart(plan), CrafFinish(p, plan, arm, critical, oracle, x).value.0.events);
  }

  // ----- the replayer against the execution -----

  lemma AssessmentFields(a: CrafAssessment)
    ensures var f := CrafAssessmentToJson(a).fields;
            && Get(f, "arm") == Str(CrafArmName(a.arm)) && Get(f, "critical_memory_id") == Str(a.criticalMemoryId)
            && Get(f, "initial_source_sha256") == Str(a.initialSourceSha256)
            && Get(f, "final_source_sha256") == OptionalStr(a.finalSourceSha256)
            && Get(f, "source_preserved") == Bool(a.sourcePreserved)
  {
    hide CrafArmName, ClassificationName, StageName, Strings;
  }

  lemma LocalizationFields(a: CrafAssessment)
    ensures var f := CrafAssessmentToJson(a).fields;
            && Get(f, "retrieved") == Bool(a.retrieved) && Get(f, "presented") == Bool(a.presented)
            && Get(f, "used_by_decision") == Bool(a.usedByDecision) && Get(f, "decision_safe") == Bool(a.decisionSafe)
            && Get(f, "classification") == Str(ClassificationName(a.classification))
            && Get(f, "loss_stage") == Str(StageName(a.lossStage))
  {
    hide CrafArmName, ClassificationName, StageName, Strings;
  }

  lemma OracleFields(a: CrafAssessment)
    ensures var f := CrafAssessmentToJson(a).fields;
            && Get(f, "oracle_truth") == Bool(a.oracleTruth) && Get(f, "oracle_valid") == Bool(a.oracleValid)
            && Get(f, "oracle_applicable") == Bool(a.oracleApplicable)
  {
    hide CrafArmName, ClassificationName, StageName, Strings;
  }

  /** The documents, field by field. */
  lemma CrafDocumentFields(plan: CrafPlan, m: CrafMaterial)
    ensures var d := CrafDocumentsOf(plan, m);
            && d.events == EventsToJson(m.events) && d.finalState == StateToJson(m.finalState)
            && Get(d.interaction, "result") == ResultToJson(m.interaction) && Get(d.interaction, "context") == Str(m.interactionContext)
            && Get(d.retrieval, "result") == ResultToJson(m.decided) && Get(d.context, "context") == Str(m.decidedContext)
            && Obj(d.decision) == DecisionToJson(m.decision) && Get(d.decision, "action") == Str(m.decision.action)
            && Get(d.decision, "rationale_memory_ids") == Strings(m.decision.rationale)
            && Get(d.decisionAssessment, "safe") == Bool(m.decisionAssessment.safe)
            && d.assessment == CrafAssessmentToJson(m.assessment).fields
  {
    hide QueryToJson, ResultToJson, StateToJson, EventsToJson, CrafAssessmentToJson, Strings;
  }

  lemma WrittenSourcesAgree(p: Platform, plan: CrafPlan, critical: MemoryRecord, oracle: MemoryOracle, m: CrafMaterial)
    requires Critically(plan, critical, oracle) && AssessedFrom(p, plan, critical, oracle, m)
    requires m.finalState.sourceMemories == CrafStart(plan).sourceMemories
    ensures SourcesAgree(p, CrafStart(plan), m.finalState, CrafDocumentsOf(plan, m).assessment)
  {
    hide CrafDocumentsOf, CrafAssessmentToJson, CrafStart, FindMemory, SourceDigest, CriticalOracle, ValidAt, OracleApplicable, HitIds;
    CrafDocumentFields(plan, m);
    AssessmentFields(m.assessment);
    StartsFromScenario(plan);
  }

  lemma ContextField(result: RetrievalResult, context: string)
    ensures Get(ContextPayload(result, context), "context") == Str(context)
  {
  }

  lemma WrittenOutputsAgree(plan: CrafPlan, m: CrafMaterial)
    requires RecordsCrafArm(plan, m)
    ensures OutputsAgree(m.events, CrafDocumentsOf(plan, m))
  {
    hide CrafDocumentsOf, PayloadsOf, CompletedPayload, ContextPayload, ResultToJson, DecisionToJson, PyEq;
    CrafDocumentFields(plan, m);
    CompletedFields(plan.interactionQuery, m.interaction);
    CompletedFields(plan.protocol.query, m.decided);
    ContextField(m.interaction, m.interactionContext);
    ContextField(m.decided, m.decidedContext);
    PyEqReflexive(ResultToJson(m.interaction));
    PyEqReflexive(ResultToJson(m.decided));
    PyEqReflexive(Str(m.interactionContext));
    PyEqReflexive(Str(m.decidedContext));
    PyEqReflexive(DecisionToJson(m.decision));
  }

  lemma WrittenRescores(p: Platform, plan: CrafPlan, critical: MemoryRecord, oracle: MemoryOracle, m: CrafMaterial)
    requires AssessedFrom(p, plan, critical, oracle, m)
    requires EvaluateDecision(m.decision, plan.scenario.decisionOracle) == Ok(m.decisionAssessment)
    ensures Rescores(CrafDocumentsOf(plan, m), m.decision.action, plan.scenario.decisionOracle.safeActions)
    ensures m.assessment.decisionSafe == (m.decision.action in plan.scenario.decisionOracle.safeActions)
  {
    hide CrafDocumentsOf, CrafAssessmentToJson, SourceDigest, ValidAt, OracleApplicable, HitIds;
    CrafDocumentFields(plan, m);
    LocalizationFields(m.assessment);
  }

  /** The critical identifier is among the decision hits, or the decision context does not mention it. */
  predicate Locatable(m: CrafMaterial) {
    var id := m.assessment.criticalMemoryId;
    id in HitIds(m.decided) || !Mentioned(id, m.decidedContext)
  }

  /** The textual recheck of a completed arm's localization. */
  lemma LocalizesIff(p: Platform, plan: CrafPlan, critical: MemoryRecord, oracle: MemoryOracle, m: CrafMaterial)
    requires AssessedFrom(p, plan, critical, oracle, m) && ContextBelongs(plan, m)
    ensures Localizes(CrafDocumentsOf(plan, m)) <==> Locatable(m)
  {
    hide CrafDocumentsOf, CrafAssessmentToJson, SourceDigest, ValidAt, OracleApplicable, HitIds, RecordedIds, Mentioned, ContextOf,
         ResultToJson, ById;
    CrafDocumentFields(plan, m);
    LocalizationFields(m.assessment);
    AssessmentFields(m.assessment);
    ResultIds(m.decided);
    StringsRoundTrip(m.decision.rationale, "rationale_memory_id");
    if oracle.memoryId in HitIds(m.decided) {
      HitIsMentioned(ById(plan.scenario.memories), m.decided, oracle.memoryId);
    }
  }

  function CrafReplayOf(m: CrafMaterial): CrafArmReplay {
    CrafArmReplay(m.arm, |m.events|, m.finalState, m.decision.action, RetoldOf(m.assessment))
  }

  /** The arm replays from what was retained of it to what it was, if it is locatable; otherwise it is refused for that. */
  predicate CrafArmReplays(p: Platform, plan: CrafPlan, m: CrafMaterial) {
    ReplayCrafArm(p, CrafStart(plan), m.arm, CrafDocumentsOf(plan, m), plan.scenario.decisionOracle.safeActions) ==
    if Locatable(m) then Ok(CrafReplayOf(m)) else Err(Mislocalized)
  }

  /** The replayer's steps, one by one. */
  lemma StepsReplay(p: Platform, initial: StateSnapshot, arm: CrafArm, d: CrafDocuments, safeActions: seq<string>,
                    events: seq<TraceEvent>, final: StateSnapshot, action: string, told: Retold)
    requires Reconstructed(p, initial, d.events, d.finalState) == Ok((events, final))
    requires SourcesAgree(p, initial, final, d.assessment) && OutputsAgree(events, d)
    requires Get(d.decision, "action") == Str(action) && Rescores(d, action, safeActions) && told.safe == (action in safeActions)
    requires Get(d.assessment, "classification") == Str(told.classification) && Get(d.assessment, "loss_stage") == Str(told.lossStage)
    ensures ReplayCrafArm(p, initial, arm, d, safeActions) ==
            if Localizes(d) then Ok(CrafArmReplay(arm, |events|, final, action, told)) else Err(Mislocalized)
  {
    hide Reconstructed, SourcesAgree, OutputsAgree, Rescores, Localizes;
  }

  lemma GuaranteedReplays(p: Platform, plan: CrafPlan, critical: MemoryRecord, oracle: MemoryOracle, m: CrafMaterial)
    requires Critically(plan, critical, oracle) && Guaranteed(p, plan, critical, oracle, m)
    ensures CrafArmReplays(p, plan, m)
  {
    hide CrafDocumentsOf, CrafAssessmentToJson, Reconstructed, ReplayCrafArm, SourcesAgree, OutputsAgree, Rescores, Localizes,
         Locatable, CrafStart, RecordsCrafArm, ContextBelongs, Critically, EvaluateDecision, ReplayAll, Accepted, EventsToJson,
         StateToJson, ClassificationName, StageName, AssessedFrom;
    DocumentsReconstruct(p, CrafStart(plan), m.events, m.finalState);
    WrittenSourcesAgree(p, plan, critical, oracle, m);
    WrittenOutputsAgree(plan, m);
    WrittenRescores(p, plan, critical, oracle, m);
    LocalizesIff(p, plan, critical, oracle, m);
    CrafDocumentFields(plan, m);
    LocalizationFields(m.assessment);
    StepsReplay(p, CrafStart(plan), m.arm, CrafDocumentsOf(plan, m), plan.scenario.decisionOracle.safeActions, m.events, m.finalState,
                m.decision.action, RetoldOf(m.assessment));
  }

  /**
   The replayer, given what the writer retains of a completed CRAF arm, reproduces its final state, its
   action, its safety and its verdict, exactly when the critical memory is among the decision hits or the
   decision context does not mention it. A safe or unsafe decision makes no difference.
   */
  lemma CompletedCrafArmReplaysIff(p: Platform, plan: CrafPlan, arm: CrafArm, critical: MemoryRecord, oracle: MemoryOracle,
                                   ledger: Budget.Ledger)
    requires Critically(plan, critical, oracle) && CrafArmRun(p, plan, arm, critical, oracle, ledger).Ok?
    ensures CrafArmReplays(p, plan, CrafArmRun(p, plan, arm, critical, oracle, ledger).value.0)
  {
    hide CrafArmRun, CrafArmReplays, Critically, Guaranteed;
    CompletedArmGuarantees(p, plan, arm, critical, oracle, ledger);
    GuaranteedReplays(p, plan, critical, oracle, CrafArmRun(p, plan, arm, critical, oracle, ledger).value.0);
  }

  /** For an identifier of one line: the arm is locatable exactly when the memory was retrieved or no retrieved memory quotes it. */
  lemma LocatableIffUnquoted(p: Platform, plan: CrafPlan, critical: MemoryRecord, oracle: MemoryOracle, m: CrafMaterial)
    requires '\n' !in oracle.memoryId && AssessedFrom(p, plan, critical, oracle, m) && ContextBelongs(plan, m)
    ensures Locatable(m) <==>
            oracle.memoryId in HitIds(m.decided) || !Quoted(ById(plan.scenario.memories), m.decided.hits, oracle.memoryId)
  {
    hide SourceDigest, ValidAt, OracleApplicable, HitIds, Mentioned, ContextOf, Quoted, ById;
    PresentationRecheckIff(ById(plan.scenario.memories), m.decided, oracle.memoryId);
    if oracle.memoryId in HitIds(m.decided) {
      HitIsMentioned(ById(plan.scenario.memories), m.decided, oracle.memoryId);
    }
  }

  /**
   A completed arm, for a critical identifier of one line: its replay succeeds exactly when the memory is
   among the decision hits or no decision hit's line quotes its bracketed identifier.
   */
  lemma CompletedCrafArmReplaysUnlessQuoted(p: Platform, plan: CrafPlan, arm: CrafArm, critical: MemoryRecord, oracle: MemoryOracle,
                                            ledger: Budget.Ledger)
    requires '\n' !in oracle.memoryId
    requires Critically(plan, critical, oracle) && CrafArmRun(p, plan, arm, critical, oracle, ledger).Ok?
    ensures var m := CrafArmRun(p, plan, arm, critical, oracle, ledger).value.0;
            && ContextBelongs(plan, m)
            && (ReplayCrafArm(p, CrafStart(plan), arm, CrafDocumentsOf(plan, m), plan.scenario.decisionOracle.safeActions).Ok? <==>
                  oracle.memoryId in HitIds(m.decided) || !Quoted(ById(plan.scenario.memories), m.decided.hits, oracle.memoryId))
  {
    hide CrafArmRun, Critically, RecordsCrafArm, ContextBelongs, AssessedFrom, Locatable, ReplayCrafArm, CrafStart, CrafDocumentsOf,
         Accepted, ReplayAll, EvaluateDecision, HitIds, Quoted, ById;
    CompletedArmGuarantees(p, plan, arm, critical, oracle, ledger);
    var m := CrafArmRun(p, plan, arm, critical, oracle, ledger).value.0;
    GuaranteedReplays(p, plan, critical, oracle, m);
    LocatableIffUnquoted(p, plan, critical, oracle, m);
    BelongingIsKnown(plan, m);
  }

  lemma BelongingIsKnown(plan: CrafPlan, m: CrafMaterial)
    requires ContextBelongs(plan, m)
    ensures forall i | 0 <= i < |m.decided.hits| :: m.decided.hits[i].memoryId in ById(plan.scenario.memories)
  {
    hide ById, ContextOf;
  }
}
