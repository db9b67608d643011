/** What the replay of a CRAF bundle accepts (replay.py), over the recorded events of a completed execution. */
module CrafAcceptance {
  import opened Basics
  import opened Json
  import opened Models
  import opened Decoding
  import opened Trace
  import opened Decisions
  import opened ReferenceMemory
  import opened Replay
  import opened Runs
  import opened Recorded
  import opened Retained
  import opened Craf
  import opened CrafRun
  import opened CrafReplay
  import opened CrafBundleReplay
  import Budget

  // ----- documents equal in Python's sense -----

  lemma StringsAreThemselves(xs: seq<string>, w: Json)
    ensures PyEq(Strings(xs), w) <==> w == Strings(xs)
  {
    PyEqReflexive(Strings(xs));
    if PyEq(Strings(xs), w) {
      forall i | 0 <= i < |xs| ensures w.items[i] == Str(xs[i]) {
        assert PyEq(Strings(xs).items[i], w.items[i]);
        TextIsItself(xs[i], w.items[i]);
      }
    }
  }

  /** A retrieval document equal to the recorded result names the recorded hits. */
  lemma SameHits(result: RetrievalResult, w: Json)
    requires PyEq(ResultToJson(result), w)
    ensures RecordedIds(w) == Some(HitIds(result))
  {
    var f := ResultToJson(result).fields;
    assert "hits" in f && w.Obj? && "hits" in w.fields && PyEq(f["hits"], w.fields["hits"]);
    var hits, others := f["hits"].items, w.fields["hits"].items;
    forall i | 0 <= i < |others| ensures others[i].Obj? && Get(others[i].fields, "memory_id") == Str(result.hits[i].memoryId) {
      assert PyEq(hits[i], others[i]);
      assert "memory_id" in hits[i].fields && PyEq(hits[i].fields["memory_id"], others[i].fields["memory_id"]);
    }
    assert RecordedIds(w).value == HitIds(result);
  }

  lemma SameDecision(decision: ProposedDecision, d: Fields)
    requires PyEq(DecisionToJson(decision), Obj(d))
    ensures Get(d, "action") == Str(decision.action) && Get(d, "rationale_memory_ids") == Strings(decision.rationale)
  {
    var f := DecisionToJson(decision).fields;
    assert "action" in f && PyEq(f["action"], d["action"]);
    assert "rationale_memory_ids" in f && PyEq(f["rationale_memory_ids"], d["rationale_memory_ids"]);
    StringsAreThemselves(decision.rationale, d["rationale_memory_ids"]);
  }

  // ----- one arm -----

  /** The documents of the arm's retrievals, contexts and decision say what it did. */
  predicate CrafOutputsAgree(m: CrafMaterial, d: CrafDocuments) {
    hide PyEq, ResultToJson, DecisionToJson;
    && PyEq(ResultToJson(m.interaction), Get(d.interaction, "result")) && Get(d.interaction, "context") == Str(m.interactionContext)
    && PyEq(ResultToJson(m.decided), Get(d.retrieval, "result")) && Get(d.context, "context") == Str(m.decidedContext)
    && PyEq(DecisionToJson(m.decision), Obj(d.decision))
  }

  /**
   The assessment names the oracle's memory and its truth, validity and applicability, its source's digest
   before and after, and what of it was retrieved, presented, used and safe. Its classification and loss
   stage are texts.
   */
  predicate AssessmentAgrees(p: Platform, plan: CrafPlan, critical: MemoryRecord, oracle: MemoryOracle, m: CrafMaterial, a: Fields) {
    hide SourceDigest, ValidAt, OracleApplicable, HitIds, Mentioned, PyEq;
    && Get(a, "critical_memory_id") == Str(oracle.memoryId)
    && PyEq(Get(a, "oracle_truth"), Bool(oracle.truth))
    && PyEq(Get(a, "oracle_valid"), Bool(ValidAt(oracle, plan.scenario.logicalTime)))
    && PyEq(Get(a, "oracle_applicable"), Bool(OracleApplicable(plan, oracle)))
    && Get(a, "initial_source_sha256") == Get(a, "final_source_sha256") == Str(SourceDigest(p, critical))
    && Get(a, "source_preserved") == Bool(true)
    && Get(a, "retrieved") == Bool(oracle.memoryId in HitIds(m.decided))
    && Get(a, "presented") == Bool(Mentioned(oracle.memoryId, m.decidedContext))
    && Get(a, "used_by_decision") == Bool(oracle.memoryId in m.decision.rationale)
    && Get(a, "decision_safe") == Bool(m.decisionAssessment.safe)
    && Get(a, "classification").Str? && Get(a, "loss_stage").Str?
  }

  /** The retained events are those of the arm. */
  predicate CrafLogs(d: CrafDocuments, m: CrafMaterial) {
    hide EventFromJson;
    ReadAll(d.events, v => EventFromJson(v)) == Ok(m.events)
  }

  /** The replay reads the plan's own initial state, expectations and safe actions. */
  predicate SharedByPlan(plan: CrafPlan, oracle: MemoryOracle, shared: Shared) {
    hide CrafStart, ValidAt, OracleApplicable;
    && shared.initial == CrafStart(plan) && shared.safeActions == plan.scenario.decisionOracle.safeActions
    && shared.expected == Expectations(oracle.memoryId, oracle.truth, ValidAt(oracle, plan.scenario.logicalTime),
                                       OracleApplicable(plan, oracle))
    && shared.compared.Keys == ARM_NAMES
  }

  lemma LogsReconstruct(p: Platform, plan: CrafPlan, m: CrafMaterial, d: CrafDocuments)
    requires CrafLogs(d, m) && Accepted(p, m.events) && ReplayAll(p, CrafStart(plan), m.events) == Ok(m.finalState)
    requires m.finalState.sourceMemories == CrafStart(plan).sourceMemories
    ensures var rebuilt := Reconstructed(p, CrafStart(plan), d.events, d.finalState);
            && (rebuilt.Ok? <==> StateFromJson(d.finalState) == Ok(m.finalState))
            && (rebuilt.Ok? ==> rebuilt.value == (m.events, m.finalState))
  {
    hide CrafStart, ReplayAll, Verify, StateFromJson, EventFromJson;
  }

  lemma CrafOutputsIff(plan: CrafPlan, m: CrafMaterial, d: CrafDocuments)
    requires RecordsCrafArm(plan, m)
    ensures CrafReplay.OutputsAgree(m.events, d) <==> CrafOutputsAgree(m, d)
  {
    hide PayloadsOf, CompletedPayload, ContextPayload, ResultToJson, DecisionToJson, PyEq;
    CompletedFields(plan.interactionQuery, m.interaction);
    CompletedFields(plan.protocol.query, m.decided);
    ContextField(m.interaction, m.interactionContext);
    ContextField(m.decided, m.decidedContext);
    TextIsItself(m.interactionContext, Get(d.interaction, "context"));
    TextIsItself(m.decidedContext, Get(d.context, "context"));
    assert Get(DecisionPayload(m.decision), "decision") == DecisionToJson(m.decision);
  }

  lemma OracleIff(a: Fields, e: Expectations)
    ensures OracleAgrees(a, e) <==>
            && Get(a, "critical_memory_id") == Str(e.criticalId) && PyEq(Get(a, "oracle_truth"), Bool(e.truth))
            && PyEq(Get(a, "oracle_valid"), Bool(e.valid)) && PyEq(Get(a, "oracle_applicable"), Bool(e.applicable))
  {
    hide PyEq;
    TextIsItself(e.criticalId, Get(a, "critical_memory_id"));
  }

  lemma SourcesIff(p: Platform, plan: CrafPlan, critical: MemoryRecord, oracle: MemoryOracle, final: StateSnapshot, a: Fields)
    requires Critically(plan, critical, oracle) && final.sourceMemories == CrafStart(plan).sourceMemories
    requires Get(a, "critical_memory_id") == Str(oracle.memoryId)
    ensures SourcesAgree(p, CrafStart(plan), final, a) <==>
            Get(a, "initial_source_sha256") == Get(a, "final_source_sha256") == Str(SourceDigest(p, critical))
  {
    hide CrafStart, FindMemory, SourceDigest, CriticalOracle;
    StartsFromScenario(plan);
  }

  lemma LocalizationIff(m: CrafMaterial, d: CrafDocuments, id: string)
    requires CrafOutputsAgree(m, d) && Get(d.assessment, "critical_memory_id") == Str(id)
    ensures Localizes(d) <==>
            && Get(d.assessment, "retrieved") == Bool(id in HitIds(m.decided))
            && Get(d.assessment, "presented") == Bool(Mentioned(id, m.decidedContext))
            && Get(d.assessment, "used_by_decision") == Bool(id in m.decision.rationale)
            && Get(d.assessment, "source_preserved") == Bool(true)
  {
    hide PyEq, ResultToJson, DecisionToJson, RecordedIds, HitIds, Mentioned, StringItems;
    SameHits(m.decided, Get(d.retrieval, "result"));
    SameDecision(m.decision, d.decision);
    StringsRoundTrip(m.decision.rationale, "rationale_memory_id");
  }

  function ToldBy(a: Fields, safe: bool): Retold
    requires Get(a, "classification").Str? && Get(a, "loss_stage").Str?
  {
    Retold(Get(a, "classification").s, Get(a, "loss_stage").s, safe)
  }

  /** The retained arm says in every checked respect what the arm was, and the comparison repeats its assessment. */
  predicate CrafArmAgrees(p: Platform, plan: CrafPlan, critical: MemoryRecord, oracle: MemoryOracle, m: CrafMaterial, d: CrafDocuments,
                          compared: Fields) {
    hide StateFromJson, CrafOutputsAgree, AssessmentAgrees, PyEq;
    && StateFromJson(d.finalState) == Ok(m.finalState) && CrafOutputsAgree(m, d)
    && Get(d.decisionAssessment, "safe") == Bool(m.decisionAssessment.safe)
    && AssessmentAgrees(p, plan, critical, oracle, m, d.assessment) && PyEq(Obj(compared), Obj(d.assessment))
  }

  /** The arm is accepted exactly when it agrees, and then gives back what the arm was, with the labels its assessment claims. */
  predicate CrafArmAcceptedAs(p: Platform, plan: CrafPlan, critical: MemoryRecord, oracle: MemoryOracle, m: CrafMaterial,
                              shared: Shared, d: CrafDocuments)
    requires shared.compared.Keys == ARM_NAMES
  {
    hide ReplayComparedArm, CrafArmAgrees;
    var replayed := ReplayComparedArm(p, shared, m.arm, d);
    && (replayed.Ok? <==> CrafArmAgrees(p, plan, critical, oracle, m, d, shared.compared[CrafArmName(m.arm)]))
    && (replayed.Ok? ==>
          && Get(d.assessment, "classification").Str? && Get(d.assessment, "loss_stage").Str?
          && replayed.value == CrafArmReplay(m.arm, |m.events|, m.finalState, m.decision.action,
                                             ToldBy(d.assessment, m.decisionAssessment.safe)))
  }

  lemma CrafSafeIsListed(m: CrafMaterial, oracle: DecisionOracle)
    requires EvaluateDecision(m.decision, oracle) == Ok(m.decisionAssessment)
    ensures m.decisionAssessment.safe <==> m.decision.action in oracle.safeActions
  {
  }

  /** The replayer's steps over the rebuilt events. */
  predicate StepsPass(p: Platform, initial: StateSnapshot, d: CrafDocuments, safeActions: seq<string>, events: seq<TraceEvent>,
                      final: StateSnapshot) {
    hide SourcesAgree, CrafReplay.OutputsAgree, Rescores, Localizes;
    && SourcesAgree(p, initial, final, d.assessment) && CrafReplay.OutputsAgree(events, d)
    && Get(d.decision, "action").Str? && Rescores(d, Get(d.decision, "action").s, safeActions) && Localizes(d)
    && Get(d.assessment, "classification").Str? && Get(d.assessment, "loss_stage").Str?
  }

  lemma CrafStepsIff(p: Platform, initial: StateSnapshot, arm: CrafArm, d: CrafDocuments, safeActions: seq<string>)
    ensures var rebuilt, replayed := Reconstructed(p, initial, d.events, d.finalState), ReplayCrafArm(p, initial, arm, d, safeActions);
            && (replayed.Ok? <==> rebuilt.Ok? && StepsPass(p, initial, d, safeActions, rebuilt.value.0, rebuilt.value.1))
            && (replayed.Ok? ==>
                  replayed.value == CrafArmReplay(arm, |rebuilt.value.0|, rebuilt.value.1, Get(d.decision, "action").s,
                                                  ToldBy(d.assessment, Get(d.decision, "action").s in safeActions)))
  {
    hide Reconstructed, SourcesAgree, CrafReplay.OutputsAgree, Rescores, Localizes;
  }

  /** Passing the steps and the oracle check, over the events of a completed arm, is agreeing with it. */
  lemma StepsPassIff(p: Platform, plan: CrafPlan, critical: MemoryRecord, oracle: MemoryOracle, m: CrafMaterial, shared: Shared,
                     d: CrafDocuments)
    requires Critically(plan, critical, oracle) && Guaranteed(p, plan, critical, oracle, m) && SharedByPlan(plan, oracle, shared)
    ensures StepsPass(p, CrafStart(plan), d, shared.safeActions, m.events, m.finalState) && OracleAgrees(d.assessment, shared.expected) <==>
            && CrafOutputsAgree(m, d) && Get(d.decisionAssessment, "safe") == Bool(m.decisionAssessment.safe)
            && AssessmentAgrees(p, plan, critical, oracle, m, d.assessment)
    ensures CrafOutputsAgree(m, d) ==>
              && Get(d.decision, "action") == Str(m.decision.action)
              && m.decisionAssessment.safe == (m.decision.action in shared.safeActions)
  {
    hide SourcesAgree, CrafReplay.OutputsAgree, Localizes, CrafStart, RecordsCrafArm, ContextBelongs, Critically, EvaluateDecision,
         ReplayAll, Accepted, AssessedFrom, OracleAgrees, PyEq, CrafOutputsAgree, ValidAt, OracleApplicable, HitIds, Mentioned,
         SourceDigest;
    CrafOutputsIff(plan, m, d);
    OracleIff(d.assessment, shared.expected);
    CrafSafeIsListed(m, plan.scenario.decisionOracle);
    if CrafOutputsAgree(m, d) {
      DecisionIsSame(m, d);
      if Get(d.assessment, "critical_memory_id") == Str(oracle.memoryId) {
        SourcesIff(p, plan, critical, oracle, m.finalState, d.assessment);
        LocalizationIff(m, d, oracle.memoryId);
      }
    }
  }

  lemma DecisionIsSame(m: CrafMaterial, d: CrafDocuments)
    requires CrafOutputsAgree(m, d)
    ensures Get(d.decision, "action") == Str(m.decision.action)
  {
    hide PyEq, ResultToJson, DecisionToJson;
    SameDecision(m.decision, d.decision);
  }

  /** Over the recorded events of a completed arm, the replayer accepts a set of documents exactly when every one of them agrees. */
  lemma RecordedCrafArmAcceptedIff(p: Platform, plan: CrafPlan, critical: MemoryRecord, oracle: MemoryOracle, m: CrafMaterial,
                                   shared: Shared, d: CrafDocuments)
    requires Critically(plan, critical, oracle) && Guaranteed(p, plan, critical, oracle, m)
    requires SharedByPlan(plan, oracle, shared) && CrafLogs(d, m)
    ensures CrafArmAcceptedAs(p, plan, critical, oracle, m, shared, d)
  {
    hide CrafLogs, Reconstructed, ReplayCrafArm, StepsPass, CrafStart, RecordsCrafArm, ContextBelongs, Critically, EvaluateDecision,
         ReplayAll, Accepted, StateFromJson, AssessedFrom, OracleAgrees, PyEq, CrafOutputsAgree, AssessmentAgrees;
    LogsReconstruct(p, plan, m, d);
    CrafStepsIff(p, CrafStart(plan), m.arm, d, shared.safeActions);
    StepsPassIff(p, plan, critical, oracle, m, shared, d);
    AgreeingIsLabelled(p, plan, critical, oracle, m, d.assessment);
  }

  lemma AgreeingIsLabelled(p: Platform, plan: CrafPlan, critical: MemoryRecord, oracle: MemoryOracle, m: CrafMaterial, a: Fields)
    ensures AssessmentAgrees(p, plan, critical, oracle, m, a) ==> Get(a, "classification").Str? && Get(a, "loss_stage").Str?
  {
    hide SourceDigest, ValidAt, OracleApplicable, HitIds, Mentioned, PyEq;
  }

  // ----- what is retained once for all arms -----

  /** Of the written oracles, exactly one may be critical: otherwise there is nothing to expect. */
  lemma ExpectedIffOneIsCritical(plan: CrafPlan)
    ensures var expected := ReadExpectations(EvaluatorView(plan), TargetView(plan));
            && (expected.Ok? <==> |Critical(plan.scenario.memoryOracles)| == 1)
            && (expected.Err? ==> expected.error == WrongOracle)
  {
    hide Expected, TargetView, OracleApplicable, ValidAt, MemoryOracleFields, Critical;
    var critical := Critical(plan.scenario.memoryOracles);
    CriticalReadBack(plan.scenario.memoryOracles);
    assert Get(EvaluatorView(plan), "memory_oracles") == Arr(MemoryOraclesToJson(plan.scenario.memoryOracles));
    if |critical| == 1 {
      ExpectedOf(plan, critical[0]);
      assert OracleFieldsOf(critical)[0] == MemoryOracleFields(critical[0]);
    }
  }

  /** The item is an object with the name under "arm". */
  predicate Names(item: Json, name: string) {
    item.Obj? && Get(item.fields, "arm") == Str(name)
  }

  predicate Named(items: seq<Json>) {
    forall i | 0 <= i < |items| :: items[i].Obj? && Get(items[i].fields, "arm").Str?
  }

  /** The fields are those of the last item of that name. */
  predicate LastNamed(items: seq<Json>, name: string, fields: Fields) {
    exists i | 0 <= i < |items| :: items[i] == Obj(fields) && Names(items[i], name) && forall j | i < j < |items| :: !Names(items[j], name)
  }

  lemma LastNamedStep(items: seq<Json>, name: string, fields: Fields)
    requires items != []
    ensures Names(Last(items), name) && Last(items) == Obj(fields) ==> LastNamed(items, name, fields)
    ensures !Names(Last(items), name) && LastNamed(Front(items), name, fields) ==> LastNamed(items, name, fields)
  {
    hide Names;
    var n := |items| - 1;
    if Names(Last(items), name) && Last(items) == Obj(fields) {
      assert items[n] == Obj(fields);
    } else if !Names(Last(items), name) && LastNamed(Front(items), name, fields) {
      var i :| 0 <= i < n && Front(items)[i] == Obj(fields) && Names(Front(items)[i], name)
               && forall j | i < j < n :: !Names(Front(items)[j], name);
      assert items[i] == Obj(fields) && Names(items[i], name);
      assert forall j | i < j < n :: !Names(items[j], name) by { assert forall j | i < j < n :: Front(items)[j] == items[j]; }
    }
  }

  lemma {:induction false} ComparedArmsRead(items: seq<Json>)
    ensures ComparedArms(items).Ok? <==> Named(items)
  {
    if items != [] {
      ComparedArmsRead(Front(items));
      assert Named(items) <==> Named(Front(items)) && Last(items).Obj? && Get(Last(items).fields, "arm").Str?;
    }
  }

  /** Reading the compared arms keeps, of each name, the last item that has it, and fails only if some item has none. */
  lemma {:induction false} ComparedArmsIff(items: seq<Json>)
    ensures var read := ComparedArms(items);
            && (read.Ok? <==> Named(items))
            && (read.Ok? ==>
                  && (forall i | 0 <= i < |items| :: Get(items[i].fields, "arm").s in read.value)
                  && forall name | name in read.value :: LastNamed(items, name, read.value[name]))
  {
    hide LastNamed, Named;
    ComparedArmsRead(items);
    if items != [] {
      ComparedArmsRead(Front(items));
      ComparedArmsIff(Front(items));
      var read := ComparedArms(items);
      if read.Ok? {
        assert Last(items).Obj? && Get(Last(items).fields, "arm").Str?;
        assert forall i | 0 <= i < |items| - 1 :: Front(items)[i] == items[i];
        forall name | name in read.value ensures LastNamed(items, name, read.value[name]) {
          LastNamedStep(items, name, read.value[name]);
        }
      }
    } else {
      assert Named(items) by { NothingNamed(); }
    }
  }

  lemma NothingNamed()
    ensures Named([])
  {
  }

  /** The comparison binds the shared initial state and holds exactly the three named arms. */
  predicate Compares(p: Platform, plan: CrafPlan, b: CrafBundle) {
    hide StateHash, CrafStart, ComparedArms;
    && Get(b.comparison, "shared_initial_state_sha256") == Str(StateHash(p, CrafStart(plan)))
    && Get(b.comparison, "arms").Arr? && ComparedArms(Get(b.comparison, "arms").items).Ok?
    && ComparedArms(Get(b.comparison, "arms").items).value.Keys == ARM_NAMES
  }

  /** The bundle retains the plan's initial state and the target's and evaluator's views of its scenario, and the execution's events. */
  predicate CrafRetains(plan: CrafPlan, e: CrafExecution, b: CrafBundle)
    requires |e.arms| == 3 && |b.arms| == |CRAF_ARMS|
  {
    hide StateFromJson, CrafStart, TargetView, EvaluatorView, CrafLogs;
    && StateFromJson(b.initial) == Ok(CrafStart(plan)) && b.target == TargetView(plan) && b.evaluator == EvaluatorView(plan)
    && forall i | 0 <= i < 3 :: CrafLogs(b.arms[i], e.arms[i])
  }

  lemma SharedIff(p: Platform, plan: CrafPlan, oracle: MemoryOracle, b: CrafBundle)
    requires StateFromJson(b.initial) == Ok(CrafStart(plan)) && b.target == TargetView(plan) && b.evaluator == EvaluatorView(plan)
    requires CriticalOracle(plan.scenario) == Ok(oracle)
    ensures var shared := ReadShared(p, b);
            && (shared.Ok? <==> Compares(p, plan, b))
            && (shared.Ok? ==> SharedByPlan(plan, oracle, shared.value)
                               && shared.value.compared == ComparedArms(Get(b.comparison, "arms").items).value)
  {
    hide StateHash, StateFromJson, CrafStart, ReadExpectations, ReadSafeActions, ComparedArms, TargetView, EvaluatorView,
         CriticalOracle, ValidAt, OracleApplicable;
    ExpectationsReadBack(plan, oracle);
    SafeActionsReadBack(plan);
  }

  // ----- the whole bundle -----

  /** The loop accepts the arms exactly when each of them is accepted on its own. */
  lemma {:induction false} ComparedArmsAcceptedIff(p: Platform, shared: Shared, arms: seq<CrafArm>, ds: seq<CrafDocuments>)
    requires |arms| == |ds| && shared.compared.Keys == ARM_NAMES
    ensures var replayed := ReplayComparedArms(p, shared, arms, ds);
            && (replayed.Ok? <==> forall i | 0 <= i < |arms| :: ReplayComparedArm(p, shared, arms[i], ds[i]).Ok?)
            && (replayed.Ok? ==>
                  forall i | 0 <= i < |arms| :: ReplayComparedArm(p, shared, arms[i], ds[i]) == Ok(replayed.value[i]))
  {
    hide ReplayComparedArm;
    if arms != [] {
      ComparedArmsAcceptedIff(p, shared, Front(arms), Front(ds));
      assert forall i | 0 <= i < |arms| - 1 :: Front(arms)[i] == arms[i] && Front(ds)[i] == ds[i];
      assert Last(arms) == arms[|arms| - 1] && Last(ds) == ds[|arms| - 1];
    }
  }

  predicate Labelled(d: CrafDocuments, classification: string) {
    Get(d.assessment, "classification") == Str(classification)
  }

  /** The arms' rebuilt safety, and the labels their assessments claim, are those of a recovered mechanism. */
  predicate ClaimsRecovery(e: CrafExecution, b: CrafBundle)
    requires |e.arms| == 3 && |b.arms| == |CRAF_ARMS|
  {
    && e.arms[0].decisionAssessment.safe && !e.arms[1].decisionAssessment.safe && e.arms[2].decisionAssessment.safe
    && Labelled(b.arms[0], "no_failure") && Labelled(b.arms[1], "core_craf") && Labelled(b.arms[2], "no_failure")
    && Get(b.arms[1].assessment, "loss_stage") == Str("retrieval")
  }

  function ClaimedResult(e: CrafExecution, b: CrafBundle): string
    requires |e.arms| == 3 && |b.arms| == |CRAF_ARMS|
  {
    if ClaimsRecovery(e, b) then "controlled_mechanism_recovered" else "comparison_failed"
  }

  /** Every document of the bundle, apart from its events and its scenario, says of the execution what it was. */
  predicate CrafBundleAgrees(p: Platform, plan: CrafPlan, critical: MemoryRecord, oracle: MemoryOracle, e: CrafExecution, b: CrafBundle)
    requires |e.arms| == 3 && |b.arms| == |CRAF_ARMS|
  {
    hide CrafArmAgrees, ComparedArms, ClaimsRecovery, StateHash, CrafStart;
    && Compares(p, plan, b)
    && (var compared := ComparedArms(Get(b.comparison, "arms").items).value;
        && CrafArmAgrees(p, plan, critical, oracle, e.arms[0], b.arms[0], compared["control"])
        && CrafArmAgrees(p, plan, critical, oracle, e.arms[1], b.arms[1], compared["vulnerable"])
        && CrafArmAgrees(p, plan, critical, oracle, e.arms[2], b.arms[2], compared["protected"]))
    && b.eventCount == Int(|e.arms[0].events| + |e.arms[1].events| + |e.arms[2].events|)
    && Get(b.comparison, "result") == b.comparisonResult == Str(ClaimedResult(e, b))
  }

  lemma ClaimConfirmed(e: CrafExecution, b: CrafBundle, rs: seq<CrafArmReplay>)
    requires |e.arms| == |rs| == 3 && |b.arms| == |CRAF_ARMS|
    requires forall i | 0 <= i < 3 :: Get(b.arms[i].assessment, "classification").Str? && Get(b.arms[i].assessment, "loss_stage").Str?
    requires forall i | 0 <= i < 3 :: && rs[i].told == ToldBy(b.arms[i].assessment, e.arms[i].decisionAssessment.safe)
                                      && rs[i].eventCount == |e.arms[i].events|
    ensures var confirmed := CrafConfirmed(rs, b);
            && (confirmed.Ok? <==>
                  && b.eventCount == Int(|e.arms[0].events| + |e.arms[1].events| + |e.arms[2].events|)
                  && Get(b.comparison, "result") == b.comparisonResult == Str(ClaimedResult(e, b)))
            && (confirmed.Ok? ==> confirmed.value == (ClaimedResult(e, b), rs))
  {
    ThreeCounted(rs);
    assert ExpectedResult(rs[0].told, rs[1].told, rs[2].told) == ClaimedResult(e, b);
  }

  /** The bundle is accepted exactly when it agrees with the execution, and then for the result it claims, of the execution's arms. */
  predicate OnlyAgreeingAccepted(p: Platform, plan: CrafPlan, critical: MemoryRecord, oracle: MemoryOracle, e: CrafExecution,
                                 b: CrafBundle)
    requires |e.arms| == 3 && |b.arms| == |CRAF_ARMS|
  {
    hide ReplayCrafBundle, CrafBundleAgrees, ClaimedResult;
    var replayed := ReplayCrafBundle(p, b);
    && (replayed.Ok? <==> CrafBundleAgrees(p, plan, critical, oracle, e, b))
    && (replayed.Ok? ==>
          && replayed.value.0 == ClaimedResult(e, b) && |replayed.value.1| == 3
          && forall i | 0 <= i < 3 :: && replayed.value.1[i].arm == e.arms[i].arm
                                      && replayed.value.1[i].finalState == e.arms[i].finalState
                                      && replayed.value.1[i].action == e.arms[i].decision.action
                                      && replayed.value.1[i].told.safe == e.arms[i].decisionAssessment.safe)
  }

  lemma EachArmAcceptedIff(p: Platform, plan: CrafPlan, critical: MemoryRecord, oracle: MemoryOracle, e: CrafExecution, b: CrafBundle,
                           shared: Shared)
    requires CrafAssembled(p, plan, critical, oracle, e) && |b.arms| == |CRAF_ARMS|
    requires CrafRetains(plan, e, b) && SharedByPlan(plan, oracle, shared)
    ensures forall i | 0 <= i < 3 :: e.arms[i].arm == CRAF_ARMS[i] && CrafArmAcceptedAs(p, plan, critical, oracle, e.arms[i], shared, b.arms[i])
  {
    hide Guaranteed, Critically, AssessCraf, StateHash, CrafStart, CrafLogs, CrafArmAcceptedAs, StateFromJson,
         TargetView, EvaluatorView, ValidAt, OracleApplicable;
    forall i | 0 <= i < 3
      ensures e.arms[i].arm == CRAF_ARMS[i] && CrafArmAcceptedAs(p, plan, critical, oracle, e.arms[i], shared, b.arms[i])
    {
      RecordedCrafArmAcceptedIff(p, plan, critical, oracle, e.arms[i], shared, b.arms[i]);
    }
  }

  /** What was replayed of an arm is what the arm was, with the labels its assessment claims. */
  predicate GivesBack(r: CrafArmReplay, m: CrafMaterial, d: CrafDocuments) {
    && Get(d.assessment, "classification").Str? && Get(d.assessment, "loss_stage").Str?
    && r == CrafArmReplay(m.arm, |m.events|, m.finalState, m.decision.action, ToldBy(d.assessment, m.decisionAssessment.safe))
  }

  /** All three arms are accepted exactly when all three agree, and then give back what the arms were. */
  lemma ArmsAgreeIff(p: Platform, plan: CrafPlan, critical: MemoryRecord, oracle: MemoryOracle, e: CrafExecution, b: CrafBundle,
                     shared: Shared)
    requires |e.arms| == 3 && |b.arms| == |CRAF_ARMS| && shared.compared.Keys == ARM_NAMES
    requires forall i | 0 <= i < 3 :: e.arms[i].arm == CRAF_ARMS[i] && CrafArmAcceptedAs(p, plan, critical, oracle, e.arms[i], shared, b.arms[i])
    ensures var rs := ReplayComparedArms(p, shared, CRAF_ARMS, b.arms);
            && (rs.Ok? <==> && CrafArmAgrees(p, plan, critical, oracle, e.arms[0], b.arms[0], shared.compared["control"])
                            && CrafArmAgrees(p, plan, critical, oracle, e.arms[1], b.arms[1], shared.compared["vulnerable"])
                            && CrafArmAgrees(p, plan, critical, oracle, e.arms[2], b.arms[2], shared.compared["protected"]))
            && (rs.Ok? ==> forall i | 0 <= i < 3 :: GivesBack(rs.value[i], e.arms[i], b.arms[i]))
  {
    hide ReplayComparedArms, ReplayComparedArm, CrafArmAgrees, ToldBy;
    ComparedArmsAcceptedIff(p, shared, CRAF_ARMS, b.arms);
    assert CRAF_ARMS[0] == CONTROL && CRAF_ARMS[1] == VULNERABLE && CRAF_ARMS[2] == PROTECTED;
    var agree := (i: nat) requires i < 3 => ReplayComparedArm(p, shared, CRAF_ARMS[i], b.arms[i]).Ok?;
    assert (forall i | 0 <= i < 3 :: agree(i)) <==> agree(0) && agree(1) && agree(2);
  }

  /** The final checks, over arms that gave back what they were. */
  lemma GivenBackConfirmed(e: CrafExecution, b: CrafBundle, rs: seq<CrafArmReplay>)
    requires |e.arms| == |rs| == 3 && |b.arms| == |CRAF_ARMS|
    requires forall i | 0 <= i < 3 :: GivesBack(rs[i], e.arms[i], b.arms[i])
    ensures var confirmed := CrafConfirmed(rs, b);
            && (confirmed.Ok? <==>
                  && b.eventCount == Int(|e.arms[0].events| + |e.arms[1].events| + |e.arms[2].events|)
                  && Get(b.comparison, "result") == b.comparisonResult == Str(ClaimedResult(e, b)))
            && (confirmed.Ok? ==> confirmed.value == (ClaimedResult(e, b), rs))
    ensures forall i | 0 <= i < 3 :: && rs[i].arm == e.arms[i].arm && rs[i].finalState == e.arms[i].finalState
                                     && rs[i].action == e.arms[i].decision.action
                                     && rs[i].told.safe == e.arms[i].decisionAssessment.safe
  {
    hide CrafConfirmed, ClaimedResult;
    ClaimConfirmed(e, b, rs);
  }

  lemma AgreeingArmsConfirm(p: Platform, plan: CrafPlan, critical: MemoryRecord, oracle: MemoryOracle, e: CrafExecution, b: CrafBundle,
                            shared: Shared)
    requires CrafAssembled(p, plan, critical, oracle, e) && |e.arms| == 3 && |b.arms| == |CRAF_ARMS|
    requires CrafRetains(plan, e, b) && ReadShared(p, b) == Ok(shared) && SharedByPlan(plan, oracle, shared)
    requires Compares(p, plan, b) && shared.compared == ComparedArms(Get(b.comparison, "arms").items).value
    ensures OnlyAgreeingAccepted(p, plan, critical, oracle, e, b)
  {
    hide CrafAssembled, CrafRetains, ReadShared, Compares, ComparedArms, ReplayComparedArms, CrafStart, ValidAt, OracleApplicable,
         CrafConfirmed, CrafArmAgrees, ClaimedResult, GivesBack, CrafArmAcceptedAs;
    EachArmAcceptedIff(p, plan, critical, oracle, e, b, shared);
    ArmsAgreeIff(p, plan, critical, oracle, e, b, shared);
    var rs := ReplayComparedArms(p, shared, CRAF_ARMS, b.arms);
    if rs.Ok? {
      GivenBackConfirmed(e, b, rs.value);
    }
  }

  /**
   Of the bundles that retain a completed execution's initial state, scenario and events, the replay accepts
   exactly those in which every other document agrees with the execution: its outputs and final states, what
   its assessments say of the critical memory, of recall and of safety, the comparison's arms and its count.
   The result it then returns is recovered only if the control and protected arms were safe and the
   vulnerable one was not; the classifications and the loss stage are the ones the assessments claim.
   */
  lemma AlteredCrafBundleIsRefused(p: Platform, plan: CrafPlan, ledger: Budget.Ledger, b: CrafBundle)
    returns (critical: MemoryRecord, oracle: MemoryOracle)
    requires CrafExecuted(p, plan, ledger).Ok? && |CrafExecuted(p, plan, ledger).value.arms| == 3 && |b.arms| == |CRAF_ARMS|
    requires CrafRetains(plan, CrafExecuted(p, plan, ledger).value, b)
    ensures Critically(plan, critical, oracle)
    ensures OnlyAgreeingAccepted(p, plan, critical, oracle, CrafExecuted(p, plan, ledger).value, b)
  {
    hide CrafExecuted, ReadShared, SharedByPlan, Compares, ComparedArms, ReplayComparedArms, CrafConfirmed, CrafArmAgrees,
         ClaimedResult, StateFromJson, CrafStart, TargetView, EvaluatorView, CrafLogs, AssessCraf, Guaranteed, StateHash;
    var e := CrafExecuted(p, plan, ledger).value;
    critical, oracle := ExecutedIsAssembled(p, plan, ledger);
    SharedIff(p, plan, oracle, b);
    if ReadShared(p, b).Ok? {
      AgreeingArmsConfirm(p, plan, critical, oracle, e, b, ReadShared(p, b).value);
    }
  }

  lemma SafetyIsAssessed(p: Platform, plan: CrafPlan, critical: MemoryRecord, oracle: MemoryOracle, m: CrafMaterial)
    requires Guaranteed(p, plan, critical, oracle, m)
    ensures m.assessment.decisionSafe == m.decisionAssessment.safe
  {
    hide RecordsCrafArm, ContextBelongs, EvaluateDecision, Accepted, ReplayAll, CrafStart, SourceDigest, ValidAt, OracleApplicable, HitIds;
  }

  /** With the arms' own classifications and loss stages, the claimed result is the execution's own. */
  lemma OwnLabelsClaimOwnResult(p: Platform, plan: CrafPlan, ledger: Budget.Ledger, b: CrafBundle)
    requires CrafExecuted(p, plan, ledger).Ok? && |CrafExecuted(p, plan, ledger).value.arms| == 3 && |b.arms| == |CRAF_ARMS|
    requires forall i | 0 <= i < 3 ::
               var a := CrafExecuted(p, plan, ledger).value.arms[i].assessment;
               && Get(b.arms[i].assessment, "classification") == Str(ClassificationName(a.classification))
               && Get(b.arms[i].assessment, "loss_stage") == Str(StageName(a.lossStage))
    ensures ClaimedResult(CrafExecuted(p, plan, ledger).value, b) == CrafResultName(CrafExecuted(p, plan, ledger).value.comparison.result)
  {
    hide CrafExecuted, ClassificationName, StageName, CrafResultName, Guaranteed, AssessCraf, StateHash, CrafStart, Critically;
    var e := CrafExecuted(p, plan, ledger).value;
    var critical, oracle := ExecutedIsAssembled(p, plan, ledger);
    AssembledComparison(p, plan, critical, oracle, e);
    SafetyIsAssessed(p, plan, critical, oracle, e.arms[0]);
    SafetyIsAssessed(p, plan, critical, oracle, e.arms[1]);
    SafetyIsAssessed(p, plan, critical, oracle, e.arms[2]);
  }
}
