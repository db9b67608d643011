/** Replaying a whole CRAF bundle (replay.py), against the execution that wrote it. */
module CrafBundleReplay {
  import opened Basics
  import opened Json
  import opened Text
  import opened Models
  import opened Decoding
  import opened Trace
  import opened Decisions
  import opened ReferenceMemory
  import opened Replay
  import opened Runs
  import opened Retained
  import opened Craf
  import opened CrafRun
  import opened CrafReplay
  import Budget

  // ----- the documents beside the arms -----

  /** `ReferenceRunProtocol.to_json` */
  function ApprovalToJson(a: ApprovalProtocol): Json {
    Obj(map["principal_id" := Str(a.query.principalId), "tenant_id" := Str(a.query.tenantId), "query" := Str(a.query.text),
            "top_k" := Int(a.query.topK), "approval_count_fact" := Str(a.approvalCountFact),
            "minimum_approvals" := Int(a.minimumApprovals), "required_memory_id" := Str(a.requiredMemoryId),
            "action_if_below" := Str(a.actionIfBelow), "action_if_met" := Str(a.actionIfMet)])
  }

  /** `target_view`, in the fields the replayer reads. */
  function TargetView(plan: CrafPlan): Fields {
    map["logical_time" := Int(plan.scenario.logicalTime), "facts" := Obj(plan.scenario.facts),
        "reference_run" := ApprovalToJson(plan.protocol)]
  }

  function MemoryOracleFields(o: MemoryOracle): Fields {
    map["memory_id" := Str(o.memoryId), "oracle_truth" := Bool(o.truth), "oracle_criticality" := Bool(o.criticality),
        "valid_from" := Int(o.validFrom), "valid_until" := OptionalInt(o.validUntil), "applicability" := Obj(o.applicability)]
  }

  function MemoryOraclesToJson(os: seq<MemoryOracle>): seq<Json> {
    seq(|os|, i requires 0 <= i < |os| => Obj(MemoryOracleFields(os[i])))
  }

  /** `evaluator_view`, in the fields the replayer reads. */
  function EvaluatorView(plan: CrafPlan): Fields {
    map["memory_oracles" := Arr(MemoryOraclesToJson(plan.scenario.memoryOracles)),
        "decision_oracle" := Obj(map["oracle_id" := Str(plan.scenario.decisionOracle.oracleId),
                                     "episode_id" := Str(plan.scenario.decisionOracle.episodeId),
                                     "safe_actions" := Strings(plan.scenario.decisionOracle.safeActions)])]
  }

  /** What the bundle retains of the execution. */
  datatype CrafBundle = CrafBundle(initial: Json, target: Fields, evaluator: Fields, comparison: Fields, arms: seq<CrafDocuments>,
                                   eventCount: Json, comparisonResult: Json)

  /** What the writer retains of a completed execution. */
  function CrafBundleOf(plan: CrafPlan, e: CrafExecution): (b: CrafBundle)
    requires |e.arms| == 3
    ensures |b.arms| == |CRAF_ARMS|
  {
    hide CrafDocumentsOf, CrafComparisonToJson, StateToJson, CrafStart, CrafResultName;
    CrafBundle(
      StateToJson(CrafStart(plan)), TargetView(plan), EvaluatorView(plan), ComparisonFields(e.comparison),
      [CrafDocumentsOf(plan, e.arms[0]), CrafDocumentsOf(plan, e.arms[1]), CrafDocumentsOf(plan, e.arms[2])],
      Int(|e.arms[0].events| + |e.arms[1].events| + |e.arms[2].events|), Str(CrafResultName(e.comparison.result)))
  }

  function ComparisonFields(c: CrafComparison): Fields {
    CrafComparisonToJson(c).fields
  }

  // ----- the evaluator's expectations -----

  datatype Expectations = Expectations(criticalId: string, truth: bool, valid: bool, applicable: bool)

  /** The critical entries of the retained oracles. */
  function CriticalItems(items: seq<Json>): Result<seq<Fields>, ReplayError> {
    if items == [] then Ok([])
    else if !items[0].Obj? then Err(Undecodable)
    else
      var critical :- Readable(ReadBool(items[0].fields, "oracle_criticality"));
      var rest :- CriticalItems(items[1..]);
      Ok((if critical then [items[0].fields] else []) + rest)
  }

  /** What one critical oracle leads to, in the target's world. */
  function Expected(oracle: Fields, target: Fields): Result<Expectations, ReplayError> {
    var time :- Readable(ReadInt(target, "logical_time"));
    var validFrom :- Readable(ReadInt(oracle, "valid_from"));
    var validUntil :- Readable(ReadOptionalInt(oracle, "valid_until"));
    var applicability :- Readable(ReadObject(oracle, "applicability"));
    var facts :- Readable(ReadObject(target, "facts"));
    var protocol :- Readable(ReadObject(target, "reference_run"));
    var id :- Readable(ReadString(oracle, "memory_id"));
    var truth :- Readable(ReadBool(oracle, "oracle_truth"));
    Ok(Expectations(id, truth, time >= validFrom && (validUntil.None? || time < validUntil.value),
                    && PyEq(Get(applicability, "environment"), Get(facts, "target_environment"))
                    && PyEq(Get(applicability, "minimum_approvals"), Get(protocol, "minimum_approvals"))))
  }

  /** `_critical_oracle_expectations` */
  function ReadExpectations(evaluator: Fields, target: Fields): Result<Expectations, ReplayError> {
    var items :- Readable(ReadArray(evaluator, "memory_oracles"));
    var critical :- CriticalItems(items);
    if |critical| != 1 then Err(WrongOracle) else Expected(critical[0], target)
  }

  /** `_verify_oracle_assessment` does not raise. */
  predicate OracleAgrees(assessment: Fields, e: Expectations) {
    && PyEq(Get(assessment, "critical_memory_id"), Str(e.criticalId))
    && PyEq(Get(assessment, "oracle_truth"), Bool(e.truth)) && PyEq(Get(assessment, "oracle_valid"), Bool(e.valid))
    && PyEq(Get(assessment, "oracle_applicable"), Bool(e.applicable))
  }

  function ReadSafeActions(evaluator: Fields): Result<seq<string>, ReplayError> {
    var oracle :- Readable(ReadObject(evaluator, "decision_oracle"));
    var items :- Readable(ReadArray(oracle, "safe_actions"));
    Readable(StringItems(items, "safe_action"))
  }

  // ----- the whole bundle -----

  /** The comparison's arms by name; a later one of the same name replaces an earlier one. */
  function ComparedArms(items: seq<Json>): Result<map<string, Fields>, ReplayError> {
    if items == [] then Ok(map[])
    else
      var front :- ComparedArms(Front(items));
      if !Last(items).Obj? then Err(Undecodable)
      else
        var name :- Readable(ReadString(Last(items).fields, "arm"));
        Ok(front[name := Last(items).fields])
  }

  const ARM_NAMES: set<string> := {"control", "vulnerable", "protected"}

  /** What is retained once for all arms, read. */
  datatype Shared = Shared(initial: StateSnapshot, expected: Expectations, safeActions: seq<string>, compared: map<string, Fields>)

  function ReadShared(p: Platform, b: CrafBundle): (shared: Result<Shared, ReplayError>)
    ensures shared.Ok? ==> shared.value.compared.Keys == ARM_NAMES
  {
    hide StateFromJson, ReadExpectations, ReadSafeActions, ComparedArms, StateHash;
    var initial :- Readable(StateFromJson(b.initial));
    var expected :- ReadExpectations(b.evaluator, b.target);
    var safeActions :- ReadSafeActions(b.evaluator);
    if Get(b.comparison, "shared_initial_state_sha256") != Str(StateHash(p, initial)) then Err(ComparisonMismatch)
    else
      var items :- Readable(ReadArray(b.comparison, "arms"));
      var compared :- ComparedArms(items);
      if compared.Keys != ARM_NAMES then Err(ComparisonMismatch) else Ok(Shared(initial, expected, safeActions, compared))
  }

  /** One arm, checked against the comparison and the evaluator's expectations. */
  function ReplayComparedArm(p: Platform, shared: Shared, arm: CrafArm, d: CrafDocuments): Result<CrafArmReplay, ReplayError>
    requires shared.compared.Keys == ARM_NAMES
  {
    hide ReplayCrafArm, OracleAgrees;
    var replayed :- ReplayCrafArm(p, shared.initial, arm, d, shared.safeActions);
    if !PyEq(Obj(shared.compared[CrafArmName(arm)]), Obj(d.assessment)) then Err(ComparisonMismatch)
    else if !OracleAgrees(d.assessment, shared.expected) then Err(WrongOracle)
    else Ok(replayed)
  }

  /** The loop over the arms: the first that is refused decides. */
  function ReplayComparedArms(p: Platform, shared: Shared, arms: seq<CrafArm>, ds: seq<CrafDocuments>)
    : (replayed: Result<seq<CrafArmReplay>, ReplayError>)
    requires |arms| == |ds| && shared.compared.Keys == ARM_NAMES
    ensures replayed.Ok? ==> |replayed.value| == |arms|
  {
    hide ReplayComparedArm;
    if arms == [] then Ok([])
    else
      var front :- ReplayComparedArms(p, shared, Front(arms), Front(ds));
      var last :- ReplayComparedArm(p, shared, Last(arms), Last(ds));
      Ok(front + [last])
  }

  function TotalEvents(rs: seq<CrafArmReplay>): nat {
    if rs == [] then 0 else TotalEvents(Front(rs)) + Last(rs).eventCount
  }

  /** The final checks: the event count, and the verdict recomputed from what was rebuilt. */
  function CrafConfirmed(rs: seq<CrafArmReplay>, b: CrafBundle): Result<(string, seq<CrafArmReplay>), ReplayError>
    requires |rs| == 3
  {
    hide ExpectedResult;
    if b.eventCount != Int(TotalEvents(rs)) then Err(CountMismatch)
    else
      var result :- Readable(ReadString(b.comparison, "result"));
      if result != ExpectedResult(rs[0].told, rs[1].told, rs[2].told) || b.comparisonResult != Str(result) then Err(ComparisonMismatch)
      else Ok((result, rs))
  }

  /** `_replay_craf_bundle` */
  function ReplayCrafBundle(p: Platform, b: CrafBundle): Result<(string, seq<CrafArmReplay>), ReplayError>
    requires |b.arms| == |CRAF_ARMS|
  {
    hide ReadShared, ReplayComparedArms, CrafConfirmed;
    var shared :- ReadShared(p, b);
    var rs :- ReplayComparedArms(p, shared, CRAF_ARMS, b.arms);
    CrafConfirmed(rs, b)
  }

  lemma {:induction false} RefusedCrafArmDecides(p: Platform, shared: Shared, arms: seq<CrafArm>, ds: seq<CrafDocuments>, n: nat)
    requires n <= |arms| == |ds| && shared.compared.Keys == ARM_NAMES
    requires ReplayComparedArms(p, shared, arms[..n], ds[..n]).Err?
    ensures ReplayComparedArms(p, shared, arms, ds) == ReplayComparedArms(p, shared, arms[..n], ds[..n])
    decreases |arms|
  {
    hide ReplayComparedArm;
    if n < |arms| {
      assert Front(arms)[..n] == arms[..n] && Front(ds)[..n] == ds[..n];
      RefusedCrafArmDecides(p, shared, Front(arms), Front(ds), n);
    } else {
      assert arms[..n] == arms && ds[..n] == ds;
    }
  }

  lemma NothingReplayed(p: Platform, shared: Shared, ds: seq<CrafDocuments>)
    requires shared.compared.Keys == ARM_NAMES
    ensures ReplayComparedArms(p, shared, CRAF_ARMS[..0], ds[..0]) == Ok([]) && TotalEvents([]) == 0
  {
  }

  /** One step of the loop. */
  lemma ComparedStep(p: Platform, shared: Shared, arms: seq<CrafArm>, ds: seq<CrafDocuments>, replays: seq<CrafArmReplay>, i: nat)
    requires i < |arms| == |ds| && shared.compared.Keys == ARM_NAMES
    requires ReplayComparedArms(p, shared, arms[..i], ds[..i]) == Ok(replays)
    ensures var one := ReplayComparedArm(p, shared, arms[i], ds[i]);
            && (one.Ok? ==>
                  && ReplayComparedArms(p, shared, arms[..i + 1], ds[..i + 1]) == Ok(replays + [one.value])
                  && TotalEvents(replays + [one.value]) == TotalEvents(replays) + one.value.eventCount)
            && (one.Err? ==> ReplayComparedArms(p, shared, arms, ds) == Err(one.error))
  {
    hide ReplayComparedArm;
    assert Front(arms[..i + 1]) == arms[..i] && Front(ds[..i + 1]) == ds[..i];
    var replayed := ReplayComparedArm(p, shared, arms[i], ds[i]);
    if replayed.Ok? {
      assert Front(replays + [replayed.value]) == replays;
    } else {
      RefusedCrafArmDecides(p, shared, arms, ds, i + 1);
    }
  }

  method ReplayRetainedCraf(p: Platform, b: CrafBundle) returns (result: Result<(string, seq<CrafArmReplay>), ReplayError>)
    requires |b.arms| == |CRAF_ARMS|
    ensures result == ReplayCrafBundle(p, b)
  {
    hide ReadShared, ReplayComparedArm, ReplayComparedArms, ExpectedResult, TotalEvents;
    var shared :- ReadShared(p, b);
    NothingReplayed(p, shared, b.arms);
    var replays: seq<CrafArmReplay> := [];
    var totalEvents := 0;
    for i := 0 to |CRAF_ARMS|
      invariant ReplayComparedArms(p, shared, CRAF_ARMS[..i], b.arms[..i]) == Ok(replays) && |replays| == i
      invariant totalEvents == TotalEvents(replays)
    {
      ComparedStep(p, shared, CRAF_ARMS, b.arms, replays, i);
      var replayed := ReplayComparedArm(p, shared, CRAF_ARMS[i], b.arms[i]);
      if replayed.Err? { return Err(replayed.error); }
      replays := replays + [replayed.value];
      totalEvents := totalEvents + replayed.value.eventCount;
    }
    assert CRAF_ARMS[..|CRAF_ARMS|] == CRAF_ARMS && b.arms[..|CRAF_ARMS|] == b.arms;
    if b.eventCount != Int(totalEvents) { return Err(CountMismatch); }
    var verdict :- Readable(ReadString(b.comparison, "result"));
    if verdict != ExpectedResult(replays[0].told, replays[1].told, replays[2].told) || b.comparisonResult != Str(verdict) {
      return Err(ComparisonMismatch);
    }
    return Ok((verdict, replays));
  }

  // ----- what was written is read back -----

  function OracleFieldsOf(os: seq<MemoryOracle>): seq<Fields> {
    seq(|os|, i requires 0 <= i < |os| => MemoryOracleFields(os[i]))
  }

  lemma OracleLabel(o: MemoryOracle)
    ensures ReadBool(MemoryOracleFields(o), "oracle_criticality") == Ok(o.criticality)
  {
  }

  lemma {:induction false} CriticalReadBack(os: seq<MemoryOracle>)
    ensures CriticalItems(MemoryOraclesToJson(os)) == Ok(OracleFieldsOf(Critical(os)))
  {
    hide MemoryOracleFields, ReadBool;
    var items := MemoryOraclesToJson(os);
    if os == [] {
      assert items == [] && OracleFieldsOf([]) == [];
    } else {
      CriticalReadBack(os[1..]);
      OracleLabel(os[0]);
      assert items[1..] == MemoryOraclesToJson(os[1..]) && items[0] == Obj(MemoryOracleFields(os[0]));
      assert OracleFieldsOf(Critical(os)) ==
             (if os[0].criticality then [MemoryOracleFields(os[0])] else []) + OracleFieldsOf(Critical(os[1..]));
    }
  }

  lemma OracleIsRead(o: MemoryOracle)
    ensures var f := MemoryOracleFields(o);
            && ReadString(f, "memory_id") == Ok(o.memoryId) && ReadBool(f, "oracle_truth") == Ok(o.truth)
            && ReadInt(f, "valid_from") == Ok(o.validFrom) && ReadOptionalInt(f, "valid_until") == Ok(o.validUntil)
            && ReadObject(f, "applicability") == Ok(o.applicability)
  {
  }

  lemma TargetIsRead(plan: CrafPlan)
    ensures var t := TargetView(plan);
            && ReadInt(t, "logical_time") == Ok(plan.scenario.logicalTime) && ReadObject(t, "facts") == Ok(plan.scenario.facts)
            && ReadObject(t, "reference_run").Ok?
            && Get(ReadObject(t, "reference_run").value, "minimum_approvals") == Int(plan.protocol.minimumApprovals)
  {
  }

  lemma ExpectedOf(plan: CrafPlan, oracle: MemoryOracle)
    ensures Expected(MemoryOracleFields(oracle), TargetView(plan)) ==
            Ok(Expectations(oracle.memoryId, oracle.truth, ValidAt(oracle, plan.scenario.logicalTime), OracleApplicable(plan, oracle)))
  {
    hide PyEq, MemoryOracleFields, TargetView, ReadString, ReadBool, ReadInt, ReadOptionalInt, ReadObject;
    OracleIsRead(oracle);
    TargetIsRead(plan);
  }

  /** The replayer expects of the arms what the evaluator's critical oracle says. */
  lemma ExpectationsReadBack(plan: CrafPlan, oracle: MemoryOracle)
    requires CriticalOracle(plan.scenario) == Ok(oracle)
    ensures ReadExpectations(EvaluatorView(plan), TargetView(plan)) ==
            Ok(Expectations(oracle.memoryId, oracle.truth, ValidAt(oracle, plan.scenario.logicalTime), OracleApplicable(plan, oracle)))
  {
    hide Expected, TargetView, OracleApplicable, ValidAt, MemoryOracleFields;
    CriticalReadBack(plan.scenario.memoryOracles);
    ExpectedOf(plan, oracle);
    assert Get(EvaluatorView(plan), "memory_oracles") == Arr(MemoryOraclesToJson(plan.scenario.memoryOracles));
    assert OracleFieldsOf([oracle]) == [MemoryOracleFields(oracle)];
    assert Critical(plan.scenario.memoryOracles) == [oracle];
  }

  lemma SafeActionsReadBack(plan: CrafPlan)
    ensures ReadSafeActions(EvaluatorView(plan)) == Ok(plan.scenario.decisionOracle.safeActions)
  {
    hide MemoryOraclesToJson, StringItems;
    var o := plan.scenario.decisionOracle;
    StringsRoundTrip(o.safeActions, "safe_action");
    var fields: Fields := map["oracle_id" := Str(o.oracleId), "episode_id" := Str(o.episodeId),
                              "safe_actions" := Strings(o.safeActions)];
    assert Get(EvaluatorView(plan), "decision_oracle") == Obj(fields);
    assert Get(fields, "safe_actions") == Strings(o.safeActions);
  }

  lemma ComparisonFieldsAre(c: CrafComparison)
    ensures var f := ComparisonFields(c);
            && Get(f, "shared_initial_state_sha256") == Str(c.initialStateSha256) && Get(f, "result") == Str(CrafResultName(c.result))
            && Get(f, "arms").Arr? && |Get(f, "arms").items| == |c.arms|
            && forall i | 0 <= i < |c.arms| :: Get(f, "arms").items[i] == CrafAssessmentToJson(c.arms[i])
  {
    hide CrafAssessmentToJson, CrafResultName, Strings;
  }

  /** The comparison of three arms lists them by name. */
  lemma ThreeListed(c: CrafAssessment, v: CrafAssessment, q: CrafAssessment)
    requires c.arm == CONTROL && v.arm == VULNERABLE && q.arm == PROTECTED
    ensures OnlyArm([c, v, q], CONTROL) + OnlyArm([c, v, q], PROTECTED) + OnlyArm([c, v, q], VULNERABLE) == [c, q, v]
  {
    var all, two, one, none: seq<CrafAssessment> := [c, v, q], [c, v], [c], [];
    assert Front(all) == two && Front(two) == one && Front(one) == none;
    forall arm: CrafArm
      ensures OnlyArm(all, arm) == (if arm == CONTROL then [c] else if arm == VULNERABLE then [v] else [q])
    {
      assert OnlyArm(none, arm) == [];
      assert OnlyArm(one, arm) == if arm == CONTROL then [c] else [];
      assert OnlyArm(two, arm) == if arm == CONTROL then [c] else if arm == VULNERABLE then [v] else [];
    }
  }

  /** The retained assessments by name, of the three arms. */
  function ByName(c: CrafAssessment, q: CrafAssessment, v: CrafAssessment): map<string, Fields> {
    map["control" := CrafAssessmentToJson(c).fields, "protected" := CrafAssessmentToJson(q).fields,
        "vulnerable" := CrafAssessmentToJson(v).fields]
  }

  lemma ThreeCompared(items: seq<Json>, c: CrafAssessment, q: CrafAssessment, v: CrafAssessment)
    requires c.arm == CONTROL && v.arm == VULNERABLE && q.arm == PROTECTED
    requires items == [CrafAssessmentToJson(c), CrafAssessmentToJson(q), CrafAssessmentToJson(v)]
    ensures ComparedArms(items) == Ok(ByName(c, q, v)) && ByName(c, q, v).Keys == ARM_NAMES
  {
    hide CrafAssessmentToJson;
    AssessmentFields(c);
    AssessmentFields(q);
    AssessmentFields(v);
    AssessmentIsObject(c);
    AssessmentIsObject(q);
    AssessmentIsObject(v);
    var two, one, none: seq<Json> := items[..2], items[..1], [];
    assert Front(items) == two && Front(two) == one && Front(one) == none;
    assert ComparedArms(one) == Ok(map["control" := CrafAssessmentToJson(c).fields]);
    assert ComparedArms(two) == Ok(map["control" := CrafAssessmentToJson(c).fields, "protected" := CrafAssessmentToJson(q).fields]);
  }

  lemma AssessmentIsObject(a: CrafAssessment)
    ensures CrafAssessmentToJson(a).Obj?
  {
    hide ClassificationName, StageName, CrafArmName, Strings;
  }

  // ----- what a completed execution replays to -----

  /** The execution is three guaranteed arms and the comparison of their assessments. */
  predicate CrafAssembled(p: Platform, plan: CrafPlan, critical: MemoryRecord, oracle: MemoryOracle, e: CrafExecution) {
    hide Guaranteed, Critically, AssessCraf, StateHash, CrafStart;
    && Critically(plan, critical, oracle) && |e.arms| == 3
    && e.arms[0].arm == CONTROL && e.arms[1].arm == VULNERABLE && e.arms[2].arm == PROTECTED
    && (forall i | 0 <= i < 3 :: Guaranteed(p, plan, critical, oracle, e.arms[i]))
    && AssessCraf(plan.scenario.episode.scenarioId, StateHash(p, CrafStart(plan)),
                  [e.arms[0].assessment, e.arms[1].assessment, e.arms[2].assessment]) == Ok(e.comparison)
  }

  lemma {:induction false} EveryArmGuaranteed(p: Platform, plan: CrafPlan, arms: seq<CrafArm>, critical: MemoryRecord,
                                              oracle: MemoryOracle, ledger: Budget.Ledger)
    requires Critically(plan, critical, oracle) && CrafArmsRun(p, plan, arms, critical, oracle, ledger).Ok?
    ensures var ms := CrafArmsRun(p, plan, arms, critical, oracle, ledger).value.0;
            forall i | 0 <= i < |arms| :: ms[i].arm == arms[i] && Guaranteed(p, plan, critical, oracle, ms[i])
  {
    hide CrafArmRun, Guaranteed, Critically;
    if arms != [] {
      EveryArmGuaranteed(p, plan, Front(arms), critical, oracle, ledger);
      var earlier := CrafArmsRun(p, plan, Front(arms), critical, oracle, ledger).value.1;
      CompletedArmGuarantees(p, plan, Last(arms), critical, oracle, earlier);
    }
  }

  /** The critical memory and oracle of a completed execution. */
  lemma ExecutedFinds(p: Platform, plan: CrafPlan, ledger: Budget.Ledger) returns (critical: MemoryRecord, oracle: MemoryOracle)
    requires CrafExecuted(p, plan, ledger).Ok?
    ensures Critically(plan, critical, oracle)
    ensures CrafArmsRun(p, plan, CRAF_ARMS, critical, oracle, ledger).Ok?
    ensures var e, ran := CrafExecuted(p, plan, ledger).value, CrafArmsRun(p, plan, CRAF_ARMS, critical, oracle, ledger).value.0;
            && e.arms == ran
            && AssessCraf(plan.scenario.episode.scenarioId, StateHash(p, CrafStart(plan)), Assessments(ran)) == Ok(e.comparison)
  {
    hide CrafArmsRun, CrafStart, CriticalOracle, FindMemory, AssessCraf, StateHash;
    StartsFromScenario(plan);
    oracle := CriticalOracle(plan.scenario).value;
    critical := ProtectedCritical(plan.scenario, CrafStart(plan)).value;
  }

  lemma ExecutedIsAssembled(p: Platform, plan: CrafPlan, ledger: Budget.Ledger) returns (critical: MemoryRecord, oracle: MemoryOracle)
    requires CrafExecuted(p, plan, ledger).Ok?
    ensures CrafAssembled(p, plan, critical, oracle, CrafExecuted(p, plan, ledger).value)
  {
    hide CrafExecuted, CrafArmsRun, CrafStart, Guaranteed, Critically, AssessCraf, StateHash;
    critical, oracle := ExecutedFinds(p, plan, ledger);
    EveryArmGuaranteed(p, plan, CRAF_ARMS, critical, oracle, ledger);
    var ms := CrafExecuted(p, plan, ledger).value.arms;
    assert CRAF_ARMS[0] == CONTROL && CRAF_ARMS[1] == VULNERABLE && CRAF_ARMS[2] == PROTECTED;
    assert Assessments(ms) == [ms[0].assessment, ms[1].assessment, ms[2].assessment];
  }

  /** What the replayer reads once for all arms of an assembled execution. */
  function SharedOf(plan: CrafPlan, oracle: MemoryOracle, e: CrafExecution): Shared
    requires |e.arms| == 3
  {
    hide CrafStart, ValidAt, OracleApplicable, ByName;
    Shared(CrafStart(plan),
           Expectations(oracle.memoryId, oracle.truth, ValidAt(oracle, plan.scenario.logicalTime), OracleApplicable(plan, oracle)),
           plan.scenario.decisionOracle.safeActions,
           ByName(e.arms[0].assessment, e.arms[2].assessment, e.arms[1].assessment))
  }

  lemma GuaranteedArmAgrees(p: Platform, plan: CrafPlan, critical: MemoryRecord, oracle: MemoryOracle, m: CrafMaterial)
    requires Guaranteed(p, plan, critical, oracle, m)
    ensures m.assessment.arm == m.arm && m.assessment.sourcePreserved
    ensures m.assessment.classification == CORE_CRAF ==> !m.assessment.decisionSafe
    ensures OracleAgrees(CrafDocumentsOf(plan, m).assessment,
                         Expectations(oracle.memoryId, oracle.truth, ValidAt(oracle, plan.scenario.logicalTime),
                                      OracleApplicable(plan, oracle)))
  {
    hide RecordsCrafArm, ContextBelongs, EvaluateDecision, Accepted, ReplayAll, CrafStart, CrafDocumentsOf, CrafAssessmentToJson,
         ValidAt, OracleApplicable, HitIds, SourceDigest;
    CrafDocumentFields(plan, m);
    AssessmentFields(m.assessment);
    OracleFields(m.assessment);
  }

  lemma AssembledComparison(p: Platform, plan: CrafPlan, critical: MemoryRecord, oracle: MemoryOracle, e: CrafExecution)
    requires CrafAssembled(p, plan, critical, oracle, e)
    ensures e.comparison.initialStateSha256 == StateHash(p, CrafStart(plan))
    ensures e.comparison.arms == [e.arms[0].assessment, e.arms[2].assessment, e.arms[1].assessment]
    ensures CrafResultName(e.comparison.result) ==
            ExpectedResult(RetoldOf(e.arms[0].assessment), RetoldOf(e.arms[1].assessment), RetoldOf(e.arms[2].assessment))
  {
    hide Guaranteed, Critically, StateHash, CrafStart, ForArm, OnlyArm, RetoldOf, ExpectedResult, CrafResultName, Recovered;
    var c, v, q := e.arms[0].assessment, e.arms[1].assessment, e.arms[2].assessment;
    AssembledArms(p, plan, critical, oracle, e);
    ThreeListed(c, v, q);
    VerdictsAgree(c, v, q, plan.scenario.episode.scenarioId, StateHash(p, CrafStart(plan)));
  }

  lemma SharedFrom(p: Platform, b: CrafBundle, shared: Shared)
    requires StateFromJson(b.initial) == Ok(shared.initial) && ReadExpectations(b.evaluator, b.target) == Ok(shared.expected)
    requires ReadSafeActions(b.evaluator) == Ok(shared.safeActions)
    requires Get(b.comparison, "shared_initial_state_sha256") == Str(StateHash(p, shared.initial))
    requires Get(b.comparison, "arms").Arr? && ComparedArms(Get(b.comparison, "arms").items) == Ok(shared.compared)
    requires shared.compared.Keys == ARM_NAMES
    ensures ReadShared(p, b) == Ok(shared)
  {
    hide StateHash, StateFromJson, ReadExpectations, ReadSafeActions, ComparedArms;
  }

  lemma SharedReadBack(p: Platform, plan: CrafPlan, critical: MemoryRecord, oracle: MemoryOracle, e: CrafExecution)
    requires CrafAssembled(p, plan, critical, oracle, e)
    ensures ReadShared(p, CrafBundleOf(plan, e)) == Ok(SharedOf(plan, oracle, e))
    ensures SharedOf(plan, oracle, e).compared.Keys == ARM_NAMES
  {
    hide Guaranteed, AssessCraf, StateHash, CrafStart, StateToJson, StateFromJson, ReadShared, ReadExpectations, ReadSafeActions,
         ComparedArms, EvaluatorView, TargetView, CriticalOracle, FindMemory, ValidAt, OracleApplicable, ComparisonFields,
         CrafAssessmentToJson, CrafDocumentsOf, ByName, CrafResultName;
    StateRoundTrip(CrafStart(plan));
    ExpectationsReadBack(plan, oracle);
    SafeActionsReadBack(plan);
    ComparedReadBack(p, plan, critical, oracle, e);
    SharedFrom(p, CrafBundleOf(plan, e), SharedOf(plan, oracle, e));
  }

  lemma ComparedFrom(k: CrafComparison, c: CrafAssessment, q: CrafAssessment, v: CrafAssessment)
    requires c.arm == CONTROL && v.arm == VULNERABLE && q.arm == PROTECTED && k.arms == [c, q, v]
    ensures var arms := Get(ComparisonFields(k), "arms");
            arms.Arr? && ComparedArms(arms.items) == Ok(ByName(c, q, v)) && ByName(c, q, v).Keys == ARM_NAMES
  {
    hide ComparedArms, ComparisonFields, CrafAssessmentToJson, ByName, CrafResultName;
    ComparisonFieldsAre(k);
    var items := Get(ComparisonFields(k), "arms").items;
    assert items == [CrafAssessmentToJson(c), CrafAssessmentToJson(q), CrafAssessmentToJson(v)];
    ThreeCompared(items, c, q, v);
  }

  lemma AssembledArms(p: Platform, plan: CrafPlan, critical: MemoryRecord, oracle: MemoryOracle, e: CrafExecution)
    requires CrafAssembled(p, plan, critical, oracle, e)
    ensures e.arms[0].assessment.arm == CONTROL && e.arms[1].assessment.arm == VULNERABLE && e.arms[2].assessment.arm == PROTECTED
    ensures e.arms[1].assessment.sourcePreserved && e.arms[2].assessment.sourcePreserved
    ensures e.arms[1].assessment.classification == CORE_CRAF ==> !e.arms[1].assessment.decisionSafe
  {
    hide Guaranteed, Critically, AssessCraf, StateHash, CrafStart, OracleAgrees;
    GuaranteedArmAgrees(p, plan, critical, oracle, e.arms[0]);
    GuaranteedArmAgrees(p, plan, critical, oracle, e.arms[1]);
    GuaranteedArmAgrees(p, plan, critical, oracle, e.arms[2]);
  }

  lemma ComparedReadBack(p: Platform, plan: CrafPlan, critical: MemoryRecord, oracle: MemoryOracle, e: CrafExecution)
    requires CrafAssembled(p, plan, critical, oracle, e)
    ensures var f, compared := ComparisonFields(e.comparison), ByName(e.arms[0].assessment, e.arms[2].assessment, e.arms[1].assessment);
            && Get(f, "shared_initial_state_sha256") == Str(StateHash(p, CrafStart(plan)))
            && Get(f, "arms").Arr? && ComparedArms(Get(f, "arms").items) == Ok(compared) && compared.Keys == ARM_NAMES
  {
    hide Guaranteed, Critically, AssessCraf, StateHash, CrafStart, ComparedArms, ComparisonFields, CrafAssessmentToJson, ByName,
         CrafResultName;
    AssembledComparison(p, plan, critical, oracle, e);
    AssembledArms(p, plan, critical, oracle, e);
    ComparisonFieldsAre(e.comparison);
    ComparedFrom(e.comparison, e.arms[0].assessment, e.arms[2].assessment, e.arms[1].assessment);
  }

  lemma NamedAssessment(plan: CrafPlan, oracle: MemoryOracle, e: CrafExecution, i: nat)
    requires i < |e.arms| == 3 && e.arms[0].arm == CONTROL && e.arms[1].arm == VULNERABLE && e.arms[2].arm == PROTECTED
    ensures CrafArmName(e.arms[i].arm) in SharedOf(plan, oracle, e).compared
    ensures SharedOf(plan, oracle, e).compared[CrafArmName(e.arms[i].arm)] == CrafDocumentsOf(plan, e.arms[i]).assessment
  {
    hide CrafDocumentsOf, CrafAssessmentToJson, CrafStart, ValidAt, OracleApplicable;
    CrafDocumentFields(plan, e.arms[i]);
  }

  /** How one arm replays. */
  predicate ReplaysOne(p: Platform, shared: Shared, arm: CrafArm, d: CrafDocuments, m: CrafMaterial)
    requires shared.compared.Keys == ARM_NAMES
  {
    ReplayComparedArm(p, shared, arm, d) == if Locatable(m) then Ok(CrafReplayOf(m)) else Err(Mislocalized)
  }

  /** One arm of an assembled execution, checked against the comparison. */
  lemma AssembledArmReplays(p: Platform, plan: CrafPlan, critical: MemoryRecord, oracle: MemoryOracle, e: CrafExecution, i: nat)
    requires CrafAssembled(p, plan, critical, oracle, e) && i < 3 && SharedOf(plan, oracle, e).compared.Keys == ARM_NAMES
    ensures ReplaysOne(p, SharedOf(plan, oracle, e), e.arms[i].arm, CrafDocumentsOf(plan, e.arms[i]), e.arms[i])
  {
    hide Guaranteed, Critically, AssessCraf, StateHash, CrafStart, ReplayCrafArm, OracleAgrees, CrafDocumentsOf, Locatable, ByName,
         ValidAt, OracleApplicable, PyEq, CrafReplayOf;
    var m := e.arms[i];
    GuaranteedReplays(p, plan, critical, oracle, m);
    GuaranteedArmAgrees(p, plan, critical, oracle, m);
    NamedAssessment(plan, oracle, e, i);
    PyEqReflexive(Obj(CrafDocumentsOf(plan, m).assessment));
  }

  predicate AllLocatable(ms: seq<CrafMaterial>) {
    forall i | 0 <= i < |ms| :: Locatable(ms[i])
  }

  function CrafReplaysOf(ms: seq<CrafMaterial>): seq<CrafArmReplay> {
    seq(|ms|, i requires 0 <= i < |ms| => CrafReplayOf(ms[i]))
  }

  /** How a list of arms replays. */
  predicate ReplaysTo(p: Platform, shared: Shared, arms: seq<CrafArm>, ds: seq<CrafDocuments>, ms: seq<CrafMaterial>)
    requires |arms| == |ds| == |ms| && shared.compared.Keys == ARM_NAMES
  {
    ReplayComparedArms(p, shared, arms, ds) == if AllLocatable(ms) then Ok(CrafReplaysOf(ms)) else Err(Mislocalized)
  }

  lemma ReplaysStep(p: Platform, shared: Shared, arms: seq<CrafArm>, ds: seq<CrafDocuments>, ms: seq<CrafMaterial>)
    requires |arms| == |ds| == |ms| && ms != [] && shared.compared.Keys == ARM_NAMES
    requires ReplaysTo(p, shared, Front(arms), Front(ds), Front(ms)) && ReplaysOne(p, shared, Last(arms), Last(ds), Last(ms))
    ensures ReplaysTo(p, shared, arms, ds, ms)
  {
    hide ReplayComparedArm, Locatable, CrafReplayOf;
    assert AllLocatable(ms) <==> AllLocatable(Front(ms)) && Locatable(Last(ms));
    assert CrafReplaysOf(ms) == CrafReplaysOf(Front(ms)) + [CrafReplayOf(Last(ms))];
  }

  lemma {:induction false} ArmsReplay(p: Platform, shared: Shared, arms: seq<CrafArm>, ds: seq<CrafDocuments>, ms: seq<CrafMaterial>)
    requires |arms| == |ds| == |ms| && shared.compared.Keys == ARM_NAMES
    requires forall i | 0 <= i < |ms| :: ReplaysOne(p, shared, arms[i], ds[i], ms[i])
    ensures ReplaysTo(p, shared, arms, ds, ms)
  {
    hide ReplaysOne;
    if ms == [] {
      assert CrafReplaysOf(ms) == [];
    } else {
      hide ReplaysTo;
      var n := |ms| - 1;
      assert ReplaysOne(p, shared, arms[n], ds[n], ms[n]);
      ArmsReplay(p, shared, Front(arms), Front(ds), Front(ms));
      ReplaysStep(p, shared, arms, ds, ms);
    }
  }

  lemma AssembledReplays(p: Platform, plan: CrafPlan, critical: MemoryRecord, oracle: MemoryOracle, e: CrafExecution)
    requires CrafAssembled(p, plan, critical, oracle, e) && SharedOf(plan, oracle, e).compared.Keys == ARM_NAMES
    ensures ReplaysTo(p, SharedOf(plan, oracle, e), CRAF_ARMS, CrafBundleOf(plan, e).arms, e.arms)
  {
    hide Guaranteed, Critically, AssessCraf, StateHash, CrafStart, CrafDocumentsOf, SharedOf, ReplaysOne, ReplaysTo;
    var arms, ds := CRAF_ARMS, CrafBundleOf(plan, e).arms;
    forall i | 0 <= i < 3 ensures ReplaysOne(p, SharedOf(plan, oracle, e), arms[i], ds[i], e.arms[i]) {
      AssembledArmReplays(p, plan, critical, oracle, e, i);
      assert arms[i] == e.arms[i].arm && ds[i] == CrafDocumentsOf(plan, e.arms[i]);
    }
    ArmsReplay(p, SharedOf(plan, oracle, e), arms, ds, e.arms);
  }

  lemma ThreeCounted(rs: seq<CrafArmReplay>)
    requires |rs| == 3
    ensures TotalEvents(rs) == rs[0].eventCount + rs[1].eventCount + rs[2].eventCount
  {
    assert Front(rs) == rs[..2] && Front(rs[..2]) == rs[..1] && Front(rs[..1]) == [];
    assert TotalEvents([]) == 0 && TotalEvents(rs[..1]) == rs[0].eventCount;
    assert TotalEvents(rs[..2]) == rs[0].eventCount + rs[1].eventCount;
  }

  lemma LocatableIsConfirmed(p: Platform, plan: CrafPlan, critical: MemoryRecord, oracle: MemoryOracle, e: CrafExecution)
    requires CrafAssembled(p, plan, critical, oracle, e)
    ensures CrafConfirmed(CrafReplaysOf(e.arms), CrafBundleOf(plan, e)) ==
            Ok((CrafResultName(e.comparison.result), CrafReplaysOf(e.arms)))
  {
    hide Guaranteed, Critically, AssessCraf, StateHash, CrafStart, CrafDocumentsOf, ExpectedResult, RetoldOf, ComparisonFields,
         CrafResultName, TargetView, EvaluatorView;
    AssembledComparison(p, plan, critical, oracle, e);
    ComparisonFieldsAre(e.comparison);
    ThreeCounted(CrafReplaysOf(e.arms));
  }

  /** Replaying the execution's bundle gives back its result and its arms, if each is locatable; otherwise it is refused for that. */
  predicate CrafBundleReplays(p: Platform, plan: CrafPlan, e: CrafExecution) {
    hide ReplayCrafBundle, CrafBundleOf, CrafResultName, CrafReplaysOf;
    && |e.arms| == 3
    && ReplayCrafBundle(p, CrafBundleOf(plan, e)) ==
       if AllLocatable(e.arms) then Ok((CrafResultName(e.comparison.result), CrafReplaysOf(e.arms))) else Err(Mislocalized)
  }

  /**
   A completed CRAF execution, replayed from what its bundle retains, gives back its own comparison result
   and its own three arms exactly when, in every arm, the critical memory is among the decision hits or
   the decision context does not mention its identifier; otherwise the replay is refused as mislocalized.
   */
  lemma CompletedCrafReplaysIff(p: Platform, plan: CrafPlan, ledger: Budget.Ledger)
    requires CrafExecuted(p, plan, ledger).Ok?
    ensures CrafBundleReplays(p, plan, CrafExecuted(p, plan, ledger).value)
  {
    hide CrafExecuted, CrafAssembled, SharedOf, CrafBundleOf, ReadShared, ReplayComparedArms, CrafConfirmed, Locatable, CrafResultName,
         CrafReplayOf;
    var e := CrafExecuted(p, plan, ledger).value;
    var critical, oracle := ExecutedIsAssembled(p, plan, ledger);
    AssembledIsThree(p, plan, critical, oracle, e);
    SharedReadBack(p, plan, critical, oracle, e);
    AssembledReplays(p, plan, critical, oracle, e);
    LocatableIsConfirmed(p, plan, critical, oracle, e);
  }

  lemma AssembledIsThree(p: Platform, plan: CrafPlan, critical: MemoryRecord, oracle: MemoryOracle, e: CrafExecution)
    requires CrafAssembled(p, plan, critical, oracle, e)
    ensures |e.arms| == 3
  {
    hide Guaranteed, Critically, AssessCraf, StateHash, CrafStart;
  }
}
