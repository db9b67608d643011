/** Replaying a whole RISI-C bundle (replay.py), against the execution that wrote it. */
module RisiCBundleReplay {
  import opened Basics
  import opened Json
  import opened Models
  import opened Decoding
  import opened Printer
  import opened Trace
  import opened ReferenceMemory
  import opened Confidentiality
  import opened Decisions
  import opened Runs
  import opened RisiCRun
  import opened Retained
  import opened RisiCReplay
  import Budget

  // ----- the whole bundle -----

  /** What the bundle retains of the execution, apart from its scenario. */
  datatype BundleDocuments = BundleDocuments(initial: Json, oracle: Json, arms: seq<ArmDocuments>, comparison: Json,
                                             comparisonResult: string, eventCount: int, pairs: Json)

  function ArmSummary(arm: Arm, safe: bool, stateHash: string, viewHash: string, events: nat): Json {
    Obj(map["arm" := Str(ArmName(arm)), "safe" := Bool(safe), "final_state_hash" := Str(stateHash),
            "observer_view_hash" := Str(viewHash), "event_count" := Int(events)])
  }

  function PairSummary(a: PairAssessment, sham: Json, hidden: Json): Json {
    Obj(map["pair" := Str(PairName(a.pair)), "classification" := Str(ClassificationName(a.classification)),
            "advantage" := Float(a.advantage), "sole_mediator" := Bool(a.soleMediator), "arms" := Arr([sham, hidden])])
  }

  /** The writer's summary of an arm: hashes of its own material, the view's taken from the assessment. */
  function WrittenSummary(p: Platform, m: ArmMaterial, a: ArmAssessment): Json {
    ArmSummary(m.arm, m.assessment.safe, StateHash(p, m.finalState), a.observerViewSha256, |m.events|)
  }

  /** The replayer's summary of an arm: hashes of what it has rebuilt. */
  function ReplayedSummary(p: Platform, r: ReplayedArm): Json {
    ArmSummary(r.arm, true, StateHash(p, r.finalState), p.digest(ViewToJson(r.view)), r.eventCount)
  }

  /** Four arms, and two pairs of two. */
  predicate Shaped(e: Execution) {
    |e.arms| == 4 && |e.comparison.pairs| == 2 && |e.comparison.pairs[0].arms| == 2 && |e.comparison.pairs[1].arms| == 2
  }

  /** What the writer retains of a completed execution. */
  function BundleOf(p: Platform, plan: Plan, e: Execution): (b: BundleDocuments)
    requires Shaped(e)
    ensures |b.arms| == |ARMS|
  {
    hide DocumentsOf, PairSummary, WrittenSummary, ComparisonToJson, OracleToJson, StateToJson, Start;
    var v, r := e.comparison.pairs[0], e.comparison.pairs[1];
    BundleDocuments(
      StateToJson(Start(plan)), OracleToJson(plan.oracle),
      [DocumentsOf(plan, e.arms[0]), DocumentsOf(plan, e.arms[1]), DocumentsOf(plan, e.arms[2]), DocumentsOf(plan, e.arms[3])],
      ComparisonToJson(e.comparison), ResultName(e.comparison.result),
      |e.arms[0].events| + |e.arms[1].events| + |e.arms[2].events| + |e.arms[3].events|,
      Arr([PairSummary(v, WrittenSummary(p, e.arms[0], v.arms[0]), WrittenSummary(p, e.arms[1], v.arms[1])),
           PairSummary(r, WrittenSummary(p, e.arms[2], r.arms[0]), WrittenSummary(p, e.arms[3], r.arms[1]))]))
  }

  /** The loop over the arms: the first that is refused decides. */
  function ReplayArms(p: Platform, initial: StateSnapshot, arms: seq<(Pair, Arm)>, ds: seq<ArmDocuments>, safeActions: seq<string>)
    : (replayed: Result<seq<ReplayedArm>, ReplayError>)
    requires |arms| == |ds|
    ensures replayed.Ok? ==> |replayed.value| == |arms|
  {
    hide ReplayArm;
    if arms == [] then Ok([])
    else
      var front :- ReplayArms(p, initial, Front(arms), Front(ds), safeActions);
      var last :- ReplayArm(p, initial, Last(arms).0, Last(arms).1, Last(ds), safeActions);
      Ok(front + [last])
  }

  /** The verdict recomputed from what was rebuilt. */
  function Recomputed(p: Platform, repr: FloatText, oracle: RisiCOracle, pair: Pair, sham: ReplayedArm, hidden: ReplayedArm)
    : PairAssessment
  {
    PairAssessed(p, repr, pair, sham.finalState, hidden.finalState, sham.view, hidden.view, oracle)
  }

  /** The comparison of what was rebuilt with what was retained. */
  function Confirmed(p: Platform, repr: FloatText, oracle: RisiCOracle, scenarioId: string, initial: StateSnapshot,
                     rs: seq<ReplayedArm>, b: BundleDocuments): Result<ComparisonResult, ReplayError>
    requires |rs| == 4
  {
    hide PairAssessed;
    var v, r := Recomputed(p, repr, oracle, VULNERABLE, rs[0], rs[1]), Recomputed(p, repr, oracle, PURE_READ, rs[2], rs[3]);
    match AssessComparison(scenarioId, StateHash(p, initial), v, r)
    case Err(_) => Err(ComparisonMismatch)
    case Ok(c) =>
      if !PyEq(b.comparison, ComparisonToJson(c)) || b.comparisonResult != ResultName(c.result) then Err(ComparisonMismatch)
      else if b.eventCount != rs[0].eventCount + rs[1].eventCount + rs[2].eventCount + rs[3].eventCount then Err(CountMismatch)
      else if !PyEq(b.pairs, Arr([PairSummary(v, ReplayedSummary(p, rs[0]), ReplayedSummary(p, rs[1])),
                                  PairSummary(r, ReplayedSummary(p, rs[2]), ReplayedSummary(p, rs[3]))])) then Err(ComparisonMismatch)
      else Ok(c.result)
  }

  /** `_replay_risi_c_bundle` */
  function ReplayBundle(p: Platform, repr: FloatText, scenarioId: string, safeActions: seq<string>, b: BundleDocuments)
    : Result<ComparisonResult, ReplayError>
    requires |b.arms| == |ARMS|
  {
    hide ReplayArms, Confirmed, OracleFromJson, StateFromJson;
    var initial :- Readable(StateFromJson(b.initial));
    var oracle :- Readable(OracleFromJson(b.oracle));
    var rs :- ReplayArms(p, initial, ARMS, b.arms, safeActions);
    Confirmed(p, repr, oracle, scenarioId, initial, rs, b)
  }

  lemma {:induction false} RefusedArmDecides(p: Platform, initial: StateSnapshot, arms: seq<(Pair, Arm)>, ds: seq<ArmDocuments>,
                                             safeActions: seq<string>, n: nat)
    requires n <= |arms| == |ds| && ReplayArms(p, initial, arms[..n], ds[..n], safeActions).Err?
    ensures ReplayArms(p, initial, arms, ds, safeActions) == ReplayArms(p, initial, arms[..n], ds[..n], safeActions)
    decreases |arms|
  {
    hide ReplayArm;
    if n < |arms| {
      assert Front(arms)[..n] == arms[..n] && Front(ds)[..n] == ds[..n];
      RefusedArmDecides(p, initial, Front(arms), Front(ds), safeActions, n);
    } else {
      assert arms[..n] == arms && ds[..n] == ds;
    }
  }

  method ReplayRetained(p: Platform, repr: FloatText, scenarioId: string, safeActions: seq<string>, b: BundleDocuments)
    returns (result: Result<ComparisonResult, ReplayError>)
    requires |b.arms| == |ARMS|
    ensures result == ReplayBundle(p, repr, scenarioId, safeActions, b)
  {
    hide ReplayArm, Confirmed, OracleFromJson, StateFromJson;
    var initial :- Readable(StateFromJson(b.initial));
    var oracle :- Readable(OracleFromJson(b.oracle));
    var replays: seq<ReplayedArm> := [];
    for i := 0 to |ARMS|
      invariant ReplayArms(p, initial, ARMS[..i], b.arms[..i], safeActions) == Ok(replays)
    {
      assert Front(ARMS[..i + 1]) == ARMS[..i] && Front(b.arms[..i + 1]) == b.arms[..i];
      var replayed := ReplayArm(p, initial, ARMS[i].0, ARMS[i].1, b.arms[i], safeActions);
      if replayed.Err? {
        RefusedArmDecides(p, initial, ARMS, b.arms, safeActions, i + 1);
        return Err(replayed.error);
      }
      replays := replays + [replayed.value];
    }
    assert ARMS[..|ARMS|] == ARMS && b.arms[..|ARMS|] == b.arms;
    return Confirmed(p, repr, oracle, scenarioId, initial, replays, b);
  }

  // ----- what a completed execution replays to -----

  lemma {:induction false} EveryArmReplays(p: Platform, plan: Plan, arms: seq<(Pair, Arm)>, ledger: Budget.Ledger)
    requires ArmsRun(p, plan, arms, ledger).Ok?
    ensures var ms := ArmsRun(p, plan, arms, ledger).value.0;
            forall i | 0 <= i < |arms| :: ms[i].arm == arms[i].1 && ArmReplays(p, plan, arms[i].0, arms[i].1, ms[i])
  {
    hide ArmRun, ArmReplays;
    if arms != [] {
      EveryArmReplays(p, plan, Front(arms), ledger);
      var earlier := ArmsRun(p, plan, Front(arms), ledger).value.1;
      OneArmReplays(p, plan, Last(arms).0, Last(arms).1, earlier);
    }
  }

  lemma OneArmReplays(p: Platform, plan: Plan, pair: Pair, arm: Arm, ledger: Budget.Ledger)
    requires ArmRun(p, plan, pair, arm, ledger).Ok?
    ensures var m := ArmRun(p, plan, pair, arm, ledger).value.0;
            m.arm == arm && ArmReplays(p, plan, pair, arm, m)
  {
    hide ArmRun, ReplayArm, DocumentsOf, Start, RecordsArm, ViewBelongs;
    CompletedArmReplaysIff(p, plan, pair, arm, ledger);
    ArmRunGuarantees(p, plan, pair, arm, ledger);
  }

  function AllDocuments(plan: Plan, ms: seq<ArmMaterial>): seq<ArmDocuments> {
    seq(|ms|, i requires 0 <= i < |ms| => DocumentsOf(plan, ms[i]))
  }

  predicate AllSafe(ms: seq<ArmMaterial>) {
    forall i | 0 <= i < |ms| :: ms[i].assessment.safe
  }

  function ReplayedAll(arms: seq<(Pair, Arm)>, ms: seq<ArmMaterial>): seq<ReplayedArm>
    requires |arms| == |ms|
  {
    seq(|ms|, i requires 0 <= i < |ms| => ReplayedOf(arms[i].0, arms[i].1, ms[i]))
  }

  /** How a list of arms replays, given how each of them does. */
  predicate ArmsReplayTo(p: Platform, plan: Plan, arms: seq<(Pair, Arm)>, ms: seq<ArmMaterial>)
    requires |arms| == |ms|
  {
    hide DocumentsOf, ReplayArms;
    ReplayArms(p, Start(plan), arms, AllDocuments(plan, ms), plan.scenario.decisionOracle.safeActions) ==
    if AllSafe(ms) then Ok(ReplayedAll(arms, ms)) else Err(UnsafeDecision)
  }

  lemma ArmsReplayStep(p: Platform, plan: Plan, arms: seq<(Pair, Arm)>, ms: seq<ArmMaterial>)
    requires |arms| == |ms| && arms != [] && ArmsReplayTo(p, plan, Front(arms), Front(ms))
    requires ArmReplays(p, plan, Last(arms).0, Last(arms).1, Last(ms))
    ensures ArmsReplayTo(p, plan, arms, ms)
  {
    hide ReplayArm, DocumentsOf, Start, ReplayedOf;
    var docs := AllDocuments(plan, ms);
    assert Front(docs) == AllDocuments(plan, Front(ms)) && Last(docs) == DocumentsOf(plan, Last(ms));
    assert AllSafe(ms) <==> AllSafe(Front(ms)) && Last(ms).assessment.safe;
    assert ReplayedAll(arms, ms) == ReplayedAll(Front(arms), Front(ms)) + [ReplayedOf(Last(arms).0, Last(arms).1, Last(ms))];
  }

  lemma {:induction false} ArmsReplay(p: Platform, plan: Plan, arms: seq<(Pair, Arm)>, ms: seq<ArmMaterial>)
    requires |arms| == |ms| && forall i | 0 <= i < |arms| :: ArmReplays(p, plan, arms[i].0, arms[i].1, ms[i])
    ensures ArmsReplayTo(p, plan, arms, ms)
  {
    hide ArmReplays, ArmsReplayTo;
    if arms == [] {
      NoArmsReplay(p, plan);
    } else {
      ArmsReplay(p, plan, Front(arms), Front(ms));
      assert ArmReplays(p, plan, arms[|arms| - 1].0, arms[|arms| - 1].1, ms[|arms| - 1]);
      ArmsReplayStep(p, plan, arms, ms);
    }
  }

  lemma NoArmsReplay(p: Platform, plan: Plan)
    ensures ArmsReplayTo(p, plan, [], [])
  {
    hide DocumentsOf, Start;
    assert ReplayedAll([], []) == [] && AllDocuments(plan, []) == [];
  }

  /** Both summaries of a safe arm agree: one hashes the material, the other what was rebuilt. */
  lemma SummariesAgree(p: Platform, pair: Pair, arm: Arm, m: ArmMaterial, a: ArmAssessment)
    requires m.arm == arm && m.assessment.safe && a.observerViewSha256 == p.digest(ViewToJson(m.view))
    ensures WrittenSummary(p, m, a) == ReplayedSummary(p, ReplayedOf(pair, arm, m))
  {
    hide ViewToJson, StateHash;
  }

  lemma AssessedViews(p: Platform, repr: FloatText, pair: Pair, sham: ArmMaterial, hidden: ArmMaterial, oracle: RisiCOracle)
    ensures var a := PairAssessed(p, repr, pair, sham.finalState, hidden.finalState, sham.view, hidden.view, oracle);
            && |a.arms| == 2 && a.arms[0].observerViewSha256 == p.digest(ViewToJson(sham.view))
            && a.arms[1].observerViewSha256 == p.digest(ViewToJson(hidden.view))
  {
    hide ViewToJson, StateToJson, CanaryAbsent, CorrectCount, ExpectedMediator, Classify, Prediction, StateHash;
  }

  /** The execution's comparison is that of its own four arms. */
  predicate Assembled(p: Platform, repr: FloatText, plan: Plan, e: Execution) {
    hide PairAssessed, AssessComparison, Start, StateHash;
    && Shaped(e)
    && var v, r := PairOf(p, repr, plan, VULNERABLE, e.arms[0], e.arms[1]), PairOf(p, repr, plan, PURE_READ, e.arms[2], e.arms[3]);
       && AssessComparison(plan.scenario.episode.scenarioId, StateHash(p, Start(plan)), v, r) == Ok(e.comparison)
       && e.comparison.pairs == [v, r]
  }

  lemma ExecutedIsAssembled(p: Platform, repr: FloatText, plan: Plan, ledger: Budget.Ledger)
    requires Executed(p, repr, plan, ledger).Ok?
    ensures Assembled(p, repr, plan, Executed(p, repr, plan, ledger).value)
    ensures ArmsRun(p, plan, ARMS, ledger).Ok?
    ensures Executed(p, repr, plan, ledger).value.arms == ArmsRun(p, plan, ARMS, ledger).value.0
  {
    hide ArmsRun, PairAssessed, Start, ProtectedCritical, StateHash;
    var ran := ArmsRun(p, plan, ARMS, ledger).value.0;
    AssessedViews(p, repr, VULNERABLE, ran[0], ran[1], plan.oracle);
    AssessedViews(p, repr, PURE_READ, ran[2], ran[3], plan.oracle);
  }

  predicate ConfirmedAs(p: Platform, repr: FloatText, plan: Plan, e: Execution, rs: seq<ReplayedArm>) {
    hide PairAssessed, AssessComparison, Start, StateHash, BundleOf, Confirmed, PairOf;
    && Assembled(p, repr, plan, e) && |rs| == 4
    && Confirmed(p, repr, plan.oracle, plan.scenario.episode.scenarioId, Start(plan), rs, BundleOf(p, plan, e)) == Ok(e.comparison.result)
  }

  lemma SafeIsConfirmed(p: Platform, repr: FloatText, plan: Plan, e: Execution, rs: seq<ReplayedArm>)
    requires Assembled(p, repr, plan, e) && AllSafe(e.arms) && |rs| == |e.arms| == |ARMS|
    requires forall i | 0 <= i < |ARMS| :: e.arms[i].arm == ARMS[i].1 && rs[i] == ReplayedOf(ARMS[i].0, ARMS[i].1, e.arms[i])
    ensures ConfirmedAs(p, repr, plan, e, rs)
  {
    hide PairAssessed, Start, StateHash, AssessComparison, ComparisonToJson, PairSummary, WrittenSummary, ReplayedSummary, PyEq,
         DocumentsOf, OracleToJson;
    AssessedViews(p, repr, VULNERABLE, e.arms[0], e.arms[1], plan.oracle);
    AssessedViews(p, repr, PURE_READ, e.arms[2], e.arms[3], plan.oracle);
    var v, r := e.comparison.pairs[0], e.comparison.pairs[1];
    SummariesAgree(p, ARMS[0].0, ARMS[0].1, e.arms[0], v.arms[0]);
    SummariesAgree(p, ARMS[1].0, ARMS[1].1, e.arms[1], v.arms[1]);
    SummariesAgree(p, ARMS[2].0, ARMS[2].1, e.arms[2], r.arms[0]);
    SummariesAgree(p, ARMS[3].0, ARMS[3].1, e.arms[3], r.arms[1]);
    PyEqReflexive(ComparisonToJson(e.comparison));
    PyEqReflexive(BundleOf(p, plan, e).pairs);
  }

  /** Replaying the execution's bundle gives back its result, if every decision was safe; otherwise it is refused for that. */
  predicate BundleReplays(p: Platform, repr: FloatText, plan: Plan, e: Execution) {
    hide PairAssessed, AssessComparison, Start, StateHash, BundleOf, ReplayBundle, PairOf;
    && Assembled(p, repr, plan, e)
    && ReplayBundle(p, repr, plan.scenario.episode.scenarioId, plan.scenario.decisionOracle.safeActions, BundleOf(p, plan, e))
       == if AllSafe(e.arms) then Ok(e.comparison.result) else Err(UnsafeDecision)
  }

  /**
   A completed RISI-C execution, replayed from what its bundle retains, gives back its own comparison
   result exactly when all four decisions were safe; otherwise the replay is refused for an unsafe decision.
   */
  lemma CompletedExecutionReplaysIff(p: Platform, repr: FloatText, plan: Plan, ledger: Budget.Ledger)
    requires Executed(p, repr, plan, ledger).Ok?
    ensures BundleReplays(p, repr, plan, Executed(p, repr, plan, ledger).value)
  {
    hide Executed, ArmsRun, PairAssessed, Start, StateHash, AssessComparison, ReplayArms, Confirmed, DocumentsOf, ArmReplays,
         StateToJson, StateFromJson, OracleToJson, OracleFromJson, ComparisonToJson, PairSummary;
    var e := Executed(p, repr, plan, ledger).value;
    ExecutedIsAssembled(p, repr, plan, ledger);
    EveryArmReplays(p, plan, ARMS, ledger);
    ArmsReplay(p, plan, ARMS, e.arms);
    StateRoundTrip(Start(plan));
    OracleRoundTrip(plan.oracle);
    assert BundleOf(p, plan, e).arms == AllDocuments(plan, e.arms);
    if AllSafe(e.arms) {
      var rs := ReplayArms(p, Start(plan), ARMS, AllDocuments(plan, e.arms), plan.scenario.decisionOracle.safeActions).value;
      SafeIsConfirmed(p, repr, plan, e, rs);
    }
  }

  // ----- executions whose decisions are known -----

  /** The required memory was retrieved, and it prohibits the requested region for the dataset's class. */
  predicate Prohibits(plan: Plan, decided: RetrievalResult) {
    && plan.region.requiredMemoryId in HitIds(decided)
    && Get(plan.scenario.facts, plan.region.datasetClassFact) == Str(plan.region.restrictedDatasetClass)
    && Get(plan.scenario.facts, plan.region.requestedRegionFact) == Str(plan.region.prohibitedRegion)
  }

  /** What is to be done after a decision retrieval. */
  function DueAction(plan: Plan, decided: RetrievalResult): string {
    if Prohibits(plan, decided) then plan.region.actionIfProhibited else plan.region.actionIfAllowed
  }

  lemma ArmTakesDueAction(plan: Plan, m: ArmMaterial)
    requires ProposeRegion(plan.scenario.episode, m.decided, plan.scenario.facts, plan.region) == Ok(m.decision)
    requires EvaluateDecision(m.decision, plan.scenario.decisionOracle) == Ok(m.assessment)
    ensures m.decision.action == DueAction(plan, m.decided)
    ensures m.decision.rationale == if plan.region.requiredMemoryId in HitIds(m.decided) then [plan.region.requiredMemoryId] else []
    ensures m.assessment.safe <==> DueAction(plan, m.decided) in plan.scenario.decisionOracle.safeActions
  {
    hide HitIds, DecisionId;
  }

  lemma {:induction false} EveryArmTakesDueAction(p: Platform, plan: Plan, arms: seq<(Pair, Arm)>, ledger: Budget.Ledger)
    requires ArmsRun(p, plan, arms, ledger).Ok?
    ensures var ms := ArmsRun(p, plan, arms, ledger).value.0;
            forall i | 0 <= i < |arms| :: && ms[i].decision.action == DueAction(plan, ms[i].decided)
                                          && (ms[i].assessment.safe <==>
                                                DueAction(plan, ms[i].decided) in plan.scenario.decisionOracle.safeActions)
  {
    hide ArmRun, RecordsArm, ViewBelongs, ProposeRegion, EvaluateDecision, DueAction;
    if arms != [] {
      EveryArmTakesDueAction(p, plan, Front(arms), ledger);
      var earlier := ArmsRun(p, plan, Front(arms), ledger).value.1;
      ArmRunGuarantees(p, plan, Last(arms).0, Last(arms).1, earlier);
      ArmTakesDueAction(plan, ArmRun(p, plan, Last(arms).0, Last(arms).1, earlier).value.0);
    }
  }

  /** Each arm takes the due action, and the bundle replays to its own result exactly when all four due actions are safe. */
  predicate DueActionsDecide(p: Platform, repr: FloatText, plan: Plan, e: Execution) {
    hide ReplayBundle, BundleOf, DueAction;
    && Shaped(e) && (forall i | 0 <= i < 4 :: e.arms[i].decision.action == DueAction(plan, e.arms[i].decided))
    && ReplayBundle(p, repr, plan.scenario.episode.scenarioId, plan.scenario.decisionOracle.safeActions, BundleOf(p, plan, e))
       == if forall i | 0 <= i < 4 :: DueAction(plan, e.arms[i].decided) in plan.scenario.decisionOracle.safeActions
          then Ok(e.comparison.result) else Err(UnsafeDecision)
  }

  /**
   In every completed execution each arm takes the prohibiting action exactly when its decision retrieval
   returned the required memory and the facts are the restricted class and the prohibited region; and the
   bundle replays exactly when the four actions so taken are safe.
   */
  lemma ReplaysIffDueActionsSafe(p: Platform, repr: FloatText, plan: Plan, ledger: Budget.Ledger)
    requires Executed(p, repr, plan, ledger).Ok?
    ensures DueActionsDecide(p, repr, plan, Executed(p, repr, plan, ledger).value)
  {
    hide Executed, ArmsRun, PairAssessed, Start, StateHash, AssessComparison, ReplayBundle, BundleOf, PairOf, DueAction;
    var e := Executed(p, repr, plan, ledger).value;
    ExecutedIsAssembled(p, repr, plan, ledger);
    EveryArmTakesDueAction(p, plan, ARMS, ledger);
    CompletedExecutionReplaysIff(p, repr, plan, ledger);
  }

  /** The region is not the prohibited one of a restricted class, whatever is retrieved. */
  predicate Unrestricted(plan: Plan) {
    Get(plan.scenario.facts, plan.region.datasetClassFact) != Str(plan.region.restrictedDatasetClass)
  }

  /** Of an unrestricted class every arm takes the allowed action, so the bundle replays exactly when that action is safe. */
  lemma UnrestrictedReplaysIff(p: Platform, repr: FloatText, plan: Plan, ledger: Budget.Ledger)
    requires Unrestricted(plan) && Executed(p, repr, plan, ledger).Ok?
    ensures var e := Executed(p, repr, plan, ledger).value;
            && Shaped(e)
            && ReplayBundle(p, repr, plan.scenario.episode.scenarioId, plan.scenario.decisionOracle.safeActions, BundleOf(p, plan, e))
               == if plan.region.actionIfAllowed in plan.scenario.decisionOracle.safeActions
                  then Ok(e.comparison.result) else Err(UnsafeDecision)
  {
    hide Executed, ReplayBundle, BundleOf, HitIds;
    ReplaysIffDueActionsSafe(p, repr, plan, ledger);
    var e := Executed(p, repr, plan, ledger).value;
    assert DueAction(plan, e.arms[0].decided) == plan.region.actionIfAllowed;
  }
}
