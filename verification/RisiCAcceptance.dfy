/** What the replay of a RISI-C bundle accepts (replay.py): no retained document may disagree with the recorded events. */
module RisiCAcceptance {
  import opened Basics
  import opened Json
  import Text
  import opened Models
  import opened Decoding
  import opened Printer
  import opened Trace
  import opened Decisions
  import opened ReferenceMemory
  import opened Replay
  import opened Confidentiality
  import opened Runs
  import opened RisiCRun
  import opened RisiCRecovery
  import opened Recorded
  import opened Retained
  import opened RisiCReplay
  import opened RisiCBundleReplay
  import Budget

  // ----- one arm, whatever its documents -----

  /** The events are read, are chained, and rebuild the final state from the initial one without touching the sources. */
  predicate Rebuilds(p: Platform, initial: StateSnapshot, events: seq<Json>, finalState: Json) {
    hide Verify, ReplayAll, StateFromJson, EventFromJson;
    var read := ReadAll(events, v => EventFromJson(v));
    && read.Ok? && Accepted(p, read.value)
    && StateFromJson(finalState).Ok? && ReplayAll(p, initial, read.value) == Ok(StateFromJson(finalState).value)
    && StateFromJson(finalState).value.sourceMemories == initial.sourceMemories
  }

  lemma ReconstructedIff(p: Platform, initial: StateSnapshot, events: seq<Json>, finalState: Json)
    ensures var rebuilt := Reconstructed(p, initial, events, finalState);
            && (rebuilt.Ok? <==> Rebuilds(p, initial, events, finalState))
            && (rebuilt.Ok? ==> ReadAll(events, v => EventFromJson(v)) == Ok(rebuilt.value.0)
                                && StateFromJson(finalState) == Ok(rebuilt.value.1) && |rebuilt.value.0| == |events|)
  {
    hide Verify, ReplayAll, StateFromJson, EventFromJson;
    ReadAllLength(events, v => EventFromJson(v));
  }

  lemma {:induction false} ReadAllLength<T>(items: seq<Json>, read: Json -> Result<T, DecodeError>)
    ensures ReadAll(items, read).Ok? ==> |ReadAll(items, read).value| == |items|
  {
    if items != [] {
      ReadAllLength(Front(items), read);
    }
  }

  /** The arm's documents agree with its events, and its decision is safe and recorded as safe. */
  predicate ArmProven(p: Platform, initial: StateSnapshot, d: ArmDocuments, safeActions: seq<string>) {
    hide Rebuilds, ViewFromJson, OutputsMatch, EventFromJson;
    && Rebuilds(p, initial, d.events, d.finalState)
    && ReadAll(d.events, v => EventFromJson(v)).Ok? && ViewFromJson(d.view).Ok?
    && OutputsMatch(initial, ReadAll(d.events, v => EventFromJson(v)).value, d, ViewFromJson(d.view).value)
    && Get(d.decision, "action").Str? && Get(d.decision, "action").s in safeActions
    && Get(d.decisionAssessment, "safe") == Bool(true)
  }

  lemma ArmAcceptedIff(p: Platform, initial: StateSnapshot, pair: Pair, arm: Arm, d: ArmDocuments, safeActions: seq<string>)
    ensures var replayed := ReplayArm(p, initial, pair, arm, d, safeActions);
            && (replayed.Ok? <==> ArmProven(p, initial, d, safeActions))
            && (replayed.Ok? ==>
                  && StateFromJson(d.finalState) == Ok(replayed.value.finalState) && ViewFromJson(d.view) == Ok(replayed.value.view)
                  && Get(d.decision, "action") == Str(replayed.value.action)
                  && replayed.value.pair == pair && replayed.value.arm == arm && replayed.value.eventCount == |d.events|)
  {
    hide Reconstructed, Rebuilds, ViewFromJson, OutputsMatch, StateFromJson, EventFromJson;
    ReconstructedIff(p, initial, d.events, d.finalState);
  }

  // ----- one arm, over the events of a completed one -----

  /** The documents of the arm's own retrievals, contexts and decision agree with it. */
  predicate OutputsAgree(plan: Plan, m: ArmMaterial, d: ArmDocuments) {
    hide PyEq, QueryToJson, ResultToJson, DecisionToJson;
    && PyEq(QueryToJson(VictimQuery(plan, m.arm)), Get(d.victim, "query")) && PyEq(ResultToJson(m.victim), Get(d.victim, "result"))
    && Get(d.victim, "context") == Str(m.victimContext)
    && PyEq(QueryToJson(plan.region.query), Get(d.retrieval, "query")) && PyEq(ResultToJson(m.decided), Get(d.retrieval, "result"))
    && Get(d.context, "context") == Str(m.decidedContext) && PyEq(DecisionToJson(m.decision), Obj(d.decision))
  }

  /** Every document says of the arm what it was: its outputs, its final state, its view, and that its decision was safe. */
  predicate ArmAgrees(plan: Plan, m: ArmMaterial, d: ArmDocuments) {
    hide StateFromJson, ViewFromJson, OutputsAgree;
    && OutputsAgree(plan, m, d)
    && StateFromJson(d.finalState) == Ok(m.finalState) && ViewFromJson(d.view) == Ok(m.view)
    && Get(d.decisionAssessment, "safe") == Bool(true)
  }

  /** The retained events are those of the arm. */
  predicate Logs(d: ArmDocuments, m: ArmMaterial) {
    hide EventFromJson;
    ReadAll(d.events, v => EventFromJson(v)) == Ok(m.events)
  }

  lemma QueryIsDetermined(q: RetrievalQuery, r: RetrievalQuery)
    requires PyEq(QueryToJson(q), QueryToJson(r))
    ensures q == r
  {
    hide Text.NonBlank;
    var f, g := QueryToJson(q).fields, QueryToJson(r).fields;
    assert forall k <- ["principal_id", "tenant_id", "text", "top_k"] :: k in f && k in g && PyEq(f[k], g[k]);
    assert "principal_id" in f && "tenant_id" in f && "text" in f && "top_k" in f;
    assert PyEq(f["principal_id"], g["principal_id"]) && PyEq(f["tenant_id"], g["tenant_id"]);
    assert PyEq(f["text"], g["text"]) && PyEq(f["top_k"], g["top_k"]);
  }

  lemma ContentsAreDetermined(memories: seq<MemoryRecord>, ids: seq<string>, contents: seq<string>, others: seq<string>)
    requires ContentsMatch(memories, ids, contents) && ContentsMatch(memories, ids, others)
    ensures contents == others
  {
    hide ById;
  }

  /** Only one view passes the check against the recorded observer retrieval. */
  lemma ViewIsDetermined(memories: seq<MemoryRecord>, event: Fields, query: RetrievalQuery, view: ObserverView, other: ObserverView)
    requires Get(event, "query") == QueryToJson(query)
    requires ViewMatches(memories, event, view) && ViewMatches(memories, event, other)
    ensures view == other
  {
    hide PyEq, QueryToJson, ContentsMatch, RecordedIds, Distinct;
    var e, f := view.exchanges[0], other.exchanges[0];
    QueryIsDetermined(query, e.query);
    QueryIsDetermined(query, f.query);
    ContentsAreDetermined(memories, e.responseIds, e.responseContents, f.responseContents);
    assert e.metadata == map["result_count" := Int(|e.responseIds|)] == f.metadata;
    assert view.exchanges == [e] && other.exchanges == [f];
  }

  lemma DecisionAction(decision: ProposedDecision, d: Fields)
    requires PyEq(DecisionToJson(decision), Obj(d))
    ensures Get(d, "action") == Str(decision.action)
  {
    var f := DecisionToJson(decision).fields;
    assert "action" in f && PyEq(f["action"], d["action"]);
  }

  lemma OutputsMatchIff(plan: Plan, m: ArmMaterial, d: ArmDocuments, view: ObserverView)
    requires RecordsArm(plan, m) && ViewBelongs(plan, m)
    ensures OutputsMatch(Start(plan), m.events, d, view) <==> OutputsAgree(plan, m, d) && view == m.view
  {
    hide PayloadsOf, ViewMatches, QueryToJson, ResultToJson, DecisionToJson, Start, VictimQuery, ViewBelongs, PyEq,
         ReferenceMemory.CompletedPayload;
    ViewMatchesRecord(plan, m);
    StartsWithMemories(plan);
    CompletedFields(VictimQuery(plan, m.arm), m.victim);
    CompletedFields(plan.observerQuery, m.observer);
    CompletedFields(plan.region.query, m.decided);
    TextIsItself(m.victimContext, Get(d.victim, "context"));
    TextIsItself(m.decidedContext, Get(d.context, "context"));
    var event := ReferenceMemory.CompletedPayload(plan.observerQuery, m.observer);
    if ViewMatches(plan.scenario.memories, event, view) {
      ViewIsDetermined(plan.scenario.memories, event, plan.observerQuery, view, m.view);
    }
  }

  /** The documents are accepted exactly when the decision was safe and they all agree, and then give back the arm. */
  predicate ArmAcceptedAs(p: Platform, plan: Plan, pair: Pair, arm: Arm, m: ArmMaterial, d: ArmDocuments) {
    hide ReplayArm, Start, ArmAgrees;
    var replayed := ReplayArm(p, Start(plan), pair, arm, d, plan.scenario.decisionOracle.safeActions);
    && (replayed.Ok? <==> m.assessment.safe && ArmAgrees(plan, m, d))
    && (replayed.Ok? ==> replayed.value == ReplayedOf(pair, arm, m))
  }

  /**
   Over the recorded events of a completed arm, the replayer accepts a set of documents exactly when the
   decision was safe and every document agrees with the arm: no part of it can be altered.
   */
  lemma RecordedArmAcceptedIff(p: Platform, plan: Plan, pair: Pair, arm: Arm, ledger: Budget.Ledger, d: ArmDocuments)
    requires ArmRun(p, plan, pair, arm, ledger).Ok?
    requires Logs(d, ArmRun(p, plan, pair, arm, ledger).value.0)
    ensures ArmAcceptedAs(p, plan, pair, arm, ArmRun(p, plan, pair, arm, ledger).value.0, d)
  {
    hide ArmRun, ReplayArm, ViewFromJson, OutputsMatch, Start, RecordsArm, ViewBelongs, Verify, ReplayAll, StateFromJson,
         EventFromJson, PyEq, ProposeRegion;
    var m := ArmRun(p, plan, pair, arm, ledger).value.0;
    ReadAllLength(d.events, v => EventFromJson(v));
    ArmRunGuarantees(p, plan, pair, arm, ledger);
    ArmVerifiesAndReplays(p, plan, pair, arm, ledger);
    StartsWithMemories(plan);
    ArmAcceptedIff(p, Start(plan), pair, arm, d, plan.scenario.decisionOracle.safeActions);
    SafeIsListed(m, plan.scenario.decisionOracle);
    if ViewFromJson(d.view).Ok? {
      OutputsMatchIff(plan, m, d, ViewFromJson(d.view).value);
    }
    if OutputsAgree(plan, m, d) {
      DecisionAction(m.decision, d.decision);
    }
  }

  lemma SafeIsListed(m: ArmMaterial, oracle: DecisionOracle)
    requires EvaluateDecision(m.decision, oracle) == Ok(m.assessment)
    ensures m.assessment.safe <==> m.decision.action in oracle.safeActions
  {
  }

  // ----- the four arms -----

  /** The loop accepts the arms exactly when each of them is accepted on its own. */
  lemma {:induction false} ArmsAcceptedIff(p: Platform, initial: StateSnapshot, arms: seq<(Pair, Arm)>, ds: seq<ArmDocuments>,
                                           safeActions: seq<string>)
    requires |arms| == |ds|
    ensures var replayed := ReplayArms(p, initial, arms, ds, safeActions);
            && (replayed.Ok? <==>
                  forall i | 0 <= i < |arms| :: ReplayArm(p, initial, arms[i].0, arms[i].1, ds[i], safeActions).Ok?)
            && (replayed.Ok? ==>
                  forall i | 0 <= i < |arms| ::
                    ReplayArm(p, initial, arms[i].0, arms[i].1, ds[i], safeActions) == Ok(replayed.value[i]))
  {
    hide ReplayArm;
    if arms != [] {
      ArmsAcceptedIff(p, initial, Front(arms), Front(ds), safeActions);
      assert forall i | 0 <= i < |arms| - 1 :: Front(arms)[i] == arms[i] && Front(ds)[i] == ds[i];
      assert Last(arms) == arms[|arms| - 1] && Last(ds) == ds[|arms| - 1];
    }
  }

  // ----- the whole bundle, whatever its documents -----

  predicate Legible(d: ArmDocuments) {
    hide StateFromJson, ViewFromJson;
    StateFromJson(d.finalState).Ok? && ViewFromJson(d.view).Ok?
  }

  function FinalOf(d: ArmDocuments): StateSnapshot
    requires Legible(d)
  {
    hide StateFromJson, ViewFromJson;
    StateFromJson(d.finalState).value
  }

  function SeenIn(d: ArmDocuments): ObserverView
    requires Legible(d)
  {
    hide StateFromJson, ViewFromJson;
    ViewFromJson(d.view).value
  }

  /** The verdict on a pair of arms, from their documents. */
  function VerdictOn(p: Platform, repr: FloatText, oracle: RisiCOracle, pair: Pair, sham: ArmDocuments, hidden: ArmDocuments)
    : PairAssessment
    requires Legible(sham) && Legible(hidden)
  {
    hide PairAssessed, Legible;
    PairAssessed(p, repr, pair, FinalOf(sham), FinalOf(hidden), SeenIn(sham), SeenIn(hidden), oracle)
  }

  function SummaryOf(p: Platform, arm: Arm, d: ArmDocuments): Json
    requires Legible(d)
  {
    hide Legible, StateHash, ViewToJson;
    ArmSummary(arm, true, StateHash(p, FinalOf(d)), p.digest(ViewToJson(SeenIn(d))), |d.events|)
  }

  /** The retained comparison, its result, the event count and the summaries are those of the rebuilt arms. */
  predicate Concludes(p: Platform, repr: FloatText, oracle: RisiCOracle, scenarioId: string, initial: StateSnapshot, b: BundleDocuments,
                      verdict: ComparisonResult)
    requires |b.arms| == 4 && forall i | 0 <= i < 4 :: Legible(b.arms[i])
  {
    hide PairAssessed, Legible, PyEq, ComparisonToJson, SummaryOf, PairSummary, StateHash;
    var v, r := VerdictOn(p, repr, oracle, VULNERABLE, b.arms[0], b.arms[1]), VerdictOn(p, repr, oracle, PURE_READ, b.arms[2], b.arms[3]);
    && (verdict == CONTROLLED_MECHANISM_RECOVERED <==> v.classification == RISI_C && r.classification == NO_FAILURE)
    && PyEq(b.comparison, ComparisonToJson(Comparison(scenarioId, StateHash(p, initial), verdict, [v, r])))
    && b.comparisonResult == ResultName(verdict)
    && b.eventCount == |b.arms[0].events| + |b.arms[1].events| + |b.arms[2].events| + |b.arms[3].events|
    && PyEq(b.pairs, Arr([PairSummary(v, SummaryOf(p, Arm.SHAM, b.arms[0]), SummaryOf(p, Arm.HIDDEN, b.arms[1])),
                          PairSummary(r, SummaryOf(p, Arm.SHAM, b.arms[2]), SummaryOf(p, Arm.HIDDEN, b.arms[3]))]))
  }

  /** What was rebuilt of an arm is what its documents say. */
  predicate RebuiltFrom(r: ReplayedArm, arm: Arm, d: ArmDocuments) {
    hide Legible;
    Legible(d) && r.arm == arm && r.finalState == FinalOf(d) && r.view == SeenIn(d) && r.eventCount == |d.events|
  }

  lemma RebuiltVerdict(p: Platform, repr: FloatText, oracle: RisiCOracle, pair: Pair, sham: ReplayedArm, hidden: ReplayedArm,
                       d: ArmDocuments, e: ArmDocuments)
    requires RebuiltFrom(sham, Arm.SHAM, d) && RebuiltFrom(hidden, Arm.HIDDEN, e)
    ensures Recomputed(p, repr, oracle, pair, sham, hidden) == VerdictOn(p, repr, oracle, pair, d, e)
    ensures ReplayedSummary(p, sham) == SummaryOf(p, Arm.SHAM, d) && ReplayedSummary(p, hidden) == SummaryOf(p, Arm.HIDDEN, e)
    ensures sham.eventCount == |d.events| && hidden.eventCount == |e.events|
    ensures Recomputed(p, repr, oracle, pair, sham, hidden).pair == pair
    ensures Produced(p, repr, Recomputed(p, repr, oracle, pair, sham, hidden), oracle)
  {
    hide Legible, StateHash, ViewToJson, PairAssessed;
    PairIsKept(p, repr, pair, sham.finalState, hidden.finalState, sham.view, hidden.view, oracle);
  }

  lemma PairIsKept(p: Platform, repr: FloatText, pair: Pair, shamState: StateSnapshot, hiddenState: StateSnapshot,
                   shamView: ObserverView, hiddenView: ObserverView, oracle: RisiCOracle)
    ensures PairAssessed(p, repr, pair, shamState, hiddenState, shamView, hiddenView, oracle).pair == pair
  {
    hide AssessArm, StateToJson, CanaryAbsent, CorrectCount, ExpectedMediator, Classify;
  }

  predicate ConfirmsAs(p: Platform, repr: FloatText, oracle: RisiCOracle, scenarioId: string, initial: StateSnapshot,
                       rs: seq<ReplayedArm>, b: BundleDocuments, verdict: ComparisonResult) {
    hide Concludes, Legible, Confirmed;
    && |rs| == 4 && |b.arms| == 4 && (forall i | 0 <= i < 4 :: Legible(b.arms[i]))
    && (Confirmed(p, repr, oracle, scenarioId, initial, rs, b) == Ok(verdict) <==>
          Concludes(p, repr, oracle, scenarioId, initial, b, verdict))
  }

  lemma ConfirmedIff(p: Platform, repr: FloatText, oracle: RisiCOracle, scenarioId: string, initial: StateSnapshot,
                     rs: seq<ReplayedArm>, b: BundleDocuments, verdict: ComparisonResult)
    requires |rs| == 4 && |b.arms| == 4 && forall i | 0 <= i < 4 :: RebuiltFrom(rs[i], ARMS[i].1, b.arms[i])
    ensures ConfirmsAs(p, repr, oracle, scenarioId, initial, rs, b, verdict)
  {
    hide Legible, StateHash, ReplayedSummary, SummaryOf, Recomputed, VerdictOn, PairSummary, ComparisonToJson, PyEq, Produced,
         FinalOf, SeenIn;
    assert ARMS[0].1 == ARMS[2].1 == Arm.SHAM && ARMS[1].1 == ARMS[3].1 == Arm.HIDDEN;
    assert forall i | 0 <= i < 4 :: Legible(b.arms[i]);
    RebuiltVerdict(p, repr, oracle, VULNERABLE, rs[0], rs[1], b.arms[0], b.arms[1]);
    RebuiltVerdict(p, repr, oracle, PURE_READ, rs[2], rs[3], b.arms[2], b.arms[3]);
    var v, r := Recomputed(p, repr, oracle, VULNERABLE, rs[0], rs[1]), Recomputed(p, repr, oracle, PURE_READ, rs[2], rs[3]);
    RecoveredIff(p, repr, scenarioId, StateHash(p, initial), v, r, oracle);
  }

  /** Everything in the bundle agrees with the initial state and the events it retains, and the verdict is the classifier's. */
  predicate BundleProven(p: Platform, repr: FloatText, scenarioId: string, safeActions: seq<string>, b: BundleDocuments,
                         verdict: ComparisonResult)
    requires |b.arms| == |ARMS|
  {
    hide StateFromJson, OracleFromJson, ArmProven, Legible, Concludes;
    && StateFromJson(b.initial).Ok? && OracleFromJson(b.oracle).Ok?
    && (forall i | 0 <= i < 4 :: Legible(b.arms[i]) && ArmProven(p, StateFromJson(b.initial).value, b.arms[i], safeActions))
    && Concludes(p, repr, OracleFromJson(b.oracle).value, scenarioId, StateFromJson(b.initial).value, b, verdict)
  }

  lemma ProvenIsLegible(p: Platform, initial: StateSnapshot, d: ArmDocuments, safeActions: seq<string>)
    requires ArmProven(p, initial, d, safeActions)
    ensures Legible(d)
  {
    hide StateFromJson, ViewFromJson, OutputsMatch, ReplayAll, Verify, EventFromJson;
  }

  /** An accepted arm is proven and rebuilt from its documents. */
  lemma AcceptedArmIsRebuilt(p: Platform, initial: StateSnapshot, pair: Pair, arm: Arm, d: ArmDocuments, safeActions: seq<string>)
    ensures var replayed := ReplayArm(p, initial, pair, arm, d, safeActions);
            && (replayed.Ok? <==> Legible(d) && ArmProven(p, initial, d, safeActions))
            && (replayed.Ok? ==> RebuiltFrom(replayed.value, arm, d))
  {
    hide StateFromJson, ViewFromJson, ReplayArm, ArmProven;
    ArmAcceptedIff(p, initial, pair, arm, d, safeActions);
    if ArmProven(p, initial, d, safeActions) {
      ProvenIsLegible(p, initial, d, safeActions);
    }
  }

  /** The arms are all accepted exactly when each of them is proven, and are then rebuilt from their documents. */
  lemma ArmsProven(p: Platform, initial: StateSnapshot, b: BundleDocuments, safeActions: seq<string>)
    requires |b.arms| == |ARMS|
    ensures var replayed := ReplayArms(p, initial, ARMS, b.arms, safeActions);
            && (replayed.Ok? <==> forall i | 0 <= i < 4 :: Legible(b.arms[i]) && ArmProven(p, initial, b.arms[i], safeActions))
            && (replayed.Ok? ==> forall i | 0 <= i < 4 :: RebuiltFrom(replayed.value[i], ARMS[i].1, b.arms[i]))
  {
    hide ReplayArm, ArmProven, Legible, RebuiltFrom, ReplayArms;
    ArmsAcceptedIff(p, initial, ARMS, b.arms, safeActions);
    forall i | 0 <= i < 4
      ensures var replayed := ReplayArm(p, initial, ARMS[i].0, ARMS[i].1, b.arms[i], safeActions);
              && (replayed.Ok? <==> Legible(b.arms[i]) && ArmProven(p, initial, b.arms[i], safeActions))
              && (replayed.Ok? ==> RebuiltFrom(replayed.value, ARMS[i].1, b.arms[i]))
    {
      AcceptedArmIsRebuilt(p, initial, ARMS[i].0, ARMS[i].1, b.arms[i], safeActions);
    }
  }

  /**
   Whatever bundle it is given, the replay returns a verdict exactly when the retained events of each arm
   are chained and rebuild its retained final state from the retained initial state, its outputs agree with
   those events, its decision is safe and recorded so, and the comparison, its result, the event count and
   the summaries are the classifier's on the rebuilt states and views: the verdict is never only recorded.
   */
  lemma BundleAcceptedIff(p: Platform, repr: FloatText, scenarioId: string, safeActions: seq<string>, b: BundleDocuments,
                          verdict: ComparisonResult)
    requires |b.arms| == |ARMS|
    ensures ReplayBundle(p, repr, scenarioId, safeActions, b) == Ok(verdict) <==>
            BundleProven(p, repr, scenarioId, safeActions, b, verdict)
  {
    hide StateFromJson, OracleFromJson, ArmProven, Legible, Concludes, ReplayArms, Confirmed, RebuiltFrom;
    if StateFromJson(b.initial).Ok? && OracleFromJson(b.oracle).Ok? {
      var initial, oracle := StateFromJson(b.initial).value, OracleFromJson(b.oracle).value;
      ArmsProven(p, initial, b, safeActions);
      var replayed := ReplayArms(p, initial, ARMS, b.arms, safeActions);
      if replayed.Ok? {
        ConfirmedIff(p, repr, oracle, scenarioId, initial, replayed.value, b, verdict);
      }
    }
  }

  // ----- the whole bundle, over the events of a completed execution -----

  /** Every document of the bundle, apart from its events, says of the execution what it was. */
  predicate BundleAgrees(p: Platform, plan: Plan, e: Execution, b: BundleDocuments)
    requires Shaped(e) && |b.arms| == |ARMS|
  {
    hide ArmAgrees, PyEq, ComparisonToJson, BundleOf;
    && (forall i | 0 <= i < 4 :: ArmAgrees(plan, e.arms[i], b.arms[i]))
    && PyEq(b.comparison, ComparisonToJson(e.comparison)) && b.comparisonResult == ResultName(e.comparison.result)
    && b.eventCount == |e.arms[0].events| + |e.arms[1].events| + |e.arms[2].events| + |e.arms[3].events|
    && PyEq(b.pairs, BundleOf(p, plan, e).pairs)
  }

  /** The bundle retains the execution's initial state, oracle and events. */
  predicate Retains(plan: Plan, e: Execution, b: BundleDocuments)
    requires Shaped(e) && |b.arms| == |ARMS|
  {
    hide StateFromJson, OracleFromJson, Start, Logs;
    && StateFromJson(b.initial) == Ok(Start(plan)) && OracleFromJson(b.oracle) == Ok(plan.oracle)
    && forall i | 0 <= i < 4 :: Logs(b.arms[i], e.arms[i])
  }

  lemma OwnArmsConfirm(p: Platform, repr: FloatText, plan: Plan, e: Execution, rs: seq<ReplayedArm>, b: BundleDocuments)
    requires Assembled(p, repr, plan, e) && AllSafe(e.arms) && |rs| == |e.arms| == |ARMS| == |b.arms|
    requires forall i | 0 <= i < |ARMS| :: e.arms[i].arm == ARMS[i].1 && rs[i] == ReplayedOf(ARMS[i].0, ARMS[i].1, e.arms[i])
    ensures var confirmed := Confirmed(p, repr, plan.oracle, plan.scenario.episode.scenarioId, Start(plan), rs, b);
            && (confirmed.Ok? ==> confirmed.value == e.comparison.result)
            && (confirmed.Ok? <==>
                  && PyEq(b.comparison, ComparisonToJson(e.comparison)) && b.comparisonResult == ResultName(e.comparison.result)
                  && b.eventCount == |e.arms[0].events| + |e.arms[1].events| + |e.arms[2].events| + |e.arms[3].events|
                  && PyEq(b.pairs, BundleOf(p, plan, e).pairs))
  {
    hide PairAssessed, Start, StateHash, AssessComparison, ComparisonToJson, PairSummary, WrittenSummary, ReplayedSummary, PyEq,
         DocumentsOf, OracleToJson;
    AssessedViews(p, repr, VULNERABLE, e.arms[0], e.arms[1], plan.oracle);
    AssessedViews(p, repr, PURE_READ, e.arms[2], e.arms[3], plan.oracle);
    var v, r := e.comparison.pairs[0], e.comparison.pairs[1];
    SummariesAgree(p, ARMS[0].0, ARMS[0].1, e.arms[0], v.arms[0]);
    SummariesAgree(p, ARMS[1].0, ARMS[1].1, e.arms[1], v.arms[1]);
    SummariesAgree(p, ARMS[2].0, ARMS[2].1, e.arms[2], r.arms[0]);
    SummariesAgree(p, ARMS[3].0, ARMS[3].1, e.arms[3], r.arms[1]);
  }

  lemma OneArmAcceptedAs(p: Platform, plan: Plan, pair: Pair, arm: Arm, ledger: Budget.Ledger, d: ArmDocuments)
    requires ArmRun(p, plan, pair, arm, ledger).Ok? && Logs(d, ArmRun(p, plan, pair, arm, ledger).value.0)
    ensures var m := ArmRun(p, plan, pair, arm, ledger).value.0;
            m.arm == arm && ArmAcceptedAs(p, plan, pair, arm, m, d)
  {
    hide ArmRun, ArmAcceptedAs, EventFromJson, RecordsArm, ViewBelongs, ProposeRegion, EvaluateDecision;
    RecordedArmAcceptedIff(p, plan, pair, arm, ledger, d);
    ArmRunGuarantees(p, plan, pair, arm, ledger);
  }

  lemma {:induction false} EveryArmAcceptedAs(p: Platform, plan: Plan, arms: seq<(Pair, Arm)>, ledger: Budget.Ledger,
                                              ds: seq<ArmDocuments>)
    requires ArmsRun(p, plan, arms, ledger).Ok? && |ds| == |arms|
    requires forall i | 0 <= i < |arms| :: Logs(ds[i], ArmsRun(p, plan, arms, ledger).value.0[i])
    ensures var ms := ArmsRun(p, plan, arms, ledger).value.0;
            forall i | 0 <= i < |arms| :: ms[i].arm == arms[i].1 && ArmAcceptedAs(p, plan, arms[i].0, arms[i].1, ms[i], ds[i])
  {
    hide ArmRun, ArmAcceptedAs, Logs;
    if arms != [] {
      var ran := ArmsRun(p, plan, Front(arms), ledger).value;
      var ms := ArmsRun(p, plan, arms, ledger).value.0;
      assert Front(ms) == ran.0 && Last(ms) == ArmRun(p, plan, Last(arms).0, Last(arms).1, ran.1).value.0;
      assert forall i | 0 <= i < |arms| - 1 :: ran.0[i] == ms[i] && Front(ds)[i] == ds[i] && Front(arms)[i] == arms[i];
      EveryArmAcceptedAs(p, plan, Front(arms), ledger, Front(ds));
      assert Last(ds) == ds[|arms| - 1] && Last(arms) == arms[|arms| - 1] && Last(ms) == ms[|arms| - 1];
      OneArmAcceptedAs(p, plan, Last(arms).0, Last(arms).1, ran.1, Last(ds));
    }
  }

  /** The bundle is accepted exactly when it agrees with the execution and all decisions were safe, and then for its own result. */
  predicate OnlyAgreeingAccepted(p: Platform, repr: FloatText, plan: Plan, e: Execution, b: BundleDocuments)
    requires Shaped(e) && |b.arms| == |ARMS|
  {
    hide ReplayBundle, BundleAgrees;
    var replayed := ReplayBundle(p, repr, plan.scenario.episode.scenarioId, plan.scenario.decisionOracle.safeActions, b);
    && (replayed.Ok? <==> AllSafe(e.arms) && BundleAgrees(p, plan, e, b))
    && (replayed.Ok? ==> replayed.value == e.comparison.result)
  }

  /**
   Of the bundles that retain a completed execution's initial state, oracle and events, the replay accepts
   exactly those in which every other document agrees with the execution, and only if all four decisions
   were safe; the verdict is then the execution's own. An altered view, retrieval, decision, comparison,
   result, count or summary is always refused.
   */
  lemma AlteredBundleIsRefused(p: Platform, repr: FloatText, plan: Plan, ledger: Budget.Ledger, b: BundleDocuments)
    requires Executed(p, repr, plan, ledger).Ok? && |b.arms| == |ARMS|
    requires Shaped(Executed(p, repr, plan, ledger).value) && Retains(plan, Executed(p, repr, plan, ledger).value, b)
    ensures OnlyAgreeingAccepted(p, repr, plan, Executed(p, repr, plan, ledger).value, b)
  {
    hide Executed, ArmsRun, StateFromJson, OracleFromJson, ReplayArms, Confirmed, ReplayArm, Start, Logs, ArmAgrees,
         PyEq, ComparisonToJson, BundleOf, Assembled, ReplayedOf;
    var e := Executed(p, repr, plan, ledger).value;
    ExecutedIsAssembled(p, repr, plan, ledger);
    EveryArmAcceptedAs(p, plan, ARMS, ledger, b.arms);
    ArmsAcceptedIff(p, Start(plan), ARMS, b.arms, plan.scenario.decisionOracle.safeActions);
    var replayed := ReplayArms(p, Start(plan), ARMS, b.arms, plan.scenario.decisionOracle.safeActions);
    if replayed.Ok? {
      assert AllSafe(e.arms);
      OwnArmsConfirm(p, repr, plan, e, replayed.value, b);
    }
  }

  lemma OwnDocumentsLog(plan: Plan, m: ArmMaterial)
    ensures Logs(DocumentsOf(plan, m), m)
  {
    hide EventToJson, EventFromJson, QueryToJson, ResultToJson, StateToJson, ViewToJson, VictimQuery;
    EventsReadBack(m.events);
  }

  lemma OwnBundleRetains(p: Platform, plan: Plan, e: Execution)
    requires Shaped(e)
    ensures Retains(plan, e, BundleOf(p, plan, e))
  {
    hide DocumentsOf, PairSummary, WrittenSummary, ComparisonToJson, OracleToJson, OracleFromJson, StateToJson, StateFromJson, Start, Logs;
    StateRoundTrip(Start(plan));
    OracleRoundTrip(plan.oracle);
    OwnDocumentsLog(plan, e.arms[0]);
    OwnDocumentsLog(plan, e.arms[1]);
    OwnDocumentsLog(plan, e.arms[2]);
    OwnDocumentsLog(plan, e.arms[3]);
  }

  /** The bundle of a completed execution, with another comparison and another result written into it. */
  function WithVerdict(b: BundleDocuments, comparison: Json, result: string): BundleDocuments {
    b.(comparison := comparison, comparisonResult := result)
  }

  /** With that comparison and result written into it, the bundle is refused. */
  predicate Refuses(p: Platform, repr: FloatText, plan: Plan, e: Execution, comparison: Json, result: string) {
    hide ReplayBundle, BundleOf;
    && Shaped(e)
    && ReplayBundle(p, repr, plan.scenario.episode.scenarioId, plan.scenario.decisionOracle.safeActions,
                    WithVerdict(BundleOf(p, plan, e), comparison, result)).Err?
  }

  /** It replays only if the comparison and the result written are the execution's own. */
  lemma WrongVerdictIsRefused(p: Platform, repr: FloatText, plan: Plan, ledger: Budget.Ledger, comparison: Json, result: string)
    requires Executed(p, repr, plan, ledger).Ok? && Shaped(Executed(p, repr, plan, ledger).value)
    ensures var e := Executed(p, repr, plan, ledger).value;
            Refuses(p, repr, plan, e, comparison, result) <==>
            !AllSafe(e.arms) || !PyEq(comparison, ComparisonToJson(e.comparison)) || result != ResultName(e.comparison.result)
  {
    hide Executed, ReplayBundle, PyEq, ComparisonToJson, Start, StateFromJson, OracleFromJson, Logs, ArmAgrees, AllSafe, BundleOf;
    var e := Executed(p, repr, plan, ledger).value;
    var own := BundleOf(p, plan, e);
    OwnBundleRetains(p, plan, e);
    AlteredBundleIsRefused(p, repr, plan, ledger, own);
    AlteredBundleIsRefused(p, repr, plan, ledger, WithVerdict(own, comparison, result));
    CompletedExecutionReplaysIff(p, repr, plan, ledger);
  }
}
