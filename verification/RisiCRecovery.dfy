/** What every RISI-C arm run guarantees and charges, and the scenarios its oracle describes. */
module RisiCRecovery {
  import opened Basics
  import opened Json
  import opened Text
  import opened Bytes
  import opened Models
  import opened Printer
  import opened Trace
  import opened Decisions
  import opened ReferenceMemory
  import opened Replay
  import opened AdapterRuns
  import opened Retrievals
  import opened SharedCounter
  import opened PolicyRefinement
  import opened Pointers
  import opened StateDiff
  import opened Confidentiality
  import opened Runs
  import opened Asks
  import opened RisiCRun
  import Budget

  // ----- every completed arm is a run of the adapter -----

  function ClosingOps(material: ArmMaterial): seq<Op> {
    [RecordOp(DECISION, BOTH, DecisionPayload(material.decision), None),
     RecordOp(ORACLE_EVALUATED, EVALUATOR, AssessmentPayload(material.assessment), None),
     RecordOp(EPISODE_COMPLETED, EVALUATOR, RisiCRun.CompletedPayload(material.pair, material.arm, material.assessment), None)]
  }

  /** The calls an arm makes, read off its own material. */
  function ArmOps(plan: Plan, material: ArmMaterial): seq<Op> {
    BeginOps(StartPayload(plan, material.pair, material.arm), PolicyOf(plan, material.pair))
    + AskOps(VictimQuery(plan, material.arm), material.victim) + AskOps(plan.observerQuery, material.observer)
    + AskOps(plan.region.query, material.decided) + ClosingOps(material)
  }

  lemma CloseIsARun(p: Platform, a: AdapterState, material: ArmMaterial, oracle: DecisionOracle)
    requires var closed := Close(p, a, material.pair, material.arm, material.decision, oracle);
             closed.Ok? && closed.value.value == material.assessment
    ensures Close(p, a, material.pair, material.arm, material.decision, oracle).value.next == Run(p, a, ClosingOps(material))
  {
    hide Record, Run, DecisionPayload, AssessmentPayload, RisiCRun.CompletedPayload, EvaluateDecision;
    var ops := ClosingOps(material);
    RunOfTwo(p, a, ops[0], ops[1]);
    var b := Run(p, a, [ops[0], ops[1]]);
    RunConcat(p, a, [ops[0], ops[1]], [ops[2]]);
    assert [ops[0], ops[1]] + [ops[2]] == ops;
    RunOfOne(p, b, ops[2]);
  }

  lemma InteractIsARun(p: Platform, plan: Plan, pair: Pair, arm: Arm, ledger: Budget.Ledger)
    requires Interact(p, plan, pair, arm, ledger).Ok?
    ensures var x := Interact(p, plan, pair, arm, ledger).value;
            x.next == Run(p, Run(p, Run(p, Fresh(Start(plan)), BeginOps(StartPayload(plan, pair, arm), PolicyOf(plan, pair))),
                                 AskOps(VictimQuery(plan, arm), x.victim)),
                          AskOps(plan.observerQuery, x.observer))
  {
    hide Run, Begin, Ask, Charge, Start, ViewOf, StartPayload, PolicyOf, BeginOps, AskOps, VictimQuery, HitIds;
    var a := Begin(p, Start(plan), StartPayload(plan, pair, arm), PolicyOf(plan, pair)).value;
    var b := Ask(p, a, VictimQuery(plan, arm)).value.next;
    BeginIsARun(p, Start(plan), StartPayload(plan, pair, arm), PolicyOf(plan, pair));
    AskIsARun(p, a, VictimQuery(plan, arm));
    AskIsARun(p, b, plan.observerQuery);
  }

  /** A finished arm is one run of the adapter from the shared snapshot. */
  lemma FinishIsARun(p: Platform, plan: Plan, pair: Pair, arm: Arm, ledger: Budget.Ledger)
    requires Interact(p, plan, pair, arm, ledger).Ok?
    requires Finish(p, plan, pair, arm, Interact(p, plan, pair, arm, ledger).value).Ok?
    ensures var material := Finish(p, plan, pair, arm, Interact(p, plan, pair, arm, ledger).value).value.0;
            && material.pair == pair && material.arm == arm
            && Run(p, Fresh(Start(plan)), ArmOps(plan, material)) == RawAdapter(material.finalState, material.events)
  {
    hide Run, Interact, Ask, Close, ProposeRegion, Charge, Start, ClosingOps, StartPayload, PolicyOf, BeginOps, AskOps,
         VictimQuery, HitIds;
    var x := Interact(p, plan, pair, arm, ledger).value;
    var material := Finish(p, plan, pair, arm, x).value.0;
    InteractIsARun(p, plan, pair, arm, ledger);
    AskIsARun(p, x.next, plan.region.query);
    var d := Ask(p, x.next, plan.region.query).value.next;
    CloseIsARun(p, d, material, plan.scenario.decisionOracle);
    RunInParts(p, Fresh(Start(plan)), BeginOps(StartPayload(plan, pair, arm), PolicyOf(plan, pair)),
               AskOps(VictimQuery(plan, arm), material.victim), AskOps(plan.observerQuery, material.observer),
               AskOps(plan.region.query, material.decided), ClosingOps(material));
  }

  lemma FinishVerifiesAndReplays(p: Platform, plan: Plan, pair: Pair, arm: Arm, ledger: Budget.Ledger)
    requires Interact(p, plan, pair, arm, ledger).Ok?
    requires Finish(p, plan, pair, arm, Interact(p, plan, pair, arm, ledger).value).Ok?
    ensures var material := Finish(p, plan, pair, arm, Interact(p, plan, pair, arm, ledger).value).value.0;
            Accepted(p, material.events) && ReplayAll(p, Start(plan), material.events) == Ok(material.finalState)
  {
    hide Run, Interact, Finish, ReplayAll, Accepted, ArmOps, InitialState;
    FinishIsARun(p, plan, pair, arm, ledger);
    var material := Finish(p, plan, pair, arm, Interact(p, plan, pair, arm, ledger).value).value.0;
    StartsWithMemories(plan);
    ArmOpsReplayable(plan, material);
    RunVerifiesAndReplays(p, Start(plan), ArmOps(plan, material));
  }

  /** Every completed arm's trace is accepted, and replays from the shared snapshot to the recorded final state. */
  lemma ArmVerifiesAndReplays(p: Platform, plan: Plan, pair: Pair, arm: Arm, ledger: Budget.Ledger)
    requires ArmRun(p, plan, pair, arm, ledger).Ok?
    ensures var material := ArmRun(p, plan, pair, arm, ledger).value.0;
            Accepted(p, material.events) && ReplayAll(p, Start(plan), material.events) == Ok(material.finalState)
  {
    hide Interact, Finish, ReplayAll, Accepted, Conclude, Start;
    FinishVerifiesAndReplays(p, plan, pair, arm, ledger);
  }

  lemma ArmOpsReplayable(plan: Plan, material: ArmMaterial)
    ensures forall i | 0 <= i < |ArmOps(plan, material)| :: Replayable(ArmOps(plan, material)[i])
  {
    hide StartPayload, PolicyOf, DecisionPayload, AssessmentPayload, RisiCRun.CompletedPayload;
  }

  // ----- what a completed execution has charged -----

  /** A completed arm has charged one episode, three retrievals and one decision: five logical steps. */
  lemma CompletedArmCharges(p: Platform, plan: Plan, pair: Pair, arm: Arm, l: Budget.Ledger)
    requires Budget.WithinLimits(l) && ArmRun(p, plan, pair, arm, l).Ok?
    ensures ArmRun(p, plan, pair, arm, l).value.1 == Budget.Plus(l, 1, 3, 5)
    ensures Budget.WithinLimits(ArmRun(p, plan, pair, arm, l).value.1)
  {
    hide Begin, Ask, Close, ProposeRegion, Charge, Start, ViewOf, HitIds, Conclude, StartPayload, PolicyOf, VictimQuery,
         Budget.WithinLimits;
    ChargeMoves(l, Budget.EpisodeStart);
    var a := Charge(l, Budget.EpisodeStart).value;
    ChargeMoves(a, Budget.RetrievalCall);
    var b := Charge(a, Budget.RetrievalCall).value;
    ChargeMoves(b, Budget.RetrievalCall);
    var c := Charge(b, Budget.RetrievalCall).value;
    ChargeMoves(c, Budget.RetrievalCall);
    var d := Charge(c, Budget.RetrievalCall).value;
    ChargeMoves(d, Budget.DecisionMade);
  }

  lemma {:induction false} CompletedArmsCharge(p: Platform, plan: Plan, arms: seq<(Pair, Arm)>, l: Budget.Ledger)
    requires Budget.WithinLimits(l) && ArmsRun(p, plan, arms, l).Ok?
    ensures ArmsRun(p, plan, arms, l).value.1 == Budget.Plus(l, |arms|, 3 * |arms|, 5 * |arms|)
    ensures Budget.WithinLimits(ArmsRun(p, plan, arms, l).value.1)
  {
    hide ArmRun, Budget.WithinLimits;
    if arms == [] {
      assert Budget.Plus(l, 0, 0, 0) == l;
    } else {
      CompletedArmsCharge(p, plan, Front(arms), l);
      var front := ArmsRun(p, plan, Front(arms), l).value.1;
      CompletedArmCharges(p, plan, Last(arms).0, Last(arms).1, front);
      var n := |arms| - 1;
      assert Budget.Plus(Budget.Plus(l, n, 3 * n, 5 * n), 1, 3, 5) == Budget.Plus(l, n + 1, 3 * (n + 1), 5 * (n + 1));
    }
  }

  /** Whatever its scenario, a completed RISI-C execution has charged 4 episodes, 12 retrievals and 4 decisions: 20 logical steps. */
  lemma RisiCCharges(p: Platform, repr: FloatText, plan: Plan, l: Budget.Ledger)
    requires Budget.WithinLimits(l) && Executed(p, repr, plan, l).Ok?
    ensures Executed(p, repr, plan, l).value.ledger == Budget.Plus(l, 4, 12, 20)
  {
    hide ArmsRun, PairAssessed, Start, ProtectedCritical, AssessComparison, Budget.WithinLimits, Budget.Plus;
    CompletedArmsCharge(p, plan, ARMS, l);
  }

  // ----- the scenarios the oracle describes -----

  const COUNTER_PATH := "/" + "derived_state" + "/" + "shared_access_counter"

  function Memories(plan: Plan): map<string, MemoryRecord> {
    ById(plan.scenario.memories)
  }

  /** What a query's plain first hits are, in the shared snapshot. */
  function PlainIds(p: Platform, plan: Plan, q: RetrievalQuery): seq<string> {
    HitsOf(PlainHits(p, Start(plan), q))
  }

  /** The principals and limits of the protocol agree with the oracle. */
  predicate Agrees(plan: Plan) {
    && plan.hiddenQuery.principalId == plan.shamQuery.principalId == plan.oracle.victimPrincipalId
    && plan.observerQuery.principalId == plan.oracle.observerPrincipalId
    && plan.hiddenQuery.topK == plan.shamQuery.topK && plan.observerQuery.topK == 1
    && plan.oracle.allowedPath == COUNTER_PATH
    && PolicyAccepted(SharedCounterPolicy(plan), Memories(plan).Keys)
  }

  /** The two event queries return exactly their memories, and the probe's first plain hit is one of the two signals it matches. */
  predicate Isolates(p: Platform, plan: Plan) {
    && PlainIds(p, plan, plan.hiddenQuery) == [plan.oracle.canaryMemoryId]
    && PlainIds(p, plan, plan.shamQuery) == [plan.oracle.shamMemoryId]
    && plan.oracle.noHiddenSignalMemoryId in Ids(PlainRanking(p, Start(plan), plan.observerQuery))
    && plan.oracle.hiddenSignalMemoryId in Ids(PlainRanking(p, Start(plan), plan.observerQuery))
    && PlainIds(p, plan, plan.observerQuery) in {[plan.oracle.noHiddenSignalMemoryId], [plan.oracle.hiddenSignalMemoryId]}
  }

  /** The decision can be made and scored, and the critical memory carries its label. */
  predicate Decidable(plan: Plan) {
    && Get(plan.scenario.facts, plan.region.datasetClassFact).Str?
    && Get(plan.scenario.facts, plan.region.requestedRegionFact).Str?
    && plan.scenario.decisionOracle.episodeId == plan.scenario.episode.episodeId
    && ProtectedCritical(plan.scenario, Start(plan)).Ok?
  }

  function SignalView(plan: Plan, signal: string): Result<ObserverView, RunError> {
    ViewOf(plan.scenario.memories, plan.observerQuery, [signal])
  }

  /** The observer answered with the signal is shown the canary's identifier or its token. */
  predicate ShowsCanary(plan: Plan, signal: string, repr: FloatText) {
    SignalView(plan, signal).Ok? && Discloses(SignalView(plan, signal).value, plan.oracle, repr)
  }

  /** Neither possible view shows the canary. */
  predicate Hushed(plan: Plan, repr: FloatText) {
    !ShowsCanary(plan, plan.oracle.noHiddenSignalMemoryId, repr) && !ShowsCanary(plan, plan.oracle.hiddenSignalMemoryId, repr)
  }

  /** The decision retrieval is the victim's own, and returns the canary: a second, unpaired, access. */
  predicate CountsAgain(p: Platform, plan: Plan) {
    && plan.region.query.principalId == plan.oracle.victimPrincipalId
    && plan.oracle.canaryMemoryId in PlainIds(p, plan, plan.region.query)
  }

  // ----- shared facts -----

  lemma StartPolicyAccepted(plan: Plan)
    ensures PolicyAccepted(Start(plan).policy, ById(Start(plan).sourceMemories).Keys)
    ensures Start(plan).policy == PureReadPolicy(TopK(plan))
    ensures SuppressedIds(Start(plan).derivedState) == Ok({})
  {
    hide ById, NonBlank;
    assert PureReadPolicy(TopK(plan)).settings.Keys == {"top_k", "read_side_updates"};
  }

  lemma EveryQueryFits(plan: Plan, s: StateSnapshot, q: RetrievalQuery)
    requires Get(s.policy.settings, "top_k") == Int(TopK(plan))
    requires q.topK in {plan.region.query.topK, plan.shamQuery.topK, plan.observerQuery.topK}
    ensures WithinTopK(s, q)
  {
    hide NonBlank;
  }

  lemma PoliciesKeepTopK(plan: Plan, pair: Pair)
    ensures Get(PolicyOf(plan, pair).settings, "top_k") == Int(TopK(plan))
  {
    hide NonBlank;
  }

  /** A candidate of the ranking is found in the sources. */
  lemma CandidateIsFound(p: Platform, s: StateSnapshot, q: RetrievalQuery, id: string)
    requires id in Ids(PlainRanking(p, s, q))
    ensures FindMemory(s.sourceMemories, id).Some?
  {
    hide ScoreAll, Sorted, ById, FindMemory, MemoryIds;
    var ranking := PlainRanking(p, s, q);
    RankedAreKnown(p, s.sourceMemories, q, s.logicalTime, None, ScoreAll(p, s.sourceMemories, q, s.logicalTime));
    var i :| 0 <= i < |ranking| && ranking[i].memoryId == id;
    assert ranking[i] in ranking;
    ByIdHolds(s.sourceMemories, id);
    KnownIsFound(s.sourceMemories, id);
  }

  predicate Shows(view: ObserverView, signal: string) {
    |view.exchanges| == 1 && view.exchanges[0].responseIds == [signal]
  }

  lemma FoundViewShows(memories: seq<MemoryRecord>, q: RetrievalQuery, id: string)
    requires FindMemory(memories, id).Some?
    ensures ViewOf(memories, q, [id]).Ok? && Shows(ViewOf(memories, q, [id]).value, id)
  {
    hide FindMemory;
    FoundIsNamed(memories, id);
    assert Found(memories, [id]);
    assert Contents(memories, [id]).value == [FindMemory(memories, id).value.content];
  }

  lemma SignalViewExists(p: Platform, plan: Plan, signal: string)
    requires signal in Ids(PlainRanking(p, Start(plan), plan.observerQuery))
    ensures SignalView(plan, signal).Ok? && Shows(SignalView(plan, signal).value, signal)
  {
    hide PlainRanking, FindMemory, InitialState, ViewOf, Shows;
    StartsWithMemories(plan);
    CandidateIsFound(p, Start(plan), plan.observerQuery, signal);
    FoundViewShows(plan.scenario.memories, plan.observerQuery, signal);
  }

  lemma StartsWithMemories(plan: Plan)
    ensures Start(plan).sourceMemories == plan.scenario.memories && Start(plan).logicalTime == plan.scenario.logicalTime
    ensures Start(plan).nextEventSequence == 0 && Start(plan).episode == plan.scenario.episode
    ensures Start(plan).derivedState == map["shared_access_counter" := Int(0)]
  {
    hide NonBlank;
  }

  lemma FoundIsNamed(memories: seq<MemoryRecord>, id: string)
    requires FindMemory(memories, id).Some?
    ensures NonBlank(id)
  {
    hide NonBlank;
    KnownIsFound(memories, id);
  }
}
