/** What the CRAF reference execution is bound to conclude, for every scenario of its shape. */
module CrafEndToEnd {
  import opened Basics
  import opened Json
  import opened Text
  import opened Models
  import opened Trace
  import opened Decisions
  import opened ReferenceMemory
  import opened Retrievals
  import opened SharedCounter
  import opened PolicyRefinement
  import opened Replay
  import opened Runs
  import opened Asks
  import opened Craf
  import opened CrafRun
  import opened Budget

  // ----- the scenarios -----

  function CrafPlainIds(p: Platform, plan: CrafPlan, q: RetrievalQuery): seq<string> {
    HitsOf(PlainHits(p, CrafStart(plan), q))
  }

  /** The interaction is admissible and returns exactly its trigger. */
  predicate Triggers(p: Platform, plan: CrafPlan) {
    && PolicyAccepted(CrafPolicy(plan, VULNERABLE), ById(plan.scenario.memories).Keys)
    && PolicyAccepted(CrafPolicy(plan, PROTECTED), ById(plan.scenario.memories).Keys)
    && plan.interactionQuery.topK <= plan.protocol.query.topK
    && CrafPlainIds(p, plan, plan.interactionQuery) == [plan.triggerMemoryId]
  }

  /** The evaluator's one critical memory is the protocol's required one, it carries its label, and decisions can be scored. */
  predicate Scorable(plan: CrafPlan) {
    && CriticalOracle(plan.scenario).Ok? && CriticalOracle(plan.scenario).value.memoryId == plan.protocol.requiredMemoryId
    && ProtectedCritical(plan.scenario, CrafStart(plan)).Ok?
    && Get(plan.scenario.facts, plan.protocol.approvalCountFact).Int?
    && plan.scenario.decisionOracle.episodeId == plan.scenario.episode.episodeId
  }

  /** Blocking is the one safe action. */
  predicate OnlyBlockingIsSafe(plan: CrafPlan) {
    && plan.protocol.actionIfBelow in plan.scenario.decisionOracle.safeActions
    && plan.protocol.actionIfMet !in plan.scenario.decisionOracle.safeActions
  }

  predicate BelowThreshold(plan: CrafPlan) {
    match Get(plan.scenario.facts, plan.protocol.approvalCountFact)
    case Int(count) => count < plan.protocol.minimumApprovals
    case _ => false
  }

  /** What the experiment is about: a memory that ought to be recalled, and is, and whose recall changes the decision. */
  predicate Applies(p: Platform, plan: CrafPlan) {
    && CriticalOracle(plan.scenario).Ok?
    && var oracle := CriticalOracle(plan.scenario).value;
       && oracle.truth && ValidAt(oracle, plan.scenario.logicalTime) && OracleApplicable(plan, oracle)
       && plan.protocol.requiredMemoryId in CrafPlainIds(p, plan, plan.protocol.query)
       && BelowThreshold(plan)
  }

  // ----- the arms -----

  /** The snapshot as an arm leaves it, up to what the arm may change. */
  predicate SameScene(plan: CrafPlan, s: StateSnapshot) {
    s.sourceMemories == plan.scenario.memories && s.logicalTime == plan.scenario.logicalTime
  }

  lemma CrafStartsWith(plan: CrafPlan)
    ensures SameScene(plan, CrafStart(plan)) && CrafStart(plan).derivedState == map[] && CrafStart(plan).policyState == map[]
    ensures CrafStart(plan).policy == CrafPolicy(plan, CONTROL)
    ensures SuppressedIds(CrafStart(plan).derivedState) == Ok({})
  {
    hide NonBlank;
  }

  lemma ControlPolicyAccepted(plan: CrafPlan)
    ensures PolicyAccepted(CrafPolicy(plan, CONTROL), ById(plan.scenario.memories).Keys)
  {
    hide ById, NonBlank;
    assert CrafPolicy(plan, CONTROL).settings.Keys == {"top_k", "read_side_updates"};
  }

  lemma CrafTopK(plan: CrafPlan, arm: CrafArm)
    ensures Get(CrafPolicy(plan, arm).settings, "top_k") == Int(plan.protocol.query.topK)
    ensures CrafPolicy(plan, arm).name ==
            match arm case CONTROL => "pure-read" case VULNERABLE => "memory-eclipsing" case PROTECTED => "protected-critical-recall"
  {
    hide NonBlank;
  }

  lemma AdaptiveSettingsAre(plan: CrafPlan, s: StateSnapshot, arm: CrafArm)
    requires arm != CONTROL && s.policy == CrafPolicy(plan, arm)
    ensures Suppressed(s) == plan.protocol.requiredMemoryId && Trigger(s) == plan.triggerMemoryId
    ensures arm == PROTECTED ==> Get(s.policy.settings, "protected_criticality") == Str(PROTECTED_CRITICALITY)
  {
    hide NonBlank;
  }

  /** The label shields the critical memory, and only under the protected policy. */
  lemma ShieldedIff(plan: CrafPlan, s: StateSnapshot, arm: CrafArm)
    requires Scorable(plan) && arm != CONTROL && s.policy == CrafPolicy(plan, arm) && SameScene(plan, s)
    ensures Shielded(s) <==> arm == PROTECTED
  {
    hide ById, FindMemory, CrafPolicy, CriticalOracle;
    CrafTopK(plan, arm);
    AdaptiveSettingsAre(plan, s, arm);
    CrafStartsWith(plan);
    var id := plan.protocol.requiredMemoryId;
    KnownIsFound(plan.scenario.memories, id);
    ByIdHolds(plan.scenario.memories, id);
    FoundIsById(plan.scenario.memories, id);
  }

  /** The arm's snapshot, before or after the eclipse has been set. */
  predicate CrafReady(plan: CrafPlan, s: StateSnapshot, arm: CrafArm, eclipsed: bool) {
    && SameScene(plan, s) && s.policy == CrafPolicy(plan, arm)
    && if arm == CONTROL then SuppressedIds(s.derivedState) == Ok({}) else AdaptiveReady(s, eclipsed)
  }

  lemma CrafBegins(p: Platform, plan: CrafPlan, arm: CrafArm, start: Fields)
    requires Triggers(p, plan)
    ensures Begin(p, CrafStart(plan), start, CrafPolicy(plan, arm)).Ok?
    ensures CrafReady(plan, Begin(p, CrafStart(plan), start, CrafPolicy(plan, arm)).value.state, arm, false)
  {
    hide Begin, PolicyAccepted, ById, CrafStart, CrafPolicy, CrafPlainIds;
    CrafStartsWith(plan);
    ControlPolicyAccepted(plan);
    CrafTopK(plan, arm);
    BeginSucceeds(p, CrafStart(plan), start, CrafPolicy(plan, arm));
  }

  /** The hits of an ask: the plain ones, without the suppressed memory once the vulnerable arm is eclipsed. */
  function ArmHits(p: Platform, plan: CrafPlan, arm: CrafArm, eclipsed: bool, q: RetrievalQuery): seq<RetrievalHit> {
    if arm == VULNERABLE && eclipsed
    then Top(Without(PlainRanking(p, CrafStart(plan), q), {plan.protocol.requiredMemoryId}), q.topK)
    else PlainHits(p, CrafStart(plan), q)
  }

  lemma CrafAsk(p: Platform, plan: CrafPlan, a: AdapterState, arm: CrafArm, eclipsed: bool, q: RetrievalQuery)
    requires CrafReady(plan, a.state, arm, eclipsed) && Scorable(plan) && q.topK <= plan.protocol.query.topK
    ensures Ask(p, a, q).Ok? && Ask(p, a, q).value.result.hits == ArmHits(p, plan, arm, eclipsed, q)
    ensures CrafReady(plan, Ask(p, a, q).value.next.state, arm, eclipsed || plan.triggerMemoryId in HitIds(Ask(p, a, q).value.result))
  {
    hide Ask, ById, CrafStart, CrafPolicy, PolicyAccepted, SuppressedIds, PlainRanking, Top, Without, HitIds, Scorable, Shielded;
    CrafStartsWith(plan);
    CrafTopK(plan, arm);
    SamePlainRanking(p, a.state, CrafStart(plan), q);
    if arm == CONTROL {
      PlainAsk(p, a, q);
    } else {
      AdaptiveSettingsAre(plan, a.state, arm);
      ShieldedIff(plan, a.state, arm);
      AdaptiveAsk(p, a, q, eclipsed);
    }
  }

  /** An arm up to its decision: eclipsed, wherever the policy can be. */
  lemma CrafInteracts(p: Platform, plan: CrafPlan, arm: CrafArm, ledger: Ledger)
    requires Triggers(p, plan) && Scorable(plan) && WithinLimits(Plus(ledger, 1, 2, 4))
    ensures CrafInteract(p, plan, arm, ledger).Ok?
    ensures CrafReady(plan, CrafInteract(p, plan, arm, ledger).value.next.state, arm, true)
    ensures CrafInteract(p, plan, arm, ledger).value.ledger == Plus(ledger, 1, 1, 2)
  {
    hide Begin, Ask, CrafStart, CrafPolicy, CrafReady, Scorable, CrafStartPayload, WithinLimits, Plus, Runs.Charge, HitIds,
         PolicyAccepted, PlainHits, HitsOf;
    CrafArmBudget(ledger);
    var start := CrafStartPayload(plan, arm);
    CrafBegins(p, plan, arm, start);
    var a := Begin(p, CrafStart(plan), start, CrafPolicy(plan, arm)).value;
    CrafAsk(p, plan, a, arm, false, plan.interactionQuery);
    HitsAlone(Ask(p, a, plan.interactionQuery).value.result);
    assert plan.triggerMemoryId in [plan.triggerMemoryId];
  }

  lemma CrafArmBudget(l: Ledger)
    requires WithinLimits(Plus(l, 1, 2, 4))
    ensures Runs.Charge(l, EpisodeStart) == Ok(Plus(l, 1, 0, 1))
    ensures Runs.Charge(Plus(l, 1, 0, 1), RetrievalCall) == Ok(Plus(l, 1, 1, 2))
    ensures Runs.Charge(Plus(l, 1, 1, 2), RetrievalCall) == Ok(Plus(l, 1, 2, 3))
    ensures Runs.Charge(Plus(l, 1, 2, 3), DecisionMade) == Ok(Plus(l, 1, 2, 4))
  {
    hide WithinLimits, Runs.Charge;
    SmallerFits(l, 0, 0, 0, 1, 2, 4);
    SmallerFits(l, 1, 0, 1, 1, 2, 4);
    SmallerFits(l, 1, 1, 2, 1, 2, 4);
    SmallerFits(l, 1, 2, 3, 1, 2, 4);
    assert Plus(l, 0, 0, 0) == l;
    ChargeOn(l, 0, 0, 0, EpisodeStart);
    ChargeOn(l, 1, 0, 1, RetrievalCall);
    ChargeOn(l, 1, 1, 2, RetrievalCall);
    ChargeOn(l, 1, 2, 3, DecisionMade);
  }

  // ----- the verdict on one arm -----

  lemma NoteSucceeds(p: Platform, a: AdapterState, craf: CrafAssessment)
    ensures NoteSuppression(p, a, craf).Ok? && SameButSequence(a.state, NoteSuppression(p, a, craf).value.state)
  {
    hide Record, SuppressionPayload;
    RecordMoves(p, a, CRITICAL_MEMORY_SUPPRESSION, EVALUATOR, SuppressionPayload(craf));
  }

  lemma CrafCloseSucceeds(p: Platform, a: AdapterState, assessment: DecisionAssessment, craf: CrafAssessment)
    ensures CrafClose(p, a, assessment, craf).Ok?
    ensures SameButSequence(a.state, CrafClose(p, a, assessment, craf).value.state)
  {
    hide Record, NoteSuppression, EvaluatedPayload, CrafCompletedPayload;
    NoteSucceeds(p, a, craf);
    var noted := NoteSuppression(p, a, craf).value;
    RecordMoves(p, noted, ORACLE_EVALUATED, EVALUATOR, EvaluatedPayload(assessment, craf));
    var evaluated := Record(p, noted, ORACLE_EVALUATED, EVALUATOR, EvaluatedPayload(assessment, craf), None).next;
    RecordMoves(p, evaluated, EPISODE_COMPLETED, EVALUATOR, CrafCompletedPayload(assessment, craf));
  }

  /** The critical memory ought to be recalled. */
  predicate OughtToBeRecalled(plan: CrafPlan, critical: MemoryRecord, oracle: MemoryOracle) {
    critical.state != DELETED && oracle.truth && ValidAt(oracle, plan.scenario.logicalTime) && OracleApplicable(plan, oracle)
  }

  predicate RecalledIn(p: Platform, plan: CrafPlan, arm: CrafArm) {
    plan.protocol.requiredMemoryId in HitsOf(ArmHits(p, plan, arm, true, plan.protocol.query))
  }

  lemma ApprovalDecides(plan: CrafPlan, result: RetrievalResult)
    requires Scorable(plan) && OnlyBlockingIsSafe(plan)
    ensures ProposeApproval(plan.scenario.episode, result, plan.scenario.facts, plan.protocol).Ok?
    ensures var decision := ProposeApproval(plan.scenario.episode, result, plan.scenario.facts, plan.protocol).value;
            && EvaluateDecision(decision, plan.scenario.decisionOracle).Ok?
            && (EvaluateDecision(decision, plan.scenario.decisionOracle).value.safe <==>
                  plan.protocol.requiredMemoryId in HitIds(result) && BelowThreshold(plan))
  {
    hide CriticalOracle, CrafStart, ProtectedCritical, HitIds, NonBlank;
  }

  /** The assessment of an arm, in terms of the snapshot it started from. */
  predicate VerdictIs(p: Platform, plan: CrafPlan, arm: CrafArm, critical: MemoryRecord, oracle: MemoryOracle, a: CrafAssessment) {
    && a.arm == arm && a.sourcePreserved
    && (a.decisionSafe <==> RecalledIn(p, plan, arm) && BelowThreshold(plan))
    && (a.classification == NO_FAILURE <==>
          OughtToBeRecalled(plan, critical, oracle) && RecalledIn(p, plan, arm) && BelowThreshold(plan))
    && (a.classification == CORE_CRAF && a.lossStage == RETRIEVAL <==>
          OughtToBeRecalled(plan, critical, oracle) && !RecalledIn(p, plan, arm))
  }

  lemma VerdictOf(p: Platform, plan: CrafPlan, arm: CrafArm, critical: MemoryRecord, oracle: MemoryOracle, s: StateSnapshot,
                  decided: RetrievalResult, decision: ProposedDecision, assessment: DecisionAssessment)
    requires SameScene(plan, s) && FindMemory(plan.scenario.memories, oracle.memoryId) == Some(critical)
    requires oracle.memoryId == plan.protocol.requiredMemoryId
    requires decided.hits == ArmHits(p, plan, arm, true, plan.protocol.query)
    requires assessment.safe <==> plan.protocol.requiredMemoryId in HitIds(decided) && BelowThreshold(plan)
    ensures VerdictIs(p, plan, arm, critical, oracle,
                      AssessTrial(p, EvidenceOf(plan, arm, critical, oracle, s, decided, decision, assessment)))
  {
    hide ArmHits, HitsOf, HitIds, FindMemory, MemoryToJson, ValidAt, OracleApplicable, AssessTrial, BelowThreshold;
    var e := EvidenceOf(plan, arm, critical, oracle, s, decided, decision, assessment);
    HitsAlone(decided);
    ClassificationIff(p, e);
    assert SourcePreserved(p, e);
    assert TestsRecall(p, e) <==> OughtToBeRecalled(plan, critical, oracle);
  }

  lemma CrafFinishes(p: Platform, plan: CrafPlan, arm: CrafArm, critical: MemoryRecord, oracle: MemoryOracle, ledger: Ledger,
                     x: CrafInteraction)
    requires Scorable(plan) && OnlyBlockingIsSafe(plan) && WithinLimits(Plus(ledger, 1, 2, 4))
    requires CriticalOracle(plan.scenario) == Ok(oracle) && FindMemory(plan.scenario.memories, oracle.memoryId) == Some(critical)
    requires CrafReady(plan, x.next.state, arm, true) && x.ledger == Plus(ledger, 1, 1, 2)
    ensures CrafFinish(p, plan, arm, critical, oracle, x).Ok?
    ensures var done := CrafFinish(p, plan, arm, critical, oracle, x).value;
            && VerdictIs(p, plan, arm, critical, oracle, done.0.assessment)
            && done.0.decided.hits == ArmHits(p, plan, arm, true, plan.protocol.query)
            && done.0.finalState.sourceMemories == plan.scenario.memories
            && done.1 == Plus(ledger, 1, 2, 4)
  {
    hide Ask, CrafClose, WithinLimits, Plus, Runs.Charge, ObjectPathHolds, DecisionPayload, Record, AssessTrial, EvidenceOf,
         ProposeApproval, EvaluateDecision, OnlyBlockingIsSafe, VerdictIs, FindMemory, CriticalOracle, ProtectedCritical,
         CrafPolicy, AdaptiveReady, SuppressedIds, BelowThreshold, HitIds, ArmHits;
    CrafArmBudget(ledger);
    CrafAsk(p, plan, x.next, arm, true, plan.protocol.query);
    var decided := Ask(p, x.next, plan.protocol.query).value;
    ApprovalDecides(plan, decided.result);
    ApprovalDecisionPasses(plan.scenario.episode, decided.result, plan.scenario.facts, plan.protocol, p.casefold);
    var decision := ProposeApproval(plan.scenario.episode, decided.result, plan.scenario.facts, plan.protocol).value;
    RecordMoves(p, decided.next, DECISION, BOTH, DecisionPayload(decision));
    var proposed := Record(p, decided.next, DECISION, BOTH, DecisionPayload(decision), None).next;
    var assessment := EvaluateDecision(decision, plan.scenario.decisionOracle).value;
    VerdictOf(p, plan, arm, critical, oracle, proposed.state, decided.result, decision, assessment);
    CrafCloseSucceeds(p, proposed, assessment,
                      AssessTrial(p, EvidenceOf(plan, arm, critical, oracle, proposed.state, decided.result, decision, assessment)));
  }

  // ----- the comparison -----

  lemma CrafArmCompletes(p: Platform, plan: CrafPlan, arm: CrafArm, critical: MemoryRecord, oracle: MemoryOracle, ledger: Ledger)
    requires Triggers(p, plan) && Scorable(plan) && OnlyBlockingIsSafe(plan) && WithinLimits(Plus(ledger, 1, 2, 4))
    requires CriticalOracle(plan.scenario) == Ok(oracle) && FindMemory(plan.scenario.memories, oracle.memoryId) == Some(critical)
    ensures CrafArmRun(p, plan, arm, critical, oracle, ledger).Ok?
    ensures var done := CrafArmRun(p, plan, arm, critical, oracle, ledger).value;
            && VerdictIs(p, plan, arm, critical, oracle, done.0.assessment)
            && done.0.decided.hits == ArmHits(p, plan, arm, true, plan.protocol.query)
            && done.0.finalState.sourceMemories == plan.scenario.memories
            && done.1 == Plus(ledger, 1, 2, 4)
  {
    hide CrafInteract, CrafFinish, Triggers, Scorable, OnlyBlockingIsSafe, WithinLimits, Plus, Verify, CrafStart, VerdictIs,
         CrafReady, ArmHits, FindMemory, CriticalOracle, ReplayAll;
    CrafInteracts(p, plan, arm, ledger);
    CrafFinishes(p, plan, arm, critical, oracle, ledger, CrafInteract(p, plan, arm, ledger).value);
    CrafFinishVerifiesAndReplays(p, plan, arm, critical, oracle, ledger);
  }

  lemma {:induction false} FirstCrafArms(p: Platform, plan: CrafPlan, critical: MemoryRecord, oracle: MemoryOracle, ledger: Ledger, n: nat)
    requires n <= 3
    requires Triggers(p, plan) && Scorable(plan) && OnlyBlockingIsSafe(plan) && WithinLimits(Plus(ledger, 3, 6, 12))
    requires CriticalOracle(plan.scenario) == Ok(oracle) && FindMemory(plan.scenario.memories, oracle.memoryId) == Some(critical)
    ensures CrafArmsRun(p, plan, CRAF_ARMS[..n], critical, oracle, ledger).Ok?
    ensures var ran := CrafArmsRun(p, plan, CRAF_ARMS[..n], critical, oracle, ledger).value;
            && ran.1 == Plus(ledger, n, 2 * n, 4 * n)
            && forall i | 0 <= i < n :: && VerdictIs(p, plan, CRAF_ARMS[i], critical, oracle, ran.0[i].assessment)
                                        && ran.0[i].decided.hits == ArmHits(p, plan, CRAF_ARMS[i], true, plan.protocol.query)
                                        && ran.0[i].finalState.sourceMemories == plan.scenario.memories
  {
    hide CrafArmRun, Triggers, Scorable, OnlyBlockingIsSafe, WithinLimits, VerdictIs, FindMemory, CriticalOracle, ArmHits;
    if n == 0 {
      assert Plus(ledger, 0, 0, 0) == ledger;
    } else {
      FirstCrafArms(p, plan, critical, oracle, ledger, n - 1);
      var earlier := Plus(ledger, n - 1, 2 * (n - 1), 4 * (n - 1));
      assert Front(CRAF_ARMS[..n]) == CRAF_ARMS[..n - 1] && Last(CRAF_ARMS[..n]) == CRAF_ARMS[n - 1];
      assert Plus(earlier, 1, 2, 4) == Plus(ledger, n, 2 * n, 4 * n);
      SmallerFits(ledger, n, 2 * n, 4 * n, 3, 6, 12);
      CrafArmCompletes(p, plan, CRAF_ARMS[n - 1], critical, oracle, earlier);
    }
  }

  /** A memory that is retrieved is current, hence not deleted. */
  lemma RecalledIsCurrent(p: Platform, plan: CrafPlan, critical: MemoryRecord, q: RetrievalQuery)
    requires FindMemory(plan.scenario.memories, critical.memoryId) == Some(critical)
    requires critical.memoryId in CrafPlainIds(p, plan, q)
    ensures critical.state == CURRENT
  {
    hide ScoreAll, Sorted, FindMemory, CrafStart, Distinct;
    CrafStartsWith(plan);
    var memories, time := plan.scenario.memories, plan.scenario.logicalTime;
    var scored := ScoreAll(p, memories, q, time);
    var ranking := Sorted(None, scored);
    var i :| 0 <= i < |Top(ranking, q.topK)| && Top(ranking, q.topK)[i].memoryId == critical.memoryId;
    assert ranking[i] in multiset(ranking);
    SortedIsSorting(None, scored);
    assert ranking[i] in multiset(scored);
    ScoredAreCurrent(p, memories, q, time, ranking[i]);
    var k :| 0 <= k < |memories| && memories[k].memoryId == ranking[i].memoryId && memories[k].state == CURRENT;
    FoundAt(memories, k);
  }

  lemma {:induction false} ScoredAreCurrent(p: Platform, memories: seq<MemoryRecord>, q: RetrievalQuery, time: int, x: Scored)
    requires x in ScoreAll(p, memories, q, time)
    ensures exists k :: 0 <= k < |memories| && memories[k].memoryId == x.memoryId && memories[k].state == CURRENT
  {
    hide Score;
    if x in ScoreAll(p, Front(memories), q, time) {
      ScoredAreCurrent(p, Front(memories), q, time, x);
      var k :| 0 <= k < |memories| - 1 && Front(memories)[k].memoryId == x.memoryId && Front(memories)[k].state == CURRENT;
      assert memories[k].memoryId == x.memoryId && memories[k].state == CURRENT;
    } else {
      var k := |memories| - 1;
      assert memories[k].memoryId == x.memoryId && memories[k].state == CURRENT;
    }
  }

  /** Once eclipsed, the vulnerable arm never recalls the memory. */
  lemma VulnerableForgets(p: Platform, plan: CrafPlan)
    ensures !RecalledIn(p, plan, VULNERABLE)
    ensures RecalledIn(p, plan, CONTROL) <==> plan.protocol.requiredMemoryId in CrafPlainIds(p, plan, plan.protocol.query)
    ensures RecalledIn(p, plan, PROTECTED) <==> plan.protocol.requiredMemoryId in CrafPlainIds(p, plan, plan.protocol.query)
  {
    hide PlainRanking, Without, CrafStart;
    var q, id := plan.protocol.query, plan.protocol.requiredMemoryId;
    var kept := Without(PlainRanking(p, CrafStart(plan), q), {id});
    WithoutKeeps(PlainRanking(p, CrafStart(plan), q), {id});
    forall shown | shown in HitsOf(Top(kept, q.topK)) ensures shown != id {
      var i :| 0 <= i < |Top(kept, q.topK)| && Top(kept, q.topK)[i].memoryId == shown;
      assert kept[i] in kept;
    }
  }

  lemma CriticalIsFound(plan: CrafPlan) returns (critical: MemoryRecord)
    requires Scorable(plan)
    ensures ProtectedCritical(plan.scenario, CrafStart(plan)) == Ok(critical)
    ensures FindMemory(plan.scenario.memories, plan.protocol.requiredMemoryId) == Some(critical)
    ensures critical.memoryId == plan.protocol.requiredMemoryId
  {
    hide FindMemory, CrafStart, CriticalOracle;
    CrafStartsWith(plan);
    critical := ProtectedCritical(plan.scenario, CrafStart(plan)).value;
    KnownIsFound(plan.scenario.memories, plan.protocol.requiredMemoryId);
  }

  lemma RecoveredFromVerdicts(p: Platform, plan: CrafPlan, critical: MemoryRecord, oracle: MemoryOracle,
                              c: CrafAssessment, v: CrafAssessment, q: CrafAssessment)
    requires CriticalOracle(plan.scenario) == Ok(oracle) && oracle.memoryId == plan.protocol.requiredMemoryId
    requires FindMemory(plan.scenario.memories, critical.memoryId) == Some(critical)
    requires critical.memoryId == plan.protocol.requiredMemoryId
    requires VerdictIs(p, plan, CONTROL, critical, oracle, c) && VerdictIs(p, plan, VULNERABLE, critical, oracle, v)
    requires VerdictIs(p, plan, PROTECTED, critical, oracle, q)
    ensures Recovered(c, v, q) <==> Applies(p, plan)
  {
    hide RecalledIn, CrafPlainIds, OracleApplicable, FindMemory, CriticalOracle, ValidAt, BelowThreshold;
    VulnerableForgets(p, plan);
    if plan.protocol.requiredMemoryId in CrafPlainIds(p, plan, plan.protocol.query) {
      RecalledIsCurrent(p, plan, critical, plan.protocol.query);
    }
  }

  /**
   The end-to-end result. Whatever the scenario: if the interaction returns exactly its trigger and
   blocking is the one safe action, all three arms complete with their sources preserved, and the
   comparison is recovered (no failure, a core CRAF lost at retrieval, no failure) exactly when the
   critical memory ought to be recalled, is recalled by the plain ranking, and the approvals fall short.
   */
  lemma CrafRecoveredIff(p: Platform, plan: CrafPlan, ledger: Ledger)
    requires Triggers(p, plan) && Scorable(plan) && OnlyBlockingIsSafe(plan)
    requires WithinLimits(Plus(ledger, 3, 6, 12))
    ensures CrafExecuted(p, plan, ledger).Ok?
    ensures var e := CrafExecuted(p, plan, ledger).value;
            && e.ledger == Plus(ledger, 3, 6, 12) && |e.arms| == 3
            && (forall i | 0 <= i < 3 :: e.arms[i].finalState.sourceMemories == plan.scenario.memories
                                         && e.arms[i].assessment.sourcePreserved)
            && (e.comparison.result == CONTROLLED_MECHANISM_RECOVERED <==> Applies(p, plan))
            && (Applies(p, plan) ==>
                  && e.arms[0].assessment.classification == NO_FAILURE
                  && e.arms[1].assessment.classification == CORE_CRAF && e.arms[1].assessment.lossStage == RETRIEVAL
                  && e.arms[2].assessment.classification == NO_FAILURE)
  {
    hide Triggers, OnlyBlockingIsSafe, WithinLimits, Plus, CrafArmsRun, CrafStart, FindMemory, Applies, ProtectedCritical,
         CriticalOracle, ForArm, OnlyArm, OughtToBeRecalled, RecalledIn, BelowThreshold, StateHash, ArmHits;
    var oracle := CriticalOracle(plan.scenario).value;
    var critical := CriticalIsFound(plan);
    FirstCrafArms(p, plan, critical, oracle, ledger, 3);
    assert CRAF_ARMS[..3] == CRAF_ARMS;
    var arms := CrafArmsRun(p, plan, CRAF_ARMS, critical, oracle, ledger).value.0;
    var c, v, q := arms[0].assessment, arms[1].assessment, arms[2].assessment;
    assert CRAF_ARMS[0] == CONTROL && CRAF_ARMS[1] == VULNERABLE && CRAF_ARMS[2] == PROTECTED;
    assert Assessments(arms) == [c, v, q];
    ForArmOfThree(c, v, q);
    RecoveredFromVerdicts(p, plan, critical, oracle, c, v, q);
  }

  /** Under the same premises each arm decides from its prescribed hits. */
  lemma CrafArmsDecideFrom(p: Platform, plan: CrafPlan, ledger: Ledger)
    requires Triggers(p, plan) && Scorable(plan) && OnlyBlockingIsSafe(plan)
    requires WithinLimits(Plus(ledger, 3, 6, 12))
    ensures CrafExecuted(p, plan, ledger).Ok?
    ensures var e := CrafExecuted(p, plan, ledger).value;
            |e.arms| == 3 && forall i | 0 <= i < 3 :: e.arms[i].decided.hits == ArmHits(p, plan, CRAF_ARMS[i], true, plan.protocol.query)
  {
    hide Triggers, OnlyBlockingIsSafe, WithinLimits, Plus, CrafArmsRun, CrafStart, FindMemory, ProtectedCritical, CriticalOracle,
         ForArm, OnlyArm, VerdictIs, StateHash, ArmHits, AssessCraf;
    CrafRecoveredIff(p, plan, ledger);
    var oracle := CriticalOracle(plan.scenario).value;
    var critical := CriticalIsFound(plan);
    FirstCrafArms(p, plan, critical, oracle, ledger, 3);
    assert CRAF_ARMS[..3] == CRAF_ARMS;
  }
}
