/** The four-arm RISI-C reference execution (runner.py). */
module RisiCRun {
  import opened Basics
  import opened Json
  import opened Text
  import opened Models
  import opened Printer
  import opened Trace
  import opened Decisions
  import opened ReferenceMemory
  import opened Replay
  import opened AdapterRuns
  import opened Retrievals
  import opened SharedCounter
  import opened PolicyRefinement
  import opened StateDiff
  import opened Confidentiality
  import opened Runs
  import Budget

  // ----- the plan -----

  /** A scenario with its RISI-C protocol and oracle, as the loader returns them. */
  datatype Plan = Plan(scenario: Scenario, region: RegionProtocol, oracle: RisiCOracle, hiddenQuery: RetrievalQuery,
                       shamQuery: RetrievalQuery, observerQuery: RetrievalQuery, manifestSha256: string, profile: string)

  /** The matched event query of an arm. */
  function VictimQuery(plan: Plan, arm: Arm): RetrievalQuery {
    if arm == Arm.HIDDEN then plan.hiddenQuery else plan.shamQuery
  }

  function VictimMemory(plan: Plan, arm: Arm): string {
    if arm == Arm.HIDDEN then plan.oracle.canaryMemoryId else plan.oracle.shamMemoryId
  }

  function Larger(x: int, y: int): int {
    if x < y then y else x
  }

  function TopK(plan: Plan): int {
    Larger(plan.region.query.topK, Larger(plan.shamQuery.topK, plan.observerQuery.topK))
  }

  function Start(plan: Plan): StateSnapshot {
    InitialState(plan.scenario, map["shared_access_counter" := Int(0)], TopK(plan))
  }

  lemma SharedCounterNamed()
    ensures NonBlank("risi-shared-counter") && NonBlank("1")
  {
  }

  function SharedCounterPolicy(plan: Plan): PolicyConfiguration {
    SharedCounterNamed();
    hide NonBlank;
    RawPolicy("risi-shared-counter", "1", map[
      "top_k" := Int(TopK(plan)), "read_side_updates" := Bool(true),
      "canary_memory_id" := Str(plan.oracle.canaryMemoryId),
      "victim_principal_id" := Str(plan.oracle.victimPrincipalId),
      "observer_principal_id" := Str(plan.oracle.observerPrincipalId),
      "no_hidden_signal_memory_id" := Str(plan.oracle.noHiddenSignalMemoryId),
      "hidden_signal_memory_id" := Str(plan.oracle.hiddenSignalMemoryId)])
  }

  function PolicyOf(plan: Plan, pair: Pair): PolicyConfiguration {
    if pair == VULNERABLE then SharedCounterPolicy(plan) else PureReadPolicy(TopK(plan))
  }

  function StartPayload(plan: Plan, pair: Pair, arm: Arm): Fields {
    map["pair" := Str(PairName(pair)), "arm" := Str(ArmName(arm)), "manifest_sha256" := Str(plan.manifestSha256),
        "profile" := Str(plan.profile)]
  }

  function AssessmentPayload(assessment: DecisionAssessment): Fields {
    map["decision_assessment" := DecisionAssessmentToJson(assessment)]
  }

  function CompletedPayload(pair: Pair, arm: Arm, assessment: DecisionAssessment): Fields {
    map["pair" := Str(PairName(pair)), "arm" := Str(ArmName(arm)), "safe" := Bool(assessment.safe)]
  }

  // ----- one arm -----

  datatype ArmMaterial = ArmMaterial(pair: Pair, arm: Arm, finalState: StateSnapshot, victim: RetrievalResult,
                                     victimContext: string, observer: RetrievalResult, view: ObserverView,
                                     decided: RetrievalResult, decidedContext: string, decision: ProposedDecision,
                                     assessment: DecisionAssessment, events: seq<TraceEvent>)

  predicate Found(memories: seq<MemoryRecord>, ids: seq<string>) {
    forall i | 0 <= i < |ids| :: FindMemory(memories, ids[i]).Some?
  }

  function Contents(memories: seq<MemoryRecord>, ids: seq<string>): Result<seq<string>, RunError> {
    if !Found(memories, ids) then Err(MissingMemory)
    else Ok(seq(|ids|, i requires 0 <= i < |ids| && Found(memories, ids) => FindMemory(memories, ids[i]).value.content))
  }

  /** The single-exchange observer view of a retrieval. */
  function ViewOf(memories: seq<MemoryRecord>, q: RetrievalQuery, ids: seq<string>): Result<ObserverView, RunError> {
    var contents :- Contents(memories, ids);
    var exchange := RawExchange(0, q, ids, contents, map["result_count" := Int(|ids|)]);
    if exchange.Valid() then Ok(RawView(q.principalId, [exchange])) else Err(InvalidView)
  }

  /** The three closing events. */
  function Close(p: Platform, a: AdapterState, pair: Pair, arm: Arm, decision: ProposedDecision, oracle: DecisionOracle)
    : Result<Returned<DecisionAssessment>, RunError>
  {
    var proposed :- Called(Record(p, a, DECISION, BOTH, DecisionPayload(decision), None));
    var assessment :- Decided(EvaluateDecision(decision, oracle));
    var evaluated :- Called(Record(p, proposed.next, ORACLE_EVALUATED, EVALUATOR, AssessmentPayload(assessment), None));
    var completed :- Called(Record(p, evaluated.next, EPISODE_COMPLETED, EVALUATOR,
                                   CompletedPayload(pair, arm, assessment), None));
    Ok(Returned(completed.next, assessment))
  }

  /** The arm up to the observer's view. */
  datatype Interaction = Interaction(next: AdapterState, victim: RetrievalResult, victimContext: string,
                                     observer: RetrievalResult, view: ObserverView, ledger: Budget.Ledger)

  function Interact(p: Platform, plan: Plan, pair: Pair, arm: Arm, ledger: Budget.Ledger): Result<Interaction, RunError> {
    hide Begin, Ask, ViewOf, Charge, InitialState;
    var started :- Charge(ledger, Budget.EpisodeStart);
    var begun :- Begin(p, Start(plan), StartPayload(plan, pair, arm), PolicyOf(plan, pair));
    var first :- Charge(started, Budget.RetrievalCall);
    var victim :- Ask(p, begun, VictimQuery(plan, arm));
    if HitIds(victim.result) != [VictimMemory(plan, arm)] then
      Err(UnexpectedHits)
    else
      var second :- Charge(first, Budget.RetrievalCall);
      var observer :- Ask(p, victim.next, plan.observerQuery);
      var view :- ViewOf(observer.next.state.sourceMemories, plan.observerQuery, HitIds(observer.result));
      Ok(Interaction(observer.next, victim.result, victim.context, observer.result, view, second))
  }

  /** The decision and its evaluation. */
  function Finish(p: Platform, plan: Plan, pair: Pair, arm: Arm, x: Interaction): Result<(ArmMaterial, Budget.Ledger), RunError> {
    hide Ask, Close, ProposeRegion, Charge;
    var asked :- Charge(x.ledger, Budget.RetrievalCall);
    var decided :- Ask(p, x.next, plan.region.query);
    var charged :- Charge(asked, Budget.DecisionMade);
    var decision :- Decided(ProposeRegion(plan.scenario.episode, decided.result, plan.scenario.facts, plan.region));
    var closed :- Close(p, decided.next, pair, arm, decision, plan.scenario.decisionOracle);
    Ok((ArmMaterial(pair, arm, closed.next.state, x.victim, x.victimContext, x.observer, x.view, decided.result,
                    decided.context, decision, closed.value, closed.next.trace), charged))
  }

  /** The checks on a finished arm. */
  function Conclude(p: Platform, plan: Plan, material: ArmMaterial): Result<(), RunError> {
    if material.finalState.sourceMemories != plan.scenario.memories then
      Err(SourcesChanged)
    else
      match Verify(p, material.events) case Fail(error) => Err(TraceRefused(error)) case Pass => Ok(())
  }

  /** `_execute_risi_c_arm` */
  function ArmRun(p: Platform, plan: Plan, pair: Pair, arm: Arm, ledger: Budget.Ledger)
    : Result<(ArmMaterial, Budget.Ledger), RunError>
  {
    hide Interact, Finish, Conclude;
    var x :- Interact(p, plan, pair, arm, ledger);
    var done :- Finish(p, plan, pair, arm, x);
    var _ :- Conclude(p, plan, done.0);
    Ok(done)
  }

  method ReadView(memories: seq<MemoryRecord>, q: RetrievalQuery, ids: seq<string>)
    returns (view: Result<ObserverView, RunError>)
    ensures view == ViewOf(memories, q, ids)
  {
    hide FindMemory;
    var contents: seq<string> := [];
    for i := 0 to |ids|
      invariant |contents| == i && Found(memories, ids[..i])
      invariant forall j | 0 <= j < i :: contents[j] == FindMemory(memories, ids[j]).value.content
    {
      assert forall j | 0 <= j < i :: ids[..i][j] == ids[j];
      var memory := FindMemory(memories, ids[i]);
      if memory.None? {
        assert !Found(memories, ids);
        return Err(MissingMemory);
      }
      contents := contents + [memory.value.content];
    }
    assert ids[..|ids|] == ids;
    assert Contents(memories, ids).value == contents;
    var exchange := RawExchange(0, q, ids, contents, map["result_count" := Int(|ids|)]);
    return if exchange.Valid() then Ok(RawView(q.principalId, [exchange])) else Err(InvalidView);
  }

  /** What an arm has seen by the time its observer has asked. */
  datatype Observed = Observed(victim: RetrievalResult, victimContext: string, observer: RetrievalResult, view: ObserverView,
                               ledger: Budget.Ledger)

  method InteractArm(p: Platform, plan: Plan, pair: Pair, arm: Arm, ledger: Budget.Ledger)
    returns (outcome: Result<Observed, RunError>, adapter: ReferenceMemoryAdapter)
    ensures fresh(adapter) && adapter.Valid() && adapter.platform == p
    ensures match Interact(p, plan, pair, arm, ledger)
            case Ok(x) => outcome == Ok(Observed(x.victim, x.victimContext, x.observer, x.view, x.ledger)) && adapter.View() == x.next
            case Err(error) => outcome == Err(error)
  {
    hide Begin, Ask, ViewOf, Charge, InitialState, PureReadPolicy, SharedCounterPolicy, StartPayload;
    var started := Charge(ledger, Budget.EpisodeStart);
    if started.Err? {
      adapter := new ReferenceMemoryAdapter(p, Start(plan));
      return Err(started.error), adapter;
    }
    var begun: Result<(), RunError>;
    begun, adapter := BeginArm(p, Start(plan), StartPayload(plan, pair, arm), PolicyOf(plan, pair));
    if begun.Err? { return Err(begun.error), adapter; }
    var first := Charge(started.value, Budget.RetrievalCall);
    if first.Err? { return Err(first.error), adapter; }
    var victim := AskAdapter(adapter, VictimQuery(plan, arm));
    if victim.Err? { return Err(victim.error), adapter; }
    if HitIds(victim.value.0) != [VictimMemory(plan, arm)] { return Err(UnexpectedHits), adapter; }
    var second := Charge(first.value, Budget.RetrievalCall);
    if second.Err? { return Err(second.error), adapter; }
    var observer := AskAdapter(adapter, plan.observerQuery);
    if observer.Err? { return Err(observer.error), adapter; }
    var view := ReadView(adapter.state.sourceMemories, plan.observerQuery, HitIds(observer.value.0));
    if view.Err? { return Err(view.error), adapter; }
    return Ok(Observed(victim.value.0, victim.value.1, observer.value.0, view.value, second.value)), adapter;
  }

  method ExecuteArm(p: Platform, plan: Plan, pair: Pair, arm: Arm, ledger: Budget.Ledger)
    returns (outcome: Result<(ArmMaterial, Budget.Ledger), RunError>)
    ensures outcome == ArmRun(p, plan, pair, arm, ledger)
  {
    hide Ask, ProposeRegion, Charge, Verify, Close, Interact;
    var interacted, adapter := InteractArm(p, plan, pair, arm, ledger);
    if interacted.Err? { return Err(interacted.error); }
    var x := interacted.value;
    var asked :- Charge(x.ledger, Budget.RetrievalCall);
    var decided :- AskAdapter(adapter, plan.region.query);
    var charged :- Charge(asked, Budget.DecisionMade);
    var decision :- Decided(ProposeRegion(plan.scenario.episode, decided.0, plan.scenario.facts, plan.region));
    var closed :- CloseArm(adapter, pair, arm, decision, plan.scenario.decisionOracle);
    if adapter.state.sourceMemories != plan.scenario.memories {
      return Err(SourcesChanged);
    }
    var verdict := VerifyTrace(p, adapter.trace);
    if verdict.Fail? {
      return Err(TraceRefused(verdict.error));
    }
    return Ok((ArmMaterial(pair, arm, adapter.state, x.victim, x.victimContext, x.observer, x.view, decided.0, decided.1,
                           decision, closed, adapter.trace), charged));
  }

  method CloseArm(adapter: ReferenceMemoryAdapter, pair: Pair, arm: Arm, decision: ProposedDecision, oracle: DecisionOracle)
    returns (outcome: Result<DecisionAssessment, RunError>)
    requires adapter.Valid()
    modifies adapter`state, adapter`trace
    ensures adapter.Valid()
    ensures match Close(adapter.platform, old(adapter.View()), pair, arm, decision, oracle)
            case Ok(closed) => outcome == Ok(closed.value) && adapter.View() == closed.next
            case Err(error) => outcome == Err(error)
  {
    hide Record, EvaluateDecision;
    var proposed := adapter.RecordEvent(DECISION, BOTH, DecisionPayload(decision), None);
    if proposed.Err? { return Err(AdapterFailure(proposed.error)); }
    var assessment :- Decided(EvaluateDecision(decision, oracle));
    var evaluated := adapter.RecordEvent(ORACLE_EVALUATED, EVALUATOR, AssessmentPayload(assessment), None);
    if evaluated.Err? { return Err(AdapterFailure(evaluated.error)); }
    var completed := adapter.RecordEvent(EPISODE_COMPLETED, EVALUATOR, CompletedPayload(pair, arm, assessment), None);
    if completed.Err? { return Err(AdapterFailure(completed.error)); }
    return Ok(assessment);
  }

  // ----- the four arms -----

  const ARMS: seq<(Pair, Arm)> := [(VULNERABLE, Arm.SHAM), (VULNERABLE, Arm.HIDDEN), (PURE_READ, Arm.SHAM), (PURE_READ, Arm.HIDDEN)]

  /** The arms in order, each charged to the ledger its predecessor left. */
  function ArmsRun(p: Platform, plan: Plan, arms: seq<(Pair, Arm)>, ledger: Budget.Ledger)
    : (ran: Result<(seq<ArmMaterial>, Budget.Ledger), RunError>)
    ensures ran.Ok? ==> |ran.value.0| == |arms|
  {
    hide ArmRun;
    if arms == [] then Ok(([], ledger))
    else
      var front :- ArmsRun(p, plan, Front(arms), ledger);
      var last :- ArmRun(p, plan, Last(arms).0, Last(arms).1, front.1);
      Ok((front.0 + [last.0], last.1))
  }

  datatype Execution = Execution(arms: seq<ArmMaterial>, comparison: Comparison, ledger: Budget.Ledger)

  function PairOf(p: Platform, repr: FloatText, plan: Plan, pair: Pair, sham: ArmMaterial, hidden: ArmMaterial): PairAssessment {
    PairAssessed(p, repr, pair, sham.finalState, hidden.finalState, sham.view, hidden.view, plan.oracle)
  }

  /** `_execute_risi_c_reference`, up to the evidence it writes. */
  function Executed(p: Platform, repr: FloatText, plan: Plan, ledger: Budget.Ledger): Result<Execution, RunError> {
    hide ArmsRun, PairAssessed, InitialState, ProtectedCritical;
    var _ :- ProtectedCritical(plan.scenario, Start(plan));
    var ran :- ArmsRun(p, plan, ARMS, ledger);
    match AssessComparison(plan.scenario.episode.scenarioId, StateHash(p, Start(plan)),
                           PairOf(p, repr, plan, VULNERABLE, ran.0[0], ran.0[1]),
                           PairOf(p, repr, plan, PURE_READ, ran.0[2], ran.0[3]))
    case Err(_) => Err(InvalidComparison)
    case Ok(comparison) => Ok(Execution(ran.0, comparison, ran.1))
  }

  lemma {:induction false} FailedArmDecides(p: Platform, plan: Plan, arms: seq<(Pair, Arm)>, ledger: Budget.Ledger, n: nat)
    requires n <= |arms| && ArmsRun(p, plan, arms[..n], ledger).Err?
    ensures ArmsRun(p, plan, arms, ledger) == ArmsRun(p, plan, arms[..n], ledger)
    decreases |arms|
  {
    hide ArmRun;
    if n < |arms| {
      assert Front(arms)[..n] == arms[..n];
      FailedArmDecides(p, plan, Front(arms), ledger, n);
    } else {
      assert arms[..n] == arms;
    }
  }

  method ExecuteComparison(p: Platform, repr: FloatText, plan: Plan, ledger: Budget.Ledger)
    returns (outcome: Result<Execution, RunError>)
    ensures outcome == Executed(p, repr, plan, ledger)
  {
    hide ArmRun, PairAssessed, InitialState, ProtectedCritical, StateHash, AssessComparison;
    var _ :- ProtectedCritical(plan.scenario, Start(plan));
    var materials: seq<ArmMaterial> := [];
    var current := ledger;
    for i := 0 to |ARMS|
      invariant ArmsRun(p, plan, ARMS[..i], ledger) == Ok((materials, current))
    {
      assert Front(ARMS[..i + 1]) == ARMS[..i] && Last(ARMS[..i + 1]) == ARMS[i];
      var ran := ExecuteArm(p, plan, ARMS[i].0, ARMS[i].1, current);
      if ran.Err? {
        FailedArmDecides(p, plan, ARMS, ledger, i + 1);
        return Err(ran.error);
      }
      materials := materials + [ran.value.0];
      current := ran.value.1;
    }
    assert ARMS[..|ARMS|] == ARMS;
    var vulnerable := AssessPair(p, repr, VULNERABLE, materials[0].finalState, materials[1].finalState,
                                 materials[0].view, materials[1].view, plan.oracle);
    var pureRead := AssessPair(p, repr, PURE_READ, materials[2].finalState, materials[3].finalState,
                               materials[2].view, materials[3].view, plan.oracle);
    var comparison := AssessComparison(plan.scenario.episode.scenarioId, StateHash(p, Start(plan)), vulnerable, pureRead);
    if comparison.Err? {
      return Err(InvalidComparison);
    }
    return Ok(Execution(materials, comparison.value, current));
  }
}
