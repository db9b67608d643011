/** The pure-read baseline execution (runner.py), its charges, and its replay from retained documents (replay.py). */
module BaselineRun {
  import opened Basics
  import opened Json
  import opened Text
  import opened Bytes
  import opened Models
  import opened Decoding
  import opened Trace
  import opened Decisions
  import opened ReferenceMemory
  import opened Replay
  import opened AdapterRuns
  import opened Runs
  import opened Retained
  import opened Budget

  datatype RawObligation = RawObligation(query: RetrievalQuery, requiredMemoryId: string, actionIfPresent: string,
                                         actionIfAbsent: string) {
    predicate Valid() {
      NonBlank(requiredMemoryId) && NonBlank(actionIfPresent) && NonBlank(actionIfAbsent)
    }
  }

  type ObligationProtocol = o: RawObligation | o.Valid() witness RawObligation(RawQuery("p", "t", "q", 1), "m", "a", "b")

  datatype Protocol = Approval(approval: ApprovalProtocol) | Obligation(obligation: ObligationProtocol)

  function QueryOf(protocol: Protocol): RetrievalQuery {
    match protocol case Approval(a) => a.query case Obligation(o) => o.query
  }

  /** `DeterministicObligationProvider.propose` */
  function ProposeObligation(episode: EpisodeIdentity, result: RetrievalResult, protocol: ObligationProtocol): ProposedDecision {
    var available := protocol.requiredMemoryId in HitIds(result);
    RawDecision(DecisionId(episode), episode.episodeId,
                if available then protocol.actionIfPresent else protocol.actionIfAbsent,
                if available then [protocol.requiredMemoryId] else [], map["policy_available" := Bool(available)])
  }

  function Propose(episode: EpisodeIdentity, result: RetrievalResult, facts: Fields, protocol: Protocol)
    : Result<ProposedDecision, DecisionError>
  {
    hide NonBlank;
    match protocol
    case Approval(a) => ProposeApproval(episode, result, facts, a)
    case Obligation(o) => Ok(ProposeObligation(episode, result, o))
  }

  datatype BaselinePlan = BaselinePlan(scenario: Scenario, protocol: Protocol, manifestSha256: string, profile: string)

  function BaselineStart(plan: BaselinePlan): StateSnapshot {
    InitialState(plan.scenario, map[], QueryOf(plan.protocol).topK)
  }

  datatype Baseline = Baseline(finalState: StateSnapshot, retrieval: RetrievalResult, context: string,
                               decision: ProposedDecision, assessment: DecisionAssessment, events: seq<TraceEvent>)

  function BaselinePayload(plan: BaselinePlan): Fields {
    map["manifest_sha256" := Str(plan.manifestSha256), "profile" := Str(plan.profile)]
  }

  function EvaluatedPayload(a: DecisionAssessment): Fields {
    map["assessment" := DecisionAssessmentToJson(a)]
  }

  function DonePayload(a: DecisionAssessment): Fields {
    map["safe" := Bool(a.safe), "reason_code" := Str(a.reasonCode)]
  }

  function BaselineClose(p: Platform, a: AdapterState, assessment: DecisionAssessment): Result<AdapterState, RunError> {
    hide Record;
    var evaluated :- Called(Record(p, a, ORACLE_EVALUATED, EVALUATOR, EvaluatedPayload(assessment), None));
    var done :- Called(Record(p, evaluated.next, EPISODE_COMPLETED, EVALUATOR, DonePayload(assessment), None));
    Ok(done.next)
  }

  /** The decision on what was retrieved, its evaluation, and the trace's verification. */
  function BaselineDecide(p: Platform, plan: BaselinePlan, asked: Reply): Result<Baseline, RunError> {
    hide Record, Propose, EvaluateDecision, Verify, BaselineClose, DecisionPayload;
    var decision :- Decided(Propose(plan.scenario.episode, asked.result, plan.scenario.facts, plan.protocol));
    var proposed :- Called(Record(p, asked.next, DECISION, BOTH, DecisionPayload(decision), None));
    var assessment :- Decided(EvaluateDecision(decision, plan.scenario.decisionOracle));
    var closed :- BaselineClose(p, proposed.next, assessment);
    match Verify(p, closed.trace)
    case Fail(error) => Err(TraceRefused(error))
    case Pass => Ok(Baseline(closed.state, asked.result, asked.context, decision, assessment, closed.trace))
  }

  /** `_execute_pure_read`, up to the evidence it writes. */
  function BaselineExecuted(p: Platform, plan: BaselinePlan, ledger: Ledger): Result<(Baseline, Ledger), RunError> {
    hide Record, Ask, Runs.Charge, InitialState, PolicyAccepted, BaselineDecide;
    var initial := BaselineStart(plan);
    var started :- Runs.Charge(ledger, EpisodeStart);
    if !PolicyAccepted(initial.policy, ById(initial.sourceMemories).Keys) then Err(AdapterFailure(ValueError))
    else
      var begun :- Called(Record(p, Fresh(initial), EPISODE_STARTED, EVALUATOR, BaselinePayload(plan), None));
      var charged :- Runs.Charge(started, RetrievalCall);
      var asked :- Ask(p, begun.next, QueryOf(plan.protocol));
      var spent :- Runs.Charge(charged, DecisionMade);
      var baseline :- BaselineDecide(p, plan, asked);
      Ok((baseline, spent))
  }

  /** The evaluator's closing events. */
  method CloseBaseline(adapter: ReferenceMemoryAdapter, assessment: DecisionAssessment) returns (outcome: Result<(), RunError>)
    requires adapter.Valid()
    modifies adapter`state, adapter`trace
    ensures adapter.Valid()
    ensures match BaselineClose(adapter.platform, old(adapter.View()), assessment)
            case Ok(closed) => outcome == Ok(()) && adapter.View() == closed
            case Err(error) => outcome == Err(error)
  {
    hide Record, EvaluatedPayload, DonePayload;
    var evaluated := adapter.RecordEvent(ORACLE_EVALUATED, EVALUATOR, EvaluatedPayload(assessment), None);
    if evaluated.Err? { return Err(AdapterFailure(evaluated.error)); }
    var done := adapter.RecordEvent(EPISODE_COMPLETED, EVALUATOR, DonePayload(assessment), None);
    if done.Err? { return Err(AdapterFailure(done.error)); }
    return Ok(());
  }

  method ExecuteBaseline(p: Platform, plan: BaselinePlan, ledger: Ledger) returns (outcome: Result<(Baseline, Ledger), RunError>)
    ensures outcome == BaselineExecuted(p, plan, ledger)
  {
    hide Record, Ask, Propose, EvaluateDecision, Runs.Charge, Verify, InitialState, PolicyAccepted, BaselineClose, BaselinePayload,
         DecisionPayload;
    var started :- Runs.Charge(ledger, EpisodeStart);
    var ready, adapter := ReferenceMemoryAdapter.Open(p, BaselineStart(plan));
    if ready.Err? { return Err(AdapterFailure(ready.error)); }
    var begun := adapter.RecordEvent(EPISODE_STARTED, EVALUATOR, BaselinePayload(plan), None);
    if begun.Err? { return Err(AdapterFailure(begun.error)); }
    var charged :- Runs.Charge(started, RetrievalCall);
    var asked :- AskAdapter(adapter, QueryOf(plan.protocol));
    var spent :- Runs.Charge(charged, DecisionMade);
    var decision :- Decided(Propose(plan.scenario.episode, asked.0, plan.scenario.facts, plan.protocol));
    var proposed := adapter.RecordEvent(DECISION, BOTH, DecisionPayload(decision), None);
    if proposed.Err? { return Err(AdapterFailure(proposed.error)); }
    var assessment :- Decided(EvaluateDecision(decision, plan.scenario.decisionOracle));
    var closed := CloseBaseline(adapter, assessment);
    if closed.Err? { return Err(closed.error); }
    var verdict := VerifyTrace(p, adapter.trace);
    if verdict.Fail? { return Err(TraceRefused(verdict.error)); }
    return Ok((Baseline(adapter.state, asked.0, asked.1, decision, assessment, adapter.trace), spent));
  }

  /** A completed baseline has charged one episode, one retrieval and one decision: three logical steps. */
  lemma BaselineCharges(p: Platform, plan: BaselinePlan, l: Ledger)
    requires WithinLimits(l) && BaselineExecuted(p, plan, l).Ok?
    ensures BaselineExecuted(p, plan, l).value.1 == Plus(l, 1, 1, 3)
  {
    hide Record, Ask, Runs.Charge, InitialState, PolicyAccepted, WithinLimits, Called, BaselineDecide;
    ChargeMoves(l, EpisodeStart);
    var a := Runs.Charge(l, EpisodeStart).value;
    ChargeMoves(a, RetrievalCall);
    var b := Runs.Charge(a, RetrievalCall).value;
    ChargeMoves(b, DecisionMade);
  }

  // ----- the execution is a run of the adapter -----

  function DecidingOps(b: Baseline): seq<Op> {
    [RecordOp(DECISION, BOTH, DecisionPayload(b.decision), None),
     RecordOp(ORACLE_EVALUATED, EVALUATOR, EvaluatedPayload(b.assessment), None),
     RecordOp(EPISODE_COMPLETED, EVALUATOR, DonePayload(b.assessment), None)]
  }

  function BaselineOps(plan: BaselinePlan, b: Baseline): seq<Op> {
    [RecordOp(EPISODE_STARTED, EVALUATOR, BaselinePayload(plan), None)] + AskOps(QueryOf(plan.protocol), b.retrieval) + DecidingOps(b)
  }

  /** What a completed baseline is made of. */
  lemma BaselineParts(p: Platform, plan: BaselinePlan, ledger: Ledger)
    requires BaselineExecuted(p, plan, ledger).Ok?
    ensures var begun := Record(p, Fresh(BaselineStart(plan)), EPISODE_STARTED, EVALUATOR, BaselinePayload(plan), None).next;
            && Ask(p, begun, QueryOf(plan.protocol)).Ok?
            && BaselineDecide(p, plan, Ask(p, begun, QueryOf(plan.protocol)).value) == Ok(BaselineExecuted(p, plan, ledger).value.0)
  {
    hide Record, Ask, Runs.Charge, InitialState, PolicyAccepted, BaselineDecide, BaselinePayload;
  }

  lemma DecideParts(p: Platform, plan: BaselinePlan, asked: Reply)
    requires BaselineDecide(p, plan, asked).Ok?
    ensures var b := BaselineDecide(p, plan, asked).value;
            var proposed := Record(p, asked.next, DECISION, BOTH, DecisionPayload(b.decision), None).next;
            && b.retrieval == asked.result && b.context == asked.context
            && BaselineClose(p, proposed, b.assessment) == Ok(RawAdapter(b.finalState, b.events))
  {
    hide Record, Propose, EvaluateDecision, Verify, BaselineClose, DecisionPayload;
  }

  lemma CloseIsARun(p: Platform, a: AdapterState, assessment: DecisionAssessment)
    requires BaselineClose(p, a, assessment).Ok?
    ensures BaselineClose(p, a, assessment).value ==
            Run(p, a, [RecordOp(ORACLE_EVALUATED, EVALUATOR, EvaluatedPayload(assessment), None),
                       RecordOp(EPISODE_COMPLETED, EVALUATOR, DonePayload(assessment), None)])
  {
    hide Record, Run, EvaluatedPayload, DonePayload;
    RunOfTwo(p, a, RecordOp(ORACLE_EVALUATED, EVALUATOR, EvaluatedPayload(assessment), None),
             RecordOp(EPISODE_COMPLETED, EVALUATOR, DonePayload(assessment), None));
  }

  lemma DecisionIsARun(p: Platform, a: AdapterState, b: Baseline)
    requires BaselineClose(p, Record(p, a, DECISION, BOTH, DecisionPayload(b.decision), None).next, b.assessment).Ok?
    ensures BaselineClose(p, Record(p, a, DECISION, BOTH, DecisionPayload(b.decision), None).next, b.assessment).value ==
            Run(p, a, DecidingOps(b))
  {
    hide Record, Run, BaselineClose, EvaluatedPayload, DonePayload, DecisionPayload;
    var ops := DecidingOps(b);
    RunOfOne(p, a, ops[0]);
    CloseIsARun(p, Run(p, a, [ops[0]]), b.assessment);
    RunConcat(p, a, [ops[0]], [ops[1], ops[2]]);
    assert [ops[0]] + [ops[1], ops[2]] == ops;
  }

  /** A completed baseline is one run of the adapter from its snapshot. */
  lemma BaselineIsARun(p: Platform, plan: BaselinePlan, ledger: Ledger)
    requires BaselineExecuted(p, plan, ledger).Ok?
    ensures var b := BaselineExecuted(p, plan, ledger).value.0;
            Run(p, Fresh(BaselineStart(plan)), BaselineOps(plan, b)) == RawAdapter(b.finalState, b.events)
  {
    hide Run, BaselineExecuted, BaselineStart, BaselineClose, BaselineDecide, Record, Ask, AskOps, DecidingOps, BaselinePayload,
         DecisionPayload;
    BaselineParts(p, plan, ledger);
    var b := BaselineExecuted(p, plan, ledger).value.0;
    var start := Fresh(BaselineStart(plan));
    var open := RecordOp(EPISODE_STARTED, EVALUATOR, BaselinePayload(plan), None);
    RunOfOne(p, start, open);
    var begun := Run(p, start, [open]);
    AskIsARun(p, begun, QueryOf(plan.protocol));
    DecideParts(p, plan, Ask(p, begun, QueryOf(plan.protocol)).value);
    DecisionIsARun(p, Ask(p, begun, QueryOf(plan.protocol)).value.next, b);
    RunConcat(p, start, [open], AskOps(QueryOf(plan.protocol), b.retrieval));
    RunConcat(p, start, [open] + AskOps(QueryOf(plan.protocol), b.retrieval), DecidingOps(b));
  }

  lemma BaselineOpsReplayable(plan: BaselinePlan, b: Baseline)
    ensures forall i | 0 <= i < |BaselineOps(plan, b)| :: Replayable(BaselineOps(plan, b)[i])
    ensures BaselineStart(plan).nextEventSequence == 0
  {
    hide BaselinePayload, DecisionPayload, EvaluatedPayload, DonePayload, NonBlank;
  }

  /** A completed baseline's trace is accepted, and replays from its snapshot to its final state. */
  lemma BaselineVerifiesAndReplays(p: Platform, plan: BaselinePlan, ledger: Ledger)
    requires BaselineExecuted(p, plan, ledger).Ok?
    ensures var b := BaselineExecuted(p, plan, ledger).value.0;
            Accepted(p, b.events) && ReplayAll(p, BaselineStart(plan), b.events) == Ok(b.finalState)
  {
    hide Run, BaselineExecuted, BaselineStart, BaselineOps, ReplayAll, Accepted;
    BaselineIsARun(p, plan, ledger);
    var b := BaselineExecuted(p, plan, ledger).value.0;
    BaselineOpsReplayable(plan, b);
    RunVerifiesAndReplays(p, BaselineStart(plan), BaselineOps(plan, b));
  }

  // ----- its replay from retained documents -----

  datatype BaselineDocuments = BaselineDocuments(initial: Json, final: Json, events: seq<Json>, decision: Fields, assessment: Fields)

  function BaselineDocumentsOf(plan: BaselinePlan, b: Baseline): BaselineDocuments {
    BaselineDocuments(StateToJson(BaselineStart(plan)), StateToJson(b.finalState), EventsToJson(b.events),
                      DecisionToJson(b.decision).fields, DecisionAssessmentToJson(b.assessment).fields)
  }

  datatype BaselineReplay = BaselineReplay(eventCount: nat, initial: StateSnapshot, final: StateSnapshot, action: string, safe: bool)

  /** The pure-read branch of `replay_bundle`. */
  function ReplayBaseline(p: Platform, d: BaselineDocuments): Result<BaselineReplay, ReplayError> {
    hide StateFromJson, EventFromJson, ReadAll, Verify, ReplayAll;
    var initial :- Readable(StateFromJson(d.initial));
    var expected :- Readable(StateFromJson(d.final));
    var events :- Readable(ReadAll(d.events, v => EventFromJson(v)));
    if Verify(p, events).Fail? then Err(RejectedTrace)
    else
      match ReplayAll(p, initial, events)
      case Err(_) => Err(Irreproducible)
      case Ok(state) =>
        if state != expected then Err(WrongFinalState)
        else
          var safe :- Readable(ReadBool(d.assessment, "safe"));
          var action :- Readable(ReadString(d.decision, "action"));
          Ok(BaselineReplay(|events|, initial, state, action, safe))
  }

  /**
   Whatever documents it is given, the replay accepts them exactly when the events are chained and rebuild the
   retained final state from the retained initial one. The action and its safety are only read back.
   */
  lemma BaselineAcceptedIff(p: Platform, d: BaselineDocuments, r: BaselineReplay)
    ensures ReplayBaseline(p, d) == Ok(r) <==>
            && StateFromJson(d.initial) == Ok(r.initial) && StateFromJson(d.final) == Ok(r.final)
            && (var read := ReadAll(d.events, v => EventFromJson(v));
                && read.Ok? && |read.value| == r.eventCount
                && Accepted(p, read.value) && ReplayAll(p, r.initial, read.value) == Ok(r.final))
            && Get(d.assessment, "safe") == Bool(r.safe) && Get(d.decision, "action") == Str(r.action)
  {
    hide StateFromJson, EventFromJson, ReadAll, Verify, ReplayAll;
  }

  lemma BaselineFields(b: Baseline)
    ensures ReadBool(DecisionAssessmentToJson(b.assessment).fields, "safe") == Ok(b.assessment.safe)
    ensures ReadString(DecisionToJson(b.decision).fields, "action") == Ok(b.decision.action)
  {
    hide Strings;
  }

  /** A completed baseline always replays, safe or not, to its own final state, action and safety. */
  lemma CompletedBaselineReplays(p: Platform, plan: BaselinePlan, ledger: Ledger)
    requires BaselineExecuted(p, plan, ledger).Ok?
    ensures var b := BaselineExecuted(p, plan, ledger).value.0;
            ReplayBaseline(p, BaselineDocumentsOf(plan, b)) ==
            Ok(BaselineReplay(|b.events|, BaselineStart(plan), b.finalState, b.decision.action, b.assessment.safe))
  {
    hide BaselineExecuted, BaselineStart, StateToJson, StateFromJson, EventFromJson, EventsToJson, ReadAll, Verify, ReplayAll,
         DecisionToJson, DecisionAssessmentToJson, ReadBool, ReadString;
    BaselineVerifiesAndReplays(p, plan, ledger);
    var b := BaselineExecuted(p, plan, ledger).value.0;
    StateRoundTrip(BaselineStart(plan));
    StateRoundTrip(b.finalState);
    EventsReadBack(b.events);
    BaselineFields(b);
  }
}
