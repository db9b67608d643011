/** What of a reference arm's trace the target may see, and what the evaluator records of it (runner.py). */
module TargetView {
  import opened Basics
  import opened Json
  import opened Text
  import opened Bytes
  import opened Models
  import opened Trace
  import opened Decisions
  import opened ReferenceMemory
  import opened Replay
  import opened AdapterRuns
  import opened Runs
  import opened Recorded
  import opened PolicyRefinement
  import Confidentiality
  import RisiCRun
  import RisiCRecovery
  import RisiCReplay
  import Craf
  import CrafRun
  import CrafReplay
  import Budget

  // ----- one call -----

  /** Of the trace's events the target sees those of these types alone. */
  predicate ShowsOnly(trace: seq<TraceEvent>, types: set<EventType>) {
    forall i | 0 <= i < |trace| :: trace[i].visibility == EVALUATOR || trace[i].eventType in types
  }

  /** The call keeps the policy, and shows no other types than before. */
  predicate Shows(a: AdapterState, b: AdapterState, types: set<EventType>) {
    (ShowsOnly(a.trace, types) ==> ShowsOnly(b.trace, types)) && b.state.policy == a.state.policy
  }

  lemma CommitShows(p: Platform, a: AdapterState, after: StateSnapshot, eventType: EventType, visibility: EventVisibility,
                    payload: Fields, actor: Option<string>, types: set<EventType>)
    requires (visibility == EVALUATOR || eventType in types) && after.policy == a.state.policy
    ensures Shows(a, Commit(p, a, after, eventType, visibility, payload, actor).next, types)
  {
    hide BuildEvent, IsSha256;
    var built := BuildEvent(p, a.state, after, LastHash(a.trace), eventType, visibility, payload, actor);
    if built.Ok? {
      CommittedEvent(p, a.state, after, LastHash(a.trace), eventType, visibility, payload, actor);
    }
  }

  lemma RecordShows(p: Platform, a: AdapterState, eventType: EventType, visibility: EventVisibility, payload: Fields,
                    actor: Option<string>, types: set<EventType>)
    requires visibility == EVALUATOR || eventType in types
    ensures Shows(a, Record(p, a, eventType, visibility, payload, actor).next, types)
  {
    hide Commit, Shows, IsSha256;
    CommitShows(p, a, Tick(a.state), eventType, visibility, payload, actor, types);
  }

  lemma ShowsInTurn(a: AdapterState, b: AdapterState, c: AdapterState, types: set<EventType>)
    requires Shows(a, b, types) && Shows(b, c, types)
    ensures Shows(a, c, types)
  {
    hide ShowsOnly, IsSha256;
  }

  lemma NothingShown(a: AdapterState, types: set<EventType>)
    ensures Shows(a, a, types)
  {
  }

  /** The types a retrieval under the policy shows: its result, its set change, and the update of an adaptive policy. */
  function RetrievalTypes(policy: PolicyConfiguration): set<EventType> {
    {RETRIEVAL_COMPLETED, RETRIEVAL_SET_CHANGE}
    + if policy.name in {"pure-read", "risi-shared-counter"} then {} else {READ_SIDE_UPDATE}
  }

  lemma CounterUpdateShows(p: Platform, a: AdapterState, q: RetrievalQuery, retrieved: seq<string>, types: set<EventType>)
    ensures Shows(a, CounterUpdate(p, a, q, retrieved).next, types)
  {
    hide Commit, StrSetting, CounterOf, Shows, CounterPayload, IsSha256;
    NothingShown(a, types);
    forall counter: int, hidden: bool
      ensures Shows(a, Commit(p, a, CounterState(a.state, counter), READ_SIDE_UPDATE, EVALUATOR, CounterPayload(counter, hidden),
                              Some(q.principalId)).next, types)
    {
      CommitShows(p, a, CounterState(a.state, counter), READ_SIDE_UPDATE, EVALUATOR, CounterPayload(counter, hidden), Some(q.principalId),
                  types);
    }
  }

  lemma EclipseUpdateShows(p: Platform, a: AdapterState, q: RetrievalQuery, retrieved: seq<string>, types: set<EventType>)
    requires READ_SIDE_UPDATE in types
    ensures Shows(a, EclipseUpdate(p, a, q, retrieved).next, types)
  {
    hide Commit, StrSetting, SuppressedIds, Shows, EclipsePayload, IsSha256;
    NothingShown(a, types);
    forall trigger: string, suppressed: string, count: int
      ensures Shows(a, Commit(p, a, EclipseState(a.state, trigger, suppressed, q.tenantId, count), READ_SIDE_UPDATE, BOTH,
                              EclipsePayload(trigger, suppressed, q.tenantId, count), Some(q.principalId)).next, types)
    {
      CommitShows(p, a, EclipseState(a.state, trigger, suppressed, q.tenantId, count), READ_SIDE_UPDATE, BOTH,
                  EclipsePayload(trigger, suppressed, q.tenantId, count), Some(q.principalId), types);
    }
  }

  lemma UpdateShows(p: Platform, a: AdapterState, q: RetrievalQuery, retrieved: seq<string>, types: set<EventType>)
    requires RetrievalTypes(a.state.policy) <= types
    ensures Shows(a, ReadSideUpdate(p, a, q, retrieved).next, types)
  {
    hide CounterUpdate, EclipseUpdate, Shows, IsSha256;
    NothingShown(a, types);
    if a.state.policy.name == "risi-shared-counter" {
      CounterUpdateShows(p, a, q, retrieved, types);
    } else if a.state.policy.name != "pure-read" {
      EclipseUpdateShows(p, a, q, retrieved, types);
    }
  }

  lemma ReportShows(p: Platform, a: AdapterState, q: RetrievalQuery, answer: Answer, types: set<EventType>)
    requires RETRIEVAL_SET_CHANGE in types
    ensures Shows(a, ReportSetChange(p, a, q, answer).next, types)
  {
    hide Record, SetChangePayload, Shows, IsSha256;
    NothingShown(a, types);
    RecordShows(p, a, RETRIEVAL_SET_CHANGE, BOTH, SetChangePayload(a.state, answer), Some(q.principalId), types);
  }

  /** A retrieval under the shared counter shows the target its result and its set change, never the counter's update. */
  lemma RetrievalShows(p: Platform, a: AdapterState, q: RetrievalQuery, types: set<EventType>)
    requires RetrievalTypes(a.state.policy) <= types
    ensures Shows(a, Retrieval(p, a, q).next, types)
  {
    hide AnswerFor, Record, ReadSideUpdate, ReportSetChange, CompletedPayload, ShowsOnly, RetrievalTypes, IsSha256;
    assert RETRIEVAL_COMPLETED in types && RETRIEVAL_SET_CHANGE in types by { PlainTypes(a.state.policy); }
    NothingShown(a, types);
    if AnswerFor(p, a.state, q).Ok? {
      var answer := AnswerFor(p, a.state, q).value;
      var b := Record(p, a, RETRIEVAL_COMPLETED, BOTH, CompletedPayload(q, answer.result), Some(q.principalId)).next;
      RecordShows(p, a, RETRIEVAL_COMPLETED, BOTH, CompletedPayload(q, answer.result), Some(q.principalId), types);
      ReportShows(p, b, q, answer, types);
      var c := ReportSetChange(p, b, q, answer).next;
      UpdateShows(p, c, q, HitIds(answer.result), types);
    }
  }

  lemma PlainTypes(policy: PolicyConfiguration)
    ensures RETRIEVAL_COMPLETED in RetrievalTypes(policy) && RETRIEVAL_SET_CHANGE in RetrievalTypes(policy)
  {
  }

  lemma AskShows(p: Platform, a: AdapterState, q: RetrievalQuery, types: set<EventType>)
    requires RetrievalTypes(a.state.policy) <= types && CONTEXT_ASSEMBLED in types && Ask(p, a, q).Ok?
    ensures Shows(a, Ask(p, a, q).value.next, types)
  {
    hide Retrieval, Record, ContextLines, ById, ContextPayload, RetrievalTypes, ShowsOnly, IsSha256;
    RetrievalShows(p, a, q, types);
    var b := Retrieval(p, a, q).next;
    var result := Retrieval(p, a, q).outcome.value;
    AssembleShows(p, b, result, types);
  }

  lemma AssembleShows(p: Platform, a: AdapterState, result: RetrievalResult, types: set<EventType>)
    requires CONTEXT_ASSEMBLED in types
    ensures Shows(a, Assemble(p, a, result).next, types)
  {
    hide Record, ContextLines, ById, ContextPayload, Shows, IsSha256;
    NothingShown(a, types);
    if HitsKnown(a.state, result) {
      RecordShows(p, a, CONTEXT_ASSEMBLED, BOTH,
                  ContextPayload(result, Join("\n", ContextLines(ById(a.state.sourceMemories), result))), None, types);
    }
  }

  lemma BeginShows(p: Platform, initial: StateSnapshot, start: Fields, policy: PolicyConfiguration)
    requires Begin(p, initial, start, policy).Ok?
    ensures ShowsOnly(Begin(p, initial, start, policy).value.trace, {})
    ensures Begin(p, initial, start, policy).value.state.policy == policy
  {
    hide Record, PolicyAccepted, ById, BuildEvent, IsSha256, PolicyPayload;
    RecordShows(p, Fresh(initial), EPISODE_STARTED, EVALUATOR, start, None, {});
    var a := Record(p, Fresh(initial), EPISODE_STARTED, EVALUATOR, start, None).next;
    var after := Tick(a.state).(policy := policy);
    var built := BuildEvent(p, a.state, after, LastHash(a.trace), POLICY_CONFIGURED, EVALUATOR, PolicyPayload(policy), None);
    if built.Ok? {
      CommittedEvent(p, a.state, after, LastHash(a.trace), POLICY_CONFIGURED, EVALUATOR, PolicyPayload(policy), None);
    }
  }

  lemma ShowsMore(trace: seq<TraceEvent>, types: set<EventType>, more: set<EventType>)
    requires ShowsOnly(trace, types) && types <= more
    ensures ShowsOnly(trace, more)
  {
  }

  // ----- a RISI-C arm -----

  const SHOWN: set<EventType> := {RETRIEVAL_COMPLETED, RETRIEVAL_SET_CHANGE, CONTEXT_ASSEMBLED, DECISION}

  /** The types neither a beginning nor an ask records, and a decision is not. */
  predicate Evaluative(t: EventType) {
    t in {ORACLE_EVALUATED, EPISODE_COMPLETED, CRITICAL_MEMORY_SUPPRESSION}
  }

  lemma AskEvaluatesNothing(p: Platform, a: AdapterState, q: RetrievalQuery, t: EventType)
    requires Ask(p, a, q).Ok? && Evaluative(t)
    ensures Adds(a, Ask(p, a, q).value.next, t, [])
  {
    hide Ask, Adds, ReferenceMemory.CompletedPayload, ContextPayload, IsSha256;
    AskRecordsOf(p, a, q, t);
    var none: seq<Fields> := [];
    assert none + none == none;
  }

  lemma CloseShows(p: Platform, a: AdapterState, pair: Confidentiality.Pair, arm: Confidentiality.Arm, decision: ProposedDecision,
                   oracle: DecisionOracle)
    requires RisiCRun.Close(p, a, pair, arm, decision, oracle).Ok?
    ensures Shows(a, RisiCRun.Close(p, a, pair, arm, decision, oracle).value.next, SHOWN)
  {
    hide RisiCRun.Close, Record, Shows, DecisionPayload, RisiCRun.AssessmentPayload, RisiCRun.CompletedPayload, EvaluateDecision, IsSha256;
    RisiCReplay.CloseParts(p, a, pair, arm, decision, oracle);
    var closed := RisiCRun.Close(p, a, pair, arm, decision, oracle).value;
    var b := Record(p, a, DECISION, BOTH, DecisionPayload(decision), None).next;
    var c := Record(p, b, ORACLE_EVALUATED, EVALUATOR, RisiCRun.AssessmentPayload(closed.value), None).next;
    RecordShows(p, a, DECISION, BOTH, DecisionPayload(decision), None, SHOWN);
    RecordShows(p, b, ORACLE_EVALUATED, EVALUATOR, RisiCRun.AssessmentPayload(closed.value), None, SHOWN);
    RecordShows(p, c, EPISODE_COMPLETED, EVALUATOR, RisiCRun.CompletedPayload(pair, arm, closed.value), None, SHOWN);
    ShowsInTurn(a, b, c, SHOWN);
    ShowsInTurn(a, c, closed.next, SHOWN);
  }

  /** What closing an arm adds of the evaluator's events. */
  function ClosingOf(pair: Confidentiality.Pair, arm: Confidentiality.Arm, assessment: DecisionAssessment, t: EventType): seq<Fields> {
    if t == ORACLE_EVALUATED then [map["decision_assessment" := DecisionAssessmentToJson(assessment)]]
    else if t == EPISODE_COMPLETED then
      [map["pair" := Str(Confidentiality.PairName(pair)), "arm" := Str(Confidentiality.ArmName(arm)), "safe" := Bool(assessment.safe)]]
    else []
  }

  lemma CloseEvaluates(p: Platform, a: AdapterState, pair: Confidentiality.Pair, arm: Confidentiality.Arm, decision: ProposedDecision,
                       oracle: DecisionOracle, t: EventType)
    requires RisiCRun.Close(p, a, pair, arm, decision, oracle).Ok? && Evaluative(t)
    ensures var closed := RisiCRun.Close(p, a, pair, arm, decision, oracle).value;
            Adds(a, closed.next, t, ClosingOf(pair, arm, closed.value, t))
  {
    hide RisiCRun.Close, Record, Adds, Only, DecisionPayload, RisiCRun.AssessmentPayload, RisiCRun.CompletedPayload, EvaluateDecision,
         IsSha256, ClosingOf;
    RisiCReplay.CloseParts(p, a, pair, arm, decision, oracle);
    var closed := RisiCRun.Close(p, a, pair, arm, decision, oracle).value;
    var x, y := RisiCRun.AssessmentPayload(closed.value), RisiCRun.CompletedPayload(pair, arm, closed.value);
    var b := Record(p, a, DECISION, BOTH, DecisionPayload(decision), None).next;
    var c := Record(p, b, ORACLE_EVALUATED, EVALUATOR, x, None).next;
    RecordOther(p, a, DECISION, BOTH, DecisionPayload(decision), None, t);
    RecordEvaluates(p, b, ORACLE_EVALUATED, x, t);
    RecordEvaluates(p, c, EPISODE_COMPLETED, y, t);
    AddsInTurn(a, b, c, t, [], Only(t == ORACLE_EVALUATED, x));
    AddsInTurn(a, c, closed.next, t, [] + Only(t == ORACLE_EVALUATED, x), Only(t == EPISODE_COMPLETED, y));
    ClosingIs(pair, arm, closed.value, t);
  }

  lemma ClosingIs(pair: Confidentiality.Pair, arm: Confidentiality.Arm, assessment: DecisionAssessment, t: EventType)
    ensures [] + Only(t == ORACLE_EVALUATED, RisiCRun.AssessmentPayload(assessment))
            + Only(t == EPISODE_COMPLETED, RisiCRun.CompletedPayload(pair, arm, assessment))
            == ClosingOf(pair, arm, assessment, t)
  {
    hide DecisionAssessmentToJson;
  }

  /** The evaluator's own records are never refused. */
  lemma RecordEvaluates(p: Platform, a: AdapterState, eventType: EventType, payload: Fields, t: EventType)
    ensures Adds(a, Record(p, a, eventType, EVALUATOR, payload, None).next, t, Only(t == eventType, payload))
  {
    hide Record, Adds, Only, IsSha256;
    EvaluatorRecords(p, a, eventType, payload);
    RecordRecords(p, a, eventType, EVALUATOR, payload, None, t);
  }

  lemma EvaluatorRecords(p: Platform, a: AdapterState, eventType: EventType, payload: Fields)
    ensures Record(p, a, eventType, EVALUATOR, payload, None).outcome.Ok?
  {
    hide Record, RecordRefused, IsSha256;
    RecordRefusedIff(p, a, eventType, EVALUATOR, payload, None);
    NotRefused(p, payload);
  }

  lemma NotRefused(p: Platform, payload: Fields)
    ensures !RecordRefused(p, EVALUATOR, payload, None)
  {
    hide ObjectPathHolds;
  }

  /** Of an arm's trace the target sees results, set changes, contexts and the decision; the evaluator's records are these. */
  predicate SeparatesViews(m: RisiCRun.ArmMaterial) {
    && ShowsOnly(m.events, SHOWN)
    && PayloadsOf(m.events, ORACLE_EVALUATED) == ClosingOf(m.pair, m.arm, m.assessment, ORACLE_EVALUATED)
    && PayloadsOf(m.events, EPISODE_COMPLETED) == ClosingOf(m.pair, m.arm, m.assessment, EPISODE_COMPLETED)
  }

  lemma RisiCPolicyTypes(plan: RisiCRun.Plan, pair: Confidentiality.Pair)
    ensures RetrievalTypes(RisiCRun.PolicyOf(plan, pair)) <= SHOWN
  {
    hide NonBlank;
  }

  lemma InteractShows(p: Platform, plan: RisiCRun.Plan, pair: Confidentiality.Pair, arm: Confidentiality.Arm, ledger: Budget.Ledger)
    requires RisiCRun.Interact(p, plan, pair, arm, ledger).Ok?
    ensures var x := RisiCRun.Interact(p, plan, pair, arm, ledger).value;
            ShowsOnly(x.next.trace, SHOWN) && x.next.state.policy == RisiCRun.PolicyOf(plan, pair)
  {
    hide RisiCRun.Interact, Begin, Ask, RisiCRun.Start, RisiCRun.StartPayload, RisiCRun.PolicyOf, RisiCRun.VictimQuery, ShowsOnly,
         RetrievalTypes, IsSha256;
    RisiCReplay.InteractParts(p, plan, pair, arm, ledger);
    var start, policy := RisiCRun.StartPayload(plan, pair, arm), RisiCRun.PolicyOf(plan, pair);
    var a := Begin(p, RisiCRun.Start(plan), start, policy).value;
    BeginShows(p, RisiCRun.Start(plan), start, policy);
    ShowsMore(a.trace, {}, SHOWN);
    RisiCPolicyTypes(plan, pair);
    AskShows(p, a, RisiCRun.VictimQuery(plan, arm), SHOWN);
    AskShows(p, Ask(p, a, RisiCRun.VictimQuery(plan, arm)).value.next, plan.observerQuery, SHOWN);
  }

  lemma InteractEvaluatesNothing(p: Platform, plan: RisiCRun.Plan, pair: Confidentiality.Pair, arm: Confidentiality.Arm,
                                 ledger: Budget.Ledger, t: EventType)
    requires RisiCRun.Interact(p, plan, pair, arm, ledger).Ok? && Evaluative(t)
    ensures PayloadsOf(RisiCRun.Interact(p, plan, pair, arm, ledger).value.next.trace, t) == []
  {
    hide RisiCRun.Interact, Begin, Ask, RisiCRun.Start, RisiCRun.StartPayload, RisiCRun.PolicyOf, RisiCRun.VictimQuery, PayloadsOf,
         Adds, IsSha256;
    RisiCReplay.InteractParts(p, plan, pair, arm, ledger);
    var start, policy := RisiCRun.StartPayload(plan, pair, arm), RisiCRun.PolicyOf(plan, pair);
    var a := Begin(p, RisiCRun.Start(plan), start, policy).value;
    var b := Ask(p, a, RisiCRun.VictimQuery(plan, arm)).value.next;
    BeginRecords(p, RisiCRun.Start(plan), start, policy, t);
    AskEvaluatesNothing(p, a, RisiCRun.VictimQuery(plan, arm), t);
    AskEvaluatesNothing(p, b, plan.observerQuery, t);
    TwoAsks(a, b, Ask(p, b, plan.observerQuery).value.next, t, [], []);
    var none: seq<Fields> := [];
    assert none + none == none;
  }

  lemma FinishSeparates(p: Platform, plan: RisiCRun.Plan, pair: Confidentiality.Pair, arm: Confidentiality.Arm, ledger: Budget.Ledger)
    requires RisiCRun.Interact(p, plan, pair, arm, ledger).Ok?
    requires RisiCRun.Finish(p, plan, pair, arm, RisiCRun.Interact(p, plan, pair, arm, ledger).value).Ok?
    ensures SeparatesViews(RisiCRun.Finish(p, plan, pair, arm, RisiCRun.Interact(p, plan, pair, arm, ledger).value).value.0)
  {
    hide RisiCRun.Interact, RisiCRun.Finish, Ask, RisiCRun.Close, RisiCRun.PolicyOf, ShowsOnly, RetrievalTypes, PayloadsOf, Adds,
         ProposeRegion, ClosingOf, IsSha256;
    var x := RisiCRun.Interact(p, plan, pair, arm, ledger).value;
    var m := RisiCRun.Finish(p, plan, pair, arm, x).value.0;
    RisiCReplay.FinishParts(p, plan, pair, arm, x);
    var r := Ask(p, x.next, plan.region.query).value;
    InteractShows(p, plan, pair, arm, ledger);
    RisiCPolicyTypes(plan, pair);
    AskShows(p, x.next, plan.region.query, SHOWN);
    CloseShows(p, r.next, pair, arm, m.decision, plan.scenario.decisionOracle);
    FinishEvaluates(p, plan, pair, arm, ledger, ORACLE_EVALUATED);
    FinishEvaluates(p, plan, pair, arm, ledger, EPISODE_COMPLETED);
  }

  lemma FinishEvaluates(p: Platform, plan: RisiCRun.Plan, pair: Confidentiality.Pair, arm: Confidentiality.Arm, ledger: Budget.Ledger,
                        t: EventType)
    requires RisiCRun.Interact(p, plan, pair, arm, ledger).Ok? && Evaluative(t)
    requires RisiCRun.Finish(p, plan, pair, arm, RisiCRun.Interact(p, plan, pair, arm, ledger).value).Ok?
    ensures var m := RisiCRun.Finish(p, plan, pair, arm, RisiCRun.Interact(p, plan, pair, arm, ledger).value).value.0;
            m.pair == pair && m.arm == arm && PayloadsOf(m.events, t) == ClosingOf(pair, arm, m.assessment, t)
  {
    hide RisiCRun.Interact, RisiCRun.Finish, Ask, RisiCRun.Close, PayloadsOf, Adds, ProposeRegion, ClosingOf, IsSha256;
    var x := RisiCRun.Interact(p, plan, pair, arm, ledger).value;
    var m := RisiCRun.Finish(p, plan, pair, arm, x).value.0;
    RisiCReplay.FinishParts(p, plan, pair, arm, x);
    var r := Ask(p, x.next, plan.region.query).value;
    var closed := RisiCRun.Close(p, r.next, pair, arm, m.decision, plan.scenario.decisionOracle).value;
    InteractEvaluatesNothing(p, plan, pair, arm, ledger, t);
    AskEvaluatesNothing(p, x.next, plan.region.query, t);
    CloseEvaluates(p, r.next, pair, arm, m.decision, plan.scenario.decisionOracle, t);
    Grows(x.next, r.next, closed.next, t, [], ClosingOf(pair, arm, closed.value, t));
    assert [] + [] + ClosingOf(pair, arm, closed.value, t) == ClosingOf(pair, arm, closed.value, t);
  }

  /**
   Of a completed RISI-C arm's trace the target is shown retrieval results, set changes, contexts and the
   decision, and nothing else: neither the counter's updates nor the pair, the arm or the evaluation. The
   evaluator's two closing events hold the assessment, and the pair, the arm and whether it was safe.
   */
  lemma RisiCArmSeparatesViews(p: Platform, plan: RisiCRun.Plan, pair: Confidentiality.Pair, arm: Confidentiality.Arm,
                               ledger: Budget.Ledger)
    requires RisiCRun.ArmRun(p, plan, pair, arm, ledger).Ok?
    ensures SeparatesViews(RisiCRun.ArmRun(p, plan, pair, arm, ledger).value.0)
  {
    hide RisiCRun.Interact, RisiCRun.Finish, RisiCRun.Conclude, SeparatesViews;
    FinishSeparates(p, plan, pair, arm, ledger);
  }

  // ----- a CRAF arm -----

  const CRAF_SHOWN: set<EventType> := SHOWN + {READ_SIDE_UPDATE}

  /** What closing an arm adds of the evaluator's events: a suppression only for a core CRAF. */
  function CrafClosingOf(d: DecisionAssessment, a: Craf.CrafAssessment, t: EventType): seq<Fields> {
    var arm := Str(Craf.CrafArmName(a.arm));
    if t == CRITICAL_MEMORY_SUPPRESSION then
      if a.classification == Craf.CORE_CRAF then [map["assessment" := Craf.CrafAssessmentToJson(a), "arm" := arm]] else []
    else if t == ORACLE_EVALUATED then
      [map["decision_assessment" := DecisionAssessmentToJson(d), "craf_assessment" := Craf.CrafAssessmentToJson(a)]]
    else if t == EPISODE_COMPLETED then
      [map["arm" := arm, "classification" := Str(Craf.ClassificationName(a.classification)), "safe" := Bool(d.safe)]]
    else []
  }

  lemma CrafCloseShows(p: Platform, a: AdapterState, d: DecisionAssessment, craf: Craf.CrafAssessment)
    requires CrafRun.CrafClose(p, a, d, craf).Ok?
    ensures Shows(a, CrafRun.CrafClose(p, a, d, craf).value, CRAF_SHOWN)
  {
    hide Record, CrafRun.CrafClose, Shows, CrafRun.SuppressionPayload, CrafRun.EvaluatedPayload, CrafRun.CrafCompletedPayload, IsSha256;
    CrafReplay.ClosingParts(p, a, d, craf);
    var noted := Record(p, a, CRITICAL_MEMORY_SUPPRESSION, EVALUATOR, CrafRun.SuppressionPayload(craf), None).next;
    var before := if craf.classification == Craf.CORE_CRAF then noted else a;
    var evaluated := Record(p, before, ORACLE_EVALUATED, EVALUATOR, CrafRun.EvaluatedPayload(d, craf), None).next;
    NothingShown(a, CRAF_SHOWN);
    RecordShows(p, a, CRITICAL_MEMORY_SUPPRESSION, EVALUATOR, CrafRun.SuppressionPayload(craf), None, CRAF_SHOWN);
    RecordShows(p, before, ORACLE_EVALUATED, EVALUATOR, CrafRun.EvaluatedPayload(d, craf), None, CRAF_SHOWN);
    RecordShows(p, evaluated, EPISODE_COMPLETED, EVALUATOR, CrafRun.CrafCompletedPayload(d, craf), None, CRAF_SHOWN);
    ShowsInTurn(a, before, evaluated, CRAF_SHOWN);
    ShowsInTurn(a, evaluated, CrafRun.CrafClose(p, a, d, craf).value, CRAF_SHOWN);
  }

  lemma CrafCloseEvaluates(p: Platform, a: AdapterState, d: DecisionAssessment, craf: Craf.CrafAssessment, t: EventType)
    requires CrafRun.CrafClose(p, a, d, craf).Ok? && Evaluative(t)
    ensures Adds(a, CrafRun.CrafClose(p, a, d, craf).value, t, CrafClosingOf(d, craf, t))
  {
    hide Record, CrafRun.CrafClose, Adds, Only, CrafRun.SuppressionPayload, CrafRun.EvaluatedPayload, CrafRun.CrafCompletedPayload,
         IsSha256, CrafClosingOf;
    CrafReplay.ClosingParts(p, a, d, craf);
    var x, y, z := CrafRun.SuppressionPayload(craf), CrafRun.EvaluatedPayload(d, craf), CrafRun.CrafCompletedPayload(d, craf);
    var core := craf.classification == Craf.CORE_CRAF;
    var noted := Record(p, a, CRITICAL_MEMORY_SUPPRESSION, EVALUATOR, x, None).next;
    var before := if core then noted else a;
    var evaluated := Record(p, before, ORACLE_EVALUATED, EVALUATOR, y, None).next;
    var closed := CrafRun.CrafClose(p, a, d, craf).value;
    var first := if core then Only(t == CRITICAL_MEMORY_SUPPRESSION, x) else [];
    AddsNothing(a, t);
    RecordEvaluates(p, a, CRITICAL_MEMORY_SUPPRESSION, x, t);
    RecordEvaluates(p, before, ORACLE_EVALUATED, y, t);
    RecordEvaluates(p, evaluated, EPISODE_COMPLETED, z, t);
    assert Adds(a, before, t, first);
    AddsInTurn(a, before, evaluated, t, first, Only(t == ORACLE_EVALUATED, y));
    AddsInTurn(a, evaluated, closed, t, first + Only(t == ORACLE_EVALUATED, y), Only(t == EPISODE_COMPLETED, z));
    CrafClosingIs(d, craf, t);
  }

  lemma CrafClosingIs(d: DecisionAssessment, a: Craf.CrafAssessment, t: EventType)
    requires Evaluative(t)
    ensures (if a.classification == Craf.CORE_CRAF then Only(t == CRITICAL_MEMORY_SUPPRESSION, CrafRun.SuppressionPayload(a)) else [])
            + Only(t == ORACLE_EVALUATED, CrafRun.EvaluatedPayload(d, a)) + Only(t == EPISODE_COMPLETED, CrafRun.CrafCompletedPayload(d, a))
            == CrafClosingOf(d, a, t)
  {
    hide DecisionAssessmentToJson, Craf.CrafAssessmentToJson, Craf.CrafArmName, Craf.ClassificationName;
  }

  /** Of an arm's trace the target sees results, set changes, eclipses, contexts and the decision; the evaluator's records are these. */
  predicate SeparatesCrafViews(m: CrafRun.CrafMaterial) {
    && ShowsOnly(m.events, CRAF_SHOWN)
    && forall t <- [CRITICAL_MEMORY_SUPPRESSION, ORACLE_EVALUATED, EPISODE_COMPLETED] ::
         PayloadsOf(m.events, t) == CrafClosingOf(m.decisionAssessment, m.assessment, t)
  }

  lemma RetrievalIsShown(policy: PolicyConfiguration)
    ensures RetrievalTypes(policy) <= CRAF_SHOWN
  {
  }

  lemma CrafInteractShows(p: Platform, plan: CrafRun.CrafPlan, arm: Craf.CrafArm, ledger: Budget.Ledger, t: EventType)
    requires CrafRun.CrafInteract(p, plan, arm, ledger).Ok? && Evaluative(t)
    ensures var x := CrafRun.CrafInteract(p, plan, arm, ledger).value;
            ShowsOnly(x.next.trace, CRAF_SHOWN) && PayloadsOf(x.next.trace, t) == []
  {
    hide CrafRun.CrafInteract, Begin, Ask, CrafRun.CrafStart, CrafRun.CrafStartPayload, CrafRun.CrafPolicy, ShowsOnly, RetrievalTypes,
         PayloadsOf, Adds, IsSha256;
    CrafReplay.InteractionParts(p, plan, arm, ledger);
    var start, policy := CrafRun.CrafStartPayload(plan, arm), CrafRun.CrafPolicy(plan, arm);
    var a := Begin(p, CrafRun.CrafStart(plan), start, policy).value;
    BeginShows(p, CrafRun.CrafStart(plan), start, policy);
    ShowsMore(a.trace, {}, CRAF_SHOWN);
    RetrievalIsShown(policy);
    AskShows(p, a, plan.interactionQuery, CRAF_SHOWN);
    BeginRecords(p, CrafRun.CrafStart(plan), start, policy, t);
    AskEvaluatesNothing(p, a, plan.interactionQuery, t);
    FromNothing(a, Ask(p, a, plan.interactionQuery).value.next, t, []);
  }

  lemma CrafFinishSeparates(p: Platform, plan: CrafRun.CrafPlan, arm: Craf.CrafArm, critical: MemoryRecord, oracle: MemoryOracle,
                            ledger: Budget.Ledger, t: EventType)
    requires CrafRun.CrafInteract(p, plan, arm, ledger).Ok? && Evaluative(t)
    requires CrafRun.CrafFinish(p, plan, arm, critical, oracle, CrafRun.CrafInteract(p, plan, arm, ledger).value).Ok?
    ensures var m := CrafRun.CrafFinish(p, plan, arm, critical, oracle, CrafRun.CrafInteract(p, plan, arm, ledger).value).value.0;
            && ShowsOnly(m.events, CRAF_SHOWN)
            && PayloadsOf(m.events, t) == CrafClosingOf(m.decisionAssessment, m.assessment, t)
  {
    hide CrafRun.CrafInteract, CrafRun.CrafFinish, Ask, CrafRun.CrafClose, Record, Craf.AssessTrial, CrafRun.EvidenceOf, EvaluateDecision,
         ShowsOnly, RetrievalTypes, PayloadsOf, Adds, DecisionPayload, CrafClosingOf, IsSha256;
    var x := CrafRun.CrafInteract(p, plan, arm, ledger).value;
    var m := CrafRun.CrafFinish(p, plan, arm, critical, oracle, x).value.0;
    CrafReplay.FinishedParts(p, plan, arm, critical, oracle, x);
    var r := Ask(p, x.next, plan.protocol.query).value;
    var proposed := Record(p, r.next, DECISION, BOTH, DecisionPayload(m.decision), None).next;
    var closed := CrafRun.CrafClose(p, proposed, m.decisionAssessment, m.assessment).value;
    CrafInteractShows(p, plan, arm, ledger, t);
    RetrievalIsShown(x.next.state.policy);
    AskShows(p, x.next, plan.protocol.query, CRAF_SHOWN);
    RecordShows(p, r.next, DECISION, BOTH, DecisionPayload(m.decision), None, CRAF_SHOWN);
    CrafCloseShows(p, proposed, m.decisionAssessment, m.assessment);
    AskEvaluatesNothing(p, x.next, plan.protocol.query, t);
    RecordOther(p, r.next, DECISION, BOTH, DecisionPayload(m.decision), None, t);
    CrafCloseEvaluates(p, proposed, m.decisionAssessment, m.assessment, t);
    var closing := CrafClosingOf(m.decisionAssessment, m.assessment, t);
    AddsInTurn(r.next, proposed, closed, t, [], closing);
    assert [] + closing == closing;
    Grows(x.next, r.next, closed, t, [], closing);
    assert [] + [] + closing == closing;
  }

  /**
   Of a completed CRAF arm's trace the target is shown results, set changes, eclipses, contexts and the
   decision, and nothing else. The evaluator's events hold both assessments, and a suppression is recorded
   exactly when the arm is classified as a core CRAF.
   */
  lemma CrafArmSeparatesViews(p: Platform, plan: CrafRun.CrafPlan, arm: Craf.CrafArm, critical: MemoryRecord, oracle: MemoryOracle,
                              ledger: Budget.Ledger)
    requires CrafRun.CrafArmRun(p, plan, arm, critical, oracle, ledger).Ok?
    ensures SeparatesCrafViews(CrafRun.CrafArmRun(p, plan, arm, critical, oracle, ledger).value.0)
  {
    hide CrafRun.CrafInteract, CrafRun.CrafFinish, CrafRun.CrafConclude, ShowsOnly, PayloadsOf, CrafClosingOf;
    CrafFinishSeparates(p, plan, arm, critical, oracle, ledger, CRITICAL_MEMORY_SUPPRESSION);
    CrafFinishSeparates(p, plan, arm, critical, oracle, ledger, ORACLE_EVALUATED);
    CrafFinishSeparates(p, plan, arm, critical, oracle, ledger, EPISODE_COMPLETED);
  }
}
