/** Replaying a RISI-C bundle from its retained documents alone (replay.py), against the execution that wrote them. */
module RisiCReplay {
  import opened Basics
  import opened Json
  import opened Text
  import opened Bytes
  import opened Models
  import opened Decoding
  import opened Printer
  import opened Trace
  import opened Decisions
  import opened ReferenceMemory
  import opened Replay
  import opened AdapterRuns
  import opened Confidentiality
  import opened Runs
  import opened RisiCRun
  import opened RisiCRecovery
  import opened Recorded
  import opened Retained

  // ----- the documents of one arm -----

  /** What the bundle retains of an arm. */
  datatype ArmDocuments = ArmDocuments(events: seq<Json>, finalState: Json, victim: Fields, view: Json, retrieval: Fields,
                                       context: Fields, decision: Fields, decisionAssessment: Fields)

  /** What the writer retains of a completed arm. */
  function DocumentsOf(plan: Plan, m: ArmMaterial): ArmDocuments {
    ArmDocuments(
      EventsToJson(m.events), StateToJson(m.finalState),
      map["query" := QueryToJson(VictimQuery(plan, m.arm)), "result" := ResultToJson(m.victim), "context" := Str(m.victimContext)],
      ViewToJson(m.view),
      map["query" := QueryToJson(plan.region.query), "result" := ResultToJson(m.decided)],
      map["context" := Str(m.decidedContext)],
      DecisionToJson(m.decision).fields,
      DecisionAssessmentToJson(m.assessment).fields)
  }

  // ----- replaying one arm -----

  /** `{memory.memory_id: memory.content ...}` gives the retained contents. */
  predicate ContentsMatch(memories: seq<MemoryRecord>, ids: seq<string>, contents: seq<string>) {
    && |ids| == |contents|
    && forall i | 0 <= i < |ids| :: ids[i] in ById(memories) && ById(memories)[ids[i]].content == contents[i]
  }

  /** The observer's half of `_verify_risi_c_arm_outputs`. */
  predicate ViewMatches(memories: seq<MemoryRecord>, event: Fields, view: ObserverView) {
    && |view.exchanges| == 1
    && PyEq(Get(event, "query"), QueryToJson(view.exchanges[0].query))
    && RecordedIds(Get(event, "result")) == Some(view.exchanges[0].responseIds)
    && ContentsMatch(memories, view.exchanges[0].responseIds, view.exchanges[0].responseContents)
  }

  /** `_verify_risi_c_arm_outputs` does not raise. */
  predicate OutputsMatch(initial: StateSnapshot, events: seq<TraceEvent>, d: ArmDocuments, view: ObserverView) {
    var retrievals, contexts, decisions :=
      PayloadsOf(events, RETRIEVAL_COMPLETED), PayloadsOf(events, CONTEXT_ASSEMBLED), PayloadsOf(events, DECISION);
    && |retrievals| == 3 && |contexts| == 3 && |decisions| == 1
    && SameAt(retrievals[0], "query", d.victim) && SameAt(retrievals[0], "result", d.victim)
    && SameAt(contexts[0], "context", d.victim)
    && SameAt(retrievals[2], "query", d.retrieval) && SameAt(retrievals[2], "result", d.retrieval)
    && SameAt(contexts[2], "context", d.context)
    && PyEq(Get(decisions[0], "decision"), Obj(d.decision))
    && ViewMatches(initial.sourceMemories, retrievals[1], view)
  }

  datatype ReplayedArm = ReplayedArm(pair: Pair, arm: Arm, eventCount: nat, finalState: StateSnapshot, view: ObserverView,
                                     action: string)

  /** `_replay_risi_c_arm` */
  function ReplayArm(p: Platform, initial: StateSnapshot, pair: Pair, arm: Arm, d: ArmDocuments, safeActions: seq<string>)
    : Result<ReplayedArm, ReplayError>
  {
    hide Reconstructed, ViewFromJson, OutputsMatch;
    var rebuilt :- Reconstructed(p, initial, d.events, d.finalState);
    var view :- Readable(ViewFromJson(d.view));
    if !OutputsMatch(initial, rebuilt.0, d, view) then Err(WrongOutputs)
    else
      var action :- Readable(ReadString(d.decision, "action"));
      if Get(d.decisionAssessment, "safe") != Bool(action in safeActions) then Err(WrongAssessment)
      else if action !in safeActions then Err(UnsafeDecision)
      else Ok(ReplayedArm(pair, arm, |rebuilt.0|, rebuilt.1, view, action))
  }

  // ----- what a completed arm recorded -----

  lemma ViewShowsContents(memories: seq<MemoryRecord>, q: RetrievalQuery, ids: seq<string>)
    requires Distinct(MemoryIds(memories)) && ViewOf(memories, q, ids).Ok?
    ensures var view := ViewOf(memories, q, ids).value;
            && |view.exchanges| == 1 && view.exchanges[0].query == q && view.exchanges[0].responseIds == ids
            && ContentsMatch(memories, ids, view.exchanges[0].responseContents)
  {
    hide FindMemory, ById, Distinct;
    forall i | 0 <= i < |ids| ensures ids[i] in ById(memories) && ById(memories)[ids[i]].content == Contents(memories, ids).value[i] {
      FoundIsById(memories, ids[i]);
    }
  }

  /** What an interaction is made of. */
  lemma InteractParts(p: Platform, plan: Plan, pair: Pair, arm: Arm, ledger: Budget.Ledger)
    requires Interact(p, plan, pair, arm, ledger).Ok?
    ensures var begun := Begin(p, Start(plan), StartPayload(plan, pair, arm), PolicyOf(plan, pair));
            var x := Interact(p, plan, pair, arm, ledger).value;
            && begun.Ok? && Ask(p, begun.value, VictimQuery(plan, arm)).Ok?
            && var first := Ask(p, begun.value, VictimQuery(plan, arm)).value;
               && Ask(p, first.next, plan.observerQuery).Ok?
               && var second := Ask(p, first.next, plan.observerQuery).value;
                  && x.next == second.next && x.victim == first.result && x.victimContext == first.context
                  && x.observer == second.result
  {
    hide Begin, Ask, Charge, Start, ViewOf, StartPayload, PolicyOf, VictimQuery, HitIds;
  }

  /** Two asks after a beginning: their retrievals and contexts, in order, and no decision. */
  predicate HoldsTwo(trace: seq<TraceEvent>, first: Fields, second: Fields, context: Fields) {
    && PayloadsOf(trace, RETRIEVAL_COMPLETED) == [first, second]
    && |PayloadsOf(trace, CONTEXT_ASSEMBLED)| == 2 && PayloadsOf(trace, CONTEXT_ASSEMBLED)[0] == context
    && PayloadsOf(trace, DECISION) == []
  }

  lemma TwoAsksRecord(p: Platform, a: AdapterState, first: RetrievalQuery, second: RetrievalQuery)
    requires Unrecorded(a.trace) && Ask(p, a, first).Ok? && Ask(p, Ask(p, a, first).value.next, second).Ok?
    ensures var b := Ask(p, a, first).value;
            var c := Ask(p, b.next, second).value;
            HoldsTwo(c.next.trace, ReferenceMemory.CompletedPayload(first, b.result), ReferenceMemory.CompletedPayload(second, c.result),
                     ContextPayload(b.result, b.context))
  {
    hide Ask, ReferenceMemory.CompletedPayload, ContextPayload, PayloadsOf, IsSha256, Adds;
    var b := Ask(p, a, first).value;
    var c := Ask(p, b.next, second).value;
    AskRecords(p, a, first);
    AskRecords(p, b.next, second);
    TwoAsks(a, b.next, c.next, RETRIEVAL_COMPLETED, [ReferenceMemory.CompletedPayload(first, b.result)],
            [ReferenceMemory.CompletedPayload(second, c.result)]);
    TwoAsks(a, b.next, c.next, CONTEXT_ASSEMBLED, [ContextPayload(b.result, b.context)], [ContextPayload(c.result, c.context)]);
    TwoAsks(a, b.next, c.next, DECISION, [], []);
  }

  /** What an arm's trace has recorded by the time its observer has asked. */
  lemma InteractRecords(p: Platform, plan: Plan, pair: Pair, arm: Arm, ledger: Budget.Ledger)
    requires Interact(p, plan, pair, arm, ledger).Ok?
    ensures var x := Interact(p, plan, pair, arm, ledger).value;
            HoldsTwo(x.next.trace, ReferenceMemory.CompletedPayload(VictimQuery(plan, arm), x.victim),
                     ReferenceMemory.CompletedPayload(plan.observerQuery, x.observer), ContextPayload(x.victim, x.victimContext))
  {
    hide Interact, Begin, Ask, Start, StartPayload, PolicyOf, VictimQuery, ReferenceMemory.CompletedPayload, ContextPayload,
         HoldsTwo, Unrecorded, IsSha256;
    InteractParts(p, plan, pair, arm, ledger);
    BeginUnrecorded(p, Start(plan), StartPayload(plan, pair, arm), PolicyOf(plan, pair));
    TwoAsksRecord(p, Begin(p, Start(plan), StartPayload(plan, pair, arm), PolicyOf(plan, pair)).value, VictimQuery(plan, arm),
                  plan.observerQuery);
  }

  /** What closing an arm is made of. */
  lemma CloseParts(p: Platform, a: AdapterState, pair: Pair, arm: Arm, decision: ProposedDecision, oracle: DecisionOracle)
    requires Close(p, a, pair, arm, decision, oracle).Ok?
    ensures var closed := Close(p, a, pair, arm, decision, oracle).value;
            var proposed := Record(p, a, DECISION, BOTH, DecisionPayload(decision), None);
            var evaluated := Record(p, proposed.next, ORACLE_EVALUATED, EVALUATOR, AssessmentPayload(closed.value), None);
            && proposed.outcome.Ok? && EvaluateDecision(decision, oracle) == Ok(closed.value)
            && closed.next == Record(p, evaluated.next, EPISODE_COMPLETED, EVALUATOR,
                                     RisiCRun.CompletedPayload(pair, arm, closed.value), None).next
  {
    hide Record, DecisionPayload, AssessmentPayload, RisiCRun.CompletedPayload, EvaluateDecision;
  }

  lemma CloseRecords(p: Platform, a: AdapterState, pair: Pair, arm: Arm, decision: ProposedDecision, oracle: DecisionOracle, t: EventType)
    requires Close(p, a, pair, arm, decision, oracle).Ok? && t != ORACLE_EVALUATED && t != EPISODE_COMPLETED
    ensures Adds(a, Close(p, a, pair, arm, decision, oracle).value.next, t, Only(t == DECISION, DecisionPayload(decision)))
  {
    hide Close, Record, Adds, Only, DecisionPayload, AssessmentPayload, RisiCRun.CompletedPayload, EvaluateDecision, IsSha256;
    CloseParts(p, a, pair, arm, decision, oracle);
    var closed := Close(p, a, pair, arm, decision, oracle).value;
    var b := Record(p, a, DECISION, BOTH, DecisionPayload(decision), None).next;
    var c := Record(p, b, ORACLE_EVALUATED, EVALUATOR, AssessmentPayload(closed.value), None).next;
    var added := Only(t == DECISION, DecisionPayload(decision));
    RecordRecords(p, a, DECISION, BOTH, DecisionPayload(decision), None, t);
    RecordOther(p, b, ORACLE_EVALUATED, EVALUATOR, AssessmentPayload(closed.value), None, t);
    RecordOther(p, c, EPISODE_COMPLETED, EVALUATOR, RisiCRun.CompletedPayload(pair, arm, closed.value), None, t);
    AddsInTurn(a, b, c, t, added, []);
    AddsInTurn(a, c, closed.next, t, added + [], []);
    assert added + [] == added && added + [] + [] == added;
  }

  /** The trace holds three retrievals, three contexts and one decision, with the given payloads. */
  predicate HoldsAll(trace: seq<TraceEvent>, first: Fields, second: Fields, third: Fields, context: Fields, last: Fields,
                     decision: Fields) {
    && PayloadsOf(trace, RETRIEVAL_COMPLETED) == [first, second, third]
    && |PayloadsOf(trace, CONTEXT_ASSEMBLED)| == 3
    && PayloadsOf(trace, CONTEXT_ASSEMBLED)[0] == context && PayloadsOf(trace, CONTEXT_ASSEMBLED)[2] == last
    && PayloadsOf(trace, DECISION) == [decision]
  }

  /** What a finished arm's trace has recorded. */
  predicate RecordsArm(plan: Plan, m: ArmMaterial) {
    HoldsAll(m.events, ReferenceMemory.CompletedPayload(VictimQuery(plan, m.arm), m.victim),
             ReferenceMemory.CompletedPayload(plan.observerQuery, m.observer),
             ReferenceMemory.CompletedPayload(plan.region.query, m.decided), ContextPayload(m.victim, m.victimContext),
             ContextPayload(m.decided, m.decidedContext), DecisionPayload(m.decision))
  }

  /** Two asks, then one ask and a decision. */
  lemma TwoThenAll(before: seq<TraceEvent>, after: seq<TraceEvent>, first: Fields, second: Fields, third: Fields, context: Fields,
                   last: Fields, decision: Fields)
    requires HoldsTwo(before, first, second, context)
    requires PayloadsOf(after, RETRIEVAL_COMPLETED) == PayloadsOf(before, RETRIEVAL_COMPLETED) + [third]
    requires PayloadsOf(after, CONTEXT_ASSEMBLED) == PayloadsOf(before, CONTEXT_ASSEMBLED) + [last]
    requires PayloadsOf(after, DECISION) == PayloadsOf(before, DECISION) + [decision]
    ensures HoldsAll(after, first, second, third, context, last, decision)
  {
    hide PayloadsOf;
  }

  /** What a finished arm's material is made of. */
  lemma FinishParts(p: Platform, plan: Plan, pair: Pair, arm: Arm, x: Interaction)
    requires Finish(p, plan, pair, arm, x).Ok?
    ensures Ask(p, x.next, plan.region.query).Ok?
    ensures var m := Finish(p, plan, pair, arm, x).value.0;
            var r := Ask(p, x.next, plan.region.query).value;
            var closed := Close(p, r.next, pair, arm, m.decision, plan.scenario.decisionOracle);
            && m.pair == pair && m.arm == arm && m.victim == x.victim && m.victimContext == x.victimContext
            && m.observer == x.observer && m.view == x.view && m.decided == r.result && m.decidedContext == r.context
            && ProposeRegion(plan.scenario.episode, m.decided, plan.scenario.facts, plan.region) == Ok(m.decision)
            && closed.Ok? && m.events == closed.value.next.trace && m.assessment == closed.value.value
  {
    hide Ask, Close, ProposeRegion, Charge;
  }

  lemma FinishGrows(p: Platform, plan: Plan, pair: Pair, arm: Arm, x: Interaction, t: EventType)
    requires Finish(p, plan, pair, arm, x).Ok? && t in {RETRIEVAL_COMPLETED, CONTEXT_ASSEMBLED, DECISION}
    ensures var m := Finish(p, plan, pair, arm, x).value.0;
            PayloadsOf(m.events, t) ==
            PayloadsOf(x.next.trace, t)
            + (Only(t == RETRIEVAL_COMPLETED, ReferenceMemory.CompletedPayload(plan.region.query, m.decided))
               + Only(t == CONTEXT_ASSEMBLED, ContextPayload(m.decided, m.decidedContext)))
            + Only(t == DECISION, DecisionPayload(m.decision))
  {
    hide Finish, Ask, Close, ReferenceMemory.CompletedPayload, ContextPayload, DecisionPayload, PayloadsOf, Adds, Only, IsSha256;
    FinishParts(p, plan, pair, arm, x);
    var m := Finish(p, plan, pair, arm, x).value.0;
    var r := Ask(p, x.next, plan.region.query).value;
    AskRecordsOf(p, x.next, plan.region.query, t);
    CloseRecords(p, r.next, pair, arm, m.decision, plan.scenario.decisionOracle, t);
    Grows(x.next, r.next, Close(p, r.next, pair, arm, m.decision, plan.scenario.decisionOracle).value.next, t,
          Only(t == RETRIEVAL_COMPLETED, ReferenceMemory.CompletedPayload(plan.region.query, r.result))
          + Only(t == CONTEXT_ASSEMBLED, ContextPayload(r.result, r.context)),
          Only(t == DECISION, DecisionPayload(m.decision)));
  }

  /** What finishing an arm adds: one retrieval, one context, one decision. */
  lemma FinishAdds(p: Platform, plan: Plan, pair: Pair, arm: Arm, x: Interaction)
    requires Finish(p, plan, pair, arm, x).Ok?
    ensures var m := Finish(p, plan, pair, arm, x).value.0;
            && PayloadsOf(m.events, RETRIEVAL_COMPLETED) ==
               PayloadsOf(x.next.trace, RETRIEVAL_COMPLETED) + [ReferenceMemory.CompletedPayload(plan.region.query, m.decided)]
            && PayloadsOf(m.events, CONTEXT_ASSEMBLED) ==
               PayloadsOf(x.next.trace, CONTEXT_ASSEMBLED) + [ContextPayload(m.decided, m.decidedContext)]
            && PayloadsOf(m.events, DECISION) == PayloadsOf(x.next.trace, DECISION) + [DecisionPayload(m.decision)]
  {
    hide Finish, ReferenceMemory.CompletedPayload, ContextPayload, DecisionPayload, PayloadsOf, Only, IsSha256;
    var m := Finish(p, plan, pair, arm, x).value.0;
    var c, k, d := ReferenceMemory.CompletedPayload(plan.region.query, m.decided), ContextPayload(m.decided, m.decidedContext),
                   DecisionPayload(m.decision);
    FinishGrows(p, plan, pair, arm, x, RETRIEVAL_COMPLETED);
    FinishGrows(p, plan, pair, arm, x, CONTEXT_ASSEMBLED);
    FinishGrows(p, plan, pair, arm, x, DECISION);
    OneOfThree(PayloadsOf(x.next.trace, RETRIEVAL_COMPLETED), c, k, d);
    OneOfThree(PayloadsOf(x.next.trace, CONTEXT_ASSEMBLED), c, k, d);
    OneOfThree(PayloadsOf(x.next.trace, DECISION), c, k, d);
  }

  lemma FinishRecords(p: Platform, plan: Plan, pair: Pair, arm: Arm, ledger: Budget.Ledger)
    requires Interact(p, plan, pair, arm, ledger).Ok?
    requires Finish(p, plan, pair, arm, Interact(p, plan, pair, arm, ledger).value).Ok?
    ensures RecordsArm(plan, Finish(p, plan, pair, arm, Interact(p, plan, pair, arm, ledger).value).value.0)
  {
    hide Interact, Finish, Ask, Close, VictimQuery, ReferenceMemory.CompletedPayload, ContextPayload, DecisionPayload, HoldsTwo,
         HoldsAll, PayloadsOf, IsSha256;
    var x := Interact(p, plan, pair, arm, ledger).value;
    var m := Finish(p, plan, pair, arm, x).value.0;
    FinishParts(p, plan, pair, arm, x);
    InteractRecords(p, plan, pair, arm, ledger);
    FinishAdds(p, plan, pair, arm, x);
    TwoThenAll(x.next.trace, m.events, ReferenceMemory.CompletedPayload(VictimQuery(plan, m.arm), m.victim),
               ReferenceMemory.CompletedPayload(plan.observerQuery, m.observer),
               ReferenceMemory.CompletedPayload(plan.region.query, m.decided), ContextPayload(m.victim, m.victimContext),
               ContextPayload(m.decided, m.decidedContext), DecisionPayload(m.decision));
  }

  // ----- the replayer against the execution -----

  /** The arm's view is the one its observer query and hits prescribe. */
  predicate ViewBelongs(plan: Plan, m: ArmMaterial) {
    ViewOf(plan.scenario.memories, plan.observerQuery, HitIds(m.observer)) == Ok(m.view)
  }

  lemma ViewMatchesRecord(plan: Plan, m: ArmMaterial)
    requires ViewBelongs(plan, m)
    ensures ViewMatches(plan.scenario.memories, ReferenceMemory.CompletedPayload(plan.observerQuery, m.observer), m.view)
  {
    hide ViewOf, ContentsMatch, QueryToJson, ResultToJson, PyEq, ReferenceMemory.CompletedPayload, Distinct, HitIds, RecordedIds;
    ViewShowsContents(plan.scenario.memories, plan.observerQuery, HitIds(m.observer));
    CompletedFields(plan.observerQuery, m.observer);
    ResultIds(m.observer);
    PyEqReflexive(QueryToJson(plan.observerQuery));
  }

  lemma DocumentFields(plan: Plan, m: ArmMaterial)
    ensures var d := DocumentsOf(plan, m);
            && Get(d.victim, "query") == QueryToJson(VictimQuery(plan, m.arm)) && Get(d.victim, "result") == ResultToJson(m.victim)
            && Get(d.victim, "context") == Str(m.victimContext)
            && Get(d.retrieval, "query") == QueryToJson(plan.region.query) && Get(d.retrieval, "result") == ResultToJson(m.decided)
            && Get(d.context, "context") == Str(m.decidedContext) && Obj(d.decision) == DecisionToJson(m.decision)
            && d.view == ViewToJson(m.view) && d.events == EventsToJson(m.events) && d.finalState == StateToJson(m.finalState)
            && Get(d.decision, "action") == Str(m.decision.action) && Get(d.decisionAssessment, "safe") == Bool(m.assessment.safe)
  {
    hide QueryToJson, ResultToJson, ViewToJson, StateToJson, EventsToJson, VictimQuery;
  }

  lemma DocumentsMatch(plan: Plan, m: ArmMaterial)
    requires RecordsArm(plan, m) && ViewBelongs(plan, m)
    ensures OutputsMatch(Start(plan), m.events, DocumentsOf(plan, m), m.view)
  {
    hide DocumentsOf, PayloadsOf, ViewMatches, QueryToJson, ResultToJson, DecisionToJson, Start, VictimQuery, ViewBelongs,
         ReferenceMemory.CompletedPayload, PyEq;
    DocumentFields(plan, m);
    ViewMatchesRecord(plan, m);
    StartsWithMemories(plan);
    CompletedFields(VictimQuery(plan, m.arm), m.victim);
    CompletedFields(plan.region.query, m.decided);
    PyEqReflexive(QueryToJson(VictimQuery(plan, m.arm)));
    PyEqReflexive(ResultToJson(m.victim));
    PyEqReflexive(QueryToJson(plan.region.query));
    PyEqReflexive(ResultToJson(m.decided));
    PyEqReflexive(DecisionToJson(m.decision));
    PyEqReflexive(Str(m.victimContext));
    PyEqReflexive(Str(m.decidedContext));
  }

  /** What an arm run guarantees of its material. */
  lemma ArmRunGuarantees(p: Platform, plan: Plan, pair: Pair, arm: Arm, ledger: Budget.Ledger)
    requires ArmRun(p, plan, pair, arm, ledger).Ok?
    ensures var m := ArmRun(p, plan, pair, arm, ledger).value.0;
            && m.pair == pair && m.arm == arm && RecordsArm(plan, m) && ViewBelongs(plan, m)
            && m.finalState.sourceMemories == plan.scenario.memories
            && ProposeRegion(plan.scenario.episode, m.decided, plan.scenario.facts, plan.region) == Ok(m.decision)
            && EvaluateDecision(m.decision, plan.scenario.decisionOracle) == Ok(m.assessment)
  {
    hide Interact, Finish, Ask, Close, ViewOf, HitIds, RecordsArm, Verify, ProposeRegion, EvaluateDecision;
    var x := Interact(p, plan, pair, arm, ledger).value;
    FinishParts(p, plan, pair, arm, x);
    FinishRecords(p, plan, pair, arm, ledger);
    InteractView(p, plan, pair, arm, ledger);
    CloseParts(p, Ask(p, x.next, plan.region.query).value.next, pair, arm, Finish(p, plan, pair, arm, x).value.0.decision,
                   plan.scenario.decisionOracle);
  }

  lemma InteractKeepsMemories(p: Platform, plan: Plan, pair: Pair, arm: Arm, ledger: Budget.Ledger)
    requires Interact(p, plan, pair, arm, ledger).Ok?
    ensures Interact(p, plan, pair, arm, ledger).value.next.state.sourceMemories == plan.scenario.memories
  {
    hide Interact, Start, StartPayload, PolicyOf, VictimQuery, Run, BeginOps, AskOps, ReplayAll;
    InteractIsARun(p, plan, pair, arm, ledger);
    var x := Interact(p, plan, pair, arm, ledger).value;
    var v, w, y := BeginOps(StartPayload(plan, pair, arm), PolicyOf(plan, pair)), AskOps(VictimQuery(plan, arm), x.victim),
                   AskOps(plan.observerQuery, x.observer);
    RunConcat(p, Fresh(Start(plan)), v, w);
    RunConcat(p, Fresh(Start(plan)), v + w, y);
    OpsReplayable(plan, pair, arm, x);
    ReplaySimulatesAdapter(p, Start(plan), v + w + y);
    AcceptedReplayPreservesWorld(p, Start(plan), x.next.trace);
    StartsWithMemories(plan);
  }

  lemma OpsReplayable(plan: Plan, pair: Pair, arm: Arm, x: Interaction)
    ensures var ops := BeginOps(StartPayload(plan, pair, arm), PolicyOf(plan, pair)) + AskOps(VictimQuery(plan, arm), x.victim)
                       + AskOps(plan.observerQuery, x.observer);
            forall i | 0 <= i < |ops| :: Replayable(ops[i])
  {
    hide StartPayload, PolicyOf, VictimQuery;
  }

  lemma InteractView(p: Platform, plan: Plan, pair: Pair, arm: Arm, ledger: Budget.Ledger)
    requires Interact(p, plan, pair, arm, ledger).Ok?
    ensures var x := Interact(p, plan, pair, arm, ledger).value;
            ViewOf(plan.scenario.memories, plan.observerQuery, HitIds(x.observer)) == Ok(x.view)
  {
    hide Ask, Begin, Charge, ViewOf, Start, HitIds, StartPayload, PolicyOf, VictimQuery;
    InteractKeepsMemories(p, plan, pair, arm, ledger);
  }

  // ----- one arm -----

  function ReplayedOf(pair: Pair, arm: Arm, m: ArmMaterial): ReplayedArm {
    ReplayedArm(pair, arm, |m.events|, m.finalState, m.view, m.decision.action)
  }

  /** The arm replays from what was retained of it to what it was, if its decision was safe; otherwise it is refused for that. */
  predicate ArmReplays(p: Platform, plan: Plan, pair: Pair, arm: Arm, m: ArmMaterial) {
    ReplayArm(p, Start(plan), pair, arm, DocumentsOf(plan, m), plan.scenario.decisionOracle.safeActions) ==
    if m.assessment.safe then Ok(ReplayedOf(pair, arm, m)) else Err(UnsafeDecision)
  }

  /**
   The replayer, given what the writer retains of a completed arm, reproduces its final state, its view and
   its action, with every output check passed, exactly when the decision was safe. Of an unsafe decision
   the execution completes, and the replay is refused.
   */
  lemma CompletedArmReplaysIff(p: Platform, plan: Plan, pair: Pair, arm: Arm, ledger: Budget.Ledger)
    requires ArmRun(p, plan, pair, arm, ledger).Ok?
    ensures ArmReplays(p, plan, pair, arm, ArmRun(p, plan, pair, arm, ledger).value.0)
  {
    hide ArmRun, DocumentsOf, Reconstructed, EventsToJson, ViewFromJson, ViewToJson, OutputsMatch, Start, RecordsArm,
         ViewBelongs, Verify, ReplayAll;
    var m := ArmRun(p, plan, pair, arm, ledger).value.0;
    ArmRunGuarantees(p, plan, pair, arm, ledger);
    ArmVerifiesAndReplays(p, plan, pair, arm, ledger);
    StartsWithMemories(plan);
    DocumentsReconstruct(p, Start(plan), m.events, m.finalState);
    DocumentsMatch(plan, m);
    DocumentFields(plan, m);
    ViewRoundTrip(m.view);
  }
}
