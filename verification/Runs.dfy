/** What the runner's reference executions share (runner.py): scenarios, initial snapshots, and the calls an arm makes. */
module Runs {
  import opened Basics
  import opened Json
  import opened Text
  import opened Models
  import opened Bytes
  import opened Trace
  import opened Decisions
  import opened ReferenceMemory
  import opened Retrievals
  import opened SharedCounter
  import opened PolicyRefinement
  import opened AdapterRuns
  import opened Replay
  import Budget

  /** Every exception an execution can end in. */
  datatype RunError =
    | AdapterFailure(adapter: AdapterError)
    | BudgetFailure(budget: Budget.BudgetError)
    | DecisionFailure(decision: DecisionError)
    | TraceRefused(trace: TraceError)
    | UnexpectedHits
    | MissingMemory
    | NotOneCriticalMemory
    | UnprotectedCriticalMemory
    | InvalidView
    | SourcesChanged
    | InvalidComparison

  // ----- scenarios -----

  /** What the scenario loader guarantees of the world it returns. */
  datatype RawScenario = RawScenario(episode: EpisodeIdentity, logicalTime: nat, memories: seq<MemoryRecord>, facts: Fields,
                                     memoryOracles: seq<MemoryOracle>, decisionOracle: DecisionOracle) {
    predicate Valid() {
      && Distinct(MemoryIds(memories))
      && forall i | 0 <= i < |memories| :: memories[i].scenarioId == episode.scenarioId
    }
  }

  type Scenario = s: RawScenario | s.Valid()
    witness RawScenario(RawEpisode("s", "e", 0), 0, [], map[], [], RawDecisionOracle("o", "e", ["a"]))

  function PureReadPolicy(topK: int): PolicyConfiguration {
    PureReadNamed();
    RawPolicy("pure-read", "1", map["top_k" := Int(topK), "read_side_updates" := Bool(false)])
  }

  /** The snapshot every arm starts from. */
  function InitialState(scenario: Scenario, derived: Fields, topK: int): StateSnapshot {
    RawSnapshot(1, scenario.episode, scenario.logicalTime, 0, scenario.memories, derived,
                map["memory_ids" := Strings(SortedStrings(set i | 0 <= i < |scenario.memories| :: scenario.memories[i].memoryId))],
                map["maintenance" := Arr([])], PureReadPolicy(topK), map[])
  }

  /** `_optional_memory_by_id` */
  function FindMemory(memories: seq<MemoryRecord>, id: string): Option<MemoryRecord> {
    if memories == [] then None
    else if memories[0].memoryId == id then Some(memories[0])
    else FindMemory(memories[1..], id)
  }

  function Critical(oracles: seq<MemoryOracle>): seq<MemoryOracle> {
    if oracles == [] then [] else (if oracles[0].criticality then [oracles[0]] else []) + Critical(oracles[1..])
  }

  /** `_critical_oracle` */
  function CriticalOracle(scenario: Scenario): Result<MemoryOracle, RunError> {
    var critical := Critical(scenario.memoryOracles);
    if |critical| != 1 then Err(NotOneCriticalMemory) else Ok(critical[0])
  }

  /** The critical source record, which must carry the target-visible protected label. */
  function ProtectedCritical(scenario: Scenario, initial: StateSnapshot): Result<MemoryRecord, RunError> {
    var oracle :- CriticalOracle(scenario);
    match FindMemory(initial.sourceMemories, oracle.memoryId)
    case None => Err(MissingMemory)
    case Some(memory) =>
      if memory.systemCriticality != Some(PROTECTED_CRITICALITY) then Err(UnprotectedCriticalMemory) else Ok(memory)
  }

  // ----- calls -----

  datatype Returned<+T> = Returned(next: AdapterState, value: T)

  /** What a call returns when it does not raise. */
  function Called<T>(step: Step<T>): Result<Returned<T>, RunError> {
    match step.outcome case Ok(value) => Ok(Returned(step.next, value)) case Err(error) => Err(AdapterFailure(error))
  }

  function Charge(l: Budget.Ledger, c: Budget.Charge): Result<Budget.Ledger, RunError> {
    match Budget.Charged(l, c) case Ok(next) => Ok(next) case Err(error) => Err(BudgetFailure(error))
  }

  function Decided<T>(outcome: Result<T, DecisionError>): Result<T, RunError> {
    match outcome case Ok(value) => Ok(value) case Err(error) => Err(DecisionFailure(error))
  }

  /** Opening the adapter, recording the episode's start, and configuring the arm's policy. */
  function Begin(p: Platform, initial: StateSnapshot, start: Fields, policy: PolicyConfiguration): Result<AdapterState, RunError> {
    if !PolicyAccepted(initial.policy, ById(initial.sourceMemories).Keys) then
      Err(AdapterFailure(ValueError))
    else
      var started :- Called(Record(p, Fresh(initial), EPISODE_STARTED, EVALUATOR, start, None));
      var configured :- Called(Configure(p, started.next, policy));
      Ok(configured.next)
  }

  datatype Reply = Reply(next: AdapterState, result: RetrievalResult, context: string)

  /** A retrieval and the assembly of its context. */
  function Ask(p: Platform, a: AdapterState, q: RetrievalQuery): Result<Reply, RunError> {
    var retrieved :- Called(Retrieval(p, a, q));
    var assembled :- Called(Assemble(p, retrieved.next, retrieved.value));
    Ok(Reply(assembled.next, retrieved.value, assembled.value))
  }

  method BeginArm(p: Platform, initial: StateSnapshot, start: Fields, policy: PolicyConfiguration)
    returns (outcome: Result<(), RunError>, adapter: ReferenceMemoryAdapter)
    ensures fresh(adapter) && adapter.Valid() && adapter.platform == p
    ensures match Begin(p, initial, start, policy)
            case Ok(next) => outcome.Ok? && adapter.View() == next
            case Err(error) => outcome == Err(error)
  {
    hide Record, Configure, PolicyAccepted;
    var ready: Result<(), AdapterError>;
    ready, adapter := ReferenceMemoryAdapter.Open(p, initial);
    if ready.Err? {
      return Err(AdapterFailure(ready.error)), adapter;
    }
    var started := adapter.RecordEvent(EPISODE_STARTED, EVALUATOR, start, None);
    if started.Err? {
      return Err(AdapterFailure(started.error)), adapter;
    }
    var configured := adapter.ConfigurePolicy(policy);
    if configured.Err? {
      return Err(AdapterFailure(configured.error)), adapter;
    }
    return Ok(()), adapter;
  }

  method AskAdapter(adapter: ReferenceMemoryAdapter, q: RetrievalQuery)
    returns (outcome: Result<(RetrievalResult, string), RunError>)
    requires adapter.Valid()
    modifies adapter`state, adapter`trace
    ensures adapter.Valid()
    ensures match Ask(adapter.platform, old(adapter.View()), q)
            case Ok(reply) => outcome == Ok((reply.result, reply.context)) && adapter.View() == reply.next
            case Err(error) => outcome == Err(error)
  {
    hide Retrieval, Assemble;
    var retrieved := adapter.Retrieve(q);
    if retrieved.Err? {
      return Err(AdapterFailure(retrieved.error));
    }
    var assembled := adapter.AssembleContext(retrieved.value);
    if assembled.Err? {
      return Err(AdapterFailure(assembled.error));
    }
    return Ok((retrieved.value, assembled.value));
  }

  /** A charge that is granted adds its own unit, and one logical step. */
  lemma ChargeMoves(l: Budget.Ledger, c: Budget.Charge)
    requires Budget.WithinLimits(l) && Charge(l, c).Ok?
    ensures Budget.WithinLimits(Charge(l, c).value)
    ensures Charge(l, c).value ==
            Budget.Plus(l, if c == Budget.EpisodeStart then 1 else 0, if c == Budget.RetrievalCall then 1 else 0, 1)
  {
    hide Budget.Charged;
    Budget.ChargeAdds(l, c);
  }

  // ----- what the calls do when nothing goes wrong -----

  /** The first hits of the plain ranking. */
  function PlainHits(p: Platform, s: StateSnapshot, q: RetrievalQuery): seq<RetrievalHit> {
    Top(PlainRanking(p, s, q), q.topK)
  }

  function HitsOf(hits: seq<RetrievalHit>): seq<string> {
    HitIds(RetrievalResult(hits, map[]))
  }

  lemma {:induction false} ByIdHolds(memories: seq<MemoryRecord>, id: string)
    ensures id in ById(memories) <==> id in MemoryIds(memories)
  {
    if memories != [] {
      ByIdHolds(Front(memories), id);
      assert MemoryIds(memories) == MemoryIds(Front(memories)) + [Last(memories).memoryId];
    }
  }

  /** Every scored memory is one of the snapshot's. */
  lemma {:induction false} ScoredAreKnown(p: Platform, memories: seq<MemoryRecord>, q: RetrievalQuery, time: int)
    ensures forall x <- ScoreAll(p, memories, q, time) :: x.memoryId in ById(memories)
  {
    hide Score;
    if memories != [] {
      ScoredAreKnown(p, Front(memories), q, time);
    }
  }

  lemma RankedAreKnown(p: Platform, memories: seq<MemoryRecord>, q: RetrievalQuery, time: int, preferred: Option<string>, xs: seq<Scored>)
    requires multiset(xs) == multiset(ScoreAll(p, memories, q, time))
    ensures forall x <- Sorted(preferred, xs) :: x.memoryId in ById(memories)
  {
    hide ScoreAll, Sorted, ById;
    ScoredAreKnown(p, memories, q, time);
    SortedIsSorting(preferred, xs);
    forall x | x in Sorted(preferred, xs) ensures x.memoryId in ById(memories) {
      assert x in multiset(Sorted(preferred, xs));
      assert x in ScoreAll(p, memories, q, time);
    }
  }

  lemma TopAreKnown(xs: seq<Scored>, k: nat, memories: seq<MemoryRecord>)
    requires forall x <- xs :: x.memoryId in ById(memories)
    ensures forall h <- Top(xs, k) :: h.memoryId in ById(memories)
  {
    hide ById;
    forall h | h in Top(xs, k) ensures h.memoryId in ById(memories) {
      var i :| 0 <= i < |Top(xs, k)| && Top(xs, k)[i] == h;
      assert xs[i] in xs;
    }
  }

  lemma {:induction false} KnownIsFound(memories: seq<MemoryRecord>, id: string)
    ensures FindMemory(memories, id).Some? <==> id in MemoryIds(memories)
    ensures FindMemory(memories, id).Some? ==> FindMemory(memories, id).value.memoryId == id
  {
    if memories != [] {
      KnownIsFound(memories[1..], id);
      assert MemoryIds(memories) == [memories[0].memoryId] + MemoryIds(memories[1..]);
    }
  }

  lemma {:induction false} FoundAt(memories: seq<MemoryRecord>, i: nat)
    requires i < |memories| && Distinct(MemoryIds(memories))
    ensures FindMemory(memories, memories[i].memoryId) == Some(memories[i])
  {
    assert MemoryIds(memories)[i] == memories[i].memoryId && MemoryIds(memories)[0] == memories[0].memoryId;
    if i > 0 {
      assert MemoryIds(memories)[1..] == MemoryIds(memories[1..]);
      FoundAt(memories[1..], i - 1);
    }
  }

  lemma {:induction false} ByIdAt(memories: seq<MemoryRecord>, i: nat)
    requires i < |memories| && Distinct(MemoryIds(memories))
    ensures memories[i].memoryId in ById(memories) && ById(memories)[memories[i].memoryId] == memories[i]
  {
    var n := |memories| - 1;
    assert MemoryIds(memories)[i] == memories[i].memoryId && MemoryIds(memories)[n] == memories[n].memoryId;
    if i < n {
      assert MemoryIds(memories)[..n] == MemoryIds(Front(memories));
      ByIdAt(Front(memories), i);
    }
  }

  /** With distinct identifiers, the first match and the last entry are the same record. */
  lemma FoundIsById(memories: seq<MemoryRecord>, id: string)
    requires Distinct(MemoryIds(memories)) && FindMemory(memories, id).Some?
    ensures id in ById(memories) && FindMemory(memories, id) == Some(ById(memories)[id])
  {
    hide FindMemory, ById, Distinct;
    KnownIsFound(memories, id);
    var i :| 0 <= i < |MemoryIds(memories)| && MemoryIds(memories)[i] == id;
    FoundAt(memories, i);
    ByIdAt(memories, i);
  }

  /** Assembling known hits succeeds and moves nothing but the sequence. */
  lemma AssembleSucceeds(p: Platform, a: AdapterState, result: RetrievalResult)
    requires forall h <- result.hits :: h.memoryId in ById(a.state.sourceMemories)
    ensures Assemble(p, a, result).outcome.Ok?
    ensures Assemble(p, a, result).next.state == Tick(a.state)
  {
    hide ById, Record, Join, ContextLines, ObjectPathHolds, Updates;
    forall i | 0 <= i < |result.hits| ensures result.hits[i].memoryId in ById(a.state.sourceMemories) {
      assert result.hits[i] in result.hits;
    }
    assert HitsKnown(a.state, result);
    var context := Join("\n", ContextLines(ById(a.state.sourceMemories), result));
    ContextPasses(result, context, p.casefold);
    RecordQuietly(p, a, CONTEXT_ASSEMBLED, BOTH, ContextPayload(result, context), None);
  }

  lemma BeginSucceeds(p: Platform, initial: StateSnapshot, start: Fields, policy: PolicyConfiguration)
    requires PolicyAccepted(initial.policy, ById(initial.sourceMemories).Keys)
    requires PolicyAccepted(policy, ById(initial.sourceMemories).Keys)
    ensures Begin(p, initial, start, policy).Ok?
    ensures Begin(p, initial, start, policy).value.state ==
            initial.(policy := policy, nextEventSequence := initial.nextEventSequence + 2)
  {
    hide PolicyAccepted, ById, Commit, ObjectPathHolds, Updates, NonBlank, Record;
    var started := Record(p, Fresh(initial), EPISODE_STARTED, EVALUATOR, start, None);
    RecordQuietly(p, Fresh(initial), EPISODE_STARTED, EVALUATOR, start, None);
    CommitSucceeds(p, started.next, Tick(started.next.state).(policy := policy), POLICY_CONFIGURED, EVALUATOR,
                   PolicyPayload(policy), None);
  }

  // ----- an arm's calls are a run of the adapter -----

  lemma RunOfOne(p: Platform, a: AdapterState, op: Op)
    ensures Run(p, a, [op]) == Apply(p, a, op)
  {
    hide Apply;
    assert [op][1..] == [];
    assert Run(p, Apply(p, a, op), []) == Apply(p, a, op);
  }

  lemma RunOfTwo(p: Platform, a: AdapterState, first: Op, second: Op)
    ensures Run(p, a, [first, second]) == Apply(p, Apply(p, a, first), second)
  {
    hide Apply;
    assert [first, second][1..] == [second] && [second][1..] == [];
    assert Run(p, Apply(p, a, first), [second]) == Run(p, Apply(p, Apply(p, a, first), second), []);
  }

  lemma {:induction false} RunConcat(p: Platform, a: AdapterState, ops: seq<Op>, more: seq<Op>)
    ensures Run(p, a, ops + more) == Run(p, Run(p, a, ops), more)
    decreases |ops|
  {
    hide Apply, IsSha256;
    if ops == [] {
      assert ops + more == more;
    } else {
      var all := ops + more;
      assert all[0] == ops[0] && all[1..] == ops[1..] + more;
      RunConcat(p, Apply(p, a, ops[0]), ops[1..], more);
      assert Run(p, a, all) == Run(p, Apply(p, a, ops[0]), all[1..]);
    }
  }

  lemma RunInParts(p: Platform, a: AdapterState, v: seq<Op>, w: seq<Op>, x: seq<Op>, y: seq<Op>, z: seq<Op>)
    ensures Run(p, a, v + w + x + y + z) == Run(p, Run(p, Run(p, Run(p, Run(p, a, v), w), x), y), z)
  {
    hide Run;
    RunConcat(p, a, v, w);
    RunConcat(p, a, v + w, x);
    RunConcat(p, a, v + w + x, y);
    RunConcat(p, a, v + w + x + y, z);
  }

  function BeginOps(start: Fields, policy: PolicyConfiguration): seq<Op> {
    [RecordOp(EPISODE_STARTED, EVALUATOR, start, None), ConfigureOp(policy)]
  }

  function AskOps(q: RetrievalQuery, result: RetrievalResult): seq<Op> {
    [RetrieveOp(q), AssembleOp(result)]
  }

  lemma BeginIsARun(p: Platform, initial: StateSnapshot, start: Fields, policy: PolicyConfiguration)
    requires Begin(p, initial, start, policy).Ok?
    ensures Begin(p, initial, start, policy).value == Run(p, Fresh(initial), BeginOps(start, policy))
  {
    hide PolicyAccepted, ById, Record, Configure, Run;
    RunOfTwo(p, Fresh(initial), RecordOp(EPISODE_STARTED, EVALUATOR, start, None), ConfigureOp(policy));
  }

  lemma AskIsARun(p: Platform, a: AdapterState, q: RetrievalQuery)
    requires Ask(p, a, q).Ok?
    ensures Ask(p, a, q).value.next == Run(p, a, AskOps(q, Ask(p, a, q).value.result))
  {
    hide Retrieval, Assemble, Run;
    RunOfTwo(p, a, RetrieveOp(q), AssembleOp(Ask(p, a, q).value.result));
  }

  /** What any run of replayable calls from sequence zero exports: an accepted trace that replays to its final state. */
  lemma RunVerifiesAndReplays(p: Platform, initial: StateSnapshot, ops: seq<Op>)
    requires initial.nextEventSequence == 0 && forall i | 0 <= i < |ops| :: Replayable(ops[i])
    ensures var final := Run(p, Fresh(initial), ops);
            Accepted(p, final.trace) && ReplayAll(p, initial, final.trace) == Ok(final.state)
  {
    hide Run, Replayable, Accepted, ReplayAll;
    RunTraceAcceptedIff(p, initial, ops);
    ReplaySimulatesAdapter(p, initial, ops);
  }

  /** Whatever was called, a run of replayable calls keeps the snapshot's world: sources, time, indexes, queues, episode. */
  lemma RunKeepsWorld(p: Platform, initial: StateSnapshot, ops: seq<Op>, more: seq<Op>)
    requires forall i | 0 <= i < |ops + more| :: Replayable((ops + more)[i])
    ensures SameWorld(initial, Run(p, Run(p, Fresh(initial), ops), more).state)
  {
    hide Run, Replayable, ReplayAll;
    RunConcat(p, Fresh(initial), ops, more);
    ReplaySimulatesAdapter(p, initial, ops + more);
    AcceptedReplayPreservesWorld(p, initial, Run(p, Fresh(initial), ops + more).trace);
  }

  /** The context of an ask joins the lines of its hits, read from the sources its retrieval leaves. */
  lemma AskContext(p: Platform, a: AdapterState, q: RetrievalQuery, memories: seq<MemoryRecord>)
    requires Ask(p, a, q).Ok? && Retrieval(p, a, q).next.state.sourceMemories == memories
    ensures var r := Ask(p, a, q).value;
            && (forall i | 0 <= i < |r.result.hits| :: r.result.hits[i].memoryId in ById(memories))
            && r.context == Join("\n", ContextLines(ById(memories), r.result))
  {
    hide Retrieval, Record, ById, Join, ContextLines;
  }
}
