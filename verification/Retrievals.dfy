/** What one retrieval does: its ranking, its answer, and the state it leaves (adapters/reference.py). */
module Retrievals {
  import opened Basics
  import opened Json
  import opened Text
  import opened Bytes
  import opened Canonical
  import opened Models
  import opened Trace
  import opened ReferenceMemory

  // ----- the sort -----

  lemma BeforeTransitive(preferred: Option<string>, x: Scored, y: Scored, z: Scored)
    requires Before(preferred, x, y) && Before(preferred, y, z)
    ensures Before(preferred, x, z)
  {
    if x.score == y.score == z.score && StrLess(x.memoryId, y.memoryId) && StrLess(y.memoryId, z.memoryId) {
      StrLessTransitive(x.memoryId, y.memoryId, z.memoryId);
    }
  }

  predicate Ordered(preferred: Option<string>, xs: seq<Scored>) {
    forall i, j | 0 <= i < j < |xs| :: !Before(preferred, xs[j], xs[i])
  }

  lemma ConsOrdered(preferred: Option<string>, x: Scored, ys: seq<Scored>)
    requires Ordered(preferred, ys) && forall y <- ys :: !Before(preferred, y, x)
    ensures Ordered(preferred, [x] + ys)
  {
    hide Before;
    var zs := [x] + ys;
    forall i, j | 0 <= i < j < |zs| ensures !Before(preferred, zs[j], zs[i]) {
      assert zs[j] == ys[j - 1] && zs[j] in ys;
    }
  }

  lemma {:induction false} InsertContents(preferred: Option<string>, x: Scored, ys: seq<Scored>)
    ensures multiset(Insert(preferred, x, ys)) == multiset{x} + multiset(ys)
  {
    hide Before;
    if ys != [] && !Before(preferred, x, ys[0]) {
      InsertContents(preferred, x, ys[1..]);
      assert ys == [ys[0]] + ys[1..];
    }
  }

  lemma {:induction false} InsertOrdered(preferred: Option<string>, x: Scored, ys: seq<Scored>)
    requires Ordered(preferred, ys)
    ensures Ordered(preferred, Insert(preferred, x, ys))
  {
    hide Before;
    if ys == [] {
    } else if Before(preferred, x, ys[0]) {
      forall y | y in ys ensures !Before(preferred, y, x) {
        if Before(preferred, y, x) {
          BeforeTransitive(preferred, y, x, ys[0]);
          BeforeIrreflexive(preferred, ys[0]);
        }
      }
      ConsOrdered(preferred, x, ys);
    } else {
      var rest := Insert(preferred, x, ys[1..]);
      InsertOrdered(preferred, x, ys[1..]);
      InsertContents(preferred, x, ys[1..]);
      forall z | z in rest ensures !Before(preferred, z, ys[0]) {
        assert z in multiset(rest);
        assert z == x || z in ys[1..];
      }
      ConsOrdered(preferred, ys[0], rest);
    }
  }

  lemma BeforeIrreflexive(preferred: Option<string>, x: Scored)
    ensures !Before(preferred, x, x)
  {
    StrLessTrichotomy(x.memoryId, x.memoryId);
  }

  /** The ranking is a permutation of the scored memories in sort order. */
  lemma {:induction false} SortedIsSorting(preferred: Option<string>, xs: seq<Scored>)
    ensures Ordered(preferred, Sorted(preferred, xs))
    ensures multiset(Sorted(preferred, xs)) == multiset(xs)
  {
    hide Before;
    if xs != [] {
      SortedIsSorting(preferred, Front(xs));
      InsertOrdered(preferred, Last(xs), Sorted(preferred, Front(xs)));
      InsertContents(preferred, Last(xs), Sorted(preferred, Front(xs)));
      assert xs == Front(xs) + [Last(xs)];
    }
  }

  lemma SortedIds(preferred: Option<string>, xs: seq<Scored>)
    ensures |Sorted(preferred, xs)| == |xs|
    ensures forall id :: id in Ids(Sorted(preferred, xs)) <==> id in Ids(xs)
  {
    hide Sorted, Before;
    SortedIsSorting(preferred, xs);
    var ys := Sorted(preferred, xs);
    assert |multiset(ys)| == |multiset(xs)|;
    forall id | id in Ids(ys) ensures id in Ids(xs) {
      var i :| 0 <= i < |ys| && ys[i].memoryId == id;
      assert ys[i] in multiset(ys);
      assert ys[i] in xs;
      var j :| 0 <= j < |xs| && xs[j] == ys[i];
      assert Ids(xs)[j] == id;
    }
    forall id | id in Ids(xs) ensures id in Ids(ys) {
      var i :| 0 <= i < |xs| && xs[i].memoryId == id;
      assert xs[i] in multiset(xs);
      assert xs[i] in ys;
      var j :| 0 <= j < |ys| && ys[j] == xs[i];
      assert Ids(ys)[j] == id;
    }
  }

  /** A preferred candidate is ranked first. */
  lemma PreferredFirst(preferred: string, xs: seq<Scored>)
    requires preferred in Ids(xs)
    ensures Sorted(Some(preferred), xs) != [] && Sorted(Some(preferred), xs)[0].memoryId == preferred
  {
    hide Sorted;
    var ys := Sorted(Some(preferred), xs);
    SortedIds(Some(preferred), xs);
    SortedIsSorting(Some(preferred), xs);
    var i :| 0 <= i < |ys| && ys[i].memoryId == preferred;
    if i > 0 {
      assert !Before(Some(preferred), ys[i], ys[0]);
    }
  }

  // ----- payloads the adapter writes never cross the visibility boundary -----

  predicate PlainName(name: string) {
    LowerAscii(name) && name !in EVALUATOR_ONLY_KEYS
  }

  lemma PlainKey(name: string, fold: Casefold)
    requires PlainName(name)
    ensures !EvaluatorOnly(name, fold)
  {
  }

  lemma RetrievalNamesPlain()
    ensures PlainName("query") && PlainName("result") && PlainName("hits") && PlainName("observations")
    ensures PlainName("principal_id") && PlainName("tenant_id") && PlainName("text") && PlainName("top_k")
    ensures PlainName("result_count") && PlainName("policy")
  {
    assert "observations"[1] == 'b';
  }

  lemma SetChangeNamesPlain()
    ensures PlainName("removed_memory_ids") && PlainName("protected_memory_ids") && PlainName("policy")
    ensures PlainName("memory_ids") && PlainName("context")
  {
  }

  lemma EclipseNamesPlain()
    ensures PlainName("operation") && PlainName("trigger_memory_id") && PlainName("suppressed_memory_id")
    ensures PlainName("tenant_id") && PlainName("interaction_count")
  {
  }

  /** No key of the object is evaluator-only, and no value is an object. */
  predicate PlainLeaves(fields: Fields) {
    forall k | k in fields :: PlainName(k) && !fields[k].Obj?
  }

  lemma PlainLeavesPass(fields: Fields, fold: Casefold)
    requires PlainLeaves(fields)
    ensures !ObjectPathHolds(Obj(fields), fold)
  {
    hide PlainName;
    forall k | k in fields ensures !EvaluatorOnly(k, fold) { PlainKey(k, fold); }
  }

  lemma QueryPasses(q: RetrievalQuery, fold: Casefold)
    ensures !ObjectPathHolds(QueryToJson(q), fold)
  {
    hide PlainName, ObjectPathHolds;
    RetrievalNamesPlain();
    PlainLeavesPass(QueryToJson(q).fields, fold);
  }

  predicate PlainObservations(observations: Fields) {
    observations.Keys == {"principal_id", "result_count", "policy"} && forall k | k in observations :: !observations[k].Obj?
  }

  lemma ResultPasses(result: RetrievalResult, fold: Casefold)
    requires PlainObservations(result.observations)
    ensures !ObjectPathHolds(ResultToJson(result), fold)
  {
    hide PlainName;
    RetrievalNamesPlain();
    PlainLeavesPass(result.observations, fold);
    var fields := ResultToJson(result).fields;
    assert fields.Keys == {"hits", "observations"};
    PlainKey("hits", fold);
    PlainKey("observations", fold);
    assert fields["hits"].Arr? && fields["observations"] == Obj(result.observations);
  }

  lemma CompletedPasses(q: RetrievalQuery, result: RetrievalResult, fold: Casefold)
    requires PlainObservations(result.observations)
    ensures !ObjectPathHolds(Obj(CompletedPayload(q, result)), fold)
  {
    hide QueryToJson, ResultToJson, PlainName;
    RetrievalNamesPlain();
    QueryPasses(q, fold);
    ResultPasses(result, fold);
    var fields := CompletedPayload(q, result);
    assert fields.Keys == {"query", "result"};
    PlainKey("query", fold);
    PlainKey("result", fold);
    assert fields["query"] == QueryToJson(q) && fields["result"] == ResultToJson(result);
  }

  lemma SetChangePasses(s: StateSnapshot, answer: Answer, fold: Casefold)
    ensures !ObjectPathHolds(Obj(SetChangePayload(s, answer)), fold)
  {
    hide PlainName, ObjectPathHolds;
    SetChangeNamesPlain();
    PlainLeavesPass(SetChangePayload(s, answer), fold);
  }

  lemma EclipsePasses(trigger: string, suppressed: string, tenant: string, count: int, fold: Casefold)
    ensures !ObjectPathHolds(Obj(EclipsePayload(trigger, suppressed, tenant, count)), fold)
  {
    hide PlainName, ObjectPathHolds;
    EclipseNamesPlain();
    PlainLeavesPass(EclipsePayload(trigger, suppressed, tenant, count), fold);
  }

  lemma ContextPasses(result: RetrievalResult, context: string, fold: Casefold)
    ensures !ObjectPathHolds(Obj(ContextPayload(result, context)), fold)
  {
    hide PlainName, ObjectPathHolds;
    SetChangeNamesPlain();
    PlainLeavesPass(ContextPayload(result, context), fold);
  }

  /** A commit whose payload respects the boundary, by a named actor, succeeds and installs its state. */
  lemma CommitSucceeds(p: Platform, a: AdapterState, after: StateSnapshot, eventType: EventType,
                       visibility: EventVisibility, payload: Fields, actor: Option<string>)
    requires actor.Some? ==> NonBlank(actor.value)
    requires visibility == EVALUATOR || !ObjectPathHolds(Obj(payload), p.casefold)
    ensures var step := Commit(p, a, after, eventType, visibility, payload, actor);
            && step.outcome.Ok? && step.outcome.value.eventType == eventType
            && step.next == RawAdapter(after, a.trace + [step.outcome.value])
  {
    hide StateToJson, EventId, EventMaterial, IsSha256, Frozen, ObjectPathHolds, ContainsEvaluatorOnlyKey;
    FrozenCheckIsObjectPath(Obj(payload), p.casefold);
    assert IsSha256(StateHash(p, a.state)) && IsSha256(StateHash(p, after));
  }

  // ----- the state a retrieval leaves -----

  function AtSequence(s: StateSnapshot, sequence: nat): StateSnapshot {
    s.(nextEventSequence := sequence)
  }

  predicate SameButSequence(s: StateSnapshot, t: StateSnapshot) {
    t == AtSequence(s, t.nextEventSequence)
  }

  /** No answer depends on the event sequence. */
  lemma AnswerIgnoresSequence(p: Platform, s: StateSnapshot, sequence: nat, q: RetrievalQuery)
    ensures AnswerFor(p, AtSequence(s, sequence), q) == AnswerFor(p, s, q)
  {
    hide ScoreAll, Sorted, Without, Among, Top, ById, IsProtected;
    var t := AtSequence(s, sequence);
    assert Ranking(p, t, q) == Ranking(p, s, q);
    assert forall id :: IsProtected(t, id) == IsProtected(s, id) by { SequenceDoesNotProtect(s, sequence); }
    forall scored, suppressed ensures ProtectedIds(t, scored, suppressed) == ProtectedIds(s, scored, suppressed) {}
  }

  lemma SequenceDoesNotProtect(s: StateSnapshot, sequence: nat)
    ensures forall id :: IsProtected(AtSequence(s, sequence), id) == IsProtected(s, id)
  {
    hide ById;
  }

  /** How many read-side updates a trace records. */
  function Updates(trace: seq<TraceEvent>): nat {
    if trace == [] then 0
    else Updates(Front(trace)) + if Last(trace).eventType == READ_SIDE_UPDATE then 1 else 0
  }

  lemma UpdatesExtend(trace: seq<TraceEvent>, e: TraceEvent)
    ensures Updates(trace + [e]) == Updates(trace) + if e.eventType == READ_SIDE_UPDATE then 1 else 0
  {
    assert Front(trace + [e]) == trace;
  }

  /** The adapter once the answer and any set change are recorded, before the read-side update. */
  function Reported(p: Platform, a: AdapterState, q: RetrievalQuery, answer: Answer): AdapterState {
    var completed := Record(p, a, RETRIEVAL_COMPLETED, BOTH, CompletedPayload(q, answer.result), Some(q.principalId)).next;
    ReportSetChange(p, completed, q, answer).next
  }

  lemma RecordQuietly(p: Platform, a: AdapterState, eventType: EventType, visibility: EventVisibility, payload: Fields,
                      actor: Option<string>)
    requires actor.Some? ==> NonBlank(actor.value)
    requires visibility == EVALUATOR || !ObjectPathHolds(Obj(payload), p.casefold)
    requires eventType != READ_SIDE_UPDATE
    ensures var step := Record(p, a, eventType, visibility, payload, actor);
            && step.outcome.Ok? && SameButSequence(a.state, step.next.state) && step.next.state == Tick(a.state)
            && Updates(step.next.trace) == Updates(a.trace)
  {
    hide Commit, ObjectPathHolds, Updates;
    CommitSucceeds(p, a, Tick(a.state), eventType, visibility, payload, actor);
    var event := Commit(p, a, Tick(a.state), eventType, visibility, payload, actor).outcome.value;
    UpdatesExtend(a.trace, event);
  }

  predicate AnswerShaped(answer: Answer) {
    PlainObservations(answer.result.observations)
  }

  lemma AnswersAreShaped(p: Platform, s: StateSnapshot, q: RetrievalQuery)
    ensures AnswerFor(p, s, q).Ok? ==> AnswerShaped(AnswerFor(p, s, q).value)
  {
    hide Ranking, Without, Among, Top, ById;
  }

  /**
   A retrieval that answers records the answer, leaves everything but the sequence alone, and then
   applies the read-side update; its result is the answer unless that update raises.
   */
  lemma RetrievalEffect(p: Platform, a: AdapterState, q: RetrievalQuery)
    requires AnswerFor(p, a.state, q).Ok?
    ensures var answer := AnswerFor(p, a.state, q).value;
            var reported := Reported(p, a, q, answer);
            var updated := ReadSideUpdate(p, reported, q, HitIds(answer.result));
            && SameButSequence(a.state, reported.state)
            && reported.state.nextEventSequence ==
               a.state.nextEventSequence + (if answer.removed == [] && answer.protected == {} then 1 else 2)
            && Updates(reported.trace) == Updates(a.trace)
            && Retrieval(p, a, q).next == updated.next
            && Retrieval(p, a, q).outcome ==
               match updated.outcome case Ok(_) => Ok(answer.result) case Err(error) => Err(error)
  {
    hide AnswerFor, Record, ReadSideUpdate, CompletedPayload, SetChangePayload, ObjectPathHolds, Updates, PlainObservations, NonBlank;
    AnswersAreShaped(p, a.state, q);
    var answer := AnswerFor(p, a.state, q).value;
    CompletedPasses(q, answer.result, p.casefold);
    RecordQuietly(p, a, RETRIEVAL_COMPLETED, BOTH, CompletedPayload(q, answer.result), Some(q.principalId));
    var b := Record(p, a, RETRIEVAL_COMPLETED, BOTH, CompletedPayload(q, answer.result), Some(q.principalId)).next;
    SetChangePasses(b.state, answer, p.casefold);
    RecordQuietly(p, b, RETRIEVAL_SET_CHANGE, BOTH, SetChangePayload(b.state, answer), Some(q.principalId));
  }

  // ----- calls that do not reconfigure the policy -----

  predicate Steady(op: Op) {
    !op.ConfigureOp?
  }

  predicate AllSteady(ops: seq<Op>) {
    forall i | 0 <= i < |ops| :: Steady(ops[i])
  }

  /** How far a call moves the clock. */
  function Ticks(op: Op): nat {
    if op.AdvanceOp? && op.steps > 0 then op.steps else 0
  }

  function Elapsed(ops: seq<Op>): nat {
    if ops == [] then 0 else Ticks(ops[0]) + Elapsed(ops[1..])
  }

  /** The snapshot at another sequence and time. */
  predicate SameButClock(s: StateSnapshot, t: StateSnapshot) {
    t == s.(nextEventSequence := t.nextEventSequence, logicalTime := t.logicalTime)
  }

  /** Any steady call but a retrieval moves nothing but the sequence and the clock. */
  lemma SteadyCallKeepsState(p: Platform, a: AdapterState, op: Op)
    requires Steady(op) && !op.RetrieveOp?
    ensures SameButClock(a.state, Apply(p, a, op).state)
    ensures Apply(p, a, op).state.logicalTime == a.state.logicalTime + Ticks(op)
  {
    hide BuildEvent, Join, ObjectPathHolds;
    match op
    case AdvanceOp(steps) =>
      if steps > 0 {
        var after := Tick(a.state).(logicalTime := a.state.logicalTime + steps);
        CommitSucceeds(p, a, after, STATE_HASH, EVALUATOR, map["logical_steps" := Int(steps)], None);
      }
    case _ =>
  }

  /** One that neither moves the clock nor records a read-side update. */
  predicate Quiet(op: Op) {
    Steady(op) && Ticks(op) == 0 && !(op.RecordOp? && op.eventType == READ_SIDE_UPDATE)
  }

  predicate AllQuiet(ops: seq<Op>) {
    forall i | 0 <= i < |ops| :: Quiet(ops[i])
  }

  /** Any quiet call but a retrieval leaves everything but the sequence alone. */
  lemma QuietCallKeepsState(p: Platform, a: AdapterState, op: Op)
    requires Quiet(op) && !op.RetrieveOp?
    ensures SameButSequence(a.state, Apply(p, a, op).state)
    ensures Updates(Apply(p, a, op).trace) == Updates(a.trace)
  {
    hide BuildEvent, Updates, Join;
    match op
    case AssembleOp(result) =>
      if HitsKnown(a.state, result) {
        var context := Join("\n", ContextLines(ById(a.state.sourceMemories), result));
        RecordAnything(p, a, CONTEXT_ASSEMBLED, BOTH, ContextPayload(result, context), None);
      }
    case RecordOp(eventType, visibility, payload, actor) =>
      RecordAnything(p, a, eventType, visibility, payload, actor);
    case AdvanceOp(steps) =>
  }

  lemma RecordAnything(p: Platform, a: AdapterState, eventType: EventType, visibility: EventVisibility, payload: Fields,
                       actor: Option<string>)
    requires eventType != READ_SIDE_UPDATE
    ensures var next := Record(p, a, eventType, visibility, payload, actor).next;
            SameButSequence(a.state, next.state) && Updates(next.trace) == Updates(a.trace)
  {
    hide Updates, BuildEvent;
    BuiltEventType(p, a.state, Tick(a.state), LastHash(a.trace), eventType, visibility, payload, actor);
    var built := BuildEvent(p, a.state, Tick(a.state), LastHash(a.trace), eventType, visibility, payload, actor);
    if built.Ok? {
      UpdatesExtend(a.trace, built.value);
    }
  }

  lemma BuiltEventType(p: Platform, before: StateSnapshot, after: StateSnapshot, previousHash: Option<string>,
                       eventType: EventType, visibility: EventVisibility, payload: Fields, actor: Option<string>)
    ensures var built := BuildEvent(p, before, after, previousHash, eventType, visibility, payload, actor);
            built.Ok? ==> built.value.eventType == eventType
  {
    hide NonBlank, StateToJson, EventMaterial, EventId, ContainsEvaluatorOnlyKey, Frozen;
  }
}
