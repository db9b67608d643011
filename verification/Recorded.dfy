/** Which payloads a run of the adapter records, event type by event type. */
module Recorded {
  import opened Basics
  import opened Json
  import opened Bytes
  import opened Models
  import opened Trace
  import opened ReferenceMemory
  import opened AdapterRuns
  import opened Runs

  /** The payloads of the trace's events of one type, in order. */
  function PayloadsOf(trace: seq<TraceEvent>, t: EventType): seq<Fields> {
    if trace == [] then []
    else PayloadsOf(Front(trace), t) + if Last(trace).eventType == t then [Last(trace).payload] else []
  }

  /** What a call adds to them. */
  predicate Adds(before: AdapterState, after: AdapterState, t: EventType, added: seq<Fields>) {
    PayloadsOf(after.trace, t) == PayloadsOf(before.trace, t) + added
  }

  lemma AddsNothing(a: AdapterState, t: EventType)
    ensures Adds(a, a, t, [])
  {
    assert PayloadsOf(a.trace, t) + [] == PayloadsOf(a.trace, t);
  }

  lemma AddsInTurn(a: AdapterState, b: AdapterState, c: AdapterState, t: EventType, x: seq<Fields>, y: seq<Fields>)
    requires Adds(a, b, t, x) && Adds(b, c, t, y)
    ensures Adds(a, c, t, x + y)
  {
    assert PayloadsOf(a.trace, t) + x + y == PayloadsOf(a.trace, t) + (x + y);
  }

  function Only(yes: bool, payload: Fields): seq<Fields> {
    if yes then [payload] else []
  }

  lemma CommitRecords(p: Platform, a: AdapterState, after: StateSnapshot, eventType: EventType, visibility: EventVisibility,
                      payload: Fields, actor: Option<string>, t: EventType)
    ensures var step := Commit(p, a, after, eventType, visibility, payload, actor);
            Adds(a, step.next, t, Only(step.outcome.Ok? && eventType == t, payload))
  {
    hide BuildEvent, IsSha256;
    AddsNothing(a, t);
    var built := BuildEvent(p, a.state, after, LastHash(a.trace), eventType, visibility, payload, actor);
    if built.Ok? {
      CommittedEvent(p, a.state, after, LastHash(a.trace), eventType, visibility, payload, actor);
      assert Front(a.trace + [built.value]) == a.trace && Last(a.trace + [built.value]) == built.value;
      assert PayloadsOf(a.trace + [built.value], t) == PayloadsOf(a.trace, t) + Only(eventType == t, payload);
    }
  }

  lemma RecordRecords(p: Platform, a: AdapterState, eventType: EventType, visibility: EventVisibility, payload: Fields,
                      actor: Option<string>, t: EventType)
    ensures var step := Record(p, a, eventType, visibility, payload, actor);
            Adds(a, step.next, t, Only(step.outcome.Ok? && eventType == t, payload))
  {
    hide Commit, Adds;
    CommitRecords(p, a, Tick(a.state), eventType, visibility, payload, actor, t);
  }

  /** A record of another type adds nothing. */
  lemma RecordOther(p: Platform, a: AdapterState, eventType: EventType, visibility: EventVisibility, payload: Fields,
                    actor: Option<string>, t: EventType)
    requires eventType != t
    ensures Adds(a, Record(p, a, eventType, visibility, payload, actor).next, t, [])
  {
    hide Record, Adds;
    RecordRecords(p, a, eventType, visibility, payload, actor, t);
  }

  lemma FromNothing(a: AdapterState, b: AdapterState, t: EventType, added: seq<Fields>)
    requires PayloadsOf(a.trace, t) == [] && Adds(a, b, t, added)
    ensures PayloadsOf(b.trace, t) == added
  {
    assert [] + added == added;
  }

  lemma TwoAsks(a: AdapterState, b: AdapterState, c: AdapterState, t: EventType, x: seq<Fields>, y: seq<Fields>)
    requires PayloadsOf(a.trace, t) == [] && Adds(a, b, t, x) && Adds(b, c, t, y)
    ensures PayloadsOf(c.trace, t) == x + y
  {
    hide PayloadsOf, IsSha256, Adds;
    AddsInTurn(a, b, c, t, x, y);
    FromNothing(a, c, t, x + y);
  }

  lemma Grows(a: AdapterState, b: AdapterState, c: AdapterState, t: EventType, x: seq<Fields>, y: seq<Fields>)
    requires Adds(a, b, t, x) && Adds(b, c, t, y)
    ensures PayloadsOf(c.trace, t) == PayloadsOf(a.trace, t) + x + y
  {
    hide PayloadsOf, IsSha256;
  }

  lemma OneOfThree(xs: seq<Fields>, c: Fields, k: Fields, d: Fields)
    ensures xs + (Only(true, c) + Only(false, k)) + Only(false, d) == xs + [c]
    ensures xs + (Only(false, c) + Only(true, k)) + Only(false, d) == xs + [k]
    ensures xs + (Only(false, c) + Only(false, k)) + Only(true, d) == xs + [d]
  {
  }

  /** Read-side updates record nothing but read-side updates. */
  lemma UpdateRecords(p: Platform, a: AdapterState, q: RetrievalQuery, retrieved: seq<string>, t: EventType)
    requires t != READ_SIDE_UPDATE
    ensures Adds(a, ReadSideUpdate(p, a, q, retrieved).next, t, [])
  {
    hide Commit, Adds, StrSetting, CounterOf, SuppressedIds, EclipseState, EclipsePayload, CounterState, CounterPayload;
    AddsNothing(a, t);
    forall after: StateSnapshot, visibility, payload: Fields
      ensures Adds(a, Commit(p, a, after, READ_SIDE_UPDATE, visibility, payload, Some(q.principalId)).next, t, [])
    {
      CommitRecords(p, a, after, READ_SIDE_UPDATE, visibility, payload, Some(q.principalId), t);
    }
  }

  lemma ReportRecords(p: Platform, a: AdapterState, q: RetrievalQuery, answer: Answer, t: EventType)
    requires t != RETRIEVAL_SET_CHANGE
    ensures Adds(a, ReportSetChange(p, a, q, answer).next, t, [])
  {
    hide Record, Adds, SetChangePayload;
    AddsNothing(a, t);
    RecordRecords(p, a, RETRIEVAL_SET_CHANGE, BOTH, SetChangePayload(a.state, answer), Some(q.principalId), t);
  }

  /** A retrieval that returns has recorded its query and its result, once. */
  lemma RetrievalRecords(p: Platform, a: AdapterState, q: RetrievalQuery, t: EventType)
    requires t != READ_SIDE_UPDATE && t != RETRIEVAL_SET_CHANGE && Retrieval(p, a, q).outcome.Ok?
    ensures Adds(a, Retrieval(p, a, q).next, t,
                 Only(t == RETRIEVAL_COMPLETED, CompletedPayload(q, Retrieval(p, a, q).outcome.value)))
  {
    hide AnswerFor, Record, ReadSideUpdate, ReportSetChange, CompletedPayload, Adds;
    var answer := AnswerFor(p, a.state, q).value;
    var payload := CompletedPayload(q, answer.result);
    RecordRecords(p, a, RETRIEVAL_COMPLETED, BOTH, payload, Some(q.principalId), t);
    var b := Record(p, a, RETRIEVAL_COMPLETED, BOTH, payload, Some(q.principalId)).next;
    ReportRecords(p, b, q, answer, t);
    var c := ReportSetChange(p, b, q, answer).next;
    UpdateRecords(p, c, q, HitIds(answer.result), t);
    var d := ReadSideUpdate(p, c, q, HitIds(answer.result)).next;
    var added := Only(t == RETRIEVAL_COMPLETED, payload);
    AddsInTurn(a, b, c, t, added, []);
    AddsInTurn(a, c, d, t, added + [], []);
    assert added + [] == added;
  }

  lemma AssembleRecords(p: Platform, a: AdapterState, result: RetrievalResult, t: EventType)
    requires Assemble(p, a, result).outcome.Ok?
    ensures Adds(a, Assemble(p, a, result).next, t,
                 Only(t == CONTEXT_ASSEMBLED, ContextPayload(result, Assemble(p, a, result).outcome.value)))
  {
    hide Record, Adds, ContextLines, ById, ContextPayload;
    RecordRecords(p, a, CONTEXT_ASSEMBLED, BOTH, ContextPayload(result, Assemble(p, a, result).outcome.value), None, t);
  }

  lemma AskRecordsOf(p: Platform, a: AdapterState, q: RetrievalQuery, t: EventType)
    requires Ask(p, a, q).Ok? && t != READ_SIDE_UPDATE && t != RETRIEVAL_SET_CHANGE
    ensures var r := Ask(p, a, q).value;
            Adds(a, r.next, t, Only(t == RETRIEVAL_COMPLETED, CompletedPayload(q, r.result))
                               + Only(t == CONTEXT_ASSEMBLED, ContextPayload(r.result, r.context)))
  {
    hide Retrieval, Assemble, Adds, CompletedPayload, ContextPayload, Only;
    var b, r := Retrieval(p, a, q).next, Ask(p, a, q).value;
    RetrievalRecords(p, a, q, t);
    AssembleRecords(p, b, r.result, t);
    AddsInTurn(a, b, r.next, t, Only(t == RETRIEVAL_COMPLETED, CompletedPayload(q, r.result)),
               Only(t == CONTEXT_ASSEMBLED, ContextPayload(r.result, r.context)));
  }

  /** An ask that returns has recorded its query with its result, and the assembled context, once each. */
  lemma AskRecords(p: Platform, a: AdapterState, q: RetrievalQuery)
    requires Ask(p, a, q).Ok?
    ensures var r := Ask(p, a, q).value;
            && Adds(a, r.next, RETRIEVAL_COMPLETED, [CompletedPayload(q, r.result)])
            && Adds(a, r.next, CONTEXT_ASSEMBLED, [ContextPayload(r.result, r.context)])
            && Adds(a, r.next, DECISION, [])
  {
    hide Ask, Adds, CompletedPayload, ContextPayload;
    var r := Ask(p, a, q).value;
    AskRecordsOf(p, a, q, RETRIEVAL_COMPLETED);
    AskRecordsOf(p, a, q, CONTEXT_ASSEMBLED);
    AskRecordsOf(p, a, q, DECISION);
    assert [CompletedPayload(q, r.result)] + [] == [CompletedPayload(q, r.result)];
    assert [] + [ContextPayload(r.result, r.context)] == [ContextPayload(r.result, r.context)];
    var none: seq<Fields> := [];
    assert none + none == none;
  }

  lemma ConfigureRecords(p: Platform, a: AdapterState, policy: PolicyConfiguration, t: EventType)
    requires t != POLICY_CONFIGURED
    ensures Adds(a, Configure(p, a, policy).next, t, [])
  {
    hide Commit, PolicyAccepted, ById, Adds;
    AddsNothing(a, t);
    CommitRecords(p, a, Tick(a.state).(policy := policy), POLICY_CONFIGURED, EVALUATOR, PolicyPayload(policy), None, t);
  }

  /** Opening and configuring records none of what an arm's outputs are checked against. */
  lemma BeginRecords(p: Platform, initial: StateSnapshot, start: Fields, policy: PolicyConfiguration, t: EventType)
    requires Begin(p, initial, start, policy).Ok? && t != EPISODE_STARTED && t != POLICY_CONFIGURED
    ensures PayloadsOf(Begin(p, initial, start, policy).value.trace, t) == []
  {
    hide Record, Configure, PolicyAccepted, ById, Adds, IsSha256;
    var opening := Fresh(initial);
    var a := Record(p, opening, EPISODE_STARTED, EVALUATOR, start, None).next;
    RecordRecords(p, opening, EPISODE_STARTED, EVALUATOR, start, None, t);
    ConfigureRecords(p, a, policy, t);
    AddsInTurn(opening, a, Configure(p, a, policy).next, t, [], []);
    NothingAdded(opening, Configure(p, a, policy).next, t);
  }

  lemma NothingAdded(a: AdapterState, b: AdapterState, t: EventType)
    requires a.trace == [] && Adds(a, b, t, [] + [])
    ensures PayloadsOf(b.trace, t) == []
  {
  }

  /** The trace holds none of the events an arm's outputs are checked against. */
  predicate Unrecorded(trace: seq<TraceEvent>) {
    PayloadsOf(trace, RETRIEVAL_COMPLETED) == [] && PayloadsOf(trace, CONTEXT_ASSEMBLED) == [] && PayloadsOf(trace, DECISION) == []
  }

  lemma BeginUnrecorded(p: Platform, initial: StateSnapshot, start: Fields, policy: PolicyConfiguration)
    requires Begin(p, initial, start, policy).Ok?
    ensures Unrecorded(Begin(p, initial, start, policy).value.trace)
  {
    hide Begin, PayloadsOf;
    BeginRecords(p, initial, start, policy, RETRIEVAL_COMPLETED);
    BeginRecords(p, initial, start, policy, CONTEXT_ASSEMBLED);
    BeginRecords(p, initial, start, policy, DECISION);
  }
}
