/** What retained documents give back, whichever execution wrote them (replay.py). */
module Retained {
  import opened Basics
  import opened Json
  import opened Models
  import opened Decoding
  import opened Trace
  import opened ReferenceMemory
  import opened Replay

  // ----- reading documents -----

  datatype ReplayError =
    | Undecodable | RejectedTrace | Irreproducible | WrongFinalState | WrongSources | WrongOutputs | WrongAssessment | UnsafeDecision
    | Mislocalized | WrongOracle | ComparisonMismatch | CountMismatch

  function Readable<T>(r: Result<T, DecodeError>): Result<T, ReplayError> {
    match r case Ok(v) => Ok(v) case Err(_) => Err(Undecodable)
  }

  function ReadBool(m: Fields, key: string): Result<bool, DecodeError> {
    match Get(m, key) case Bool(b) => Ok(b) case _ => Err(BadField(key))
  }

  /** The identifiers of a recorded result's hits. */
  function RecordedIds(result: Json): Option<seq<string>> {
    if !result.Obj? || !Get(result.fields, "hits").Arr? then None
    else
      var hits := Get(result.fields, "hits").items;
      if forall i | 0 <= i < |hits| :: hits[i].Obj? && Get(hits[i].fields, "memory_id").Str?
      then Some(seq(|hits|, i requires 0 <= i < |hits| && hits[i].Obj? && Get(hits[i].fields, "memory_id").Str?
                              => Get(hits[i].fields, "memory_id").s))
      else None
  }

  predicate SameAt(event: Fields, name: string, document: Fields) {
    PyEq(Get(event, name), Get(document, name))
  }

  /** The events, their verification, and the state they rebuild. */
  function Reconstructed(p: Platform, initial: StateSnapshot, events: seq<Json>, finalState: Json)
    : Result<(seq<TraceEvent>, StateSnapshot), ReplayError>
  {
    var read :- Readable(ReadAll(events, v => EventFromJson(v)));
    if Verify(p, read).Fail? then Err(RejectedTrace)
    else
      match ReplayAll(p, initial, read)
      case Err(_) => Err(Irreproducible)
      case Ok(state) =>
        var expected :- Readable(StateFromJson(finalState));
        if state != expected then Err(WrongFinalState)
        else if state.sourceMemories != initial.sourceMemories then Err(WrongSources)
        else Ok((read, state))
  }

  // ----- what was written is read back -----

  function EventsToJson(events: seq<TraceEvent>): seq<Json> {
    seq(|events|, i requires 0 <= i < |events| => EventToJson(events[i]))
  }

  lemma ResultIds(result: RetrievalResult)
    ensures RecordedIds(ResultToJson(result)) == Some(HitIds(result))
  {
    var hits := Get(ResultToJson(result).fields, "hits").items;
    forall i | 0 <= i < |hits| ensures hits[i].Obj? && Get(hits[i].fields, "memory_id") == Str(result.hits[i].memoryId) {}
    assert RecordedIds(ResultToJson(result)).value == HitIds(result);
  }

  lemma CompletedFields(q: RetrievalQuery, result: RetrievalResult)
    ensures Get(ReferenceMemory.CompletedPayload(q, result), "query") == QueryToJson(q)
    ensures Get(ReferenceMemory.CompletedPayload(q, result), "result") == ResultToJson(result)
  {
    hide QueryToJson, ResultToJson;
  }

  lemma EventsReadBack(events: seq<TraceEvent>)
    ensures ReadAll(EventsToJson(events), v => EventFromJson(v)) == Ok(events)
  {
    hide EventToJson, EventFromJson;
    var read := v => EventFromJson(v);
    forall i | 0 <= i < |events| ensures read(EventsToJson(events)[i]) == Ok(events[i]) { EventRoundTrip(events[i]); }
    ReadAllPointwise(EventsToJson(events), events, read);
  }

  /** The documents rebuild the recorded events and final state. */
  lemma DocumentsReconstruct(p: Platform, initial: StateSnapshot, events: seq<TraceEvent>, final: StateSnapshot)
    requires Accepted(p, events) && ReplayAll(p, initial, events) == Ok(final) && final.sourceMemories == initial.sourceMemories
    ensures Reconstructed(p, initial, EventsToJson(events), StateToJson(final)) == Ok((events, final))
  {
    hide EventsToJson, StateToJson, StateFromJson, Verify, ReplayAll, ReadAll, EventFromJson;
    EventsReadBack(events);
    StateRoundTrip(final);
  }
}
