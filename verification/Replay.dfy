/** Reconstructing a final state from events alone (replay.py). */
module Replay {
  import opened Basics
  import opened Json
  import opened Models
  import opened Decoding
  import opened Trace

  /** Why a replay is refused. */
  datatype ArtifactError = StaleEvent | BadPayload | UnsupportedTransition | TransitionMismatch

  function ReadPayload<T>(value: Result<T, DecodeError>): Result<T, ArtifactError> {
    match value case Ok(v) => Ok(v) case Err(_) => Err(BadPayload)
  }

  function ReconstructPolicy(s: StateSnapshot, payload: Fields): Result<StateSnapshot, ArtifactError> {
    var policy :- ReadPayload(PolicyFromJson(Get(payload, "policy")));
    Ok(s.(policy := policy, nextEventSequence := s.nextEventSequence + 1))
  }

  function ReconstructCounter(s: StateSnapshot, payload: Fields): Result<StateSnapshot, ArtifactError> {
    var counter :- ReadPayload(ReadInt(payload, "counter"));
    var matched :- ReadPayload(ReadString(payload, "matched_event"));
    if matched !in {"hidden", "sham"} then Err(UnsupportedTransition)
    else Ok(s.(derivedState := map["shared_access_counter" := Int(counter)], nextEventSequence := s.nextEventSequence + 1))
  }

  function ReconstructEclipse(s: StateSnapshot, payload: Fields): Result<StateSnapshot, ArtifactError> {
    var trigger :- ReadPayload(ReadString(payload, "trigger_memory_id"));
    var suppressed :- ReadPayload(ReadString(payload, "suppressed_memory_id"));
    var tenant :- ReadPayload(ReadString(payload, "tenant_id"));
    var count :- ReadPayload(ReadInt(payload, "interaction_count"));
    Ok(s.(derivedState := map["suppressed_memory_ids" := Arr([Str(suppressed)]),
                              "trigger_memory_ids" := Arr([Str(trigger)]), "tenant_id" := Str(tenant)],
          policyState := map["interaction_count" := Int(count)],
          nextEventSequence := s.nextEventSequence + 1))
  }

  /** The state an event's type and payload prescribe. */
  function Reconstruct(s: StateSnapshot, eventType: EventType, payload: Fields): Result<StateSnapshot, ArtifactError> {
    match eventType
    case POLICY_CONFIGURED => ReconstructPolicy(s, payload)
    case READ_SIDE_UPDATE =>
      var operation := Get(payload, "operation");
      if operation == Str("set_shared_access_counter") then ReconstructCounter(s, payload)
      else if operation == Str("set_memory_eclipse") then ReconstructEclipse(s, payload)
      else Err(UnsupportedTransition)
    case _ => Ok(s.(nextEventSequence := s.nextEventSequence + 1))
  }

  /** `_apply_event` */
  function ApplyEvent(p: Platform, s: StateSnapshot, e: TraceEvent): Result<StateSnapshot, ArtifactError> {
    if e.stateHashBefore != StateHash(p, s) then
      Err(StaleEvent)
    else
      var reconstructed :- Reconstruct(s, e.eventType, e.payload);
      if e.stateHashAfter != StateHash(p, reconstructed) then Err(TransitionMismatch) else Ok(reconstructed)
  }

  function ReplayAll(p: Platform, initial: StateSnapshot, events: seq<TraceEvent>): Result<StateSnapshot, ArtifactError> {
    if events == [] then
      Ok(initial)
    else
      var s :- ReplayAll(p, initial, Front(events));
      ApplyEvent(p, s, Last(events))
  }

  lemma {:induction false} RefusedPrefixDecides(p: Platform, initial: StateSnapshot, events: seq<TraceEvent>, n: nat)
    requires n <= |events| && ReplayAll(p, initial, events[..n]).Err?
    ensures ReplayAll(p, initial, events) == ReplayAll(p, initial, events[..n])
    decreases |events|
  {
    hide ApplyEvent;
    if n < |events| {
      assert Front(events)[..n] == events[..n];
      RefusedPrefixDecides(p, initial, Front(events), n);
    } else {
      assert events[..n] == events;
    }
  }

  /** The replay after one more event. */
  lemma ReplayExtends(p: Platform, initial: StateSnapshot, events: seq<TraceEvent>, e: TraceEvent)
    ensures ReplayAll(p, initial, events + [e]) ==
            match ReplayAll(p, initial, events) case Ok(s) => ApplyEvent(p, s, e) case Err(error) => Err(error)
  {
    hide ApplyEvent;
    assert Front(events + [e]) == events;
  }

  /** `_replay_events` */
  method ReplayEvents(p: Platform, initial: StateSnapshot, events: seq<TraceEvent>)
    returns (final: Result<StateSnapshot, ArtifactError>)
    ensures final == ReplayAll(p, initial, events)
  {
    hide ApplyEvent;
    var reconstructed := initial;
    for i := 0 to |events|
      invariant ReplayAll(p, initial, events[..i]) == Ok(reconstructed)
    {
      ReplayExtends(p, initial, events[..i], events[i]);
      assert events[..i] + [events[i]] == events[..i + 1];
      var applied := ApplyEvent(p, reconstructed, events[i]);
      if applied.Err? {
        RefusedPrefixDecides(p, initial, events, i + 1);
        return applied;
      }
      reconstructed := applied.value;
    }
    assert events[..|events|] == events;
    return Ok(reconstructed);
  }

  /** What no accepted replay changes. */
  predicate SameWorld(s: StateSnapshot, t: StateSnapshot) {
    && s.snapshotVersion == t.snapshotVersion && s.episode == t.episode && s.sourceMemories == t.sourceMemories
    && s.indexes == t.indexes && s.queues == t.queues && s.logicalTime == t.logicalTime
  }

  predicate OneStepOn(s: StateSnapshot, t: StateSnapshot) {
    SameWorld(s, t) && t.nextEventSequence == s.nextEventSequence + 1
  }

  lemma ReconstructPolicyStep(s: StateSnapshot, payload: Fields)
    ensures ReconstructPolicy(s, payload).Ok? ==> OneStepOn(s, ReconstructPolicy(s, payload).value)
  {
    hide PolicyFromJson;
  }

  lemma ReconstructCounterStep(s: StateSnapshot, payload: Fields)
    ensures ReconstructCounter(s, payload).Ok? ==> OneStepOn(s, ReconstructCounter(s, payload).value)
  {
    hide ReadInt, ReadString;
  }

  lemma ReconstructEclipseStep(s: StateSnapshot, payload: Fields)
    ensures ReconstructEclipse(s, payload).Ok? ==> OneStepOn(s, ReconstructEclipse(s, payload).value)
  {
    hide ReadInt, ReadString;
  }

  lemma ReconstructPreservesWorld(s: StateSnapshot, eventType: EventType, payload: Fields)
    requires Reconstruct(s, eventType, payload).Ok?
    ensures OneStepOn(s, Reconstruct(s, eventType, payload).value)
  {
    hide ReconstructPolicy, ReconstructCounter, ReconstructEclipse;
    ReconstructPolicyStep(s, payload);
    ReconstructCounterStep(s, payload);
    ReconstructEclipseStep(s, payload);
  }

  /** Whatever the events, an accepted replay moves nothing but the policy, the adaptive state and the sequence. */
  lemma {:induction false} AcceptedReplayPreservesWorld(p: Platform, initial: StateSnapshot, events: seq<TraceEvent>)
    requires ReplayAll(p, initial, events).Ok?
    ensures SameWorld(initial, ReplayAll(p, initial, events).value)
    ensures ReplayAll(p, initial, events).value.nextEventSequence == initial.nextEventSequence + |events|
  {
    hide Reconstruct, StateHash;
    if events != [] {
      AcceptedReplayPreservesWorld(p, initial, Front(events));
      var s := ReplayAll(p, initial, Front(events)).value;
      ReconstructPreservesWorld(s, Last(events).eventType, Last(events).payload);
    }
  }

  // ----- what an accepted replay means -----

  /** The counter is set to the event's, and what it says of the event it matched is one of the two possibilities. */
  predicate SetsCounter(t: StateSnapshot, payload: Fields) {
    && Get(payload, "operation") == Str("set_shared_access_counter")
    && Get(payload, "counter").Int? && Get(payload, "matched_event") in {Str("hidden"), Str("sham")}
    && t.derivedState == map["shared_access_counter" := Get(payload, "counter")]
  }

  /** The one memory named is suppressed, for the one trigger and tenant named, at the interaction counted. */
  predicate SetsEclipse(t: StateSnapshot, payload: Fields) {
    && Get(payload, "operation") == Str("set_memory_eclipse")
    && Get(payload, "suppressed_memory_id").Str? && Get(payload, "trigger_memory_id").Str? && Get(payload, "tenant_id").Str?
    && Get(payload, "interaction_count").Int?
    && t.derivedState == map["suppressed_memory_ids" := Arr([Get(payload, "suppressed_memory_id")]),
                             "trigger_memory_ids" := Arr([Get(payload, "trigger_memory_id")]),
                             "tenant_id" := Get(payload, "tenant_id")]
    && t.policyState == map["interaction_count" := Get(payload, "interaction_count")]
  }

  /** The second state is what the event makes of the first: nothing else moves than what its type and payload say. */
  predicate Follows(s: StateSnapshot, t: StateSnapshot, eventType: EventType, payload: Fields) {
    hide PolicyFromJson;
    && OneStepOn(s, t)
    && (if eventType == POLICY_CONFIGURED then PolicyFromJson(Get(payload, "policy")) == Ok(t.policy) else t.policy == s.policy)
    && (if eventType == READ_SIDE_UPDATE then
          (SetsCounter(t, payload) && t.policyState == s.policyState) || SetsEclipse(t, payload)
        else
          t.derivedState == s.derivedState && t.policyState == s.policyState)
  }

  lemma FollowsCounter(s: StateSnapshot, t: StateSnapshot, payload: Fields)
    ensures ReconstructCounter(s, payload) == Ok(t) && Get(payload, "operation") == Str("set_shared_access_counter") <==>
            OneStepOn(s, t) && t.policy == s.policy && t.policyState == s.policyState && SetsCounter(t, payload)
  {
  }

  lemma FollowsEclipse(s: StateSnapshot, t: StateSnapshot, payload: Fields)
    ensures ReconstructEclipse(s, payload) == Ok(t) && Get(payload, "operation") == Str("set_memory_eclipse") <==>
            OneStepOn(s, t) && t.policy == s.policy && SetsEclipse(t, payload)
  {
  }

  lemma ReconstructIff(s: StateSnapshot, t: StateSnapshot, eventType: EventType, payload: Fields)
    ensures Reconstruct(s, eventType, payload) == Ok(t) <==> Follows(s, t, eventType, payload)
  {
    hide PolicyFromJson, ReconstructCounter, ReconstructEclipse, SetsCounter, SetsEclipse;
    FollowsCounter(s, t, payload);
    FollowsEclipse(s, t, payload);
    OperationsDiffer(t, payload);
  }

  lemma OperationsDiffer(t: StateSnapshot, payload: Fields)
    ensures SetsCounter(t, payload) ==> Get(payload, "operation") == Str("set_shared_access_counter")
    ensures SetsEclipse(t, payload) ==> Get(payload, "operation") == Str("set_memory_eclipse")
    ensures "set_shared_access_counter" != "set_memory_eclipse"
  {
    assert "set_shared_access_counter"[4] != "set_memory_eclipse"[4];
  }

  /** The event leads from the first state to the second, and says so in its two state hashes. */
  predicate Leads(p: Platform, s: StateSnapshot, e: TraceEvent, t: StateSnapshot) {
    hide StateHash;
    && e.stateHashBefore == StateHash(p, s) && e.stateHashAfter == StateHash(p, t) && Follows(s, t, e.eventType, e.payload)
  }

  /** The events lead from state to state, from the first to the last. */
  predicate Threads(p: Platform, states: seq<StateSnapshot>, events: seq<TraceEvent>) {
    hide Leads;
    |states| == |events| + 1 && forall i | 0 <= i < |events| :: Leads(p, states[i], events[i], states[i + 1])
  }

  lemma AppliedIff(p: Platform, s: StateSnapshot, e: TraceEvent, t: StateSnapshot)
    ensures ApplyEvent(p, s, e) == Ok(t) <==> Leads(p, s, e, t)
  {
    hide StateHash, Reconstruct, Follows;
    ReconstructIff(s, t, e.eventType, e.payload);
    if ApplyEvent(p, s, e).Ok? {
      ReconstructIff(s, ApplyEvent(p, s, e).value, e.eventType, e.payload);
    }
  }

  lemma {:induction false} AcceptedThreads(p: Platform, initial: StateSnapshot, events: seq<TraceEvent>)
    returns (states: seq<StateSnapshot>)
    requires ReplayAll(p, initial, events).Ok?
    ensures Threads(p, states, events) && states[0] == initial && Last(states) == ReplayAll(p, initial, events).value
  {
    hide ApplyEvent, Leads;
    if events == [] {
      states := [initial];
    } else {
      var final := ReplayAll(p, initial, events).value;
      var front := AcceptedThreads(p, initial, Front(events));
      AppliedIff(p, Last(front), Last(events), final);
      states := front + [final];
      forall i | 0 <= i < |events| ensures Leads(p, states[i], events[i], states[i + 1]) {
        if i < |events| - 1 {
          assert Leads(p, front[i], Front(events)[i], front[i + 1]);
        }
      }
    }
  }

  lemma {:induction false} ThreadsAccepted(p: Platform, states: seq<StateSnapshot>, events: seq<TraceEvent>)
    requires Threads(p, states, events)
    ensures ReplayAll(p, states[0], events) == Ok(Last(states))
    decreases |events|
  {
    hide ApplyEvent, Leads;
    if events != [] {
      var n := |events| - 1;
      forall i | 0 <= i < n ensures Leads(p, Front(states)[i], Front(events)[i], Front(states)[i + 1]) {
        assert Leads(p, states[i], events[i], states[i + 1]);
      }
      ThreadsAccepted(p, Front(states), Front(events));
      assert Leads(p, states[n], events[n], states[n + 1]);
      AppliedIff(p, states[n], events[n], states[n + 1]);
    }
  }

  /**
   A list of events replays to a final state exactly when there is a state before and after each event, from
   the initial to the final one, such that each event names the hashes of its two states and the second is
   what its type and payload make of the first.
   */
  lemma ReplayAcceptedIff(p: Platform, initial: StateSnapshot, events: seq<TraceEvent>, final: StateSnapshot)
    ensures ReplayAll(p, initial, events) == Ok(final) <==>
            exists states :: Threads(p, states, events) && states[0] == initial && Last(states) == final
  {
    hide ApplyEvent, Leads;
    if ReplayAll(p, initial, events) == Ok(final) {
      var states := AcceptedThreads(p, initial, events);
    }
    forall states | Threads(p, states, events) && states[0] == initial && Last(states) == final
      ensures ReplayAll(p, initial, events) == Ok(final)
    {
      ThreadsAccepted(p, states, events);
    }
  }

  /** So the recorded state hashes of a replayable trace link up. */
  lemma ReplayedHashesLink(p: Platform, initial: StateSnapshot, events: seq<TraceEvent>, i: nat)
    requires ReplayAll(p, initial, events).Ok? && i + 1 < |events|
    ensures events[0].stateHashBefore == StateHash(p, initial) && events[i].stateHashAfter == events[i + 1].stateHashBefore
    ensures Last(events).stateHashAfter == StateHash(p, ReplayAll(p, initial, events).value)
  {
    hide ReplayAll, StateHash, Follows;
    var states := AcceptedThreads(p, initial, events);
    assert Leads(p, states[0], events[0], states[1]) && Leads(p, states[i], events[i], states[i + 1]);
    assert Leads(p, states[i + 1], events[i + 1], states[i + 2]);
    assert Leads(p, states[|events| - 1], events[|events| - 1], states[|events|]);
  }
}
