/**
 Runs of the reference adapter against the two independent readers of its trace: the verifier of
 trace.py and the replayer of replay.py.
 */
module AdapterRuns {
  import opened Basics
  import opened Json
  import opened Text
  import opened Bytes
  import opened Canonical
  import opened Models
  import opened Decoding
  import opened Trace
  import opened ReferenceMemory
  import opened Replay

  // ----- event identifiers -----

  lemma EventIdInjective(episode: string, m: nat, n: nat)
    requires EventId(episode, m) == EventId(episode, n)
    ensures m == n
  {
    hide Pad4;
    var stem := episode + "-event-";
    assert (stem + Pad4(m))[|stem|..] == Pad4(m) && (stem + Pad4(n))[|stem|..] == Pad4(n);
    Pad4Injective(m, n);
  }

  /** The episode's identifier, then the event's number in decimal: four digits, or more without a leading zero. */
  lemma EventIdReads(episode: string, n: nat)
    ensures var stem, id := episode + "-event-", EventId(episode, n);
            && stem <= id && |id| >= |stem| + 4 && DigitsValue(id[|stem|..]) == n
            && (forall i | |stem| <= i < |id| :: '0' <= id[i] <= '9') && (|id| > |stem| + 4 ==> id[|stem|] != '0')
  {
    hide Pad4, DigitsValue;
    Pad4Reads(n);
    var stem, id := episode + "-event-", EventId(episode, n);
    assert id == stem + Pad4(n);
    assert id[|stem|..] == Pad4(n);
    assert forall i | |stem| <= i < |id| :: id[i] == Pad4(n)[i - |stem|];
  }

  // ----- the invariant of every run -----

  /**
   The trace of an adapter that started at sequence `start`: contiguous, of one episode, closed by
   the hash and the time of the current state, and accepted when it starts at zero.
   */
  ghost predicate Linked(p: Platform, start: nat, a: AdapterState) {
    && a.state.nextEventSequence == start + |a.trace|
    && Numbered(a.state.episode.episodeId, start, a.trace)
    && (a.trace != [] ==>
          && Last(a.trace).stateHashAfter == StateHash(p, a.state)
          && Last(a.trace).logicalTime <= a.state.logicalTime)
    && (start == 0 ==> Accepted(p, a.trace))
  }

  ghost predicate Numbered(episode: string, start: nat, trace: seq<TraceEvent>) {
    forall i | 0 <= i < |trace| ::
      trace[i].sequence == start + i && trace[i].episodeId == episode && trace[i].eventId == EventId(episode, start + i)
  }

  /** The replayer, started at `initial`, reaches the adapter's own state. */
  ghost predicate Replays(p: Platform, initial: StateSnapshot, a: AdapterState) {
    ReplayAll(p, initial, a.trace) == Ok(a.state)
  }

  /** What every commit of the adapter does to the snapshot. */
  predicate Successor(before: StateSnapshot, after: StateSnapshot) {
    && after.episode == before.episode
    && after.nextEventSequence == before.nextEventSequence + 1
    && after.logicalTime >= before.logicalTime
  }

  /** The event a successful commit appends. */
  lemma CommittedEvent(p: Platform, before: StateSnapshot, after: StateSnapshot, previousHash: Option<string>,
                       eventType: EventType, visibility: EventVisibility, payload: Fields, actor: Option<string>)
    requires BuildEvent(p, before, after, previousHash, eventType, visibility, payload, actor).Ok?
    ensures var e := BuildEvent(p, before, after, previousHash, eventType, visibility, payload, actor).value;
            && e.eventId == EventId(before.episode.episodeId, before.nextEventSequence)
            && e.episodeId == before.episode.episodeId && e.sequence == before.nextEventSequence
            && e.logicalTime == after.logicalTime && e.eventType == eventType && e.visibility == visibility
            && e.actorPrincipalId == actor && e.payload == payload && e.previousEventHash == previousHash
            && e.stateHashBefore == StateHash(p, before) && e.stateHashAfter == StateHash(p, after)
            && e.eventHash == p.digest(Obj(EventMaterial(DraftOf(e), previousHash)))
            && RequireVisibility(p, visibility, payload).Pass?
  {
    hide NonBlank, StateToJson, EventMaterial, EventId, ContainsEvaluatorOnlyKey, Frozen;
  }

  /** A committed event passes its check at the end of an accepted trace. */
  lemma CommitIsAccepted(p: Platform, a: AdapterState, e: TraceEvent)
    requires Linked(p, 0, a)
    requires e.eventId == EventId(a.state.episode.episodeId, a.state.nextEventSequence)
    requires e.episodeId == a.state.episode.episodeId && e.sequence == a.state.nextEventSequence
    requires e.logicalTime >= a.state.logicalTime && e.stateHashBefore == StateHash(p, a.state)
    requires IsSha256(e.stateHashAfter) && e.previousEventHash == LastHash(a.trace)
    requires e.eventHash == p.digest(Obj(EventMaterial(DraftOf(e), e.previousEventHash)))
    requires RequireVisibility(p, e.visibility, e.payload).Pass?
    ensures Accepted(p, a.trace + [e])
  {
    hide EventMaterial, StateToJson, EventId, IsSha256, RequireVisibility, Verify;
    VerifyExtends(p, a.trace, e);
    forall i | 0 <= i < |a.trace| ensures a.trace[i].eventId != e.eventId {
      if a.trace[i].eventId == e.eventId {
        EventIdInjective(a.state.episode.episodeId, i, |a.trace|);
      }
    }
    assert e.eventId !in EventIds(a.trace);
    assert (a.trace + [e])[0].episodeId == e.episodeId;
  }

  /** Every commit keeps the trace linked, and replayable when the replayer reconstructs its state. */
  lemma CommitSound(p: Platform, start: nat, initial: StateSnapshot, a: AdapterState, after: StateSnapshot,
                    eventType: EventType, visibility: EventVisibility, payload: Fields, actor: Option<string>)
    requires Linked(p, start, a) && Successor(a.state, after)
    ensures var next := Commit(p, a, after, eventType, visibility, payload, actor).next;
            && Linked(p, start, next)
            && a.trace <= next.trace
            && (Replays(p, initial, a) && Reconstruct(a.state, eventType, payload) == Ok(after) ==> Replays(p, initial, next))
  {
    hide BuildEvent, StateToJson, EventMaterial, IsSha256, Reconstruct, ReplayAll, RequireVisibility, Verify, EventId;
    var built := BuildEvent(p, a.state, after, LastHash(a.trace), eventType, visibility, payload, actor);
    if built.Ok? {
      CommittedEvent(p, a.state, after, LastHash(a.trace), eventType, visibility, payload, actor);
      var e := built.value;
      ReplayExtends(p, initial, a.trace, e);
      if start == 0 {
        CommitIsAccepted(p, a, e);
      }
    }
  }

  /** The invariant of a run, with the replayer's agreement while every call so far was replayable. */
  ghost predicate Sound(p: Platform, start: nat, initial: StateSnapshot, before: AdapterState, after: AdapterState,
                        replayable: bool) {
    && Linked(p, start, after)
    && before.trace <= after.trace
    && (replayable && Replays(p, initial, before) ==> Replays(p, initial, after))
  }

  predicate TraceOnly(eventType: EventType) {
    eventType != POLICY_CONFIGURED && eventType != READ_SIDE_UPDATE
  }

  lemma RecordSound(p: Platform, start: nat, initial: StateSnapshot, a: AdapterState, eventType: EventType,
                    visibility: EventVisibility, payload: Fields, actor: Option<string>)
    requires Linked(p, start, a)
    ensures Sound(p, start, initial, a, Record(p, a, eventType, visibility, payload, actor).next, TraceOnly(eventType))
  {
    hide Commit, Linked, Replays, ReconstructPolicy, ReconstructCounter, ReconstructEclipse;
    CommitSound(p, start, initial, a, Tick(a.state), eventType, visibility, payload, actor);
  }

  lemma ConfigureSound(p: Platform, start: nat, initial: StateSnapshot, a: AdapterState, policy: PolicyConfiguration)
    requires Linked(p, start, a)
    ensures Sound(p, start, initial, a, Configure(p, a, policy).next, true)
  {
    hide Commit, Linked, Replays, PolicyAccepted, PolicyToJson, PolicyFromJson;
    var after := Tick(a.state).(policy := policy);
    PolicyRoundTrip(policy);
    assert Get(PolicyPayload(policy), "policy") == PolicyToJson(policy);
    CommitSound(p, start, initial, a, after, POLICY_CONFIGURED, EVALUATOR, PolicyPayload(policy), None);
  }

  lemma AdvanceSound(p: Platform, start: nat, initial: StateSnapshot, a: AdapterState, steps: int)
    requires Linked(p, start, a)
    ensures Sound(p, start, initial, a, Advance(p, a, steps).next, steps <= 0)
  {
    hide Commit, Linked, Replays;
    if steps > 0 {
      var after := Tick(a.state).(logicalTime := a.state.logicalTime + steps);
      CommitSound(p, start, initial, a, after, STATE_HASH, EVALUATOR, map["logical_steps" := Int(steps)], None);
    }
  }

  lemma AssembleSound(p: Platform, start: nat, initial: StateSnapshot, a: AdapterState, result: RetrievalResult)
    requires Linked(p, start, a)
    ensures Sound(p, start, initial, a, Assemble(p, a, result).next, true)
  {
    hide Record, Linked, Replays, Join;
    if HitsKnown(a.state, result) {
      var context := Join("\n", ContextLines(ById(a.state.sourceMemories), result));
      RecordSound(p, start, initial, a, CONTEXT_ASSEMBLED, BOTH, ContextPayload(result, context), None);
    }
  }

  lemma CounterPayloadReconstructs(s: StateSnapshot, counter: int, hidden: bool)
    ensures Reconstruct(s, READ_SIDE_UPDATE, CounterPayload(counter, hidden)) == Ok(CounterState(s, counter))
  {
  }

  lemma EclipsePayloadReconstructs(s: StateSnapshot, trigger: string, suppressed: string, tenant: string, count: int)
    ensures Reconstruct(s, READ_SIDE_UPDATE, EclipsePayload(trigger, suppressed, tenant, count)) ==
            Ok(EclipseState(s, trigger, suppressed, tenant, count))
  {
    var payload := EclipsePayload(trigger, suppressed, tenant, count);
    assert Get(payload, "operation") == Str("set_memory_eclipse");
    assert Strings([suppressed]) == Arr([Str(suppressed)]) && Strings([trigger]) == Arr([Str(trigger)]);
  }

  lemma CounterUpdateSound(p: Platform, start: nat, initial: StateSnapshot, a: AdapterState, q: RetrievalQuery,
                           retrieved: seq<string>)
    requires Linked(p, start, a)
    ensures Sound(p, start, initial, a, CounterUpdate(p, a, q, retrieved).next, true)
  {
    hide Commit, Linked, Replays, Reconstruct, CounterPayload, CounterOf, StrSetting;
    if CounterOf(a.state.derivedState).Ok? {
      var prior := CounterOf(a.state.derivedState).value;
      forall counter: int, hidden: bool
        ensures Sound(p, start, initial, a,
                      Commit(p, a, CounterState(a.state, counter), READ_SIDE_UPDATE, EVALUATOR,
                             CounterPayload(counter, hidden), Some(q.principalId)).next, true)
      {
        CounterPayloadReconstructs(a.state, counter, hidden);
        CommitSound(p, start, initial, a, CounterState(a.state, counter), READ_SIDE_UPDATE, EVALUATOR,
                    CounterPayload(counter, hidden), Some(q.principalId));
      }
    }
  }

  lemma EclipseUpdateSound(p: Platform, start: nat, initial: StateSnapshot, a: AdapterState, q: RetrievalQuery,
                           retrieved: seq<string>)
    requires Linked(p, start, a)
    ensures Sound(p, start, initial, a, EclipseUpdate(p, a, q, retrieved).next, true)
  {
    hide Commit, Linked, Replays, Reconstruct, EclipsePayload, EclipseState, SuppressedIds, StrSetting;
    var s := a.state;
    var trigger, suppressed := StrSetting(s.policy, "trigger_memory_id"), StrSetting(s.policy, "suppressed_memory_id");
    if trigger.Some? && suppressed.Some? {
      var prior := if "interaction_count" in s.policyState && s.policyState["interaction_count"].Int?
                   then s.policyState["interaction_count"].n else 0;
      var after := EclipseState(s, trigger.value, suppressed.value, q.tenantId, prior + 1);
      assert Successor(s, after) by { EclipseSuccessor(s, trigger.value, suppressed.value, q.tenantId, prior + 1); }
      EclipsePayloadReconstructs(s, trigger.value, suppressed.value, q.tenantId, prior + 1);
      CommitSound(p, start, initial, a, after, READ_SIDE_UPDATE, BOTH,
                  EclipsePayload(trigger.value, suppressed.value, q.tenantId, prior + 1), Some(q.principalId));
    }
  }

  lemma EclipseSuccessor(s: StateSnapshot, trigger: string, suppressed: string, tenant: string, count: int)
    ensures Successor(s, EclipseState(s, trigger, suppressed, tenant, count))
  {
  }

  lemma ReadSideUpdateSound(p: Platform, start: nat, initial: StateSnapshot, a: AdapterState, q: RetrievalQuery,
                            retrieved: seq<string>)
    requires Linked(p, start, a)
    ensures Sound(p, start, initial, a, ReadSideUpdate(p, a, q, retrieved).next, true)
  {
    hide CounterUpdate, EclipseUpdate, Linked, Replays;
    CounterUpdateSound(p, start, initial, a, q, retrieved);
    EclipseUpdateSound(p, start, initial, a, q, retrieved);
  }

  lemma ReportSound(p: Platform, start: nat, initial: StateSnapshot, a: AdapterState, q: RetrievalQuery, answer: Answer)
    requires Linked(p, start, a)
    ensures Sound(p, start, initial, a, ReportSetChange(p, a, q, answer).next, true)
  {
    hide Record, Linked, Replays, SetChangePayload;
    RecordSound(p, start, initial, a, RETRIEVAL_SET_CHANGE, BOTH, SetChangePayload(a.state, answer), Some(q.principalId));
  }

  lemma SoundTransitive(p: Platform, start: nat, initial: StateSnapshot, a: AdapterState, b: AdapterState, c: AdapterState)
    requires Sound(p, start, initial, a, b, true) && Sound(p, start, initial, b, c, true)
    ensures Sound(p, start, initial, a, c, true)
  {
    hide Linked, Replays;
  }

  lemma RetrievalSound(p: Platform, start: nat, initial: StateSnapshot, a: AdapterState, q: RetrievalQuery)
    requires Linked(p, start, a)
    ensures Sound(p, start, initial, a, Retrieval(p, a, q).next, true)
  {
    hide AnswerFor, Record, ReadSideUpdate, ReportSetChange, Linked, Replays, CompletedPayload;
    if AnswerFor(p, a.state, q).Ok? {
      var answer := AnswerFor(p, a.state, q).value;
      RecordSound(p, start, initial, a, RETRIEVAL_COMPLETED, BOTH, CompletedPayload(q, answer.result), Some(q.principalId));
      var b := Record(p, a, RETRIEVAL_COMPLETED, BOTH, CompletedPayload(q, answer.result), Some(q.principalId)).next;
      ReportSound(p, start, initial, b, q, answer);
      var c := ReportSetChange(p, b, q, answer).next;
      ReadSideUpdateSound(p, start, initial, c, q, HitIds(answer.result));
      SoundTransitive(p, start, initial, a, b, c);
      SoundTransitive(p, start, initial, a, c, ReadSideUpdate(p, c, q, HitIds(answer.result)).next);
    }
  }

  /** A call whose state change its own event can express. */
  predicate Replayable(op: Op) {
    match op
    case AdvanceOp(steps) => steps <= 0
    case RecordOp(eventType, _, _, _) => TraceOnly(eventType)
    case _ => true
  }

  lemma ApplySound(p: Platform, start: nat, initial: StateSnapshot, a: AdapterState, op: Op)
    requires Linked(p, start, a)
    ensures Sound(p, start, initial, a, Apply(p, a, op), Replayable(op))
  {
    hide Retrieval, Assemble, Configure, Advance, Record, Linked, Replays;
    match op
    case RetrieveOp(query) => RetrievalSound(p, start, initial, a, query);
    case AssembleOp(result) => AssembleSound(p, start, initial, a, result);
    case ConfigureOp(policy) => ConfigureSound(p, start, initial, a, policy);
    case AdvanceOp(steps) => AdvanceSound(p, start, initial, a, steps);
    case RecordOp(eventType, visibility, payload, actor) =>
      RecordSound(p, start, initial, a, eventType, visibility, payload, actor);
  }

  lemma {:induction false} RunSound(p: Platform, start: nat, initial: StateSnapshot, a: AdapterState, ops: seq<Op>)
    requires Linked(p, start, a)
    ensures Sound(p, start, initial, a, Run(p, a, ops), forall i | 0 <= i < |ops| :: Replayable(ops[i]))
    decreases |ops|
  {
    hide Apply, Linked, Replays, Replayable;
    if ops != [] {
      ApplySound(p, start, initial, a, ops[0]);
      RunSound(p, start, initial, Apply(p, a, ops[0]), ops[1..]);
      assert (forall i | 0 <= i < |ops| :: Replayable(ops[i])) ==>
          Replayable(ops[0]) && forall i | 0 <= i < |ops[1..]| :: Replayable(ops[1..][i]);
    }
  }

  /**
   Every trace a run exports passes verification exactly when the run recorded nothing or started at
   sequence zero. Clock advances, refused and failing calls are included.
   */
  lemma RunTraceAcceptedIff(p: Platform, initial: StateSnapshot, ops: seq<Op>)
    ensures var trace := Run(p, Fresh(initial), ops).trace;
            Accepted(p, trace) <==> trace == [] || initial.nextEventSequence == 0
  {
    hide Run, Verify;
    RunSound(p, initial.nextEventSequence, initial, Fresh(initial), ops) by { EmptyTraceAccepted(p); }
    var trace := Run(p, Fresh(initial), ops).trace;
    if trace == [] {
      EmptyTraceAccepted(p);
    } else if Accepted(p, trace) {
      FirstSequenceIsZero(p, trace);
    }
  }

  lemma EmptyTraceAccepted(p: Platform)
    ensures Accepted(p, [])
  {
  }

  lemma {:induction false} FirstSequenceIsZero(p: Platform, trace: seq<TraceEvent>)
    requires Accepted(p, trace) && trace != []
    ensures trace[0].sequence == 0
  {
    if |trace| > 1 {
      FirstSequenceIsZero(p, Front(trace));
    }
  }

  /** Replaying the exported trace of a run of replayable calls rebuilds exactly the adapter's state. */
  lemma ReplaySimulatesAdapter(p: Platform, initial: StateSnapshot, ops: seq<Op>)
    requires forall i | 0 <= i < |ops| :: Replayable(ops[i])
    ensures var final := Run(p, Fresh(initial), ops);
            ReplayAll(p, initial, final.trace) == Ok(final.state)
  {
    hide Run;
    RunSound(p, initial.nextEventSequence, initial, Fresh(initial), ops) by { EmptyTraceAccepted(p); }
  }

  // ----- exactly which runs replay -----

  /** The record is refused: a blank actor, or a key the visibility check finds in what the target may see. */
  predicate RecordRefused(p: Platform, visibility: EventVisibility, payload: Fields, actor: Option<string>) {
    || (actor.Some? && !NonBlank(actor.value))
    || (visibility in {ATTACKER, BOTH} && ObjectPathHolds(Obj(payload), p.casefold))
  }

  /** The payload's policy is the configured one. */
  predicate DescribesPolicy(s: StateSnapshot, payload: Fields) {
    match Get(payload, "policy")
    case Obj(f) =>
      && Get(f, "name") == Str(s.policy.name) && Get(f, "version") == Str(s.policy.version)
      && Get(f, "settings") == Obj(s.policy.settings)
    case _ => false
  }

  /** The payload's counter is the present one, and there is no other derived state. */
  predicate DescribesCounter(s: StateSnapshot, payload: Fields) {
    && Get(payload, "counter").Int? && Get(payload, "matched_event") in {Str("hidden"), Str("sham")}
    && s.derivedState == map["shared_access_counter" := Get(payload, "counter")]
  }

  /** The payload's eclipse and interaction count are the present ones, and there is no other adaptive state. */
  predicate DescribesEclipse(s: StateSnapshot, payload: Fields) {
    && Get(payload, "trigger_memory_id").Str? && Get(payload, "suppressed_memory_id").Str?
    && Get(payload, "tenant_id").Str? && Get(payload, "interaction_count").Int?
    && s.derivedState == map["suppressed_memory_ids" := Arr([Get(payload, "suppressed_memory_id")]),
                             "trigger_memory_ids" := Arr([Get(payload, "trigger_memory_id")]),
                             "tenant_id" := Get(payload, "tenant_id")]
    && s.policyState == map["interaction_count" := Get(payload, "interaction_count")]
  }

  /** What the replayer would set from the event is what the snapshot already holds. */
  predicate DescribesState(s: StateSnapshot, eventType: EventType, payload: Fields) {
    match eventType
    case POLICY_CONFIGURED => DescribesPolicy(s, payload)
    case READ_SIDE_UPDATE =>
      || (Get(payload, "operation") == Str("set_shared_access_counter") && DescribesCounter(s, payload))
      || (Get(payload, "operation") == Str("set_memory_eclipse") && DescribesEclipse(s, payload))
    case _ => true
  }

  /** What a caller can check before the call: it moves no clock, and is refused or records what is already so. */
  predicate ReplaySafe(p: Platform, s: StateSnapshot, op: Op) {
    match op
    case AdvanceOp(steps) => steps <= 0
    case RecordOp(eventType, visibility, payload, actor) =>
      RecordRefused(p, visibility, payload, actor) || DescribesState(s, eventType, payload)
    case _ => true
  }

  /** A record is refused for exactly those reasons. */
  lemma RecordRefusedIff(p: Platform, a: AdapterState, eventType: EventType, visibility: EventVisibility, payload: Fields,
                         actor: Option<string>)
    ensures Record(p, a, eventType, visibility, payload, actor).outcome.Err? <==> RecordRefused(p, visibility, payload, actor)
  {
    hide NonBlank, StateToJson, EventId, EventMaterial, IsSha256, Frozen, ObjectPathHolds, ContainsEvaluatorOnlyKey;
    FrozenCheckIsObjectPath(Obj(payload), p.casefold);
    assert IsSha256(StateHash(p, a.state)) && IsSha256(StateHash(p, Tick(a.state)));
  }

  lemma PolicyDescribedIff(s: StateSnapshot, payload: Fields)
    ensures ReconstructPolicy(s, payload) == Ok(Tick(s)) <==> DescribesPolicy(s, payload)
  {
    hide NonBlank;
    var read := PolicyFromJson(Get(payload, "policy"));
    if DescribesPolicy(s, payload) {
      assert read == Ok(s.policy);
    } else if read.Ok? {
      assert read.value != s.policy;
    }
  }

  lemma CounterDescribedIff(s: StateSnapshot, payload: Fields)
    ensures ReconstructCounter(s, payload) == Ok(Tick(s)) <==> DescribesCounter(s, payload)
  {
  }

  lemma EclipseDescribedIff(s: StateSnapshot, payload: Fields)
    ensures ReconstructEclipse(s, payload) == Ok(Tick(s)) <==> DescribesEclipse(s, payload)
  {
  }

  /** The replayer rebuilds the snapshot from the event exactly when the event describes it. */
  lemma DescribedIff(s: StateSnapshot, eventType: EventType, payload: Fields)
    ensures Reconstruct(s, eventType, payload) == Ok(Tick(s)) <==> DescribesState(s, eventType, payload)
  {
    hide ReconstructPolicy, ReconstructCounter, ReconstructEclipse, DescribesPolicy, DescribesCounter, DescribesEclipse;
    PolicyDescribedIff(s, payload);
    CounterDescribedIff(s, payload);
    EclipseDescribedIff(s, payload);
  }

  /** The call leaves a state its own event describes exactly when it is safe in the sense a caller can check. */
  lemma ReplaySafeIff(p: Platform, a: AdapterState, eventType: EventType, visibility: EventVisibility, payload: Fields,
                      actor: Option<string>)
    ensures ReplaySafe(p, a.state, RecordOp(eventType, visibility, payload, actor)) <==>
            || Record(p, a, eventType, visibility, payload, actor).outcome.Err?
            || Reconstruct(a.state, eventType, payload) == Ok(Tick(a.state))
  {
    hide RecordRefused, DescribesState, Reconstruct, Record;
    RecordRefusedIff(p, a, eventType, visibility, payload, actor);
    DescribedIff(a.state, eventType, payload);
  }

  predicate RunSafe(p: Platform, a: AdapterState, ops: seq<Op>)
    decreases |ops|
  {
    hide Apply, ReplaySafe;
    ops == [] || (ReplaySafe(p, a.state, ops[0]) && RunSafe(p, Apply(p, a, ops[0]), ops[1..]))
  }

  ghost predicate HashesApart(p: Platform, s: StateSnapshot, t: StateSnapshot) {
    StateHash(p, s) == StateHash(p, t) ==> s == t
  }

  function Advanced(s: StateSnapshot, steps: nat): StateSnapshot {
    Tick(s).(logicalTime := s.logicalTime + steps)
  }

  /** The digest tells the state a call leaves from the state its event describes. */
  ghost predicate StepApart(p: Platform, a: AdapterState, op: Op) {
    match op
    case AdvanceOp(steps) => steps > 0 ==> HashesApart(p, Tick(a.state), Advanced(a.state, steps))
    case RecordOp(eventType, _, payload, _) =>
      Reconstruct(a.state, eventType, payload).Ok? ==>
        HashesApart(p, Reconstruct(a.state, eventType, payload).value, Tick(a.state))
    case _ => true
  }

  ghost predicate RunApart(p: Platform, a: AdapterState, ops: seq<Op>)
    decreases |ops|
  {
    hide Apply, StepApart;
    ops == [] || (StepApart(p, a, ops[0]) && RunApart(p, Apply(p, a, ops[0]), ops[1..]))
  }

  /** One commit more: the replayer follows exactly when it reconstructs the committed state. */
  lemma CommitReplaysIff(p: Platform, initial: StateSnapshot, a: AdapterState, after: StateSnapshot, eventType: EventType,
                         visibility: EventVisibility, payload: Fields, actor: Option<string>)
    requires Replays(p, initial, a)
    requires Commit(p, a, after, eventType, visibility, payload, actor).outcome.Ok?
    requires Reconstruct(a.state, eventType, payload).Ok? ==>
               HashesApart(p, Reconstruct(a.state, eventType, payload).value, after)
    ensures ReplayAll(p, initial, Commit(p, a, after, eventType, visibility, payload, actor).next.trace).Ok? <==>
            Reconstruct(a.state, eventType, payload) == Ok(after)
  {
    hide BuildEvent, StateToJson, Reconstruct, ReplayAll;
    CommittedEvent(p, a.state, after, LastHash(a.trace), eventType, visibility, payload, actor);
    ReplayExtends(p, initial, a.trace, BuildEvent(p, a.state, after, LastHash(a.trace), eventType, visibility, payload, actor).value);
  }

  /** Trace-only payloads and evaluator-visible events are never refused. */
  lemma EvaluatorCommitSucceeds(p: Platform, a: AdapterState, after: StateSnapshot, eventType: EventType, payload: Fields)
    ensures Commit(p, a, after, eventType, EVALUATOR, payload, None) .outcome.Ok?
  {
    hide StateToJson, EventId, EventMaterial, IsSha256, Frozen;
    assert IsSha256(StateHash(p, a.state)) && IsSha256(StateHash(p, after));
  }

  lemma TraceOnlyTicks(s: StateSnapshot, eventType: EventType, payload: Fields)
    requires TraceOnly(eventType)
    ensures Reconstruct(s, eventType, payload) == Ok(Tick(s))
  {
  }

  lemma ApplyReplaysIff(p: Platform, start: nat, initial: StateSnapshot, a: AdapterState, op: Op)
    requires Linked(p, start, a) && Replays(p, initial, a) && StepApart(p, a, op)
    ensures ReplayAll(p, initial, Apply(p, a, op).trace).Ok? <==> ReplaySafe(p, a.state, op)
    ensures ReplaySafe(p, a.state, op) ==> Replays(p, initial, Apply(p, a, op))
  {
    hide Retrieval, Assemble, Configure, Commit, Linked, Reconstruct, ReplayAll, RecordRefused, DescribesState;
    ApplySound(p, start, initial, a, op);
    match op
    case AdvanceOp(steps) =>
      if steps > 0 {
        var payload: Fields := map["logical_steps" := Int(steps)];
        TraceOnlyTicks(a.state, STATE_HASH, payload);
        EvaluatorCommitSucceeds(p, a, Advanced(a.state, steps), STATE_HASH, payload);
        CommitReplaysIff(p, initial, a, Advanced(a.state, steps), STATE_HASH, EVALUATOR, payload, None);
        assert Tick(a.state).logicalTime != Advanced(a.state, steps).logicalTime;
      }
    case RecordOp(eventType, visibility, payload, actor) =>
      ReplaySafeIff(p, a, eventType, visibility, payload, actor);
      if Record(p, a, eventType, visibility, payload, actor).outcome.Ok? {
        CommitReplaysIff(p, initial, a, Tick(a.state), eventType, visibility, payload, actor);
        CommitSound(p, start, initial, a, Tick(a.state), eventType, visibility, payload, actor);
      } else {
        RefusedCommitMovesNothing(p, a, Tick(a.state), eventType, visibility, payload, actor);
      }
    case _ =>
  }

  lemma RefusedCommitMovesNothing(p: Platform, a: AdapterState, after: StateSnapshot, eventType: EventType,
                                  visibility: EventVisibility, payload: Fields, actor: Option<string>)
    requires Commit(p, a, after, eventType, visibility, payload, actor).outcome.Err?
    ensures Commit(p, a, after, eventType, visibility, payload, actor).next == a
  {
    hide BuildEvent;
  }

  /**
   A run's exported trace replays from its initial snapshot exactly when no call advanced the clock or
   recorded a policy or read-side event that does not describe the state it was recorded in.
   */
  lemma {:induction false} RunReplaysIff(p: Platform, start: nat, initial: StateSnapshot, a: AdapterState, ops: seq<Op>)
    requires Linked(p, start, a) && Replays(p, initial, a) && RunApart(p, a, ops)
    ensures ReplayAll(p, initial, Run(p, a, ops).trace).Ok? <==> RunSafe(p, a, ops)
    decreases |ops|
  {
    hide Apply, Linked, StepApart, ReplaySafe, ReplayAll;
    if ops != [] {
      var b := Apply(p, a, ops[0]);
      ApplySound(p, start, initial, a, ops[0]);
      ApplyReplaysIff(p, start, initial, a, ops[0]);
      if ReplaySafe(p, a.state, ops[0]) {
        RunReplaysIff(p, start, initial, b, ops[1..]);
      } else {
        RunSound(p, start, initial, b, ops[1..]);
        var final := Run(p, b, ops[1..]).trace;
        assert final[..|b.trace|] == b.trace;
        RefusedPrefixDecides(p, initial, final, |b.trace|);
      }
    }
  }

  /** The same of a run from a snapshot: `RunSafe` is what a caller can check before each call. */
  lemma FreshRunReplaysIff(p: Platform, initial: StateSnapshot, ops: seq<Op>)
    requires RunApart(p, Fresh(initial), ops)
    ensures ReplayAll(p, initial, Run(p, Fresh(initial), ops).trace).Ok? <==> RunSafe(p, Fresh(initial), ops)
  {
    hide Run, RunApart, RunSafe;
    RunReplaysIff(p, initial.nextEventSequence, initial, Fresh(initial), ops) by { EmptyTraceAccepted(p); }
  }

  /** An advance of the clock is on the failing side: no such run replays. */
  lemma ClockAdvanceDoesNotReplay(p: Platform, initial: StateSnapshot, steps: nat)
    requires steps > 0 && HashesApart(p, Tick(initial), Advanced(initial, steps))
    ensures ReplayAll(p, initial, Run(p, Fresh(initial), [AdvanceOp(steps)]).trace).Err?
  {
    hide ReplayAll, HashesApart, Apply;
    var ops := [AdvanceOp(steps)];
    assert ops[1..] == [];
    FreshRunReplaysIff(p, initial, ops);
  }

  /** So is a policy event that names another policy than the configured one. */
  lemma ForeignPolicyDoesNotReplay(p: Platform, initial: StateSnapshot, policy: PolicyConfiguration)
    requires policy != initial.policy && HashesApart(p, Tick(initial).(policy := policy), Tick(initial))
    ensures ReplayAll(p, initial, Run(p, Fresh(initial), [RecordOp(POLICY_CONFIGURED, EVALUATOR, PolicyPayload(policy), None)]).trace).Err?
  {
    hide ReplayAll, HashesApart, Apply, PolicyToJson, PolicyFromJson;
    var op := RecordOp(POLICY_CONFIGURED, EVALUATOR, PolicyPayload(policy), None);
    assert [op][1..] == [];
    assert Get(PolicyPayload(policy), "policy") == PolicyToJson(policy);
    PolicyRoundTrip(policy);
    DescribedIff(initial, POLICY_CONFIGURED, PolicyPayload(policy));
    FreshRunReplaysIff(p, initial, [op]);
  }

  /** A recorded event may carry an evaluator-only key past the boundary, inside an array, in an accepted trace. */
  lemma ListedOracleIsRecorded(p: Platform, initial: StateSnapshot, eventType: EventType)
    requires initial.nextEventSequence == 0
    ensures HoldsAnywhere(Obj(LISTED_ORACLE), p.casefold)
    ensures var step := Record(p, Fresh(initial), eventType, BOTH, LISTED_ORACLE, None);
            step.outcome.Ok? && step.outcome.value.payload == LISTED_ORACLE && Accepted(p, step.next.trace)
  {
    hide ObjectPathHolds, HoldsAnywhere, Verify, Frozen, ContainsEvaluatorOnlyKey, BuildEvent;
    ListedOracleIsHidden(p.casefold);
    FrozenCheckIsObjectPath(Obj(LISTED_ORACLE), p.casefold);
    var op := RecordOp(eventType, BOTH, LISTED_ORACLE, None);
    RecordRefusedIff(p, Fresh(initial), eventType, BOTH, LISTED_ORACLE, None);
    CommittedEvent(p, initial, Tick(initial), None, eventType, BOTH, LISTED_ORACLE, None);
    assert [op][1..] == [];
    assert Run(p, Fresh(initial), [op]) == Apply(p, Fresh(initial), op);
    RunTraceAcceptedIff(p, initial, [op]);
  }
}
