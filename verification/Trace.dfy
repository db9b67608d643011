/** Tamper-evident events and their verification (trace.py). */
module Trace {
  import opened Basics
  import opened Json
  import opened Text
  import opened Canonical
  import opened Bytes
  import opened Models
  import opened Decoding

  // ----- library functions the model takes as parameters -----

  ghost predicate DigestShaped(digest: Json -> string) {
    forall v :: IsSha256(digest(v))
  }

  /** `canonical_sha256`: any function to 64 lowercase hexadecimal characters. */
  type Digest = d: Json -> string | DigestShaped(d) ghost witness v => seq(64, _ => '0')

  /** ASCII text without capitals. */
  predicate LowerAscii(s: string) {
    forall i | 0 <= i < |s| :: s[i] <= '~' && !('A' <= s[i] <= 'Z')
  }

  ghost predicate FoldsAscii(fold: string -> string) {
    forall s | LowerAscii(s) :: fold(s) == s
  }

  /** `str.casefold`: any function that keeps ASCII text without capitals. */
  type Casefold = f: string -> string | FoldsAscii(f) ghost witness s => s

  datatype Platform = Platform(digest: Digest, casefold: Casefold)

  function StateHash(p: Platform, s: StateSnapshot): string {
    p.digest(StateToJson(s))
  }

  // ----- visibility -----

  const EVALUATOR_ONLY_KEYS: set<string> :=
    {"attack_assignment", "decision_oracle", "evaluator_only", "expected_outcome", "memory_oracles",
     "oracle_applicability", "oracle_criticality", "oracle_truth"}

  /** Descends mappings and lists, and nothing else: a tuple is not searched. */
  predicate ContainsEvaluatorOnlyKey(v: PyValue, fold: Casefold) {
    match v
    case PyMapping(entries) => exists i | 0 <= i < |entries| :: EntryHoldsEvaluatorOnlyKey(entries[i], fold)
    case PyList(items) => exists i | 0 <= i < |items| :: ContainsEvaluatorOnlyKey(items[i], fold)
    case _ => false
  }

  predicate EntryHoldsEvaluatorOnlyKey(entry: Entry, fold: Casefold) {
    (entry.key.StrKey? && fold(entry.key.name) in EVALUATOR_ONLY_KEYS) || ContainsEvaluatorOnlyKey(entry.value, fold)
  }

  predicate EvaluatorOnly(name: string, fold: Casefold) {
    fold(name) in EVALUATOR_ONLY_KEYS
  }

  /** An evaluator-only key is reachable by descending objects only. */
  predicate ObjectPathHolds(v: Json, fold: Casefold) {
    v.Obj? && exists k | k in v.fields :: EvaluatorOnly(k, fold) || ObjectPathHolds(v.fields[k], fold)
  }

  /** An evaluator-only key occurs anywhere in the value. */
  predicate HoldsAnywhere(v: Json, fold: Casefold) {
    match v
    case Obj(fields) => exists k | k in fields :: EvaluatorOnly(k, fold) || HoldsAnywhere(fields[k], fold)
    case Arr(items) => exists i | 0 <= i < |items| :: HoldsAnywhere(items[i], fold)
    case _ => false
  }

  /** What the check finds in a frozen payload: exactly the keys reached through objects. */
  lemma {:induction false} FrozenCheckIsObjectPath(v: Json, fold: Casefold)
    ensures ContainsEvaluatorOnlyKey(Frozen(v), fold) <==> ObjectPathHolds(v, fold)
  {
    if v.Obj? {
      forall k | k in v.fields
        ensures ContainsEvaluatorOnlyKey(Frozen(v.fields[k]), fold) <==> ObjectPathHolds(v.fields[k], fold)
      {
        FrozenCheckIsObjectPath(v.fields[k], fold);
      }
      var names, entries := SortedStrings(v.fields.Keys), Frozen(v).entries;
      forall i | 0 <= i < |names|
        ensures names[i] in v.fields
        ensures EntryHoldsEvaluatorOnlyKey(entries[i], fold) <==>
                (EvaluatorOnly(names[i], fold) || ObjectPathHolds(v.fields[names[i]], fold))
      {
        assert names[i] in names;
      }
      SomeEntryIffSomeKey(v.fields, names, entries, fold);
    }
  }

  lemma SomeEntryIffSomeKey(fields: Fields, names: seq<string>, entries: seq<Entry>, fold: Casefold)
    requires |entries| == |names| && forall k :: k in names <==> k in fields
    requires forall i | 0 <= i < |names| ::
               names[i] in fields
               && (EntryHoldsEvaluatorOnlyKey(entries[i], fold) <==>
                   (EvaluatorOnly(names[i], fold) || ObjectPathHolds(fields[names[i]], fold)))
    ensures (exists i | 0 <= i < |entries| :: EntryHoldsEvaluatorOnlyKey(entries[i], fold)) <==>
            ObjectPathHolds(Obj(fields), fold)
  {
    if ObjectPathHolds(Obj(fields), fold) {
      var k :| k in fields && (EvaluatorOnly(k, fold) || ObjectPathHolds(fields[k], fold));
      var i :| 0 <= i < |names| && names[i] == k;
      assert EntryHoldsEvaluatorOnlyKey(entries[i], fold);
    }
  }

  /** No array of the value holds an evaluator-only key. */
  predicate ArraysHoldNone(v: Json, fold: Casefold) {
    match v
    case Obj(fields) => forall k | k in fields :: ArraysHoldNone(fields[k], fold)
    case Arr(items) => forall i | 0 <= i < |items| :: !HoldsAnywhere(items[i], fold)
    case _ => true
  }

  lemma {:induction false} ObjectPathIsSomewhere(v: Json, fold: Casefold)
    requires ObjectPathHolds(v, fold)
    ensures HoldsAnywhere(v, fold)
  {
    var k :| k in v.fields && (EvaluatorOnly(k, fold) || ObjectPathHolds(v.fields[k], fold));
    if !EvaluatorOnly(k, fold) {
      ObjectPathIsSomewhere(v.fields[k], fold);
    }
  }

  lemma {:induction false} ArrayHoldingIsSomewhere(v: Json, fold: Casefold)
    requires !ArraysHoldNone(v, fold)
    ensures HoldsAnywhere(v, fold)
  {
    if v.Obj? {
      var k :| k in v.fields && !ArraysHoldNone(v.fields[k], fold);
      ArrayHoldingIsSomewhere(v.fields[k], fold);
    }
  }

  lemma {:induction false} OutsideArraysByObjects(v: Json, fold: Casefold)
    requires ArraysHoldNone(v, fold) && HoldsAnywhere(v, fold)
    ensures ObjectPathHolds(v, fold)
  {
    if v.Obj? {
      var k :| k in v.fields && (EvaluatorOnly(k, fold) || HoldsAnywhere(v.fields[k], fold));
      if !EvaluatorOnly(k, fold) {
        OutsideArraysByObjects(v.fields[k], fold);
      }
    }
  }

  /**
   Exactly what the check lets through: a value holds an evaluator-only key somewhere exactly when the
   check finds one or an array holds one. So a payload that passes is free of such keys exactly when
   none of its arrays holds one.
   */
  lemma BoundaryIsExact(v: Json, fold: Casefold)
    ensures HoldsAnywhere(v, fold) <==> ContainsEvaluatorOnlyKey(Frozen(v), fold) || !ArraysHoldNone(v, fold)
    ensures !ContainsEvaluatorOnlyKey(Frozen(v), fold) ==> (!HoldsAnywhere(v, fold) <==> ArraysHoldNone(v, fold))
  {
    hide Frozen, ContainsEvaluatorOnlyKey;
    FrozenCheckIsObjectPath(v, fold);
    if ObjectPathHolds(v, fold) {
      ObjectPathIsSomewhere(v, fold);
    } else if !ArraysHoldNone(v, fold) {
      ArrayHoldingIsSomewhere(v, fold);
    } else if HoldsAnywhere(v, fold) {
      OutsideArraysByObjects(v, fold);
    }
  }

  /** A payload whose one evaluator-only key sits inside an array. */
  const LISTED_ORACLE: Fields := map["items" := Arr([Obj(map["decision_oracle" := Null])])]

  lemma ListedOracleIsHidden(fold: Casefold)
    ensures HoldsAnywhere(Obj(LISTED_ORACLE), fold) && !ContainsEvaluatorOnlyKey(Frozen(Obj(LISTED_ORACLE)), fold)
  {
    var inner := Obj(map["decision_oracle" := Null]);
    var arr := Arr([inner]);
    var v := Obj(LISTED_ORACLE);
    assert EvaluatorOnly("decision_oracle", fold);
    assert "decision_oracle" in inner.fields;
    assert HoldsAnywhere(inner, fold);
    assert HoldsAnywhere(arr.items[0], fold);
    assert "items" in v.fields && HoldsAnywhere(v.fields["items"], fold);
    assert LowerAscii("items");
    assert !ObjectPathHolds(v, fold);
    FrozenCheckIsObjectPath(v, fold);
  }

  // ----- events -----

  datatype RawDraft = RawDraft(
    eventId: string, episodeId: string, sequence: int, logicalTime: int, eventType: EventType,
    actorPrincipalId: Option<string>, visibility: EventVisibility, stateHashBefore: string, stateHashAfter: string,
    payload: Fields)
  {
    predicate Valid() {
      && NonBlank(eventId) && NonBlank(episodeId) && sequence >= 0 && logicalTime >= 0
      && (actorPrincipalId.Some? ==> NonBlank(actorPrincipalId.value))
    }
  }

  type TraceEventDraft = d: RawDraft | d.Valid()
    witness RawDraft("i", "e", 0, 0, STATE_HASH, None, EVALUATOR, "", "", map[])

  function DraftOf(e: TraceEvent): TraceEventDraft {
    RawDraft(e.eventId, e.episodeId, e.sequence, e.logicalTime, e.eventType, e.actorPrincipalId, e.visibility,
             e.stateHashBefore, e.stateHashAfter, e.payload)
  }

  function EventMaterial(d: TraceEventDraft, previousEventHash: Option<string>): Fields {
    map["event_id" := Str(d.eventId), "episode_id" := Str(d.episodeId), "sequence" := Int(d.sequence),
        "logical_time" := Int(d.logicalTime), "event_type" := Str(EventTypeName(d.eventType)),
        "actor_principal_id" := OptionalStr(d.actorPrincipalId), "visibility" := Str(VisibilityName(d.visibility)),
        "state_hash_before" := Str(d.stateHashBefore), "state_hash_after" := Str(d.stateHashAfter),
        "previous_event_hash" := OptionalStr(previousEventHash), "payload" := Obj(d.payload)]
  }

  function EventToJson(e: TraceEvent): Json {
    Obj(EventMaterial(DraftOf(e), e.previousEventHash)["event_hash" := Str(e.eventHash)])
  }

  datatype TraceError =
    | MalformedHash | ForeignEpisode | SequenceGap | DuplicateId | BrokenLink | TimeDecreased
    | StateDiscontinuity | HashMismatch | VisibilityViolation

  function RequireVisibility(p: Platform, visibility: EventVisibility, payload: Fields): Outcome<TraceError> {
    if visibility in {ATTACKER, BOTH} && ContainsEvaluatorOnlyKey(Frozen(Obj(payload)), p.casefold)
    then Fail(VisibilityViolation) else Pass
  }

  /** The event `create_event` returns for an acceptable draft. */
  function Sealed(p: Platform, d: TraceEventDraft, previousEventHash: Option<string>): TraceEvent {
    RawEvent(d.eventId, d.episodeId, d.sequence, d.logicalTime, d.eventType, d.actorPrincipalId, d.visibility,
             d.stateHashBefore, d.stateHashAfter, previousEventHash,
             p.digest(Obj(EventMaterial(d, previousEventHash))), d.payload)
  }

  function CreateEvent(p: Platform, d: TraceEventDraft, previousEventHash: Option<string>)
    : (event: Result<TraceEvent, TraceError>)
    ensures event.Ok? ==> IsSha256(event.value.eventHash)
  {
    if !IsSha256(d.stateHashBefore) || !IsSha256(d.stateHashAfter) then
      Err(MalformedHash)
    else if previousEventHash.Some? && !IsSha256(previousEventHash.value) then
      Err(MalformedHash)
    else
      var _ :- RequireVisibilityResult(p, d.visibility, d.payload);
      Ok(Sealed(p, d, previousEventHash))
  }

  function RequireVisibilityResult(p: Platform, visibility: EventVisibility, payload: Fields): Result<(), TraceError> {
    match RequireVisibility(p, visibility, payload)
    case Pass => Ok(())
    case Fail(error) => Err(error)
  }

  // ----- verification -----

  /** `_verify_event`, given the identifiers seen so far. */
  function CheckEvent(p: Platform, e: TraceEvent, episode: string, sequence: int, previous: Option<TraceEvent>,
                      eventIds: set<string>): Outcome<TraceError> {
    var expectedPrevious := if previous.Some? then Some(previous.value.eventHash) else None;
    if !IsSha256(e.stateHashBefore) || !IsSha256(e.stateHashAfter) || !IsSha256(e.eventHash) then
      Fail(MalformedHash)
    else if e.episodeId != episode then Fail(ForeignEpisode)
    else if e.sequence != sequence then Fail(SequenceGap)
    else if e.eventId in eventIds then Fail(DuplicateId)
    else if e.previousEventHash != expectedPrevious then Fail(BrokenLink)
    else if previous.Some? && e.logicalTime < previous.value.logicalTime then Fail(TimeDecreased)
    else if previous.Some? && e.stateHashBefore != previous.value.stateHashAfter then Fail(StateDiscontinuity)
    else if RequireVisibility(p, e.visibility, e.payload).Fail? then Fail(VisibilityViolation)
    else if e.eventHash != p.digest(Obj(EventMaterial(DraftOf(e), expectedPrevious))) then Fail(HashMismatch)
    else Pass
  }

  function EventIds(events: seq<TraceEvent>): set<string> {
    set i | 0 <= i < |events| :: events[i].eventId
  }

  function Previous(events: seq<TraceEvent>): Option<TraceEvent> {
    if events == [] then None else Some(Last(events))
  }

  /** The verdict on a whole trace: the first event that fails its check decides. */
  function Verify(p: Platform, events: seq<TraceEvent>): Outcome<TraceError> {
    if events == [] then
      Pass
    else
      match Verify(p, Front(events))
      case Fail(error) => Fail(error)
      case Pass =>
        CheckEvent(p, Last(events), events[0].episodeId, |events| - 1, Previous(Front(events)), EventIds(Front(events)))
  }

  predicate Accepted(p: Platform, events: seq<TraceEvent>) {
    Verify(p, events).Pass?
  }

  lemma {:induction false} FailedPrefixDecides(p: Platform, events: seq<TraceEvent>, n: nat)
    requires n <= |events| && Verify(p, events[..n]).Fail?
    ensures Verify(p, events) == Verify(p, events[..n])
    decreases |events|
  {
    if n < |events| {
      assert Front(events)[..n] == events[..n];
      FailedPrefixDecides(p, Front(events), n);
    } else {
      assert events[..n] == events;
    }
  }

  /** The verdict after one more event. */
  lemma VerifyExtends(p: Platform, events: seq<TraceEvent>, e: TraceEvent)
    requires Accepted(p, events)
    ensures Verify(p, events + [e]) ==
            CheckEvent(p, e, (events + [e])[0].episodeId, |events|, Previous(events), EventIds(events))
  {
    assert Front(events + [e]) == events;
  }

  /** One step of the verifier's loop, and what it does to the loop's variables. */
  lemma VerifyStep(p: Platform, events: seq<TraceEvent>, i: nat)
    requires i < |events| && Accepted(p, events[..i])
    ensures var e, before, upTo := events[i], events[..i], events[..i + 1];
            var verdict := CheckEvent(p, e, events[0].episodeId, i, Previous(before), EventIds(before));
            && Verify(p, upTo) == verdict
            && (verdict.Fail? ==> Verify(p, events) == verdict)
            && Previous(upTo) == Some(e) && EventIds(upTo) == EventIds(before) + {e.eventId}
  {
    hide CheckEvent, Verify;
    var before, upTo := events[..i], events[..i + 1];
    assert upTo == before + [events[i]] && upTo[0] == events[0];
    VerifyExtends(p, before, events[i]);
    if Verify(p, upTo).Fail? {
      FailedPrefixDecides(p, events, i + 1);
    }
    IdsExtend(before, events[i]);
  }

  lemma IdsExtend(events: seq<TraceEvent>, e: TraceEvent)
    ensures EventIds(events + [e]) == EventIds(events) + {e.eventId}
  {
    var all := events + [e];
    assert all[|events|] == e;
    forall id ensures id in EventIds(all) <==> id in EventIds(events) + {e.eventId} {
      if id in EventIds(events) {
        var i :| 0 <= i < |events| && events[i].eventId == id;
        assert all[i].eventId == id;
      }
    }
  }

  method VerifyTrace(p: Platform, events: seq<TraceEvent>) returns (verdict: Outcome<TraceError>)
    ensures verdict == Verify(p, events)
  {
    hide CheckEvent, Verify, EventIds;
    if events == [] {
      NothingToVerify(p);
      return Pass;
    }
    var episode := events[0].episodeId;
    var previous: Option<TraceEvent> := None;
    var eventIds: set<string> := {};
    NothingToVerify(p);
    assert events[..0] == [];
    for sequence := 0 to |events|
      invariant Accepted(p, events[..sequence])
      invariant previous == Previous(events[..sequence])
      invariant eventIds == EventIds(events[..sequence])
    {
      VerifyStep(p, events, sequence);
      verdict := CheckEvent(p, events[sequence], episode, sequence, previous, eventIds);
      if verdict.Fail? {
        return verdict;
      }
      eventIds := eventIds + {events[sequence].eventId};
      previous := Some(events[sequence]);
    }
    assert events[..|events|] == events;
    return Pass;
  }

  lemma NothingToVerify(p: Platform)
    ensures Verify(p, []) == Pass && EventIds([]) == {}
  {
  }

  /** The boundary fails: an event of any visibility is created for that payload, and its trace is accepted. */
  lemma ArraysAreNotSearched(p: Platform, d: TraceEventDraft)
    requires d.payload == LISTED_ORACLE && d.sequence == 0
    requires IsSha256(d.stateHashBefore) && IsSha256(d.stateHashAfter)
    ensures HoldsAnywhere(Obj(d.payload), p.casefold)
    ensures CreateEvent(p, d, None).Ok? && Accepted(p, [CreateEvent(p, d, None).value])
  {
    hide IsSha256, EventMaterial, Frozen, ContainsEvaluatorOnlyKey, HoldsAnywhere;
    ListedOracleIsHidden(p.casefold);
    var e := Sealed(p, d, None);
    assert IsSha256(p.digest(Obj(EventMaterial(d, None))));
    assert DraftOf(e) == d && [] + [e] == [e];
    NothingToVerify(p);
    VerifyExtends(p, [], e);
    assert CheckEvent(p, e, d.episodeId, 0, None, {}).Pass?;
  }

  // ----- the last hash commits to the whole trace -----

  lemma {:induction false} AcceptanceIsPrefixClosed(p: Platform, events: seq<TraceEvent>, n: nat)
    requires Accepted(p, events) && n <= |events|
    ensures Accepted(p, events[..n])
    decreases |events|
  {
    if n == |events| {
      assert events[..n] == events;
    } else {
      AcceptanceIsPrefixClosed(p, Front(events), n);
      assert Front(events)[..n] == events[..n];
    }
  }

  function Material(e: TraceEvent): Json {
    Obj(EventMaterial(DraftOf(e), e.previousEventHash))
  }

  /** The digest tells apart every two event materials of the two traces. */
  ghost predicate MaterialsApart(p: Platform, es: seq<TraceEvent>, fs: seq<TraceEvent>) {
    forall i, j | 0 <= i < |es| && 0 <= j < |fs| && p.digest(Material(es[i])) == p.digest(Material(fs[j])) ::
      Material(es[i]) == Material(fs[j])
  }

  predicate HoldsEventHead(f: Fields, e: TraceEvent) {
    && Get(f, "event_id") == Str(e.eventId) && Get(f, "episode_id") == Str(e.episodeId)
    && Get(f, "sequence") == Int(e.sequence) && Get(f, "logical_time") == Int(e.logicalTime)
    && Get(f, "event_type") == Str(EventTypeName(e.eventType))
    && Get(f, "actor_principal_id") == OptionalStr(e.actorPrincipalId)
  }

  predicate HoldsEventBody(f: Fields, e: TraceEvent) {
    && Get(f, "visibility") == Str(VisibilityName(e.visibility))
    && Get(f, "state_hash_before") == Str(e.stateHashBefore) && Get(f, "state_hash_after") == Str(e.stateHashAfter)
    && Get(f, "previous_event_hash") == OptionalStr(e.previousEventHash) && Get(f, "payload") == Obj(e.payload)
  }

  lemma MaterialHoldsHead(e: TraceEvent)
    ensures HoldsEventHead(EventMaterial(DraftOf(e), e.previousEventHash), e)
  {
  }

  lemma MaterialHoldsBody(e: TraceEvent)
    ensures HoldsEventBody(EventMaterial(DraftOf(e), e.previousEventHash), e)
  {
  }

  const EARLY_TYPES: set<EventType> :=
    {EPISODE_STARTED, POLICY_CONFIGURED, MEMORY_INGESTED, MEMORY_READ, READ_SIDE_UPDATE, RETRIEVAL_COMPLETED,
     RETRIEVAL_SET_CHANGE, CONTEXT_ASSEMBLED, CRITICAL_MEMORY_SUPPRESSION, ADMISSION_DECISION, DEDUPLICATION_DECISION}
  const MIDDLE_TYPES: set<EventType> := {CONSOLIDATION, EVICTION, ARCHIVE, TRIAL_RESET, STATE_HASH}
  const LATE_TYPES: set<EventType> := {INVARIANT_VIOLATION, DECISION}

  lemma EarlyTypeRoundTrip(t: EventType)
    requires t in EARLY_TYPES
    ensures ReadEventType(EventTypeName(t)) == Ok(t)
  {
  }

  lemma MiddleTypeRoundTrip(t: EventType)
    requires t in MIDDLE_TYPES
    ensures ReadEventType(EventTypeName(t)) == Ok(t)
  {
  }

  lemma LateTypeRoundTrip(t: EventType)
    requires t in LATE_TYPES
    ensures ReadEventType(EventTypeName(t)) == Ok(t)
  {
  }

  lemma LastTypeRoundTrip(t: EventType)
    requires t in {ORACLE_EVALUATED, EPISODE_COMPLETED}
    ensures ReadEventType(EventTypeName(t)) == Ok(t)
  {
  }

  lemma EventTypeRoundTrip(t: EventType)
    ensures ReadEventType(EventTypeName(t)) == Ok(t)
  {
    hide ReadEventType, EventTypeName;
    if t in EARLY_TYPES { EarlyTypeRoundTrip(t); }
    else if t in MIDDLE_TYPES { MiddleTypeRoundTrip(t); }
    else if t in LATE_TYPES { LateTypeRoundTrip(t); }
    else { LastTypeRoundTrip(t); }
  }

  lemma VisibilityRoundTrip(v: EventVisibility)
    ensures ReadVisibility(VisibilityName(v)) == Ok(v)
  {
  }

  /** Two events holding the same material and hash are the same event. */
  lemma HeldEventIsUnique(f: Fields, e: TraceEvent, g: TraceEvent)
    requires HoldsEventHead(f, e) && HoldsEventBody(f, e) && HoldsEventHead(f, g) && HoldsEventBody(f, g)
    requires e.eventHash == g.eventHash
    ensures e == g
  {
    hide ReadEventType, EventTypeName, ReadVisibility, VisibilityName;
    EventTypeRoundTrip(e.eventType);
    EventTypeRoundTrip(g.eventType);
    VisibilityRoundTrip(e.visibility);
    VisibilityRoundTrip(g.visibility);
  }

  lemma MaterialDeterminesEvent(e: TraceEvent, g: TraceEvent)
    requires Material(e) == Material(g) && e.eventHash == g.eventHash
    ensures e == g
  {
    MaterialHoldsHead(e);
    MaterialHoldsHead(g);
    MaterialHoldsBody(e);
    MaterialHoldsBody(g);
    HeldEventIsUnique(EventMaterial(DraftOf(e), e.previousEventHash), e, g);
  }

  /** What acceptance says of the last event. */
  lemma AcceptedLast(p: Platform, events: seq<TraceEvent>)
    requires Accepted(p, events) && events != []
    ensures Accepted(p, Front(events))
    ensures Last(events).sequence == |events| - 1
    ensures Last(events).eventHash == p.digest(Material(Last(events)))
    ensures |events| == 1 ==> Last(events).previousEventHash == None
    ensures |events| > 1 ==> Last(events).previousEventHash == Some(Last(Front(events)).eventHash)
  {
  }

  /** Two accepted traces that end in the same hash are the same trace. */
  lemma {:induction false} LastHashCommits(p: Platform, es: seq<TraceEvent>, fs: seq<TraceEvent>)
    requires Accepted(p, es) && Accepted(p, fs) && es != [] && fs != []
    requires Last(es).eventHash == Last(fs).eventHash
    requires MaterialsApart(p, es, fs)
    ensures es == fs
  {
    hide Verify, EventMaterial, DraftOf, Material;
    AcceptedLast(p, es);
    AcceptedLast(p, fs);
    assert p.digest(Material(es[|es| - 1])) == p.digest(Material(fs[|fs| - 1]));
    MaterialDeterminesEvent(Last(es), Last(fs));
    if |es| > 1 {
      LastHashCommits(p, Front(es), Front(fs));
    }
    assert es == Front(es) + [Last(es)] && fs == Front(fs) + [Last(fs)];
  }

  // ----- the exported form -----

  /** `_event_from_json` */
  function EventFromJson(v: Json): Result<TraceEvent, DecodeError> {
    if !v.Obj? then
      Err(BadField("event"))
    else
      var m := v.fields;
      var head :- ReadEventHead(m);
      var body :- ReadEventBody(m);
      var event := RawEvent(head.eventId, head.episodeId, head.sequence, head.logicalTime, head.eventType, head.actor,
                            body.visibility, body.before, body.after, body.previous, body.eventHash, body.payload);
      if event.Valid() then Ok(event) else Err(Rejected)
  }

  datatype EventHead = EventHead(eventId: string, episodeId: string, sequence: int, logicalTime: int,
                                 eventType: EventType, actor: Option<string>)
  datatype EventBody = EventBody(visibility: EventVisibility, before: string, after: string, previous: Option<string>,
                                 eventHash: string, payload: Fields)

  function ReadEventHead(m: Fields): Result<EventHead, DecodeError> {
    var eventId :- ReadString(m, "event_id");
    var episodeId :- ReadString(m, "episode_id");
    var sequence :- ReadInt(m, "sequence");
    var logicalTime :- ReadInt(m, "logical_time");
    var typeName :- ReadString(m, "event_type");
    var eventType :- ReadEventType(typeName);
    var actor :- ReadOptionalString(m, "actor_principal_id");
    Ok(EventHead(eventId, episodeId, sequence, logicalTime, eventType, actor))
  }

  function ReadEventBody(m: Fields): Result<EventBody, DecodeError> {
    var visibilityName :- ReadString(m, "visibility");
    var visibility :- ReadVisibility(visibilityName);
    var before :- ReadString(m, "state_hash_before");
    var after :- ReadString(m, "state_hash_after");
    var previous :- ReadOptionalString(m, "previous_event_hash");
    var eventHash :- ReadString(m, "event_hash");
    var payload :- ReadObject(m, "payload");
    Ok(EventBody(visibility, before, after, previous, eventHash, payload))
  }

  lemma HeldEventIsRead(f: Fields, e: TraceEvent)
    requires HoldsEventHead(f, e) && HoldsEventBody(f, e) && Get(f, "event_hash") == Str(e.eventHash)
    ensures EventFromJson(Obj(f)) == Ok(e)
  {
    hide ReadEventType, EventTypeName, ReadVisibility, VisibilityName;
    EventTypeRoundTrip(e.eventType);
    VisibilityRoundTrip(e.visibility);
    assert ReadEventHead(f) ==
           Ok(EventHead(e.eventId, e.episodeId, e.sequence, e.logicalTime, e.eventType, e.actorPrincipalId));
    assert ReadEventBody(f) ==
           Ok(EventBody(e.visibility, e.stateHashBefore, e.stateHashAfter, e.previousEventHash, e.eventHash, e.payload));
  }

  lemma WithHashHolds(f: Fields, e: TraceEvent)
    requires HoldsEventHead(f, e) && HoldsEventBody(f, e)
    ensures HoldsEventHead(f["event_hash" := Str(e.eventHash)], e)
    ensures HoldsEventBody(f["event_hash" := Str(e.eventHash)], e)
  {
  }

  /** Every event is read back from the record `event_to_json` writes for it. */
  lemma EventRoundTrip(e: TraceEvent)
    ensures EventFromJson(EventToJson(e)) == Ok(e)
  {
    var f := EventMaterial(DraftOf(e), e.previousEventHash);
    MaterialHoldsHead(e);
    MaterialHoldsBody(e);
    WithHashHolds(f, e);
    HeldEventIsRead(f["event_hash" := Str(e.eventHash)], e);
  }

  lemma OnlyEventTypesAreRead(name: string)
    ensures ReadEventType(name).Ok? ==> name == EventTypeName(ReadEventType(name).value)
  {
  }

  lemma EventTypeReadIff(name: string, t: EventType)
    ensures ReadEventType(name) == Ok(t) <==> name == EventTypeName(t)
  {
    hide ReadEventType, EventTypeName;
    EventTypeRoundTrip(t);
    OnlyEventTypesAreRead(name);
  }

  lemma VisibilityReadIff(name: string, v: EventVisibility)
    ensures ReadVisibility(name) == Ok(v) <==> name == VisibilityName(v)
  {
    VisibilityRoundTrip(v);
  }

  lemma EventHeadReadIff(f: Fields, e: TraceEvent)
    ensures ReadEventHead(f) == Ok(EventHead(e.eventId, e.episodeId, e.sequence, e.logicalTime, e.eventType, e.actorPrincipalId))
            <==> HoldsEventHead(f, e)
  {
    hide ReadEventType, EventTypeName;
    if Get(f, "event_type").Str? {
      EventTypeReadIff(Get(f, "event_type").s, e.eventType);
    }
  }

  lemma EventBodyReadIff(f: Fields, e: TraceEvent)
    ensures ReadEventBody(f) ==
            Ok(EventBody(e.visibility, e.stateHashBefore, e.stateHashAfter, e.previousEventHash, e.eventHash, e.payload))
            <==> HoldsEventBody(f, e) && Get(f, "event_hash") == Str(e.eventHash)
  {
    hide ReadVisibility, VisibilityName;
    if Get(f, "visibility").Str? {
      VisibilityReadIff(Get(f, "visibility").s, e.visibility);
    }
  }

  /** An event is read exactly from the objects that hold its fields as they are written. */
  lemma EventReadIff(v: Json, e: TraceEvent)
    ensures EventFromJson(v) == Ok(e) <==>
            v.Obj? && HoldsEventHead(v.fields, e) && HoldsEventBody(v.fields, e) && Get(v.fields, "event_hash") == Str(e.eventHash)
  {
    hide ReadEventHead, ReadEventBody, HoldsEventHead, HoldsEventBody;
    if v.Obj? {
      EventHeadReadIff(v.fields, e);
      EventBodyReadIff(v.fields, e);
    }
  }
}
