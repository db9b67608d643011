/** Reading snapshots and policies back from JSON (replay.py), and the round trips with models.py. */
module Decoding {
  import opened Basics
  import opened Json
  import opened Text
  import opened Models

  /** A field of the wrong kind, or a value the constructor rejects. */
  datatype DecodeError = BadField(name: string) | Rejected

  function ReadString(m: Fields, key: string): Result<string, DecodeError> {
    match Get(m, key) case Str(s) => Ok(s) case _ => Err(BadField(key))
  }

  function ReadInt(m: Fields, key: string): Result<int, DecodeError> {
    match Get(m, key) case Int(n) => Ok(n) case _ => Err(BadField(key))
  }

  function ReadObject(m: Fields, key: string): Result<Fields, DecodeError> {
    match Get(m, key) case Obj(fields) => Ok(fields) case _ => Err(BadField(key))
  }

  function ReadArray(m: Fields, key: string): Result<seq<Json>, DecodeError> {
    match Get(m, key) case Arr(items) => Ok(items) case _ => Err(BadField(key))
  }

  function ReadOptionalString(m: Fields, key: string): Result<Option<string>, DecodeError> {
    if Get(m, key).Null? then Ok(None) else var s :- ReadString(m, key); Ok(Some(s))
  }

  function ReadOptionalInt(m: Fields, key: string): Result<Option<int>, DecodeError> {
    if Get(m, key).Null? then Ok(None) else var n :- ReadInt(m, key); Ok(Some(n))
  }

  function StringItems(items: seq<Json>, field: string): Result<seq<string>, DecodeError> {
    if items == [] then
      Ok([])
    else
      match items[0]
      case Str(s) => var rest :- StringItems(items[1..], field); Ok([s] + rest)
      case _ => Err(BadField(field))
  }

  function ReadMemoryState(name: string): Result<MemoryState, DecodeError> {
    match name
    case "current" => Ok(CURRENT)
    case "superseded" => Ok(SUPERSEDED)
    case "hidden" => Ok(HIDDEN)
    case "archived" => Ok(ARCHIVED)
    case "deleted" => Ok(DELETED)
    case _ => Err(Rejected)
  }

  function ReadVisibility(name: string): Result<EventVisibility, DecodeError> {
    match name
    case "attacker" => Ok(ATTACKER)
    case "evaluator" => Ok(EVALUATOR)
    case "both" => Ok(BOTH)
    case _ => Err(Rejected)
  }

  function ReadEventType(name: string): Result<EventType, DecodeError> {
    match name
    case "episode_started" => Ok(EPISODE_STARTED)
    case "policy_configured" => Ok(POLICY_CONFIGURED)
    case "memory_ingested" => Ok(MEMORY_INGESTED)
    case "memory_read" => Ok(MEMORY_READ)
    case "read_side_update" => Ok(READ_SIDE_UPDATE)
    case "retrieval_completed" => Ok(RETRIEVAL_COMPLETED)
    case "retrieval_set_change" => Ok(RETRIEVAL_SET_CHANGE)
    case "context_assembled" => Ok(CONTEXT_ASSEMBLED)
    case "critical_memory_suppression" => Ok(CRITICAL_MEMORY_SUPPRESSION)
    case "admission_decision" => Ok(ADMISSION_DECISION)
    case "deduplication_decision" => Ok(DEDUPLICATION_DECISION)
    case "consolidation" => Ok(CONSOLIDATION)
    case "eviction" => Ok(EVICTION)
    case "archive" => Ok(ARCHIVE)
    case "trial_reset" => Ok(TRIAL_RESET)
    case "state_hash" => Ok(STATE_HASH)
    case "invariant_violation" => Ok(INVARIANT_VIOLATION)
    case "decision" => Ok(DECISION)
    case "oracle_evaluated" => Ok(ORACLE_EVALUATED)
    case "episode_completed" => Ok(EPISODE_COMPLETED)
    case _ => Err(Rejected)
  }

  /** `_policy_from_json` */
  function PolicyFromJson(v: Json): Result<PolicyConfiguration, DecodeError> {
    if !v.Obj? then
      Err(BadField("policy"))
    else
      var name :- ReadString(v.fields, "name");
      var version :- ReadString(v.fields, "version");
      var settings :- ReadObject(v.fields, "settings");
      var policy := RawPolicy(name, version, settings);
      if policy.Valid() then Ok(policy) else Err(Rejected)
  }

  /** The five identifiers and the content, read first. */
  datatype MemoryNames = MemoryNames(memoryId: string, scenarioId: string, tenantId: string,
                                     ownerId: string, sourceId: string, content: string)

  function ReadMemoryNames(m: Fields): Result<MemoryNames, DecodeError> {
    var memoryId :- ReadString(m, "memory_id");
    var scenarioId :- ReadString(m, "scenario_id");
    var tenantId :- ReadString(m, "tenant_id");
    var ownerId :- ReadString(m, "owner_id");
    var sourceId :- ReadString(m, "source_id");
    var content :- ReadString(m, "content");
    Ok(MemoryNames(memoryId, scenarioId, tenantId, ownerId, sourceId, content))
  }

  /** The remaining fields. */
  datatype MemoryDetails = MemoryDetails(accessPolicy: seq<string>, createdAt: int, validFrom: int,
                                         validUntil: Option<int>, criticality: Option<string>,
                                         state: MemoryState, metadata: Fields)

  function ReadMemoryDetails(m: Fields): Result<MemoryDetails, DecodeError> {
    var access :- ReadArray(m, "access_policy");
    var accessPolicy :- StringItems(access, "access_policy item");
    var createdAt :- ReadInt(m, "logical_created_at");
    var validFrom :- ReadInt(m, "logical_valid_from");
    var validUntil :- ReadOptionalInt(m, "logical_valid_until");
    var criticality :- ReadOptionalString(m, "system_criticality");
    var stateName :- ReadString(m, "state");
    var state :- ReadMemoryState(stateName);
    var metadata :- ReadObject(m, "metadata");
    Ok(MemoryDetails(accessPolicy, createdAt, validFrom, validUntil, criticality, state, metadata))
  }

  function MemoryFromFields(m: Fields): Result<MemoryRecord, DecodeError> {
    var names :- ReadMemoryNames(m);
    var details :- ReadMemoryDetails(m);
    var memory := RawMemory(names.memoryId, names.scenarioId, names.tenantId, names.ownerId, names.sourceId,
                            names.content, details.accessPolicy, details.createdAt, details.validFrom,
                            details.validUntil, details.criticality, details.state, details.metadata);
    if memory.Valid() then Ok(memory) else Err(Rejected)
  }

  function MemoryFromJson(v: Json): Result<MemoryRecord, DecodeError> {
    if v.Obj? then MemoryFromFields(v.fields) else Err(BadField("memory"))
  }

  /** The memory-reading loop, over a prefix of the array. */
  function ReadAll<T>(items: seq<Json>, read: Json -> Result<T, DecodeError>): Result<seq<T>, DecodeError> {
    if items == [] then
      Ok([])
    else
      var front :- ReadAll(Front(items), read);
      var last :- read(Last(items));
      Ok(front + [last])
  }

  function MemoriesFromJson(items: seq<Json>): Result<seq<MemoryRecord>, DecodeError> {
    ReadAll(items, v => MemoryFromJson(v))
  }

  function EpisodeFromJson(e: Fields): Result<EpisodeIdentity, DecodeError> {
    var scenarioId :- ReadString(e, "scenario_id");
    var episodeId :- ReadString(e, "episode_id");
    var seed :- ReadInt(e, "seed");
    var episode := RawEpisode(scenarioId, episodeId, seed);
    if episode.Valid() then Ok(episode) else Err(Rejected)
  }

  datatype StateObjects = StateObjects(derived: Fields, indexes: Fields, queues: Fields, policyState: Fields)

  function ReadStateObjects(m: Fields): Result<StateObjects, DecodeError> {
    var derived :- ReadObject(m, "derived_state");
    var indexes :- ReadObject(m, "indexes");
    var queues :- ReadObject(m, "queues");
    var policyState :- ReadObject(m, "policy_state");
    Ok(StateObjects(derived, indexes, queues, policyState))
  }

  /** `_state_from_json`, after its memory-reading loop. */
  function StateFromParts(m: Fields, memories: seq<MemoryRecord>): Result<StateSnapshot, DecodeError> {
    var version :- ReadInt(m, "snapshot_version");
    var episodeFields :- ReadObject(m, "episode");
    var episode :- EpisodeFromJson(episodeFields);
    var time :- ReadInt(m, "logical_time");
    var sequence :- ReadInt(m, "next_event_sequence");
    var objects :- ReadStateObjects(m);
    var policy :- PolicyFromJson(Get(m, "policy"));
    var state := RawSnapshot(version, episode, time, sequence, memories, objects.derived, objects.indexes,
                             objects.queues, policy, objects.policyState);
    if state.Valid() then Ok(state) else Err(Rejected)
  }

  function StateFromJson(v: Json): Result<StateSnapshot, DecodeError> {
    if !v.Obj? then
      Err(BadField("state"))
    else
      var items :- ReadArray(v.fields, "source_memories");
      var memories :- MemoriesFromJson(items);
      StateFromParts(v.fields, memories)
  }

  /** `_state_from_json` as the source runs it: a loop filling the memory list. */
  method ReadState(v: Json) returns (state: Result<StateSnapshot, DecodeError>)
    ensures state == StateFromJson(v)
  {
    if !v.Obj? {
      return Err(BadField("state"));
    }
    var items :- ReadArray(v.fields, "source_memories");
    var read := v => MemoryFromJson(v);
    var memories: seq<MemoryRecord> := [];
    for i := 0 to |items|
      invariant ReadAll(items[..i], read) == Ok(memories)
    {
      assert Front(items[..i + 1]) == items[..i] && Last(items[..i + 1]) == items[i];
      var memory := read(items[i]);
      if memory.Err? {
        FirstFailureDecides(items, i + 1, read, memory.error);
        return Err(memory.error);
      }
      memories := memories + [memory.value];
    }
    assert items[..|items|] == items;
    return StateFromParts(v.fields, memories);
  }

  lemma {:induction false} FirstFailureDecides<T>(items: seq<Json>, n: nat, read: Json -> Result<T, DecodeError>,
                                                  error: DecodeError)
    requires n <= |items| && ReadAll(items[..n], read) == Err(error)
    ensures ReadAll(items, read) == Err(error)
    decreases |items|
  {
    if n < |items| {
      assert Front(items)[..n] == items[..n];
      FirstFailureDecides(Front(items), n, read, error);
    } else {
      assert items[..n] == items;
    }
  }

  // ----- round trips -----

  lemma {:induction false} StringsRoundTrip(values: seq<string>, field: string)
    ensures StringItems(Strings(values).items, field) == Ok(values)
  {
    var items := Strings(values).items;
    if values != [] {
      StringsRoundTrip(values[1..], field);
      assert items[1..] == Strings(values[1..]).items;
      assert values == [values[0]] + values[1..];
    }
  }

  lemma MemoryStateRoundTrip(s: MemoryState)
    ensures ReadMemoryState(MemoryStateName(s)) == Ok(s)
  {
  }

  /** The object holds, field by field, what `MemoryRecord.to_json` writes. */
  predicate HoldsMemoryOwners(f: Fields, m: MemoryRecord) {
    && Get(f, "memory_id") == Str(m.memoryId) && Get(f, "scenario_id") == Str(m.scenarioId)
    && Get(f, "tenant_id") == Str(m.tenantId)
  }

  predicate HoldsMemoryContent(f: Fields, m: MemoryRecord) {
    Get(f, "owner_id") == Str(m.ownerId) && Get(f, "source_id") == Str(m.sourceId) && Get(f, "content") == Str(m.content)
  }

  predicate HoldsMemoryNames(f: Fields, m: MemoryRecord) {
    HoldsMemoryOwners(f, m) && HoldsMemoryContent(f, m)
  }

  predicate HoldsMemoryDetails(f: Fields, m: MemoryRecord) {
    && Get(f, "access_policy") == Strings(m.accessPolicy)
    && Get(f, "logical_created_at") == Int(m.logicalCreatedAt)
    && Get(f, "logical_valid_from") == Int(m.logicalValidFrom)
    && Get(f, "logical_valid_until") == OptionalInt(m.logicalValidUntil)
    && Get(f, "system_criticality") == OptionalStr(m.systemCriticality)
    && Get(f, "state") == Str(MemoryStateName(m.state)) && Get(f, "metadata") == Obj(m.metadata)
  }

  lemma HeldNamesAreRead(f: Fields, m: MemoryRecord)
    requires HoldsMemoryNames(f, m)
    ensures ReadMemoryNames(f) ==
            Ok(MemoryNames(m.memoryId, m.scenarioId, m.tenantId, m.ownerId, m.sourceId, m.content))
  {
  }

  lemma HeldDetailsAreRead(f: Fields, m: MemoryRecord)
    requires HoldsMemoryDetails(f, m)
    ensures ReadMemoryDetails(f) ==
            Ok(MemoryDetails(m.accessPolicy, m.logicalCreatedAt, m.logicalValidFrom, m.logicalValidUntil,
                             m.systemCriticality, m.state, m.metadata))
  {
    StringsRoundTrip(m.accessPolicy, "access_policy item");
    MemoryStateRoundTrip(m.state);
  }

  lemma WrittenOwnersAreHeld(m: MemoryRecord)
    ensures HoldsMemoryOwners(MemoryToJson(m).fields, m)
  {
    hide Strings, MemoryStateName;
  }

  lemma WrittenContentIsHeld(m: MemoryRecord)
    ensures HoldsMemoryContent(MemoryToJson(m).fields, m)
  {
    hide Strings, MemoryStateName;
  }

  lemma WrittenNamesAreHeld(m: MemoryRecord)
    ensures HoldsMemoryNames(MemoryToJson(m).fields, m)
  {
    hide HoldsMemoryOwners, HoldsMemoryContent;
    WrittenOwnersAreHeld(m);
    WrittenContentIsHeld(m);
  }

  lemma WrittenDetailsAreHeld(m: MemoryRecord)
    ensures HoldsMemoryDetails(MemoryToJson(m).fields, m)
  {
  }

  lemma MemoryRoundTrip(m: MemoryRecord)
    ensures MemoryFromJson(MemoryToJson(m)) == Ok(m)
  {
    var written := MemoryToJson(m);
    WrittenNamesAreHeld(m);
    WrittenDetailsAreHeld(m);
    HeldNamesAreRead(written.fields, m);
    HeldDetailsAreRead(written.fields, m);
  }

  lemma {:induction false} ReadAllPointwise<T>(items: seq<Json>, values: seq<T>, read: Json -> Result<T, DecodeError>)
    requires |items| == |values| && forall i | 0 <= i < |items| :: read(items[i]) == Ok(values[i])
    ensures ReadAll(items, read) == Ok(values)
  {
    if items != [] {
      ReadAllPointwise(Front(items), Front(values), read);
      assert values == Front(values) + [Last(values)];
    }
  }

  lemma MemoriesRoundTrip(memories: seq<MemoryRecord>)
    ensures MemoriesFromJson(MemoriesToJson(memories).items) == Ok(memories)
  {
    var items := MemoriesToJson(memories).items;
    var read := v => MemoryFromJson(v);
    forall i | 0 <= i < |items| ensures read(items[i]) == Ok(memories[i]) {
      MemoryRoundTrip(memories[i]);
    }
    ReadAllPointwise(items, memories, read);
  }

  lemma PolicyRoundTrip(p: PolicyConfiguration)
    ensures PolicyFromJson(PolicyToJson(p)) == Ok(p)
  {
  }

  predicate HoldsStateHead(f: Fields, s: StateSnapshot) {
    && Get(f, "snapshot_version") == Int(s.snapshotVersion) && Get(f, "episode") == EpisodeToJson(s.episode)
    && Get(f, "logical_time") == Int(s.logicalTime) && Get(f, "next_event_sequence") == Int(s.nextEventSequence)
    && Get(f, "source_memories") == MemoriesToJson(s.sourceMemories) && Get(f, "policy") == PolicyToJson(s.policy)
  }

  predicate HoldsStateObjects(f: Fields, s: StateSnapshot) {
    && Get(f, "derived_state") == Obj(s.derivedState) && Get(f, "indexes") == Obj(s.indexes)
    && Get(f, "queues") == Obj(s.queues) && Get(f, "policy_state") == Obj(s.policyState)
  }

  predicate HoldsState(f: Fields, s: StateSnapshot) {
    HoldsStateHead(f, s) && HoldsStateObjects(f, s)
  }

  lemma EpisodeRoundTrip(e: EpisodeIdentity)
    ensures EpisodeFromJson(EpisodeToJson(e).fields) == Ok(e)
  {
  }

  lemma HeldObjectsAreRead(f: Fields, s: StateSnapshot)
    requires HoldsStateObjects(f, s)
    ensures ReadStateObjects(f) == Ok(StateObjects(s.derivedState, s.indexes, s.queues, s.policyState))
  {
  }

  lemma HeldStateIsRead(f: Fields, s: StateSnapshot)
    requires HoldsState(f, s)
    ensures StateFromParts(f, s.sourceMemories) == Ok(s)
  {
    hide MemoriesToJson, PolicyToJson, PolicyFromJson, EpisodeFromJson, ReadStateObjects, HoldsStateObjects;
    EpisodeRoundTrip(s.episode);
    PolicyRoundTrip(s.policy);
    HeldObjectsAreRead(f, s);
  }

  lemma WrittenStateHead(s: StateSnapshot)
    ensures HoldsStateHead(StateToJson(s).fields, s)
  {
    hide EpisodeToJson, MemoriesToJson, PolicyToJson;
  }

  lemma WrittenStateObjects(s: StateSnapshot)
    ensures HoldsStateObjects(StateToJson(s).fields, s)
  {
    hide EpisodeToJson, MemoriesToJson, PolicyToJson;
  }

  lemma WrittenStateIsHeld(s: StateSnapshot)
    ensures HoldsState(StateToJson(s).fields, s)
  {
    hide HoldsStateHead, HoldsStateObjects;
    WrittenStateHead(s);
    WrittenStateObjects(s);
  }

  /** Every snapshot is read back from its own JSON, whatever it holds. */
  lemma StateRoundTrip(s: StateSnapshot)
    ensures StateFromJson(StateToJson(s)) == Ok(s)
  {
    var written := StateToJson(s);
    WrittenStateIsHeld(s);
    MemoriesRoundTrip(s.sourceMemories);
    HeldStateIsRead(written.fields, s);
  }

  lemma StateToJsonInjective(s: StateSnapshot, t: StateSnapshot)
    requires StateToJson(s) == StateToJson(t)
    ensures s == t
  {
    StateRoundTrip(s);
    StateRoundTrip(t);
  }

  // ----- only what is written is read -----

  lemma {:induction false} OnlyStringsAreRead(items: seq<Json>, field: string)
    ensures var read := StringItems(items, field);
            read.Ok? ==> Arr(items) == Strings(read.value)
  {
    if items != [] {
      OnlyStringsAreRead(items[1..], field);
      if StringItems(items, field).Ok? {
        assert items == [items[0]] + items[1..];
      }
    }
  }

  lemma MemoryStateReadIff(name: string, s: MemoryState)
    ensures ReadMemoryState(name) == Ok(s) <==> name == MemoryStateName(s)
  {
    MemoryStateRoundTrip(s);
  }

  lemma MemoryNamesReadIff(f: Fields, m: MemoryRecord)
    ensures ReadMemoryNames(f) == Ok(MemoryNames(m.memoryId, m.scenarioId, m.tenantId, m.ownerId, m.sourceId, m.content))
            <==> HoldsMemoryNames(f, m)
  {
  }

  lemma MemoryDetailsReadIff(f: Fields, m: MemoryRecord)
    ensures ReadMemoryDetails(f) ==
            Ok(MemoryDetails(m.accessPolicy, m.logicalCreatedAt, m.logicalValidFrom, m.logicalValidUntil, m.systemCriticality,
                             m.state, m.metadata))
            <==> HoldsMemoryDetails(f, m)
  {
    hide Strings, StringItems, ReadMemoryState, MemoryStateName;
    StringsRoundTrip(m.accessPolicy, "access_policy item");
    if Get(f, "access_policy").Arr? {
      OnlyStringsAreRead(Get(f, "access_policy").items, "access_policy item");
    }
    if Get(f, "state").Str? {
      MemoryStateReadIff(Get(f, "state").s, m.state);
    }
    assert Strings(m.accessPolicy).Arr? by { StringsAreArray(m.accessPolicy); }
    AccessReadIff(f, m.accessPolicy);
  }

  lemma StringsAreArray(values: seq<string>)
    ensures Strings(values).Arr?
  {
  }

  lemma AccessReadIff(f: Fields, policy: seq<string>)
    ensures Get(f, "access_policy") == Strings(policy) <==>
            Get(f, "access_policy").Arr? && StringItems(Get(f, "access_policy").items, "access_policy item") == Ok(policy)
  {
    StringsRoundTrip(policy, "access_policy item");
    if Get(f, "access_policy").Arr? {
      OnlyStringsAreRead(Get(f, "access_policy").items, "access_policy item");
    }
  }

  /** A memory is read exactly from the objects that hold its fields as they are written; other fields are not looked at. */
  lemma MemoryReadIff(v: Json, m: MemoryRecord)
    ensures MemoryFromJson(v) == Ok(m) <==> v.Obj? && HoldsMemoryNames(v.fields, m) && HoldsMemoryDetails(v.fields, m)
  {
    hide ReadMemoryNames, ReadMemoryDetails, HoldsMemoryNames, HoldsMemoryDetails;
    if v.Obj? {
      MemoryNamesReadIff(v.fields, m);
      MemoryDetailsReadIff(v.fields, m);
    }
  }

  predicate HoldsPolicy(v: Json, p: PolicyConfiguration) {
    && v.Obj? && Get(v.fields, "name") == Str(p.name) && Get(v.fields, "version") == Str(p.version)
    && Get(v.fields, "settings") == Obj(p.settings)
  }

  predicate HoldsEpisode(v: Json, e: EpisodeIdentity) {
    && v.Obj? && Get(v.fields, "scenario_id") == Str(e.scenarioId) && Get(v.fields, "episode_id") == Str(e.episodeId)
    && Get(v.fields, "seed") == Int(e.seed)
  }

  lemma PolicyReadIff(v: Json, p: PolicyConfiguration)
    ensures PolicyFromJson(v) == Ok(p) <==> HoldsPolicy(v, p)
  {
  }

  lemma EpisodeReadIff(v: Json, e: EpisodeIdentity)
    ensures v.Obj? && EpisodeFromJson(v.fields) == Ok(e) <==> HoldsEpisode(v, e)
  {
  }

  lemma {:induction false} ReadAllIff<T>(items: seq<Json>, values: seq<T>, read: Json -> Result<T, DecodeError>)
    ensures ReadAll(items, read) == Ok(values) <==>
            |items| == |values| && forall i | 0 <= i < |items| :: read(items[i]) == Ok(values[i])
  {
    if |items| == |values| && forall i | 0 <= i < |items| :: read(items[i]) == Ok(values[i]) {
      ReadAllPointwise(items, values, read);
    }
    if ReadAll(items, read) == Ok(values) && items != [] {
      ReadAllIff(Front(items), Front(values), read);
    }
  }

  predicate HoldsMemories(v: Json, memories: seq<MemoryRecord>) {
    hide HoldsMemoryNames, HoldsMemoryDetails;
    && v.Arr? && |v.items| == |memories|
    && forall i | 0 <= i < |memories| ::
         v.items[i].Obj? && HoldsMemoryNames(v.items[i].fields, memories[i]) && HoldsMemoryDetails(v.items[i].fields, memories[i])
  }

  lemma MemoriesReadIff(v: Json, memories: seq<MemoryRecord>)
    ensures v.Arr? && MemoriesFromJson(v.items) == Ok(memories) <==> HoldsMemories(v, memories)
  {
    hide MemoryFromJson, HoldsMemoryNames, HoldsMemoryDetails, ReadAll;
    if v.Arr? {
      var read := v => MemoryFromJson(v);
      ReadAllIff(v.items, memories, read);
      forall i | 0 <= i < |memories| && i < |v.items|
        ensures read(v.items[i]) == Ok(memories[i]) <==>
                v.items[i].Obj? && HoldsMemoryNames(v.items[i].fields, memories[i]) && HoldsMemoryDetails(v.items[i].fields, memories[i])
      {
        MemoryReadIff(v.items[i], memories[i]);
      }
    }
  }

  /** The object holds every field of the snapshot, of its own kind. */
  predicate PresentsState(f: Fields, s: StateSnapshot) {
    hide HoldsEpisode, HoldsPolicy, HoldsMemories;
    && Get(f, "snapshot_version") == Int(s.snapshotVersion) && HoldsEpisode(Get(f, "episode"), s.episode)
    && Get(f, "logical_time") == Int(s.logicalTime) && Get(f, "next_event_sequence") == Int(s.nextEventSequence)
    && HoldsMemories(Get(f, "source_memories"), s.sourceMemories) && HoldsPolicy(Get(f, "policy"), s.policy)
    && HoldsStateObjects(f, s)
  }

  lemma ObjectsReadIff(f: Fields, s: StateSnapshot)
    ensures ReadStateObjects(f) == Ok(StateObjects(s.derivedState, s.indexes, s.queues, s.policyState)) <==> HoldsStateObjects(f, s)
  {
  }

  /** A snapshot is read exactly from the objects that hold all of its fields: nothing is read that is not there as it is written. */
  lemma StateReadIff(v: Json, s: StateSnapshot)
    ensures StateFromJson(v) == Ok(s) <==> v.Obj? && PresentsState(v.fields, s)
  {
    hide HoldsEpisode, HoldsPolicy, HoldsMemories, HoldsStateObjects, ReadStateObjects, MemoriesFromJson, PolicyFromJson, EpisodeFromJson;
    if v.Obj? {
      var f := v.fields;
      MemoriesReadIff(Get(f, "source_memories"), s.sourceMemories);
      PolicyReadIff(Get(f, "policy"), s.policy);
      EpisodeReadIff(Get(f, "episode"), s.episode);
      ObjectsReadIff(f, s);
    }
  }
}
