/**
 The typed target-visible values of models.py. A dataclass whose constructor validates its fields is
 a subset type: values its constructor rejects do not exist.
 */
module Models {
  import opened Basics
  import opened Json
  import opened Text

  datatype EventVisibility = ATTACKER | EVALUATOR | BOTH

  datatype EventType =
    | EPISODE_STARTED | POLICY_CONFIGURED | MEMORY_INGESTED | MEMORY_READ | READ_SIDE_UPDATE
    | RETRIEVAL_COMPLETED | RETRIEVAL_SET_CHANGE | CONTEXT_ASSEMBLED | CRITICAL_MEMORY_SUPPRESSION
    | ADMISSION_DECISION | DEDUPLICATION_DECISION | CONSOLIDATION | EVICTION | ARCHIVE | TRIAL_RESET
    | STATE_HASH | INVARIANT_VIOLATION | DECISION | ORACLE_EVALUATED | EPISODE_COMPLETED

  datatype MemoryState = CURRENT | SUPERSEDED | HIDDEN | ARCHIVED | DELETED

  // ----- identities and policies -----

  datatype RawEpisode = RawEpisode(scenarioId: string, episodeId: string, seed: int) {
    predicate Valid() {
      NonBlank(scenarioId) && NonBlank(episodeId) && seed >= 0
    }
  }

  type EpisodeIdentity = e: RawEpisode | e.Valid() witness RawEpisode("s", "e", 0)

  datatype RawPolicy = RawPolicy(name: string, version: string, settings: Fields) {
    predicate Valid() {
      NonBlank(name) && NonBlank(version)
    }
  }

  type PolicyConfiguration = p: RawPolicy | p.Valid() witness RawPolicy("p", "1", map[])

  // ----- memories -----

  datatype RawMemory = RawMemory(
    memoryId: string, scenarioId: string, tenantId: string, ownerId: string, sourceId: string, content: string,
    accessPolicy: seq<string>, logicalCreatedAt: int, logicalValidFrom: int, logicalValidUntil: Option<int>,
    systemCriticality: Option<string>, state: MemoryState, metadata: Fields)
  {
    predicate Valid() {
      && NonBlank(memoryId) && NonBlank(scenarioId) && NonBlank(tenantId) && NonBlank(ownerId) && NonBlank(sourceId)
      && NonBlank(content)
      && logicalCreatedAt >= 0 && logicalValidFrom >= 0
      && (logicalValidUntil.Some? ==> logicalValidUntil.value > logicalValidFrom)
      && Distinct(accessPolicy)
      && forall i | 0 <= i < |accessPolicy| :: NonBlank(accessPolicy[i])
    }
  }

  type MemoryRecord = m: RawMemory | m.Valid()
    witness RawMemory("m", "s", "t", "o", "f", "c", [], 0, 0, None, None, CURRENT, map[])

  // ----- retrieval -----

  datatype RawQuery = RawQuery(principalId: string, tenantId: string, text: string, topK: int) {
    predicate Valid() {
      NonBlank(principalId) && NonBlank(tenantId) && NonBlank(text) && topK > 0
    }
  }

  type RetrievalQuery = q: RawQuery | q.Valid() witness RawQuery("p", "t", "q", 1)

  datatype RetrievalHit = RetrievalHit(memoryId: string, rank: int, score: real)

  datatype RetrievalResult = RetrievalResult(hits: seq<RetrievalHit>, observations: Fields)

  function HitIds(result: RetrievalResult): seq<string> {
    seq(|result.hits|, i requires 0 <= i < |result.hits| => result.hits[i].memoryId)
  }

  // ----- snapshots -----

  function MemoryIds(memories: seq<MemoryRecord>): seq<string> {
    seq(|memories|, i requires 0 <= i < |memories| => memories[i].memoryId)
  }

  datatype RawSnapshot = RawSnapshot(
    snapshotVersion: int, episode: EpisodeIdentity, logicalTime: int, nextEventSequence: int,
    sourceMemories: seq<MemoryRecord>, derivedState: Fields, indexes: Fields, queues: Fields,
    policy: PolicyConfiguration, policyState: Fields)
  {
    predicate Valid() {
      && snapshotVersion > 0 && logicalTime >= 0 && nextEventSequence >= 0
      && Distinct(MemoryIds(sourceMemories))
      && forall i | 0 <= i < |sourceMemories| :: sourceMemories[i].scenarioId == episode.scenarioId
    }
  }

  type StateSnapshot = s: RawSnapshot | s.Valid()
    witness RawSnapshot(1, RawEpisode("s", "e", 0), 0, 0, [], map[], map[], map[], RawPolicy("p", "1", map[]), map[])

  // ----- events -----

  datatype RawEvent = RawEvent(
    eventId: string, episodeId: string, sequence: int, logicalTime: int, eventType: EventType,
    actorPrincipalId: Option<string>, visibility: EventVisibility, stateHashBefore: string, stateHashAfter: string,
    previousEventHash: Option<string>, eventHash: string, payload: Fields)
  {
    predicate Valid() {
      && NonBlank(eventId) && NonBlank(episodeId) && sequence >= 0 && logicalTime >= 0
      && (actorPrincipalId.Some? ==> NonBlank(actorPrincipalId.value))
    }
  }

  type TraceEvent = e: RawEvent | e.Valid()
    witness RawEvent("i", "e", 0, 0, STATE_HASH, None, EVALUATOR, "", "", None, "", map[])

  // ----- enumeration values -----

  function EventTypeName(t: EventType): string {
    match t
    case EPISODE_STARTED => "episode_started"
    case POLICY_CONFIGURED => "policy_configured"
    case MEMORY_INGESTED => "memory_ingested"
    case MEMORY_READ => "memory_read"
    case READ_SIDE_UPDATE => "read_side_update"
    case RETRIEVAL_COMPLETED => "retrieval_completed"
    case RETRIEVAL_SET_CHANGE => "retrieval_set_change"
    case CONTEXT_ASSEMBLED => "context_assembled"
    case CRITICAL_MEMORY_SUPPRESSION => "critical_memory_suppression"
    case ADMISSION_DECISION => "admission_decision"
    case DEDUPLICATION_DECISION => "deduplication_decision"
    case CONSOLIDATION => "consolidation"
    case EVICTION => "eviction"
    case ARCHIVE => "archive"
    case TRIAL_RESET => "trial_reset"
    case STATE_HASH => "state_hash"
    case INVARIANT_VIOLATION => "invariant_violation"
    case DECISION => "decision"
    case ORACLE_EVALUATED => "oracle_evaluated"
    case EPISODE_COMPLETED => "episode_completed"
  }

  function VisibilityName(v: EventVisibility): string {
    match v
    case ATTACKER => "attacker"
    case EVALUATOR => "evaluator"
    case BOTH => "both"
  }

  function MemoryStateName(s: MemoryState): string {
    match s
    case CURRENT => "current"
    case SUPERSEDED => "superseded"
    case HIDDEN => "hidden"
    case ARCHIVED => "archived"
    case DELETED => "deleted"
  }

  // ----- to_json -----

  function OptionalStr(v: Option<string>): Json {
    if v.None? then Null else Str(v.value)
  }

  function OptionalInt(v: Option<int>): Json {
    if v.None? then Null else Int(v.value)
  }

  function Strings(values: seq<string>): Json {
    Arr(seq(|values|, i requires 0 <= i < |values| => Str(values[i])))
  }

  function PolicyToJson(p: PolicyConfiguration): Json {
    Obj(map["name" := Str(p.name), "version" := Str(p.version), "settings" := Obj(p.settings)])
  }

  function EpisodeToJson(e: EpisodeIdentity): Json {
    Obj(map["scenario_id" := Str(e.scenarioId), "episode_id" := Str(e.episodeId), "seed" := Int(e.seed)])
  }

  function MemoryToJson(m: MemoryRecord): Json {
    Obj(map[
      "memory_id" := Str(m.memoryId), "scenario_id" := Str(m.scenarioId), "tenant_id" := Str(m.tenantId),
      "owner_id" := Str(m.ownerId), "source_id" := Str(m.sourceId), "content" := Str(m.content),
      "access_policy" := Strings(m.accessPolicy), "logical_created_at" := Int(m.logicalCreatedAt),
      "logical_valid_from" := Int(m.logicalValidFrom), "logical_valid_until" := OptionalInt(m.logicalValidUntil),
      "system_criticality" := OptionalStr(m.systemCriticality), "state" := Str(MemoryStateName(m.state)),
      "metadata" := Obj(m.metadata)])
  }

  function MemoriesToJson(memories: seq<MemoryRecord>): Json {
    Arr(seq(|memories|, i requires 0 <= i < |memories| => MemoryToJson(memories[i])))
  }

  function QueryToJson(q: RetrievalQuery): Json {
    Obj(map["principal_id" := Str(q.principalId), "tenant_id" := Str(q.tenantId), "text" := Str(q.text),
            "top_k" := Int(q.topK)])
  }

  function HitToJson(h: RetrievalHit): Json {
    Obj(map["memory_id" := Str(h.memoryId), "rank" := Int(h.rank), "score" := Float(h.score)])
  }

  function ResultToJson(r: RetrievalResult): Json {
    Obj(map["hits" := Arr(seq(|r.hits|, i requires 0 <= i < |r.hits| => HitToJson(r.hits[i]))),
            "observations" := Obj(r.observations)])
  }

  function StateToJson(s: StateSnapshot): Json {
    Obj(map[
      "snapshot_version" := Int(s.snapshotVersion), "episode" := EpisodeToJson(s.episode),
      "logical_time" := Int(s.logicalTime), "next_event_sequence" := Int(s.nextEventSequence),
      "source_memories" := MemoriesToJson(s.sourceMemories), "derived_state" := Obj(s.derivedState),
      "indexes" := Obj(s.indexes), "queues" := Obj(s.queues), "policy" := PolicyToJson(s.policy),
      "policy_state" := Obj(s.policyState)])
  }
}
