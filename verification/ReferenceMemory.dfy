/**
 The deterministic reference memory adapter (adapters/reference.py): what each operation does to the
 adapter's state and trace, and the class whose methods do it.
 */
module ReferenceMemory {
  import opened Basics
  import opened Json
  import opened Text
  import opened Bytes
  import opened Models
  import opened Trace

  datatype AdapterError = ValueError | TypeError | KeyError | VisibilityError

  datatype RawAdapter = RawAdapter(state: StateSnapshot, trace: seq<TraceEvent>)

  /** An adapter's snapshot and trace. Recorded hashes are digests. */
  type AdapterState = a: RawAdapter | a.trace == [] || IsSha256(Last(a.trace).eventHash)
    ghost witness
      RawAdapter(RawSnapshot(1, RawEpisode("s", "e", 0), 0, 0, [], map[], map[], map[], RawPolicy("p", "1", map[]), map[]), [])

  /** What a call leaves behind, and what it returns or raises. */
  datatype Step<+T> = Step(next: AdapterState, outcome: Result<T, AdapterError>)

  function Fresh(initial: StateSnapshot): AdapterState {
    RawAdapter(initial, [])
  }

  // ----- policies -----

  const SUPPORTED_POLICIES: set<string> :=
    {"pure-read", "memory-eclipsing", "protected-critical-recall", "risi-shared-counter"}
  const PROTECTED_CRITICALITY := "protected-recall"

  /** A setting that must be a string. */
  function StrSetting(policy: PolicyConfiguration, name: string): Option<string> {
    match Get(policy.settings, name) case Str(s) => Some(s) case _ => None
  }

  predicate PositiveTopK(settings: Fields) {
    Get(settings, "top_k").Int? && Get(settings, "top_k").n > 0
  }

  predicate PureReadAccepted(settings: Fields) {
    && settings.Keys == {"top_k", "read_side_updates"}
    && PositiveTopK(settings)
    && Get(settings, "read_side_updates") == Bool(false)
  }

  predicate AdaptiveAccepted(name: string, settings: Fields, memoryIds: set<string>) {
    var required := {"top_k", "read_side_updates", "trigger_memory_id", "suppressed_memory_id"};
    && settings.Keys == (if name == "protected-critical-recall" then required + {"protected_criticality"} else required)
    && PositiveTopK(settings)
    && Get(settings, "read_side_updates") == Bool(true)
    && KnownMemory(settings, "trigger_memory_id", memoryIds) && KnownMemory(settings, "suppressed_memory_id", memoryIds)
    && Get(settings, "trigger_memory_id") != Get(settings, "suppressed_memory_id")
    && (name == "protected-critical-recall" ==> Get(settings, "protected_criticality") == Str(PROTECTED_CRITICALITY))
  }

  predicate KnownMemory(settings: Fields, name: string, memoryIds: set<string>) {
    Get(settings, name).Str? && Get(settings, name).s in memoryIds
  }

  predicate NamedPrincipal(settings: Fields, name: string) {
    Get(settings, name).Str? && Get(settings, name).s != ""
  }

  predicate SharedCounterAccepted(settings: Fields, memoryIds: set<string>) {
    && settings.Keys == {"top_k", "read_side_updates", "canary_memory_id", "victim_principal_id",
                         "observer_principal_id", "no_hidden_signal_memory_id", "hidden_signal_memory_id"}
    && PositiveTopK(settings)
    && Get(settings, "read_side_updates") == Bool(true)
    && KnownMemory(settings, "canary_memory_id", memoryIds)
    && KnownMemory(settings, "no_hidden_signal_memory_id", memoryIds)
    && KnownMemory(settings, "hidden_signal_memory_id", memoryIds)
    && Get(settings, "canary_memory_id") != Get(settings, "no_hidden_signal_memory_id")
    && Get(settings, "canary_memory_id") != Get(settings, "hidden_signal_memory_id")
    && Get(settings, "no_hidden_signal_memory_id") != Get(settings, "hidden_signal_memory_id")
    && NamedPrincipal(settings, "victim_principal_id") && NamedPrincipal(settings, "observer_principal_id")
    && Get(settings, "victim_principal_id") != Get(settings, "observer_principal_id")
  }

  /** `_validate_policy_configuration` does not raise. */
  predicate PolicyAccepted(policy: PolicyConfiguration, memoryIds: set<string>) {
    && policy.name in SUPPORTED_POLICIES && policy.version == "1"
    && if policy.name == "pure-read" then PureReadAccepted(policy.settings)
       else if policy.name == "risi-shared-counter" then SharedCounterAccepted(policy.settings, memoryIds)
       else AdaptiveAccepted(policy.name, policy.settings, memoryIds)
  }

  /** `_memory_by_id`, filled in source order. */
  function ById(memories: seq<MemoryRecord>): map<string, MemoryRecord> {
    if memories == [] then map[] else ById(Front(memories))[Last(memories).memoryId := Last(memories)]
  }

  // ----- committing events -----

  function EventId(episode: string, sequence: nat): string {
    episode + "-event-" + Pad4(sequence)
  }

  lemma {:induction false} NonBlankPrefix(s: string, t: string)
    requires NonBlank(s)
    ensures NonBlank(s + t)
  {
    if IsSpace(s[0]) {
      NonBlankPrefix(s[1..], t);
    }
    assert (s + t)[0] == s[0] && (s + t)[1..] == s[1..] + t;
  }

  function DraftFor(p: Platform, before: StateSnapshot, after: StateSnapshot, eventType: EventType,
                    visibility: EventVisibility, payload: Fields, actor: Option<string>): TraceEventDraft
    requires actor.Some? ==> NonBlank(actor.value)
  {
    var episode := before.episode.episodeId;
    NonBlankPrefix(episode, "-event-");
    NonBlankPrefix(episode + "-event-", Pad4(before.nextEventSequence));
    RawDraft(EventId(episode, before.nextEventSequence), episode, before.nextEventSequence, after.logicalTime, eventType,
             actor, visibility, StateHash(p, before), StateHash(p, after), payload)
  }

  function LastHash(trace: seq<TraceEvent>): Option<string> {
    if trace == [] then None else Some(Last(trace).eventHash)
  }

  /** The event `_commit_event` builds, or the exception building it raises. */
  function BuildEvent(p: Platform, before: StateSnapshot, after: StateSnapshot, previousHash: Option<string>,
                      eventType: EventType, visibility: EventVisibility, payload: Fields, actor: Option<string>)
    : (event: Result<TraceEvent, AdapterError>)
    ensures event.Ok? ==> IsSha256(event.value.eventHash)
  {
    if actor.Some? && !NonBlank(actor.value) then
      Err(ValueError)
    else
      match CreateEvent(p, DraftFor(p, before, after, eventType, visibility, payload, actor), previousHash)
      case Err(VisibilityViolation) => Err(VisibilityError)
      case Err(_) => Err(ValueError)
      case Ok(event) => Ok(event)
  }

  /** `_commit_event`: nothing moves unless the event can be created. */
  function Commit(p: Platform, a: AdapterState, after: StateSnapshot, eventType: EventType,
                  visibility: EventVisibility, payload: Fields, actor: Option<string>): Step<TraceEvent> {
    match BuildEvent(p, a.state, after, LastHash(a.trace), eventType, visibility, payload, actor)
    case Err(error) => Step(a, Err(error))
    case Ok(event) =>
      assert Last(a.trace + [event]) == event;
      Step(RawAdapter(after, a.trace + [event]), Ok(event))
  }

  function Tick(s: StateSnapshot): StateSnapshot {
    s.(nextEventSequence := s.nextEventSequence + 1)
  }

  /** `record_event` */
  function Record(p: Platform, a: AdapterState, eventType: EventType, visibility: EventVisibility, payload: Fields,
                  actor: Option<string>): Step<TraceEvent> {
    Commit(p, a, Tick(a.state), eventType, visibility, payload, actor)
  }

  // ----- scoring and ranking -----

  predicate TokenChar(c: char) {
    'a' <= c <= 'z' || '0' <= c <= '9'
  }

  /** The maximal runs of token characters, with `current` the run being read. */
  function TokensFrom(text: string, current: string): set<string> {
    var finished := if current == "" then {} else {current};
    if text == [] then finished
    else if TokenChar(text[0]) then TokensFrom(text[1..], current + [text[0]])
    else finished + TokensFrom(text[1..], "")
  }

  function Tokens(text: string): set<string> {
    TokensFrom(text, "")
  }

  function Score(p: Platform, query: string, content: string): real {
    var queryTokens, contentTokens := Tokens(p.casefold(query)), Tokens(p.casefold(content));
    if queryTokens == {} || contentTokens == {} then 0.0
    else |queryTokens * contentTokens| as real / |queryTokens| as real
  }

  predicate IsRetrievable(m: MemoryRecord, q: RetrievalQuery, time: int) {
    && m.state == CURRENT && m.tenantId == q.tenantId && q.principalId in m.accessPolicy
    && time >= m.logicalValidFrom && (m.logicalValidUntil.None? || time < m.logicalValidUntil.value)
  }

  datatype Scored = Scored(score: real, memoryId: string)

  /** The scoring loop over a prefix of the memories. */
  function ScoreAll(p: Platform, memories: seq<MemoryRecord>, q: RetrievalQuery, time: int): seq<Scored> {
    if memories == [] then
      []
    else
      var m := Last(memories);
      var front := ScoreAll(p, Front(memories), q, time);
      var score := Score(p, q.text, m.content);
      if IsRetrievable(m, q, time) && score > 0.0 then front + [Scored(score, m.memoryId)] else front
  }

  /** The sort keys: a preferred identifier first, then by falling score, then by identifier. */
  predicate Before(preferred: Option<string>, x: Scored, y: Scored) {
    var x1 := preferred.Some? && x.memoryId != preferred.value;
    var y1 := preferred.Some? && y.memoryId != preferred.value;
    if x1 != y1 then y1
    else x.score > y.score || (x.score == y.score && StrLess(x.memoryId, y.memoryId))
  }

  function Insert(preferred: Option<string>, x: Scored, ys: seq<Scored>): seq<Scored> {
    if ys == [] || Before(preferred, x, ys[0]) then [x] + ys else [ys[0]] + Insert(preferred, x, ys[1..])
  }

  /** Python's stable sort by those keys. */
  function Sorted(preferred: Option<string>, xs: seq<Scored>): seq<Scored> {
    if xs == [] then [] else Insert(preferred, Last(xs), Sorted(preferred, Front(xs)))
  }

  function Ids(scored: seq<Scored>): seq<string> {
    seq(|scored|, i requires 0 <= i < |scored| => scored[i].memoryId)
  }

  /** `derived_state.get("shared_access_counter", 0)`, which must be a nonnegative integer. */
  function CounterOf(derived: Fields): Result<nat, AdapterError> {
    if "shared_access_counter" !in derived then Ok(0)
    else match derived["shared_access_counter"]
      case Int(n) => if n < 0 then Err(TypeError) else Ok(n)
      case _ => Err(TypeError)
  }

  /** `_suppressed_memory_ids`: a list of strings. */
  function SuppressedIds(derived: Fields): Result<set<string>, AdapterError> {
    if "suppressed_memory_ids" !in derived then Ok({})
    else match derived["suppressed_memory_ids"]
      case Arr(items) =>
        if forall i | 0 <= i < |items| :: items[i].Str? then Ok(set i | 0 <= i < |items| :: items[i].s) else Err(TypeError)
      case _ => Err(TypeError)
  }

  /** `_apply_risi_probe_ranking` */
  function ProbeRanking(s: StateSnapshot, q: RetrievalQuery, scored: seq<Scored>): Result<seq<Scored>, AdapterError> {
    if s.policy.name != "risi-shared-counter" then
      Ok(scored)
    else
      var observer := StrSetting(s.policy, "observer_principal_id");
      var noHidden := StrSetting(s.policy, "no_hidden_signal_memory_id");
      var hidden := StrSetting(s.policy, "hidden_signal_memory_id");
      if observer.None? || noHidden.None? || hidden.None? then Err(TypeError)
      else if q.principalId != observer.value then Ok(scored)
      else if noHidden.value !in Ids(scored) || hidden.value !in Ids(scored) then Ok(scored)
      else
        var counter :- CounterOf(s.derivedState);
        Ok(Sorted(Some(if counter > 0 then hidden.value else noHidden.value), scored))
  }

  function Ranking(p: Platform, s: StateSnapshot, q: RetrievalQuery): Result<seq<Scored>, AdapterError> {
    ProbeRanking(s, q, Sorted(None, ScoreAll(p, s.sourceMemories, q, s.logicalTime)))
  }

  // ----- retrieval -----

  /** `system_criticality == settings.get("protected_criticality")` */
  predicate CriticalityMatches(criticality: Option<string>, setting: Json) {
    OptionalStr(criticality) == setting
  }

  predicate IsProtected(s: StateSnapshot, memoryId: string) {
    && s.policy.name == "protected-critical-recall"
    && memoryId in ById(s.sourceMemories)
    && CriticalityMatches(ById(s.sourceMemories)[memoryId].systemCriticality, Get(s.policy.settings, "protected_criticality"))
  }

  function ProtectedIds(s: StateSnapshot, scored: seq<Scored>, suppressed: set<string>): set<string> {
    set i | 0 <= i < |scored| && scored[i].memoryId in suppressed && IsProtected(s, scored[i].memoryId) :: scored[i].memoryId
  }

  function Without(scored: seq<Scored>, removed: set<string>): seq<Scored> {
    if scored == [] then []
    else if scored[0].memoryId in removed then Without(scored[1..], removed)
    else [scored[0]] + Without(scored[1..], removed)
  }

  function Among(scored: seq<Scored>, removed: set<string>): seq<string> {
    if scored == [] then []
    else if scored[0].memoryId in removed then [scored[0].memoryId] + Among(scored[1..], removed)
    else Among(scored[1..], removed)
  }

  function Top(scored: seq<Scored>, k: nat): seq<RetrievalHit> {
    var shown := if k < |scored| then scored[..k] else scored;
    seq(|shown|, i requires 0 <= i < |shown| => RetrievalHit(shown[i].memoryId, i + 1, shown[i].score))
  }

  /** The read-only part of a retrieval: the result, and the identifiers removed or protected. */
  datatype Answer = Answer(result: RetrievalResult, removed: seq<string>, protected: set<string>)

  predicate WithinTopK(s: StateSnapshot, q: RetrievalQuery) {
    Get(s.policy.settings, "top_k").Int? && q.topK <= Get(s.policy.settings, "top_k").n
  }

  function AnswerFor(p: Platform, s: StateSnapshot, q: RetrievalQuery): Result<Answer, AdapterError> {
    if !WithinTopK(s, q) then
      Err(ValueError)
    else
      var scored :- Ranking(p, s, q);
      var suppressed :- SuppressedIds(s.derivedState);
      var protected := ProtectedIds(s, scored, suppressed);
      var hits := Top(Without(scored, suppressed - protected), q.topK);
      Ok(Answer(
           RetrievalResult(hits, map["principal_id" := Str(q.principalId), "result_count" := Int(|hits|),
                                     "policy" := Str(s.policy.name)]),
           Among(scored, suppressed - protected),
           protected))
  }

  function CompletedPayload(q: RetrievalQuery, result: RetrievalResult): Fields {
    map["query" := QueryToJson(q), "result" := ResultToJson(result)]
  }

  function SetChangePayload(s: StateSnapshot, answer: Answer): Fields {
    map["removed_memory_ids" := Strings(answer.removed),
        "protected_memory_ids" := Strings(SortedStrings(answer.protected)),
        "policy" := Str(s.policy.name)]
  }

  function EclipseState(s: StateSnapshot, trigger: string, suppressed: string, tenant: string, count: int): StateSnapshot {
    s.(derivedState := map["suppressed_memory_ids" := Strings([suppressed]), "trigger_memory_ids" := Strings([trigger]),
                           "tenant_id" := Str(tenant)],
       policyState := map["interaction_count" := Int(count)],
       nextEventSequence := s.nextEventSequence + 1)
  }

  function EclipsePayload(trigger: string, suppressed: string, tenant: string, count: int): Fields {
    map["operation" := Str("set_memory_eclipse"), "trigger_memory_id" := Str(trigger),
        "suppressed_memory_id" := Str(suppressed), "tenant_id" := Str(tenant), "interaction_count" := Int(count)]
  }

  function CounterState(s: StateSnapshot, counter: int): StateSnapshot {
    s.(derivedState := map["shared_access_counter" := Int(counter)], nextEventSequence := s.nextEventSequence + 1)
  }

  function CounterPayload(counter: int, hidden: bool): Fields {
    map["operation" := Str("set_shared_access_counter"), "counter" := Int(counter),
        "matched_event" := Str(if hidden then "hidden" else "sham")]
  }

  function Done<T>(step: Step<T>): Step<()> {
    Step(step.next, match step.outcome case Ok(_) => Ok(()) case Err(error) => Err(error))
  }

  /** `_apply_risi_counter_update` */
  function CounterUpdate(p: Platform, a: AdapterState, q: RetrievalQuery, retrieved: seq<string>): Step<()> {
    var victim := StrSetting(a.state.policy, "victim_principal_id");
    var canary := StrSetting(a.state.policy, "canary_memory_id");
    if victim.None? || canary.None? then Step(a, Err(TypeError))
    else if q.principalId != victim.value then Step(a, Ok(()))
    else match CounterOf(a.state.derivedState)
      case Err(error) => Step(a, Err(error))
      case Ok(prior) =>
        var hidden := canary.value in retrieved;
        var counter := if hidden then prior + 1 else prior;
        Done(Commit(p, a, CounterState(a.state, counter), READ_SIDE_UPDATE, EVALUATOR, CounterPayload(counter, hidden),
                    Some(q.principalId)))
  }

  /** The eclipsing half of `_apply_read_side_update`. */
  function EclipseUpdate(p: Platform, a: AdapterState, q: RetrievalQuery, retrieved: seq<string>): Step<()> {
    var s := a.state;
    var trigger := StrSetting(s.policy, "trigger_memory_id");
    var suppressed := StrSetting(s.policy, "suppressed_memory_id");
    if trigger.None? || suppressed.None? then Step(a, Err(TypeError))
    else if trigger.value !in retrieved then Step(a, Ok(()))
    else match SuppressedIds(s.derivedState)
      case Err(error) => Step(a, Err(error))
      case Ok(ids) =>
        if suppressed.value in ids then Step(a, Ok(()))
        else if "interaction_count" in s.policyState && !s.policyState["interaction_count"].Int? then Step(a, Err(TypeError))
        else
          var prior := if "interaction_count" in s.policyState then s.policyState["interaction_count"].n else 0;
          Done(Commit(p, a, EclipseState(s, trigger.value, suppressed.value, q.tenantId, prior + 1),
                      READ_SIDE_UPDATE, BOTH, EclipsePayload(trigger.value, suppressed.value, q.tenantId, prior + 1),
                      Some(q.principalId)))
  }

  /** `_apply_read_side_update` */
  function ReadSideUpdate(p: Platform, a: AdapterState, q: RetrievalQuery, retrieved: seq<string>): Step<()> {
    if a.state.policy.name == "pure-read" || !Truthy(Get(a.state.policy.settings, "read_side_updates")) then Step(a, Ok(()))
    else if a.state.policy.name == "risi-shared-counter" then CounterUpdate(p, a, q, retrieved)
    else EclipseUpdate(p, a, q, retrieved)
  }

  /** The event that reports removed or protected identifiers, if there are any. */
  function ReportSetChange(p: Platform, a: AdapterState, q: RetrievalQuery, answer: Answer): Step<()> {
    if answer.removed == [] && answer.protected == {} then Step(a, Ok(()))
    else Done(Record(p, a, RETRIEVAL_SET_CHANGE, BOTH, SetChangePayload(a.state, answer), Some(q.principalId)))
  }

  /** `retrieve`. A call that raises keeps the events it had already recorded. */
  function Retrieval(p: Platform, a: AdapterState, q: RetrievalQuery): Step<RetrievalResult> {
    match AnswerFor(p, a.state, q)
    case Err(error) => Step(a, Err(error))
    case Ok(answer) =>
      var completed := Record(p, a, RETRIEVAL_COMPLETED, BOTH, CompletedPayload(q, answer.result), Some(q.principalId));
      match completed.outcome
      case Err(error) => Step(completed.next, Err(error))
      case Ok(_) =>
        var reported := ReportSetChange(p, completed.next, q, answer);
        match reported.outcome
        case Err(error) => Step(reported.next, Err(error))
        case Ok(_) =>
          var updated := ReadSideUpdate(p, reported.next, q, HitIds(answer.result));
          match updated.outcome
          case Err(error) => Step(updated.next, Err(error))
          case Ok(_) => Step(updated.next, Ok(answer.result))
  }

  // ----- the other operations -----

  predicate HitsKnown(s: StateSnapshot, result: RetrievalResult) {
    forall i | 0 <= i < |result.hits| :: result.hits[i].memoryId in ById(s.sourceMemories)
  }

  function ContextLine(memoryById: map<string, MemoryRecord>, hit: RetrievalHit): string
    requires hit.memoryId in memoryById
  {
    "[" + hit.memoryId + "] " + memoryById[hit.memoryId].content
  }

  function ContextLines(memoryById: map<string, MemoryRecord>, result: RetrievalResult): seq<string>
    requires forall i | 0 <= i < |result.hits| :: result.hits[i].memoryId in memoryById
  {
    seq(|result.hits|, i requires 0 <= i < |result.hits| => ContextLine(memoryById, result.hits[i]))
  }

  function ContextPayload(result: RetrievalResult, context: string): Fields {
    map["memory_ids" := Strings(HitIds(result)), "context" := Str(context)]
  }

  /** `assemble_context` */
  function Assemble(p: Platform, a: AdapterState, result: RetrievalResult): Step<string> {
    if !HitsKnown(a.state, result) then
      Step(a, Err(KeyError))
    else
      var context := Join("\n", ContextLines(ById(a.state.sourceMemories), result));
      var recorded := Record(p, a, CONTEXT_ASSEMBLED, BOTH, ContextPayload(result, context), None);
      Step(recorded.next, match recorded.outcome case Ok(_) => Ok(context) case Err(error) => Err(error))
  }

  function PolicyPayload(policy: PolicyConfiguration): Fields {
    map["policy" := PolicyToJson(policy)]
  }

  /** `configure_policy` */
  function Configure(p: Platform, a: AdapterState, policy: PolicyConfiguration): Step<()> {
    if !PolicyAccepted(policy, ById(a.state.sourceMemories).Keys) then Step(a, Err(ValueError))
    else Done(Commit(p, a, Tick(a.state).(policy := policy), POLICY_CONFIGURED, EVALUATOR, PolicyPayload(policy), None))
  }

  /** `advance_clock` */
  function Advance(p: Platform, a: AdapterState, steps: int): Step<int> {
    if steps <= 0 then
      Step(a, Err(ValueError))
    else
      var after := Tick(a.state).(logicalTime := a.state.logicalTime + steps);
      var committed := Commit(p, a, after, STATE_HASH, EVALUATOR, map["logical_steps" := Int(steps)], None);
      Step(committed.next, match committed.outcome case Ok(_) => Ok(after.logicalTime) case Err(error) => Err(error))
  }

  /** `reset`: restores a snapshot of the same scenario and begins a new trace. */
  function Reset(a: AdapterState, snapshot: StateSnapshot): Step<()> {
    if snapshot.episode.scenarioId != a.state.episode.scenarioId then Step(a, Err(ValueError))
    else Step(Fresh(snapshot), Ok(()))
  }

  // ----- runs -----

  datatype Op =
    | RetrieveOp(query: RetrievalQuery)
    | AssembleOp(result: RetrievalResult)
    | ConfigureOp(policy: PolicyConfiguration)
    | AdvanceOp(steps: int)
    | RecordOp(eventType: EventType, visibility: EventVisibility, payload: Fields, actor: Option<string>)

  /** The adapter after one call, whether the call returned or raised. */
  function Apply(p: Platform, a: AdapterState, op: Op): AdapterState {
    match op
    case RetrieveOp(query) => Retrieval(p, a, query).next
    case AssembleOp(result) => Assemble(p, a, result).next
    case ConfigureOp(policy) => Configure(p, a, policy).next
    case AdvanceOp(steps) => Advance(p, a, steps).next
    case RecordOp(eventType, visibility, payload, actor) => Record(p, a, eventType, visibility, payload, actor).next
  }

  function Run(p: Platform, a: AdapterState, ops: seq<Op>): AdapterState
    decreases |ops|
  {
    hide Apply;
    if ops == [] then a else Run(p, Apply(p, a, ops[0]), ops[1..])
  }

  // ----- the class -----

  class ReferenceMemoryAdapter {
    const platform: Platform
    var state: StateSnapshot
    var trace: seq<TraceEvent>
    var memoryById: map<string, MemoryRecord>

    ghost predicate Valid()
      reads this
    {
      && memoryById == ById(state.sourceMemories)
      && (trace == [] || IsSha256(Last(trace).eventHash))
    }

    /** The adapter as a value. */
    ghost function View(): AdapterState
      reads this
      requires Valid()
    {
      RawAdapter(state, trace)
    }

    constructor (platform: Platform, initial: StateSnapshot)
      ensures Valid() && View() == Fresh(initial) && this.platform == platform
    {
      this.platform := platform;
      state := initial;
      trace := [];
      memoryById := ById(initial.sourceMemories);
    }

    /** `ReferenceMemoryAdapter(initial_state)`, which raises when the initial policy is not accepted. */
    static method Open(platform: Platform, initial: StateSnapshot)
      returns (outcome: Result<(), AdapterError>, adapter: ReferenceMemoryAdapter)
      ensures fresh(adapter) && adapter.Valid() && adapter.View() == Fresh(initial) && adapter.platform == platform
      ensures outcome.Ok? <==> PolicyAccepted(initial.policy, ById(initial.sourceMemories).Keys)
      ensures outcome.Err? ==> outcome.error == ValueError
    {
      adapter := new ReferenceMemoryAdapter(platform, initial);
      var accepted := PolicyAccepted(initial.policy, adapter.memoryById.Keys);
      outcome := if accepted then Ok(()) else Err(ValueError);
    }

    method CommitEvent(after: StateSnapshot, eventType: EventType, visibility: EventVisibility, payload: Fields,
                       actor: Option<string>) returns (outcome: Result<TraceEvent, AdapterError>)
      requires Valid() && after.sourceMemories == state.sourceMemories
      modifies this`state, this`trace
      ensures Valid()
      ensures Step(View(), outcome) == Commit(platform, old(View()), after, eventType, visibility, payload, actor)
    {
      hide BuildEvent, IsSha256;
      outcome := BuildEvent(platform, state, after, LastHash(trace), eventType, visibility, payload, actor);
      if outcome.Ok? {
        state := after;
        trace := trace + [outcome.value];
        assert Last(trace) == outcome.value;
      }
    }

    method RecordEvent(eventType: EventType, visibility: EventVisibility, payload: Fields, actor: Option<string>)
      returns (outcome: Result<TraceEvent, AdapterError>)
      requires Valid()
      modifies this`state, this`trace
      ensures Valid()
      ensures Step(View(), outcome) == Record(platform, old(View()), eventType, visibility, payload, actor)
    {
      hide Commit, PolicyAccepted;
      outcome := CommitEvent(Tick(state), eventType, visibility, payload, actor);
    }

    /** The scoring loop of `retrieve`. */
    method ScoreMemories(query: RetrievalQuery) returns (scored: seq<Scored>)
      requires Valid()
      ensures scored == ScoreAll(platform, state.sourceMemories, query, state.logicalTime)
    {
      scored := [];
      for i := 0 to |state.sourceMemories|
        invariant scored == ScoreAll(platform, state.sourceMemories[..i], query, state.logicalTime)
      {
        var memory := state.sourceMemories[i];
        assert Front(state.sourceMemories[..i + 1]) == state.sourceMemories[..i];
        if IsRetrievable(memory, query, state.logicalTime) {
          var score := Score(platform, query.text, memory.content);
          if score > 0.0 {
            scored := scored + [Scored(score, memory.memoryId)];
          }
        }
      }
      assert state.sourceMemories[..|state.sourceMemories|] == state.sourceMemories;
    }

    method Retrieve(query: RetrievalQuery) returns (outcome: Result<RetrievalResult, AdapterError>)
      requires Valid()
      modifies this`state, this`trace
      ensures Valid()
      ensures Step(View(), outcome) == Retrieval(platform, old(View()), query)
    {
      hide Record, ReadSideUpdate, Commit;
      if !WithinTopK(state, query) {
        return Err(ValueError);
      }
      var scored := ScoreMemories(query);
      scored := Sorted(None, scored);
      var ranked := ProbeRanking(state, query, scored);
      if ranked.Err? {
        return Err(ranked.error);
      }
      scored := ranked.value;
      var suppressed := SuppressedIds(state.derivedState);
      if suppressed.Err? {
        return Err(suppressed.error);
      }
      var protected := ProtectedIds(state, scored, suppressed.value);
      var removed := Among(scored, suppressed.value - protected);
      scored := Without(scored, suppressed.value - protected);
      var hits := Top(scored, query.topK);
      var result := RetrievalResult(hits, map["principal_id" := Str(query.principalId), "result_count" := Int(|hits|),
                                              "policy" := Str(state.policy.name)]);
      ghost var answer := Answer(result, removed, protected);
      assert AnswerFor(platform, old(state), query) == Ok(answer);
      var completed := RecordEvent(RETRIEVAL_COMPLETED, BOTH, CompletedPayload(query, result), Some(query.principalId));
      if completed.Err? {
        return Err(completed.error);
      }
      if removed != [] || protected != {} {
        var changed := RecordEvent(RETRIEVAL_SET_CHANGE, BOTH,
                                   SetChangePayload(state, Answer(result, removed, protected)), Some(query.principalId));
        if changed.Err? {
          return Err(changed.error);
        }
      }
      var updated := ApplyReadSideUpdate(query, HitIds(result));
      if updated.Err? {
        return Err(updated.error);
      }
      return Ok(result);
    }

    method ApplyReadSideUpdate(query: RetrievalQuery, retrieved: seq<string>) returns (outcome: Result<(), AdapterError>)
      requires Valid()
      modifies this`state, this`trace
      ensures Valid()
      ensures Step(View(), outcome) == ReadSideUpdate(platform, old(View()), query, retrieved)
    {
      hide Commit, PolicyAccepted;
      if state.policy.name == "pure-read" || !Truthy(Get(state.policy.settings, "read_side_updates")) {
        return Ok(());
      }
      if state.policy.name == "risi-shared-counter" {
        outcome := ApplyCounterUpdate(query, retrieved);
        return;
      }
      var trigger := StrSetting(state.policy, "trigger_memory_id");
      var suppressed := StrSetting(state.policy, "suppressed_memory_id");
      if trigger.None? || suppressed.None? {
        return Err(TypeError);
      }
      if trigger.value !in retrieved {
        return Ok(());
      }
      var ids := SuppressedIds(state.derivedState);
      if ids.Err? {
        return Err(ids.error);
      }
      if suppressed.value in ids.value {
        return Ok(());
      }
      if "interaction_count" in state.policyState && !state.policyState["interaction_count"].Int? {
        return Err(TypeError);
      }
      var prior := if "interaction_count" in state.policyState then state.policyState["interaction_count"].n else 0;
      var committed := CommitEvent(EclipseState(state, trigger.value, suppressed.value, query.tenantId, prior + 1),
                                   READ_SIDE_UPDATE, BOTH,
                                   EclipsePayload(trigger.value, suppressed.value, query.tenantId, prior + 1),
                                   Some(query.principalId));
      if committed.Err? {
        return Err(committed.error);
      }
      return Ok(());
    }

    method ApplyCounterUpdate(query: RetrievalQuery, retrieved: seq<string>) returns (outcome: Result<(), AdapterError>)
      requires Valid()
      modifies this`state, this`trace
      ensures Valid()
      ensures Step(View(), outcome) == CounterUpdate(platform, old(View()), query, retrieved)
    {
      hide Commit, PolicyAccepted;
      var victim := StrSetting(state.policy, "victim_principal_id");
      var canary := StrSetting(state.policy, "canary_memory_id");
      if victim.None? || canary.None? {
        return Err(TypeError);
      }
      if query.principalId != victim.value {
        return Ok(());
      }
      var prior := CounterOf(state.derivedState);
      if prior.Err? {
        return Err(prior.error);
      }
      var hidden := canary.value in retrieved;
      var counter := if hidden then prior.value + 1 else prior.value;
      var committed := CommitEvent(CounterState(state, counter), READ_SIDE_UPDATE, EVALUATOR,
                                   CounterPayload(counter, hidden), Some(query.principalId));
      if committed.Err? {
        return Err(committed.error);
      }
      return Ok(());
    }

    method AssembleContext(result: RetrievalResult) returns (outcome: Result<string, AdapterError>)
      requires Valid()
      modifies this`state, this`trace
      ensures Valid()
      ensures Step(View(), outcome) == Assemble(platform, old(View()), result)
    {
      hide Commit, PolicyAccepted;
      var lines: seq<string> := [];
      for i := 0 to |result.hits|
        invariant |lines| == i
        invariant forall j | 0 <= j < i :: result.hits[j].memoryId in memoryById && lines[j] == ContextLine(memoryById, result.hits[j])
      {
        if result.hits[i].memoryId !in memoryById {
          return Err(KeyError);
        }
        lines := lines + [ContextLine(memoryById, result.hits[i])];
      }
      var context := Join("\n", lines);
      assert lines == ContextLines(memoryById, result);
      var recorded := RecordEvent(CONTEXT_ASSEMBLED, BOTH, ContextPayload(result, context), None);
      if recorded.Err? {
        return Err(recorded.error);
      }
      return Ok(context);
    }

    method ConfigurePolicy(policy: PolicyConfiguration) returns (outcome: Result<(), AdapterError>)
      requires Valid()
      modifies this`state, this`trace
      ensures Valid()
      ensures Step(View(), outcome) == Configure(platform, old(View()), policy)
    {
      hide Commit, PolicyAccepted;
      if !PolicyAccepted(policy, memoryById.Keys) {
        return Err(ValueError);
      }
      var committed := CommitEvent(Tick(state).(policy := policy), POLICY_CONFIGURED, EVALUATOR, PolicyPayload(policy), None);
      if committed.Err? {
        return Err(committed.error);
      }
      return Ok(());
    }

    method AdvanceClock(steps: int) returns (outcome: Result<int, AdapterError>)
      requires Valid()
      modifies this`state, this`trace
      ensures Valid()
      ensures Step(View(), outcome) == Advance(platform, old(View()), steps)
    {
      hide Commit, PolicyAccepted;
      if steps <= 0 {
        return Err(ValueError);
      }
      var after := Tick(state).(logicalTime := state.logicalTime + steps);
      var committed := CommitEvent(after, STATE_HASH, EVALUATOR, map["logical_steps" := Int(steps)], None);
      if committed.Err? {
        return Err(committed.error);
      }
      return Ok(after.logicalTime);
    }

    method ResetTo(snapshot: StateSnapshot) returns (outcome: Result<(), AdapterError>)
      requires Valid()
      modifies this`state, this`trace, this`memoryById
      ensures Valid()
      ensures Step(View(), outcome) == Reset(old(View()), snapshot)
    {
      if snapshot.episode.scenarioId != state.episode.scenarioId {
        return Err(ValueError);
      }
      state := snapshot;
      memoryById := ById(snapshot.sourceMemories);
      trace := [];
      return Ok(());
    }
  }
}
