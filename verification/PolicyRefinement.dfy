/** The adaptive policies compared with pure-read over arbitrary runs (adapters/reference.py). */
module PolicyRefinement {
  import opened Basics
  import opened Json
  import opened Text
  import opened Models
  import opened Trace
  import opened ReferenceMemory
  import opened Retrievals
  import opened SharedCounter

  /** The same snapshot under pure-read, with no adaptive state. */
  function AsPureRead(s: StateSnapshot): StateSnapshot {
    PureReadNamed();
    s.(policy := RawPolicy("pure-read", "1", map["top_k" := Get(s.policy.settings, "top_k"), "read_side_updates" := Bool(false)]),
       derivedState := map[], policyState := map[])
  }

  lemma PureReadNamed()
    ensures NonBlank("pure-read") && NonBlank("1")
  {
  }

  function Suppressed(s: StateSnapshot): string {
    Setting(s, "suppressed_memory_id")
  }

  function Trigger(s: StateSnapshot): string {
    Setting(s, "trigger_memory_id")
  }

  /** An accepted adaptive policy whose eclipse is, or is not, in force. */
  predicate AdaptiveReady(s: StateSnapshot, eclipsed: bool) {
    && s.policy.name in {"memory-eclipsing", "protected-critical-recall"}
    && PolicyAccepted(s.policy, ById(s.sourceMemories).Keys)
    && SuppressedIds(s.derivedState) == Ok(if eclipsed then {Suppressed(s)} else {})
    && ("interaction_count" in s.policyState ==> s.policyState["interaction_count"].Int?)
  }

  /** The suppressed memory carries the label the policy protects. */
  predicate Shielded(s: StateSnapshot) {
    IsProtected(s, Suppressed(s))
  }

  function PlainRanking(p: Platform, s: StateSnapshot, q: RetrievalQuery): seq<Scored> {
    Sorted(None, ScoreAll(p, s.sourceMemories, q, s.logicalTime))
  }

  /** The ranking with the suppressed memory filtered out, once the eclipse bites. */
  function EclipsedRanking(p: Platform, s: StateSnapshot, q: RetrievalQuery, eclipsed: bool): seq<Scored> {
    if eclipsed && !Shielded(s) then Without(PlainRanking(p, s, q), {Suppressed(s)}) else PlainRanking(p, s, q)
  }

  predicate SameStatics(s: StateSnapshot, t: StateSnapshot) {
    t == s.(nextEventSequence := t.nextEventSequence, derivedState := t.derivedState, policyState := t.policyState)
  }

  lemma AdaptiveSettings(s: StateSnapshot, eclipsed: bool)
    requires AdaptiveReady(s, eclipsed)
    ensures StrSetting(s.policy, "trigger_memory_id") == Some(Trigger(s))
    ensures StrSetting(s.policy, "suppressed_memory_id") == Some(Suppressed(s))
    ensures Get(s.policy.settings, "read_side_updates") == Bool(true)
    ensures Get(s.policy.settings, "top_k").Int? && Get(s.policy.settings, "top_k").n > 0
  {
  }

  /** The identifiers a retrieval filters out. */
  lemma FilteredIds(s: StateSnapshot, scored: seq<Scored>, eclipsed: bool)
    requires AdaptiveReady(s, eclipsed)
    ensures var suppressed: set<string> := if eclipsed then {Suppressed(s)} else {};
            Without(scored, suppressed - ProtectedIds(s, scored, suppressed)) ==
            if eclipsed && !Shielded(s) then Without(scored, {Suppressed(s)}) else scored
  {
    hide PolicyAccepted, ById, IsProtected, SuppressedIds;
    var suppressed: set<string> := if eclipsed then {Suppressed(s)} else {};
    var removed := suppressed - ProtectedIds(s, scored, suppressed);
    if eclipsed && !Shielded(s) {
      assert removed == {Suppressed(s)};
    } else {
      forall i | 0 <= i < |scored| ensures scored[i].memoryId !in removed {}
      WithoutAbsent(scored, removed);
    }
  }

  lemma {:induction false} WithoutAbsent(scored: seq<Scored>, removed: set<string>)
    requires forall i | 0 <= i < |scored| :: scored[i].memoryId !in removed
    ensures Without(scored, removed) == scored
  {
    if scored != [] {
      WithoutAbsent(scored[1..], removed);
    }
  }

  lemma AdaptiveAnswer(p: Platform, s: StateSnapshot, q: RetrievalQuery, eclipsed: bool)
    requires AdaptiveReady(s, eclipsed)
    ensures AnswerFor(p, s, q).Ok? <==> WithinTopK(s, q)
    ensures AnswerFor(p, s, q).Ok? ==>
              AnswerFor(p, s, q).value.result.hits == Top(EclipsedRanking(p, s, q, eclipsed), q.topK)
  {
    hide ScoreAll, Sorted, Top, Without, Among, PolicyAccepted, ById, Shielded, ProtectedIds, SuppressedIds;
    FilteredIds(s, PlainRanking(p, s, q), eclipsed);
  }

  lemma PureAnswer(p: Platform, s: StateSnapshot, q: RetrievalQuery)
    ensures AnswerFor(p, AsPureRead(s), q).Ok? <==> WithinTopK(s, q)
    ensures AnswerFor(p, AsPureRead(s), q).Ok? ==>
              AnswerFor(p, AsPureRead(s), q).value.result.hits == Top(PlainRanking(p, s, q), q.topK)
  {
    hide ScoreAll, Sorted, Top, Without, Among, ById, ProtectedIds;
    var none: set<string> := {};
    var t := AsPureRead(s);
    assert SuppressedIds(t.derivedState) == Ok(none);
    NoneProtected(t, PlainRanking(p, s, q));
    assert none - none == none;
    WithoutNothing(PlainRanking(p, s, q));
  }

  lemma NoneProtected(t: StateSnapshot, scored: seq<Scored>)
    ensures ProtectedIds(t, scored, {}) == {}
  {
  }

  predicate TriggerHit(s: StateSnapshot, outcome: Result<RetrievalResult, AdapterError>) {
    outcome.Ok? && Trigger(s) in HitIds(outcome.value)
  }

  /** The read-side update of an adaptive policy sets the eclipse once, and then never again. */
  lemma AdaptiveUpdate(p: Platform, a: AdapterState, q: RetrievalQuery, retrieved: seq<string>, eclipsed: bool)
    requires AdaptiveReady(a.state, eclipsed)
    ensures var step := EclipseUpdate(p, a, q, retrieved);
            && step.outcome.Ok? && SameStatics(a.state, step.next.state)
            && AdaptiveReady(step.next.state, eclipsed || Trigger(a.state) in retrieved)
            && Updates(step.next.trace) ==
               Updates(a.trace) + (if !eclipsed && Trigger(a.state) in retrieved then 1 else 0)
  {
    hide Commit, PolicyAccepted, ById, StrSetting, Updates, ObjectPathHolds, NonBlank;
    var s := a.state;
    AdaptiveSettings(s, eclipsed);
    if Trigger(s) in retrieved && !eclipsed {
      var prior := if "interaction_count" in s.policyState then s.policyState["interaction_count"].n else 0;
      var after := EclipseState(s, Trigger(s), Suppressed(s), q.tenantId, prior + 1);
      var payload := EclipsePayload(Trigger(s), Suppressed(s), q.tenantId, prior + 1);
      EclipsePasses(Trigger(s), Suppressed(s), q.tenantId, prior + 1, p.casefold);
      CommitSucceeds(p, a, after, READ_SIDE_UPDATE, BOTH, payload, Some(q.principalId));
      UpdatesExtend(a.trace, Commit(p, a, after, READ_SIDE_UPDATE, BOTH, payload, Some(q.principalId)).outcome.value);
      EclipseStateReady(s, Trigger(s), q.tenantId, prior + 1);
    }
  }

  lemma EclipseStateReady(s: StateSnapshot, trigger: string, tenant: string, count: int)
    requires AdaptiveReady(s, false)
    ensures var after := EclipseState(s, trigger, Suppressed(s), tenant, count);
            AdaptiveReady(after, true) && SameStatics(s, after)
  {
    hide PolicyAccepted, ById;
    var after := EclipseState(s, trigger, Suppressed(s), tenant, count);
    assert after.derivedState["suppressed_memory_ids"] == Arr([Str(Suppressed(s))]);
    assert after.policyState["interaction_count"] == Int(count);
    var items := [Str(Suppressed(s))];
    assert items[0].Str?;
    assert (set i | 0 <= i < |items| :: items[i].s) == {items[0].s};
  }

  lemma AdaptiveIgnoresSequence(s: StateSnapshot, t: StateSnapshot, eclipsed: bool)
    requires AdaptiveReady(s, eclipsed) && SameButSequence(s, t)
    ensures AdaptiveReady(t, eclipsed) && SameStatics(s, t)
  {
    hide PolicyAccepted, ById, SuppressedIds;
  }

  lemma ReadWhenAdaptive(p: Platform, a: AdapterState, q: RetrievalQuery, retrieved: seq<string>, eclipsed: bool)
    requires AdaptiveReady(a.state, eclipsed)
    ensures ReadSideUpdate(p, a, q, retrieved) == EclipseUpdate(p, a, q, retrieved)
  {
    hide CounterUpdate, EclipseUpdate, ById, SuppressedIds;
    AdaptiveSettings(a.state, eclipsed);
  }

  lemma AdaptiveRetrieval(p: Platform, a: AdapterState, q: RetrievalQuery, eclipsed: bool)
    requires AdaptiveReady(a.state, eclipsed)
    ensures var step := Retrieval(p, a, q);
            && step.outcome == AnswerResult(p, a.state, q)
            && SameStatics(a.state, step.next.state)
            && AdaptiveReady(step.next.state, eclipsed || TriggerHit(a.state, step.outcome))
            && Updates(step.next.trace) ==
               Updates(a.trace) + (if !eclipsed && TriggerHit(a.state, step.outcome) then 1 else 0)
  {
    hide AnswerFor, ReadSideUpdate, EclipseUpdate, Reported, AdaptiveReady, Updates, HitIds, Retrieval;
    if AnswerFor(p, a.state, q).Ok? {
      var answer := AnswerFor(p, a.state, q).value;
      RetrievalEffect(p, a, q);
      var reported := Reported(p, a, q, answer);
      AdaptiveIgnoresSequence(a.state, reported.state, eclipsed);
      ReadWhenAdaptive(p, reported, q, HitIds(answer.result), eclipsed);
      AdaptiveUpdate(p, reported, q, HitIds(answer.result), eclipsed);
    } else {
      RefusedRetrieval(p, a, q);
    }
  }

  /** Some retrieval of the run returned the trigger. */
  predicate TriggerReturned(p: Platform, a: AdapterState, ops: seq<Op>)
    decreases |ops|
  {
    hide Apply, Retrieval;
    && ops != []
    && ((ops[0].RetrieveOp? && TriggerHit(a.state, Retrieval(p, a, ops[0].query).outcome))
        || TriggerReturned(p, Apply(p, a, ops[0]), ops[1..]))
  }

  lemma {:induction false} AdaptiveRun(p: Platform, a: AdapterState, ops: seq<Op>, eclipsed: bool)
    requires AdaptiveReady(a.state, eclipsed) && AllQuiet(ops)
    ensures SameStatics(a.state, Run(p, a, ops).state)
    ensures AdaptiveReady(Run(p, a, ops).state, eclipsed || TriggerReturned(p, a, ops))
    ensures Updates(Run(p, a, ops).trace) ==
            Updates(a.trace) + (if !eclipsed && TriggerReturned(p, a, ops) then 1 else 0)
    decreases |ops|
  {
    hide Apply, Retrieval, AdaptiveReady, TriggerHit, Updates;
    if ops != [] {
      var b := Apply(p, a, ops[0]);
      if ops[0].RetrieveOp? {
        var hit := TriggerHit(a.state, Retrieval(p, a, ops[0].query).outcome);
        AdaptiveRetrieval(p, a, ops[0].query, eclipsed);
        ApplyRetrieves(p, a, ops[0].query);
        AdaptiveRun(p, b, ops[1..], eclipsed || hit);
      } else {
        QuietCallKeepsState(p, a, ops[0]);
        AdaptiveIgnoresSequence(a.state, b.state, eclipsed);
        AdaptiveRun(p, b, ops[1..], eclipsed);
      }
    }
  }

  /**
   After any run from an uneclipsed start, an adaptive policy answers like pure-read until the trigger
   has been returned; from then on it answers from pure-read's ranking without the suppressed memory,
   unless that memory is shielded. The run records one read-side update if the trigger was returned,
   and none otherwise.
   */
  lemma AdaptiveRefinesPureRead(p: Platform, a: AdapterState, ops: seq<Op>, q: RetrievalQuery)
    requires AdaptiveReady(a.state, false) && AllQuiet(ops)
    ensures var adaptive := Retrieval(p, Run(p, a, ops), q).outcome;
            var pure := Retrieval(p, Fresh(AsPureRead(a.state)), q).outcome;
            && (adaptive.Ok? <==> pure.Ok?)
            && (adaptive.Ok? ==>
                  adaptive.value.hits ==
                  if TriggerReturned(p, a, ops) && !Shielded(a.state)
                  then Top(Without(PlainRanking(p, a.state, q), {Suppressed(a.state)}), q.topK)
                  else pure.value.hits)
    ensures Updates(Run(p, a, ops).trace) == Updates(a.trace) + if TriggerReturned(p, a, ops) then 1 else 0
  {
    hide Run, Retrieval, AnswerFor, AdaptiveReady, Without, Top, Updates, TriggerReturned, PlainRanking;
    AdaptiveRun(p, a, ops, false);
    var b := Run(p, a, ops);
    AdaptiveRetrieval(p, b, q, TriggerReturned(p, a, ops));
    AdaptiveAnswer(p, b.state, q, TriggerReturned(p, a, ops));
    PureAnswer(p, a.state, q);
    PureReadRetrieval(p, Fresh(AsPureRead(a.state)), q);
    SameStaticsSameRanking(p, a.state, b.state, q);
  }

  lemma SameStaticsSameRanking(p: Platform, s: StateSnapshot, t: StateSnapshot, q: RetrievalQuery)
    requires SameStatics(s, t)
    ensures PlainRanking(p, t, q) == PlainRanking(p, s, q)
    ensures Shielded(t) == Shielded(s) && Suppressed(t) == Suppressed(s) && WithinTopK(t, q) == WithinTopK(s, q)
  {
    hide ScoreAll, Sorted, ById;
  }

  /** With the protected label in place, protected critical recall is pure-read, forever. */
  lemma ProtectedRecallIsPureRead(p: Platform, a: AdapterState, ops: seq<Op>, q: RetrievalQuery)
    requires AdaptiveReady(a.state, false) && AllQuiet(ops) && a.state.policy.name == "protected-critical-recall"
    requires Suppressed(a.state) in ById(a.state.sourceMemories)
    requires ById(a.state.sourceMemories)[Suppressed(a.state)].systemCriticality == Some(PROTECTED_CRITICALITY)
    ensures var protected := Retrieval(p, Run(p, a, ops), q).outcome;
            var pure := Retrieval(p, Fresh(AsPureRead(a.state)), q).outcome;
            (protected.Ok? <==> pure.Ok?) && (protected.Ok? ==> protected.value.hits == pure.value.hits)
  {
    hide Run, Retrieval, ById, Updates, TriggerReturned, AdaptiveReady, Without, Top, PlainRanking;
    assert Get(a.state.policy.settings, "protected_criticality") == Str(PROTECTED_CRITICALITY) by {
      LabelSetting(a.state);
    }
    AdaptiveRefinesPureRead(p, a, ops, q);
  }

  lemma LabelSetting(s: StateSnapshot)
    requires AdaptiveReady(s, false) && s.policy.name == "protected-critical-recall"
    ensures Get(s.policy.settings, "protected_criticality") == Str(PROTECTED_CRITICALITY)
  {
    hide ById, SuppressedIds;
  }
}
