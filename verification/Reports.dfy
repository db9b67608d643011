/** What a retrieval reports in its trace besides its result: identifiers removed or protected, and its read-side update. */
module Reports {
  import opened Basics
  import opened Json
  import opened Text
  import opened Bytes
  import opened Models
  import opened Trace
  import opened ReferenceMemory
  import opened AdapterRuns
  import opened Retrievals
  import opened SharedCounter
  import opened PolicyRefinement
  import opened Recorded
  import Replay

  // ----- the two lists of a set change -----

  /** The one text comes before the other in the list. */
  predicate Precedes(xs: seq<string>, x: string, y: string) {
    exists m, n | 0 <= m < n < |xs| :: xs[m] == x && xs[n] == y
  }

  lemma {:induction false} AmongLists(scored: seq<Scored>, removed: set<string>)
    ensures forall id :: id in Among(scored, removed) <==> id in Ids(scored) && id in removed
  {
    if scored != [] {
      AmongLists(scored[1..], removed);
      assert Ids(scored) == [scored[0].memoryId] + Ids(scored[1..]);
    }
  }

  lemma {:induction false} AmongKeepsOrder(scored: seq<Scored>, removed: set<string>, i: nat, j: nat)
    requires i < j < |Among(scored, removed)|
    ensures Precedes(Ids(scored), Among(scored, removed)[i], Among(scored, removed)[j])
  {
    var rest := Among(scored[1..], removed);
    assert Ids(scored) == [scored[0].memoryId] + Ids(scored[1..]);
    AmongLists(scored[1..], removed);
    if scored[0].memoryId !in removed {
      AmongKeepsOrder(scored[1..], removed, i, j);
      PrecedesBehind(scored[0].memoryId, Ids(scored[1..]), rest[i], rest[j]);
    } else if i > 0 {
      AmongKeepsOrder(scored[1..], removed, i - 1, j - 1);
      PrecedesBehind(scored[0].memoryId, Ids(scored[1..]), rest[i - 1], rest[j - 1]);
    } else {
      assert rest[j - 1] in rest;
      var n :| 0 <= n < |Ids(scored[1..])| && Ids(scored[1..])[n] == rest[j - 1];
      assert Ids(scored)[0] == scored[0].memoryId && Ids(scored)[n + 1] == rest[j - 1];
    }
  }

  lemma PrecedesBehind(x: string, xs: seq<string>, y: string, z: string)
    requires Precedes(xs, y, z)
    ensures Precedes([x] + xs, y, z)
  {
    var m, n :| 0 <= m < n < |xs| && xs[m] == y && xs[n] == z;
    assert ([x] + xs)[m + 1] == y && ([x] + xs)[n + 1] == z;
  }

  /** Of a ranking's suppressed identifiers, those that carry the protected label are protected and the others removed. */
  ghost predicate Divides(s: StateSnapshot, ranking: seq<Scored>, suppressed: set<string>, removed: seq<string>, protected: set<string>) {
    && (forall id :: id in removed <==> id in Ids(ranking) && id in suppressed && !IsProtected(s, id))
    && (forall id :: id in protected <==> id in Ids(ranking) && id in suppressed && IsProtected(s, id))
    && (forall i, j | 0 <= i < j < |removed| :: Precedes(Ids(ranking), removed[i], removed[j]))
  }

  lemma AnswerDivides(p: Platform, s: StateSnapshot, q: RetrievalQuery)
    requires AnswerFor(p, s, q).Ok?
    ensures Ranking(p, s, q).Ok? && SuppressedIds(s.derivedState).Ok?
    ensures var answer := AnswerFor(p, s, q).value;
            Divides(s, Ranking(p, s, q).value, SuppressedIds(s.derivedState).value, answer.removed, answer.protected)
  {
    hide Ranking, SuppressedIds, IsProtected, Top, Without, Among, Ids;
    var ranking, suppressed := Ranking(p, s, q).value, SuppressedIds(s.derivedState).value;
    var protected := ProtectedIds(s, ranking, suppressed);
    ProtectedLists(s, ranking, suppressed);
    AmongLists(ranking, suppressed - protected);
    var removed := AnswerFor(p, s, q).value.removed;
    forall i, j | 0 <= i < j < |removed| ensures Precedes(Ids(ranking), removed[i], removed[j]) {
      AmongKeepsOrder(ranking, suppressed - protected, i, j);
    }
  }

  lemma ProtectedLists(s: StateSnapshot, ranking: seq<Scored>, suppressed: set<string>)
    ensures forall id :: id in ProtectedIds(s, ranking, suppressed) <==> id in Ids(ranking) && id in suppressed && IsProtected(s, id)
  {
    hide IsProtected;
    forall id | id in Ids(ranking) && id in suppressed && IsProtected(s, id) ensures id in ProtectedIds(s, ranking, suppressed) {
      var i :| 0 <= i < |Ids(ranking)| && Ids(ranking)[i] == id;
      assert ranking[i].memoryId == id;
    }
    forall id | id in ProtectedIds(s, ranking, suppressed) ensures id in Ids(ranking) {
      var i :| 0 <= i < |ranking| && ranking[i].memoryId == id;
      assert Ids(ranking)[i] == id;
    }
  }

  // ----- the hits that remain -----

  lemma {:induction false} WithoutLists(scored: seq<Scored>, removed: set<string>)
    ensures forall id :: id in Ids(Without(scored, removed)) <==> id in Ids(scored) && id !in removed
  {
    if scored != [] {
      WithoutLists(scored[1..], removed);
      assert Ids(scored) == [scored[0].memoryId] + Ids(scored[1..]);
      if scored[0].memoryId !in removed {
        assert Ids(Without(scored, removed)) == [scored[0].memoryId] + Ids(Without(scored[1..], removed));
      }
    }
  }

  lemma {:induction false} WithoutKeepsOrder(scored: seq<Scored>, removed: set<string>, i: nat, j: nat)
    requires i < j < |Without(scored, removed)|
    ensures Precedes(Ids(scored), Without(scored, removed)[i].memoryId, Without(scored, removed)[j].memoryId)
  {
    var rest := Without(scored[1..], removed);
    assert Ids(scored) == [scored[0].memoryId] + Ids(scored[1..]);
    WithoutLists(scored[1..], removed);
    if scored[0].memoryId in removed {
      WithoutKeepsOrder(scored[1..], removed, i, j);
      PrecedesBehind(scored[0].memoryId, Ids(scored[1..]), rest[i].memoryId, rest[j].memoryId);
    } else if i > 0 {
      WithoutKeepsOrder(scored[1..], removed, i - 1, j - 1);
      PrecedesBehind(scored[0].memoryId, Ids(scored[1..]), rest[i - 1].memoryId, rest[j - 1].memoryId);
    } else {
      assert Ids(rest)[j - 1] in Ids(rest);
      var n :| 0 <= n < |Ids(scored[1..])| && Ids(scored[1..])[n] == rest[j - 1].memoryId;
      assert Ids(scored)[0] == scored[0].memoryId && Ids(scored)[n + 1] == rest[j - 1].memoryId;
    }
  }

  /** The hits keep the ranking's order, and what is ranked and neither removed nor a hit comes after all of them, for want of room. */
  ghost predicate TakesFirst(ranking: seq<Scored>, removed: seq<string>, hits: seq<RetrievalHit>, topK: int) {
    && |hits| <= topK
    && (forall i, j | 0 <= i < j < |hits| :: Precedes(Ids(ranking), hits[i].memoryId, hits[j].memoryId))
    && (forall i | 0 <= i < |hits| :: hits[i].memoryId in Ids(ranking) && hits[i].memoryId !in removed)
    && forall id | id in Ids(ranking) && id !in removed ::
         || (exists i :: 0 <= i < |hits| && hits[i].memoryId == id)
         || (|hits| == topK && forall i | 0 <= i < |hits| :: Precedes(Ids(ranking), hits[i].memoryId, id))
  }

  lemma TopIsPrefix(kept: seq<Scored>, topK: nat)
    ensures |Top(kept, topK)| == (if topK < |kept| then topK else |kept|)
    ensures forall i | 0 <= i < |Top(kept, topK)| :: Top(kept, topK)[i].memoryId == kept[i].memoryId
  {
  }

  /** What is ranked and kept is a hit, or behind all hits when there is no more room. */
  lemma HitOrBehind(ranking: seq<Scored>, removed: set<string>, topK: nat, id: string)
    requires id in Ids(ranking) && id !in removed
    ensures var hits := Top(Without(ranking, removed), topK);
            || (exists i :: 0 <= i < |hits| && hits[i].memoryId == id)
            || (|hits| == topK && forall i | 0 <= i < |hits| :: Precedes(Ids(ranking), hits[i].memoryId, id))
  {
    hide Without, Top, Precedes;
    var kept := Without(ranking, removed);
    WithoutLists(ranking, removed);
    TopIsPrefix(kept, topK);
    var n :| 0 <= n < |Ids(kept)| && Ids(kept)[n] == id;
    var hits := Top(kept, topK);
    if n < |hits| {
      assert hits[n].memoryId == id;
    } else {
      forall i | 0 <= i < |hits| ensures Precedes(Ids(ranking), hits[i].memoryId, id) {
        WithoutKeepsOrder(ranking, removed, i, n);
      }
    }
  }

  lemma TopTakesFirst(ranking: seq<Scored>, removed: set<string>, topK: nat)
    ensures TakesFirst(ranking, Among(ranking, removed), Top(Without(ranking, removed), topK), topK)
  {
    hide Without, Among, Top, Precedes;
    var kept, hits := Without(ranking, removed), Top(Without(ranking, removed), topK);
    AmongLists(ranking, removed);
    WithoutLists(ranking, removed);
    TopIsPrefix(kept, topK);
    forall i, j | 0 <= i < j < |hits| ensures Precedes(Ids(ranking), hits[i].memoryId, hits[j].memoryId) {
      WithoutKeepsOrder(ranking, removed, i, j);
    }
    forall i | 0 <= i < |hits| ensures hits[i].memoryId in Ids(ranking) && hits[i].memoryId !in Among(ranking, removed) {
      assert Ids(kept)[i] in Ids(kept);
    }
    forall id | id in Ids(ranking) && id !in Among(ranking, removed)
      ensures || (exists i :: 0 <= i < |hits| && hits[i].memoryId == id)
              || (|hits| == topK && forall i | 0 <= i < |hits| :: Precedes(Ids(ranking), hits[i].memoryId, id))
    {
      HitOrBehind(ranking, removed, topK, id);
    }
  }

  /** A retrieval's answer takes the first of what is ranked and not removed, and as many as were asked for if there are so many. */
  lemma HitsAreFirst(p: Platform, s: StateSnapshot, q: RetrievalQuery)
    requires AnswerFor(p, s, q).Ok?
    ensures Ranking(p, s, q).Ok?
    ensures var answer := AnswerFor(p, s, q).value;
            TakesFirst(Ranking(p, s, q).value, answer.removed, answer.result.hits, q.topK)
  {
    hide Ranking, SuppressedIds, ProtectedIds, Top, Without, Among, TakesFirst;
    var ranking, suppressed := Ranking(p, s, q).value, SuppressedIds(s.derivedState).value;
    TopTakesFirst(ranking, suppressed - ProtectedIds(s, ranking, suppressed), q.topK);
  }

  // ----- the event that reports them -----

  /** The payload lists what was removed, in ranking order, and what was protected, in text order. */
  ghost predicate ReportsChange(s: StateSnapshot, answer: Answer, payload: Fields) {
    && Get(payload, "removed_memory_ids") == Strings(answer.removed)
    && Get(payload, "policy") == Str(s.policy.name)
    && exists protected: seq<string> ::
         && Get(payload, "protected_memory_ids") == Strings(protected) && StrictlySorted(protected)
         && forall id :: id in protected <==> id in answer.protected
  }

  lemma ChangePayload(s: StateSnapshot, answer: Answer)
    ensures ReportsChange(s, answer, SetChangePayload(s, answer))
  {
    hide SortedStrings, Strings;
    var protected := SortedStrings(answer.protected);
    assert Get(SetChangePayload(s, answer), "protected_memory_ids") == Strings(protected);
    assert StrictlySorted(protected) && forall id :: id in protected <==> id in answer.protected;
  }

  /** What a retrieval adds to the set changes of the trace: one report if anything was removed or protected, else nothing. */
  ghost predicate AddsChange(s: StateSnapshot, answer: Answer, before: AdapterState, after: AdapterState) {
    hide PayloadsOf;
    exists added :: && Adds(before, after, RETRIEVAL_SET_CHANGE, added)
                    && (if answer.removed == [] && answer.protected == {} then added == []
                        else |added| == 1 && ReportsChange(s, answer, added[0]))
  }

  lemma ReportAdds(p: Platform, a: AdapterState, q: RetrievalQuery, answer: Answer)
    requires ReportSetChange(p, a, q, answer).outcome.Ok?
    ensures AddsChange(a.state, answer, a, ReportSetChange(p, a, q, answer).next)
  {
    hide Record, Adds, SetChangePayload, ReportsChange, IsSha256;
    AddsNothing(a, RETRIEVAL_SET_CHANGE);
    ChangePayload(a.state, answer);
    RecordRecords(p, a, RETRIEVAL_SET_CHANGE, BOTH, SetChangePayload(a.state, answer), Some(q.principalId), RETRIEVAL_SET_CHANGE);
  }

  /** Between calls that report no change, under the same policy. */
  lemma AddsChangeWithin(s: StateSnapshot, answer: Answer, a: AdapterState, b: AdapterState, c: AdapterState, d: AdapterState)
    requires Adds(a, b, RETRIEVAL_SET_CHANGE, []) && AddsChange(b.state, answer, b, c) && Adds(c, d, RETRIEVAL_SET_CHANGE, [])
    requires s.policy == b.state.policy
    ensures AddsChange(s, answer, a, d)
  {
    hide Adds, ReportsChange, IsSha256;
    var added :| && Adds(b, c, RETRIEVAL_SET_CHANGE, added)
                 && (if answer.removed == [] && answer.protected == {} then added == []
                     else |added| == 1 && ReportsChange(b.state, answer, added[0]));
    AddsInTurn(a, b, c, RETRIEVAL_SET_CHANGE, [], added);
    AddsInTurn(a, c, d, RETRIEVAL_SET_CHANGE, [] + added, []);
    assert [] + added + [] == added;
    if added != [] {
      ChangeIgnoresSequence(s, b.state, answer, added[0]);
    }
  }

  /** What a returned retrieval is made of. */
  lemma RetrievalParts(p: Platform, a: AdapterState, q: RetrievalQuery)
    requires Retrieval(p, a, q).outcome.Ok?
    ensures AnswerFor(p, a.state, q).Ok?
    ensures var answer := AnswerFor(p, a.state, q).value;
            var completed := Record(p, a, RETRIEVAL_COMPLETED, BOTH, CompletedPayload(q, answer.result), Some(q.principalId));
            var reported := ReportSetChange(p, completed.next, q, answer);
            && completed.outcome.Ok? && reported.outcome.Ok?
            && Retrieval(p, a, q).next == ReadSideUpdate(p, reported.next, q, HitIds(answer.result)).next
            && Retrieval(p, a, q).outcome.value == answer.result
  {
    hide AnswerFor, Record, ReadSideUpdate, ReportSetChange, CompletedPayload;
  }

  /**
   A retrieval that returns has taken the first of what is ranked and not removed, and reports what it
   removed and what it protected, once, if there was anything: of the ranked identifiers that are suppressed,
   those whose memory carries the protected label are listed as protected, in text order, and the others as
   removed, in ranking order.
   */
  lemma RetrievalReports(p: Platform, a: AdapterState, q: RetrievalQuery)
    requires Retrieval(p, a, q).outcome.Ok?
    ensures AnswerFor(p, a.state, q).Ok? && Ranking(p, a.state, q).Ok? && SuppressedIds(a.state.derivedState).Ok?
    ensures var answer := AnswerFor(p, a.state, q).value;
            && Divides(a.state, Ranking(p, a.state, q).value, SuppressedIds(a.state.derivedState).value, answer.removed, answer.protected)
            && TakesFirst(Ranking(p, a.state, q).value, answer.removed, Retrieval(p, a, q).outcome.value.hits, q.topK)
            && AddsChange(a.state, answer, a, Retrieval(p, a, q).next)
  {
    hide AnswerFor, Record, Retrieval, ReadSideUpdate, ReportSetChange, CompletedPayload, Adds, AddsChange, Divides, TakesFirst, Ranking,
         SuppressedIds, IsSha256;
    RetrievalParts(p, a, q);
    AnswerDivides(p, a.state, q);
    HitsAreFirst(p, a.state, q);
    var answer := AnswerFor(p, a.state, q).value;
    var b := Record(p, a, RETRIEVAL_COMPLETED, BOTH, CompletedPayload(q, answer.result), Some(q.principalId)).next;
    RecordOther(p, a, RETRIEVAL_COMPLETED, BOTH, CompletedPayload(q, answer.result), Some(q.principalId), RETRIEVAL_SET_CHANGE);
    RecordKeepsPolicy(p, a, RETRIEVAL_COMPLETED, BOTH, CompletedPayload(q, answer.result), Some(q.principalId));
    ReportAdds(p, b, q, answer);
    var c := ReportSetChange(p, b, q, answer).next;
    UpdateRecords(p, c, q, HitIds(answer.result), RETRIEVAL_SET_CHANGE);
    AddsChangeWithin(a.state, answer, a, b, c, Retrieval(p, a, q).next);
  }

  lemma RecordKeepsPolicy(p: Platform, a: AdapterState, eventType: EventType, visibility: EventVisibility, payload: Fields,
                          actor: Option<string>)
    ensures Record(p, a, eventType, visibility, payload, actor).next.state.policy == a.state.policy
  {
    hide BuildEvent, IsSha256;
  }

  lemma ChangeIgnoresSequence(s: StateSnapshot, t: StateSnapshot, answer: Answer, payload: Fields)
    requires s.policy == t.policy && ReportsChange(t, answer, payload)
    ensures ReportsChange(s, answer, payload)
  {
    hide Strings, StrictlySorted;
  }

  // ----- the event of a read-side update -----

  lemma CommitAddsUpdate(p: Platform, a: AdapterState, after: StateSnapshot, visibility: EventVisibility, payload: Fields,
                         actor: Option<string>)
    requires Commit(p, a, after, READ_SIDE_UPDATE, visibility, payload, actor).outcome.Ok?
    ensures Adds(a, Commit(p, a, after, READ_SIDE_UPDATE, visibility, payload, actor).next, READ_SIDE_UPDATE, [payload])
    ensures Commit(p, a, after, READ_SIDE_UPDATE, visibility, payload, actor).next.state == after
  {
    hide BuildEvent, Adds, IsSha256;
    CommitRecords(p, a, after, READ_SIDE_UPDATE, visibility, payload, actor, READ_SIDE_UPDATE);
  }

  /** What the event of a counted access says: the counter it leaves, and whether the canary was returned. */
  predicate TellsCounter(payload: Fields, counter: int, hidden: bool) {
    && Get(payload, "operation") == Str("set_shared_access_counter") && Get(payload, "counter") == Int(counter)
    && Get(payload, "matched_event") == Str(if hidden then "hidden" else "sham")
  }

  /** One update more, that tells the counter of the state it leaves. */
  ghost predicate AddsCounter(before: AdapterState, after: AdapterState, hidden: bool) {
    hide PayloadsOf;
    && CounterReady(after.state)
    && exists payload :: Adds(before, after, READ_SIDE_UPDATE, [payload]) && TellsCounter(payload, Counter(after.state), hidden)
  }

  lemma CounterAdds(p: Platform, a: AdapterState, q: RetrievalQuery, retrieved: seq<string>)
    requires CounterReady(a.state) && q.principalId == Setting(a.state, "victim_principal_id")
    ensures AddsCounter(a, CounterUpdate(p, a, q, retrieved).next, Setting(a.state, "canary_memory_id") in retrieved)
  {
    hide Commit, PolicyAccepted, ById, StrSetting, Adds, IsSha256;
    AcceptedSettings(a.state);
    CounterCommit(p, a, q, retrieved);
    var hidden := Setting(a.state, "canary_memory_id") in retrieved;
    var counter := if hidden then Counter(a.state) + 1 else Counter(a.state);
    CommitAddsUpdate(p, a, CounterState(a.state, counter), EVALUATOR, CounterPayload(counter, hidden), Some(q.principalId));
    assert TellsCounter(CounterPayload(counter, hidden), counter, hidden);
  }

  lemma AddsCounterLater(a: AdapterState, b: AdapterState, c: AdapterState, hidden: bool)
    requires Adds(a, b, READ_SIDE_UPDATE, []) && AddsCounter(b, c, hidden)
    ensures AddsCounter(a, c, hidden)
  {
    hide Adds, TellsCounter, CounterReady, Counter, IsSha256;
    var payload :| Adds(b, c, READ_SIDE_UPDATE, [payload]) && TellsCounter(payload, Counter(c.state), hidden);
    AddsInTurn(a, b, c, READ_SIDE_UPDATE, [], [payload]);
    assert [] + [payload] == [payload];
  }

  lemma ReportAddsNoUpdate(p: Platform, a: AdapterState, q: RetrievalQuery)
    requires AnswerFor(p, a.state, q).Ok?
    ensures Adds(a, Reported(p, a, q, AnswerFor(p, a.state, q).value), READ_SIDE_UPDATE, [])
  {
    hide AnswerFor, Record, ReportSetChange, CompletedPayload, Adds, IsSha256;
    var answer := AnswerFor(p, a.state, q).value;
    RecordOther(p, a, RETRIEVAL_COMPLETED, BOTH, CompletedPayload(q, answer.result), Some(q.principalId), READ_SIDE_UPDATE);
    var b := Record(p, a, RETRIEVAL_COMPLETED, BOTH, CompletedPayload(q, answer.result), Some(q.principalId)).next;
    ReportRecords(p, b, q, answer, READ_SIDE_UPDATE);
    var none: seq<Fields> := [];
    assert none + none == none;
    AddsInTurn(a, b, Reported(p, a, q, answer), READ_SIDE_UPDATE, [], []);
  }

  /** A victim's returned retrieval records one update, with the new counter, as hidden exactly when its hits hold the canary. */
  lemma CounterEventTells(p: Platform, a: AdapterState, q: RetrievalQuery)
    requires CounterReady(a.state) && q.principalId == Setting(a.state, "victim_principal_id") && Retrieval(p, a, q).outcome.Ok?
    ensures var step := Retrieval(p, a, q);
            AddsCounter(a, step.next, Setting(a.state, "canary_memory_id") in HitIds(step.outcome.value))
  {
    hide AnswerFor, Retrieval, CounterUpdate, EclipseUpdate, Reported, CounterReady, AddsCounter, Adds, IsSha256;
    RetrievalParts(p, a, q);
    RetrievalEffect(p, a, q);
    var answer := AnswerFor(p, a.state, q).value;
    var reported := Reported(p, a, q, answer);
    ReadyIgnoresSequence(a.state, reported.state);
    UpdateIsCounters(p, reported, q, HitIds(answer.result));
    CounterAdds(p, reported, q, HitIds(answer.result));
    ReportAddsNoUpdate(p, a, q);
    AddsCounterLater(a, reported, Retrieval(p, a, q).next, Setting(a.state, "canary_memory_id") in HitIds(answer.result));
  }

  lemma UpdateIsCounters(p: Platform, a: AdapterState, q: RetrievalQuery, retrieved: seq<string>)
    requires CounterReady(a.state)
    ensures ReadSideUpdate(p, a, q, retrieved) == CounterUpdate(p, a, q, retrieved)
  {
    hide CounterUpdate, EclipseUpdate, PolicyAccepted, ById, StrSetting, CounterOf, SuppressedIds;
    AcceptedSettings(a.state);
  }

  // ----- the event of an eclipse -----

  function CountBefore(s: StateSnapshot): int {
    if "interaction_count" in s.policyState && s.policyState["interaction_count"].Int? then s.policyState["interaction_count"].n else 0
  }

  /** The policy's own memory is suppressed, for its own trigger and the asking tenant, at the interaction after the last counted. */
  predicate TellsEclipse(s: StateSnapshot, q: RetrievalQuery, payload: Fields) {
    && Get(payload, "operation") == Str("set_memory_eclipse")
    && Get(payload, "suppressed_memory_id") == Str(Suppressed(s)) && Get(payload, "trigger_memory_id") == Str(Trigger(s))
    && Get(payload, "tenant_id") == Str(q.tenantId)
    && Get(payload, "interaction_count") == Int(CountBefore(s) + 1)
  }

  /** One update more, that tells the eclipse, and a state that holds what it tells. */
  ghost predicate AddsEclipse(s: StateSnapshot, q: RetrievalQuery, before: AdapterState, after: AdapterState) {
    hide PayloadsOf;
    exists payload :: && Adds(before, after, READ_SIDE_UPDATE, [payload]) && TellsEclipse(s, q, payload)
                      && Replay.SetsEclipse(after.state, payload)
  }

  lemma EclipseUpdateIs(p: Platform, a: AdapterState, q: RetrievalQuery, retrieved: seq<string>)
    requires AdaptiveReady(a.state, false) && Trigger(a.state) in retrieved
    ensures var s, count := a.state, CountBefore(a.state) + 1;
            EclipseUpdate(p, a, q, retrieved).next ==
            Commit(p, a, EclipseState(s, Trigger(s), Suppressed(s), q.tenantId, count), READ_SIDE_UPDATE, BOTH,
                   EclipsePayload(Trigger(s), Suppressed(s), q.tenantId, count), Some(q.principalId)).next
  {
    hide Commit, PolicyAccepted, ById, StrSetting, EclipseState, EclipsePayload;
    AdaptiveSettings(a.state, false);
  }

  lemma EclipseAdds(p: Platform, a: AdapterState, q: RetrievalQuery, retrieved: seq<string>)
    requires AdaptiveReady(a.state, false) && Trigger(a.state) in retrieved
    ensures AddsEclipse(a.state, q, a, EclipseUpdate(p, a, q, retrieved).next)
  {
    hide Commit, AdaptiveReady, EclipseUpdate, EclipseState, ObjectPathHolds, NonBlank, Adds, IsSha256, Replay.SetsEclipse, Trigger,
         Suppressed;
    var s, count := a.state, CountBefore(a.state) + 1;
    EclipseUpdateIs(p, a, q, retrieved);
    var after := EclipseState(s, Trigger(s), Suppressed(s), q.tenantId, count);
    var payload := EclipsePayload(Trigger(s), Suppressed(s), q.tenantId, count);
    EclipsePasses(Trigger(s), Suppressed(s), q.tenantId, count, p.casefold);
    CommitSucceeds(p, a, after, READ_SIDE_UPDATE, BOTH, payload, Some(q.principalId));
    CommitAddsUpdate(p, a, after, BOTH, payload, Some(q.principalId));
    EclipseIsSet(s, Trigger(s), Suppressed(s), q.tenantId, count);
    assert TellsEclipse(s, q, payload);
  }

  lemma EclipseIsSet(s: StateSnapshot, trigger: string, suppressed: string, tenant: string, count: int)
    ensures Replay.SetsEclipse(EclipseState(s, trigger, suppressed, tenant, count), EclipsePayload(trigger, suppressed, tenant, count))
  {
    assert Strings([suppressed]) == Arr([Str(suppressed)]) && Strings([trigger]) == Arr([Str(trigger)]);
  }

  lemma AddsEclipseLater(s: StateSnapshot, q: RetrievalQuery, a: AdapterState, b: AdapterState, c: AdapterState)
    requires Adds(a, b, READ_SIDE_UPDATE, []) && AddsEclipse(b.state, q, b, c) && SameButSequence(s, b.state)
    ensures AddsEclipse(s, q, a, c)
  {
    hide Adds, Replay.SetsEclipse, IsSha256;
    var payload :| Adds(b, c, READ_SIDE_UPDATE, [payload]) && TellsEclipse(b.state, q, payload) && Replay.SetsEclipse(c.state, payload);
    AddsInTurn(a, b, c, READ_SIDE_UPDATE, [], [payload]);
    assert [] + [payload] == [payload];
    assert TellsEclipse(s, q, payload);
  }

  /**
   Under an adaptive policy that has not yet eclipsed anything, a retrieval that returns the trigger records
   one update: it suppresses the policy's own memory, names the trigger, the asking tenant and the next
   interaction, and the state left behind holds exactly that.
   */
  lemma EclipseEventTells(p: Platform, a: AdapterState, q: RetrievalQuery)
    requires AdaptiveReady(a.state, false) && Retrieval(p, a, q).outcome.Ok?
    requires Trigger(a.state) in HitIds(Retrieval(p, a, q).outcome.value)
    ensures AddsEclipse(a.state, q, a, Retrieval(p, a, q).next)
  {
    hide AnswerFor, Retrieval, CounterUpdate, EclipseUpdate, Reported, AdaptiveReady, AddsEclipse, Adds, IsSha256, HitIds;
    RetrievalParts(p, a, q);
    RetrievalEffect(p, a, q);
    var answer := AnswerFor(p, a.state, q).value;
    var reported := Reported(p, a, q, answer);
    AdaptiveIgnoresSequence(a.state, reported.state, false);
    ReadWhenAdaptive(p, reported, q, HitIds(answer.result), false);
    EclipseAdds(p, reported, q, HitIds(answer.result));
    ReportAddsNoUpdate(p, a, q);
    AddsEclipseLater(a.state, q, a, reported, Retrieval(p, a, q).next);
  }
}
