/** What a retrieval and its context assembly leave behind under each policy, when nothing goes wrong. */
module Asks {
  import opened Basics
  import opened Json
  import opened Text
  import opened Models
  import opened Trace
  import opened ReferenceMemory
  import opened Retrievals
  import opened SharedCounter
  import opened PolicyRefinement
  import opened Runs
  import opened Budget

  /** The ranking is a reordering of the scored memories, so every hit is one of the snapshot's memories. */
  lemma PlainHitsAreKnown(p: Platform, s: StateSnapshot, q: RetrievalQuery)
    ensures forall h <- PlainHits(p, s, q) :: h.memoryId in ById(s.sourceMemories)
  {
    hide ScoreAll, Sorted, ById, Top;
    var scored := ScoreAll(p, s.sourceMemories, q, s.logicalTime);
    RankedAreKnown(p, s.sourceMemories, q, s.logicalTime, None, scored);
    TopAreKnown(Sorted(None, scored), q.topK, s.sourceMemories);
  }

  /** The plain ranking reads nothing an arm changes. */
  lemma SamePlainRanking(p: Platform, s: StateSnapshot, t: StateSnapshot, q: RetrievalQuery)
    requires s.sourceMemories == t.sourceMemories && s.logicalTime == t.logicalTime
    ensures PlainRanking(p, s, q) == PlainRanking(p, t, q) && PlainHits(p, s, q) == PlainHits(p, t, q)
  {
    hide ScoreAll, Sorted, Top;
  }

  /** The state an ask leaves: the retrieval's, one sequence number on. */
  lemma AskAfterRetrieval(p: Platform, a: AdapterState, q: RetrievalQuery)
    requires Retrieval(p, a, q).outcome.Ok?
    requires Retrieval(p, a, q).next.state.sourceMemories == a.state.sourceMemories
    requires forall h <- Retrieval(p, a, q).outcome.value.hits :: h.memoryId in ById(a.state.sourceMemories)
    ensures Ask(p, a, q).Ok?
    ensures Ask(p, a, q).value.result == Retrieval(p, a, q).outcome.value
    ensures Ask(p, a, q).value.next.state == Tick(Retrieval(p, a, q).next.state)
  {
    hide Retrieval, Assemble, ById;
    AssembleSucceeds(p, Retrieval(p, a, q).next, Retrieval(p, a, q).outcome.value);
  }

  // ----- pure-read -----

  lemma PlainAnswer(p: Platform, s: StateSnapshot, q: RetrievalQuery)
    requires s.policy.name == "pure-read" && SuppressedIds(s.derivedState) == Ok({}) && WithinTopK(s, q)
    ensures var answer := AnswerFor(p, s, q);
            answer.Ok? && answer.value.result.hits == PlainHits(p, s, q) && answer.value.removed == [] && answer.value.protected == {}
  {
    hide ScoreAll, Sorted, Top, Without, Among, ById, SuppressedIds, ProtectedIds;
    var none: set<string> := {};
    NoneProtected(s, PlainRanking(p, s, q));
    assert none - none == none;
    WithoutNothing(PlainRanking(p, s, q));
  }

  lemma PlainAsk(p: Platform, a: AdapterState, q: RetrievalQuery)
    requires a.state.policy.name == "pure-read" && SuppressedIds(a.state.derivedState) == Ok({}) && WithinTopK(a.state, q)
    ensures Ask(p, a, q).Ok? && Ask(p, a, q).value.result.hits == PlainHits(p, a.state, q)
    ensures Ask(p, a, q).value.next.state == AtSequence(a.state, a.state.nextEventSequence + 2)
  {
    hide AnswerFor, ById, PlainHits, Retrieval, SuppressedIds, Ask, Reported, Updates;
    PlainAnswer(p, a.state, q);
    PlainHitsAreKnown(p, a.state, q);
    RetrievalEffect(p, a, q);
    AskAfterRetrieval(p, a, q);
  }

  // ----- the shared counter -----

  predicate IsVictim(s: StateSnapshot, q: RetrievalQuery) {
    q.principalId == Setting(s, "victim_principal_id")
  }

  /** The counter, one higher when the victim retrieved the canary. */
  function Counted(s: StateSnapshot, q: RetrievalQuery, hits: seq<RetrievalHit>): nat
    requires CounterReady(s)
  {
    if IsVictim(s, q) && Setting(s, "canary_memory_id") in HitsOf(hits) then Counter(s) + 1 else Counter(s)
  }

  function AfterCounterAsk(s: StateSnapshot, q: RetrievalQuery, hits: seq<RetrievalHit>): StateSnapshot
    requires CounterReady(s)
  {
    hide CounterReady;
    if IsVictim(s, q) then
      s.(derivedState := map["shared_access_counter" := Int(Counted(s, q, hits))], nextEventSequence := s.nextEventSequence + 3)
    else
      AtSequence(s, s.nextEventSequence + 2)
  }

  /** The state a read-side update under the shared counter leaves. */
  function Updated(s: StateSnapshot, q: RetrievalQuery, retrieved: seq<string>): StateSnapshot
    requires CounterReady(s)
  {
    hide CounterReady;
    if !IsVictim(s, q) then s
    else CounterState(s, if Setting(s, "canary_memory_id") in retrieved then Counter(s) + 1 else Counter(s))
  }

  lemma CounterUpdateState(p: Platform, a: AdapterState, q: RetrievalQuery, retrieved: seq<string>)
    requires CounterReady(a.state)
    ensures CounterUpdate(p, a, q, retrieved).next.state == Updated(a.state, q, retrieved)
  {
    hide Commit, PolicyAccepted, ById, StrSetting, SuppressedIds;
    AcceptedSettings(a.state);
    if IsVictim(a.state, q) {
      var hidden := Setting(a.state, "canary_memory_id") in retrieved;
      var counter := if hidden then Counter(a.state) + 1 else Counter(a.state);
      CommitSucceeds(p, a, CounterState(a.state, counter), READ_SIDE_UPDATE, EVALUATOR, CounterPayload(counter, hidden),
                     Some(q.principalId));
    }
  }

  lemma UpdatedAfterReport(s: StateSnapshot, t: StateSnapshot, q: RetrievalQuery, hits: seq<RetrievalHit>)
    requires CounterReady(s) && CounterReady(t) && t == AtSequence(s, s.nextEventSequence + 1)
    ensures Tick(Updated(t, q, HitsOf(hits))) == AfterCounterAsk(s, q, hits)
  {
    hide CounterReady, HitsOf;
    assert Counter(t) == Counter(s);
  }

  lemma CounterRetrievalState(p: Platform, a: AdapterState, q: RetrievalQuery)
    requires CounterReady(a.state) && WithinTopK(a.state, q)
    ensures Retrieval(p, a, q).outcome.Ok?
    ensures Tick(Retrieval(p, a, q).next.state) == AfterCounterAsk(a.state, q, Retrieval(p, a, q).outcome.value.hits)
  {
    hide AnswerFor, CounterUpdate, EclipseUpdate, Reported, CounterReady, Updated, AfterCounterAsk, Updates, WithBit, HitIds,
         HitsOf, Retrieval;
    AcceptedSettings(a.state);
    AnswerByBit(p, a.state, q);
    var answer := AnswerFor(p, a.state, q).value;
    RetrievalEffect(p, a, q);
    CounterRetrieval(p, a, q);
    var reported := Reported(p, a, q, answer);
    ReadyIgnoresSequence(a.state, reported.state);
    CounterUpdateState(p, reported, q, HitIds(answer.result));
    HitsAlone(answer.result);
    ReadUnderCounter(p, reported, q, HitIds(answer.result));
    UpdatedAfterReport(a.state, reported.state, q, answer.result.hits);
  }

  lemma ReadUnderCounter(p: Platform, a: AdapterState, q: RetrievalQuery, retrieved: seq<string>)
    requires CounterReady(a.state)
    ensures ReadSideUpdate(p, a, q, retrieved) == CounterUpdate(p, a, q, retrieved)
  {
    hide CounterUpdate, EclipseUpdate, ById;
  }

  lemma HitsAlone(result: RetrievalResult)
    ensures HitsOf(result.hits) == HitIds(result)
  {
  }

  /** The ranking under the shared counter: plain for everyone but the observer, who is shown the preferred signal first. */
  function CounterRanking(p: Platform, s: StateSnapshot, q: RetrievalQuery): seq<Scored>
    requires CounterReady(s)
  {
    hide CounterReady;
    var plain := PlainRanking(p, s, q);
    var noHidden, hidden := Setting(s, "no_hidden_signal_memory_id"), Setting(s, "hidden_signal_memory_id");
    if q.principalId != Setting(s, "observer_principal_id") || noHidden !in Ids(plain) || hidden !in Ids(plain) then plain
    else Sorted(Some(if Counter(s) > 0 then hidden else noHidden), plain)
  }

  lemma CounterRankingIs(p: Platform, s: StateSnapshot, q: RetrievalQuery)
    requires CounterReady(s)
    ensures Ranking(p, s, q) == Ok(CounterRanking(p, s, q))
    ensures forall h <- Top(CounterRanking(p, s, q), q.topK) :: h.memoryId in ById(s.sourceMemories)
  {
    hide ScoreAll, Sorted, PolicyAccepted, SuppressedIds, ById, StrSetting, Top;
    AcceptedSettings(s);
    var scored := ScoreAll(p, s.sourceMemories, q, s.logicalTime);
    var plain := Sorted(None, scored);
    SortedIsSorting(None, scored);
    RankedAreKnown(p, s.sourceMemories, q, s.logicalTime, None, scored);
    forall preferred ensures forall x <- Sorted(preferred, plain) :: x.memoryId in ById(s.sourceMemories) {
      RankedAreKnown(p, s.sourceMemories, q, s.logicalTime, preferred, plain);
    }
    TopAreKnown(CounterRanking(p, s, q), q.topK, s.sourceMemories);
  }

  lemma CounterAsk(p: Platform, a: AdapterState, q: RetrievalQuery)
    requires CounterReady(a.state) && WithinTopK(a.state, q)
    ensures Ask(p, a, q).Ok?
    ensures Ask(p, a, q).value.result.hits == Top(CounterRanking(p, a.state, q), q.topK)
    ensures Ask(p, a, q).value.next.state == AfterCounterAsk(a.state, q, Ask(p, a, q).value.result.hits)
    ensures CounterReady(Ask(p, a, q).value.next.state)
    ensures Counter(Ask(p, a, q).value.next.state) == Counted(a.state, q, Ask(p, a, q).value.result.hits)
  {
    hide AnswerFor, ById, Retrieval, Ask, Ranking, CounterRanking, Top, AfterCounterAsk, Counted, CounterReady, HitsOf;
    CounterRankingIs(p, a.state, q);
    AnswerTop(p, a.state, q);
    CounterRetrieval(p, a, q);
    CounterRetrievalState(p, a, q);
    AskAfterRetrieval(p, a, q);
    ReadyIgnoresSequence(Retrieval(p, a, q).next.state, Tick(Retrieval(p, a, q).next.state));
    HitsAlone(Retrieval(p, a, q).outcome.value);
    CountedIs(a.state, q, Retrieval(p, a, q).outcome);
  }

  lemma CountedIs(s: StateSnapshot, q: RetrievalQuery, outcome: Result<RetrievalResult, AdapterError>)
    requires CounterReady(s) && outcome.Ok?
    ensures Counted(s, q, outcome.value.hits) == Counter(s) + if CountedRetrieval(s, q, outcome) then 1 else 0
  {
    hide CounterReady;
    HitsAlone(outcome.value);
  }

  // ----- the adaptive policies -----

  lemma AdaptiveAsk(p: Platform, a: AdapterState, q: RetrievalQuery, eclipsed: bool)
    requires AdaptiveReady(a.state, eclipsed) && WithinTopK(a.state, q)
    ensures Ask(p, a, q).Ok?
    ensures Ask(p, a, q).value.result.hits == Top(EclipsedRanking(p, a.state, q, eclipsed), q.topK)
    ensures SameStatics(a.state, Ask(p, a, q).value.next.state)
    ensures AdaptiveReady(Ask(p, a, q).value.next.state, eclipsed || Trigger(a.state) in HitIds(Ask(p, a, q).value.result))
  {
    hide AnswerFor, ById, Retrieval, Ask, Top, EclipsedRanking, AdaptiveReady, Updates;
    AdaptiveAnswer(p, a.state, q, eclipsed);
    AdaptiveRetrieval(p, a, q, eclipsed);
    EclipsedHitsAreKnown(p, a.state, q, eclipsed);
    AskAfterRetrieval(p, a, q);
    var after := Retrieval(p, a, q).next.state;
    AdaptiveIgnoresSequence(after, Tick(after), eclipsed || Trigger(a.state) in HitIds(Ask(p, a, q).value.result));
  }

  lemma {:induction false} WithoutKeeps(xs: seq<Scored>, removed: set<string>)
    ensures forall x <- Without(xs, removed) :: x in xs && x.memoryId !in removed
  {
    if xs != [] {
      WithoutKeeps(xs[1..], removed);
      assert xs == [xs[0]] + xs[1..];
    }
  }

  lemma EclipsedHitsAreKnown(p: Platform, s: StateSnapshot, q: RetrievalQuery, eclipsed: bool)
    ensures forall h <- Top(EclipsedRanking(p, s, q, eclipsed), q.topK) :: h.memoryId in ById(s.sourceMemories)
  {
    hide ScoreAll, Sorted, ById, Top, Shielded, Without;
    var scored := ScoreAll(p, s.sourceMemories, q, s.logicalTime);
    RankedAreKnown(p, s.sourceMemories, q, s.logicalTime, None, scored);
    WithoutKeeps(Sorted(None, scored), {Suppressed(s)});
    TopAreKnown(EclipsedRanking(p, s, q, eclipsed), q.topK, s.sourceMemories);
  }

  // ----- closing events and charges -----

  lemma RecordMoves(p: Platform, a: AdapterState, eventType: EventType, visibility: EventVisibility, payload: Fields)
    requires visibility == EVALUATOR || !ObjectPathHolds(Obj(payload), p.casefold)
    requires eventType != READ_SIDE_UPDATE
    ensures Record(p, a, eventType, visibility, payload, None).outcome.Ok?
    ensures Record(p, a, eventType, visibility, payload, None).next.state == Tick(a.state)
  {
    hide ObjectPathHolds, Updates, Record;
    RecordQuietly(p, a, eventType, visibility, payload, None);
  }

  lemma SmallerFits(l: Ledger, e: nat, r: nat, s: nat, episodes: nat, retrievals: nat, steps: nat)
    requires WithinLimits(Plus(l, episodes, retrievals, steps)) && e <= episodes && r <= retrievals && s <= steps
    ensures WithinLimits(Plus(l, e, r, s))
  {
    WithinLimitsUnfolds(Plus(l, episodes, retrievals, steps));
    WithinLimitsUnfolds(Plus(l, e, r, s));
  }

  lemma ChargeOn(l: Ledger, e: nat, r: nat, s: nat, c: Charge)
    requires WithinLimits(Plus(l, e, r, s))
    requires WithinLimits(Plus(l, if c == EpisodeStart then e + 1 else e, if c == RetrievalCall then r + 1 else r, s + 1))
    ensures Runs.Charge(Plus(l, e, r, s), c) ==
            Ok(Plus(l, if c == EpisodeStart then e + 1 else e, if c == RetrievalCall then r + 1 else r, s + 1))
  {
    hide Charged;
    ChargeAdds(Plus(l, e, r, s), c);
  }
}
