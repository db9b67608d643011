/**
 What one principal can learn from another's retrievals, over whole runs: nothing under pure-read,
 exactly one bit under the shared counter.
 */
module SharedCounter {
  import opened Basics
  import opened Json
  import opened Text
  import opened Models
  import opened Trace
  import opened ReferenceMemory
  import opened Retrievals

  // ----- pure-read -----

  lemma PureReadRetrieval(p: Platform, a: AdapterState, q: RetrievalQuery)
    requires a.state.policy.name == "pure-read"
    ensures SameButSequence(a.state, Retrieval(p, a, q).next.state)
    ensures Retrieval(p, a, q).outcome == AnswerResult(p, a.state, q)
    ensures Updates(Retrieval(p, a, q).next.trace) == Updates(a.trace)
  {
    hide AnswerFor, Record, Reported, Updates;
    if AnswerFor(p, a.state, q).Ok? {
      RetrievalEffect(p, a, q);
    }
  }

  function AnswerResult(p: Platform, s: StateSnapshot, q: RetrievalQuery): Result<RetrievalResult, AdapterError> {
    match AnswerFor(p, s, q) case Ok(answer) => Ok(answer.result) case Err(error) => Err(error)
  }

  lemma {:induction false} PureReadKeepsState(p: Platform, a: AdapterState, ops: seq<Op>)
    requires a.state.policy.name == "pure-read" && AllSteady(ops)
    ensures SameButClock(a.state, Run(p, a, ops).state)
    ensures Run(p, a, ops).state.logicalTime == a.state.logicalTime + Elapsed(ops)
    decreases |ops|
  {
    hide Apply, Retrieval;
    if ops != [] {
      var op := ops[0];
      if op.RetrieveOp? {
        PureReadRetrieval(p, a, op.query);
        ApplyRetrieves(p, a, op.query);
      } else {
        SteadyCallKeepsState(p, a, op);
      }
      PureReadKeepsState(p, Apply(p, a, ops[0]), ops[1..]);
    }
  }

  lemma ApplyRetrieves(p: Platform, a: AdapterState, q: RetrievalQuery)
    ensures Apply(p, a, RetrieveOp(q)) == Retrieval(p, a, q).next
  {
    hide Retrieval;
  }

  /** The adapter at a later time. */
  function Later(a: AdapterState, steps: nat): AdapterState {
    RawAdapter(a.state.(logicalTime := a.state.logicalTime + steps), a.trace)
  }

  /**
   Under pure-read, whatever any principals did before and whatever was recorded, a retrieval returns
   what it would have at the start, with nothing done but the time let pass.
   */
  lemma PureReadIgnoresHistory(p: Platform, a: AdapterState, ops: seq<Op>, q: RetrievalQuery)
    requires a.state.policy.name == "pure-read" && AllSteady(ops)
    ensures Retrieval(p, Run(p, a, ops), q).outcome == Retrieval(p, Later(a, Elapsed(ops)), q).outcome
  {
    hide Run, Retrieval, AnswerFor;
    PureReadKeepsState(p, a, ops);
    var b, c := Run(p, a, ops), Later(a, Elapsed(ops));
    PureReadRetrieval(p, c, q);
    PureReadRetrieval(p, b, q);
    AnswerIgnoresSequence(p, c.state, b.state.nextEventSequence, q);
    assert b.state == AtSequence(c.state, b.state.nextEventSequence);
  }

  // ----- the shared counter -----

  function Setting(s: StateSnapshot, name: string): string {
    match Get(s.policy.settings, name) case Str(value) => value case _ => ""
  }

  /** An accepted shared-counter policy, a valid counter, and no suppressed identifiers. */
  predicate CounterReady(s: StateSnapshot) {
    && s.policy.name == "risi-shared-counter" && PolicyAccepted(s.policy, ById(s.sourceMemories).Keys)
    && CounterOf(s.derivedState).Ok? && SuppressedIds(s.derivedState) == Ok({})
  }

  function Counter(s: StateSnapshot): nat
    requires CounterReady(s)
  {
    CounterOf(s.derivedState).value
  }

  /** The snapshot with the counter reduced to one bit. */
  function WithBit(s: StateSnapshot, bit: bool): StateSnapshot {
    s.(derivedState := map["shared_access_counter" := Int(if bit then 1 else 0)])
  }

  /** The snapshot at a time, with the counter reduced to one bit. */
  function AtMoment(s: StateSnapshot, time: nat, bit: bool): StateSnapshot {
    WithBit(s.(logicalTime := time), bit)
  }

  /** The same but for the counter, the sequence and the clock. */
  predicate SameBase(s: StateSnapshot, t: StateSnapshot) {
    t == s.(nextEventSequence := t.nextEventSequence, derivedState := t.derivedState, logicalTime := t.logicalTime)
  }

  lemma AcceptedSettings(s: StateSnapshot)
    requires CounterReady(s)
    ensures StrSetting(s.policy, "observer_principal_id") == Some(Setting(s, "observer_principal_id"))
    ensures StrSetting(s.policy, "victim_principal_id") == Some(Setting(s, "victim_principal_id"))
    ensures StrSetting(s.policy, "canary_memory_id") == Some(Setting(s, "canary_memory_id"))
    ensures StrSetting(s.policy, "no_hidden_signal_memory_id") == Some(Setting(s, "no_hidden_signal_memory_id"))
    ensures StrSetting(s.policy, "hidden_signal_memory_id") == Some(Setting(s, "hidden_signal_memory_id"))
    ensures Setting(s, "observer_principal_id") != Setting(s, "victim_principal_id")
    ensures Setting(s, "no_hidden_signal_memory_id") != Setting(s, "hidden_signal_memory_id")
    ensures Get(s.policy.settings, "read_side_updates") == Bool(true)
    ensures Get(s.policy.settings, "top_k").Int?
  {
  }

  lemma WithoutNothing(scored: seq<Scored>)
    ensures Without(scored, {}) == scored && Among(scored, {}) == []
  {
  }

  /** The ranking under the shared counter: the plain one, or the probe's, which reads one bit. */
  lemma RankingByBit(p: Platform, s: StateSnapshot, q: RetrievalQuery)
    requires CounterReady(s)
    ensures Ranking(p, s, q).Ok?
    ensures Ranking(p, s, q) == Ranking(p, WithBit(s, Counter(s) > 0), q)
    ensures q.principalId != Setting(s, "observer_principal_id") ==>
              forall bit :: Ranking(p, WithBit(s, bit), q) == Ranking(p, s, q)
  {
    hide ScoreAll, Sorted, PolicyAccepted, SuppressedIds, ById, StrSetting;
    AcceptedSettings(s);
    forall bit ensures CounterOf(WithBit(s, bit).derivedState) == Ok(if bit then 1 else 0) {}
  }

  lemma NothingProtected(s: StateSnapshot, scored: seq<Scored>, suppressed: set<string>)
    requires s.policy.name == "risi-shared-counter"
    ensures ProtectedIds(s, scored, suppressed) == {}
  {
  }

  lemma AnswerByBit(p: Platform, s: StateSnapshot, q: RetrievalQuery)
    requires CounterReady(s)
    ensures AnswerFor(p, s, q) == AnswerFor(p, WithBit(s, Counter(s) > 0), q)
    ensures q.principalId != Setting(s, "observer_principal_id") ==>
              forall bit :: AnswerFor(p, WithBit(s, bit), q) == AnswerFor(p, s, q)
    ensures AnswerFor(p, s, q).Ok? <==> WithinTopK(s, q)
    ensures AnswerFor(p, s, q).Err? ==> AnswerFor(p, s, q).error == ValueError
    ensures AnswerFor(p, s, q).Ok? ==> AnswerFor(p, s, q).value.removed == [] && AnswerFor(p, s, q).value.protected == {}
  {
    hide Ranking, Without, Among, Top, ById, PolicyAccepted, ProtectedIds, CounterOf;
    RankingByBit(p, s, q);
    forall bit ensures SuppressedIds(WithBit(s, bit).derivedState) == Ok({}) {}
    forall t: StateSnapshot, scored, suppressed | t.policy == s.policy ensures ProtectedIds(t, scored, suppressed) == {} {
      NothingProtected(t, scored, suppressed);
    }
    var none: set<string> := {};
    assert none - none == none;
    forall scored ensures Without(scored, none) == scored && Among(scored, none) == [] { WithoutNothing(scored); }
  }

  lemma AnswerOnBase(p: Platform, s: StateSnapshot, t: StateSnapshot, time: nat, bit: bool, q: RetrievalQuery)
    requires SameBase(s, t)
    ensures AnswerFor(p, AtMoment(t, time, bit), q) == AnswerFor(p, AtMoment(s, time, bit), q)
  {
    hide AnswerFor;
    AnswerIgnoresSequence(p, AtMoment(s, time, bit), t.nextEventSequence, q);
    assert AtMoment(t, time, bit) == AtSequence(AtMoment(s, time, bit), t.nextEventSequence);
  }

  /** The retrieval is the victim's and its returned hits hold the canary. */
  predicate CountedRetrieval(s: StateSnapshot, q: RetrievalQuery, outcome: Result<RetrievalResult, AdapterError>) {
    && q.principalId == Setting(s, "victim_principal_id")
    && outcome.Ok? && Setting(s, "canary_memory_id") in HitIds(outcome.value)
  }

  lemma CounterCommit(p: Platform, a: AdapterState, q: RetrievalQuery, retrieved: seq<string>)
    requires CounterReady(a.state)
    ensures var step := CounterUpdate(p, a, q, retrieved);
            && step.outcome.Ok? && SameBase(a.state, step.next.state) && CounterReady(step.next.state)
            && step.next.state.logicalTime == a.state.logicalTime
            && Counter(step.next.state) ==
               Counter(a.state) + (if q.principalId == Setting(a.state, "victim_principal_id")
                                      && Setting(a.state, "canary_memory_id") in retrieved then 1 else 0)
  {
    hide Commit, PolicyAccepted, ById, StrSetting;
    AcceptedSettings(a.state);
    if q.principalId == Setting(a.state, "victim_principal_id") {
      var hidden := Setting(a.state, "canary_memory_id") in retrieved;
      var counter := if hidden then Counter(a.state) + 1 else Counter(a.state);
      CommitSucceeds(p, a, CounterState(a.state, counter), READ_SIDE_UPDATE, EVALUATOR, CounterPayload(counter, hidden),
                     Some(q.principalId));
      assert SuppressedIds(CounterState(a.state, counter).derivedState) == Ok({});
      assert CounterOf(CounterState(a.state, counter).derivedState) == Ok(counter);
    }
  }

  lemma ReadyIgnoresSequence(s: StateSnapshot, t: StateSnapshot)
    requires CounterReady(s) && SameButSequence(s, t)
    ensures CounterReady(t) && Counter(t) == Counter(s) && SameBase(s, t)
  {
    hide PolicyAccepted, ById, CounterOf, SuppressedIds;
  }

  lemma ReadyIgnoresClock(s: StateSnapshot, t: StateSnapshot)
    requires CounterReady(s) && SameButClock(s, t)
    ensures CounterReady(t) && Counter(t) == Counter(s) && SameBase(s, t)
  {
    hide PolicyAccepted, ById, CounterOf, SuppressedIds;
  }

  /** One retrieval under the shared counter. */
  lemma CounterRetrieval(p: Platform, a: AdapterState, q: RetrievalQuery)
    requires CounterReady(a.state)
    ensures var step := Retrieval(p, a, q);
            && step.outcome == AnswerResult(p, a.state, q)
            && SameBase(a.state, step.next.state) && CounterReady(step.next.state)
            && step.next.state.logicalTime == a.state.logicalTime
            && Counter(step.next.state) == Counter(a.state) + (if CountedRetrieval(a.state, q, step.outcome) then 1 else 0)
  {
    hide AnswerFor, CounterUpdate, EclipseUpdate, Reported, PolicyAccepted, ById, CounterOf, SuppressedIds, Updates, WithBit, HitIds;
    AcceptedSettings(a.state);
    AnswerByBit(p, a.state, q);
    if AnswerFor(p, a.state, q).Ok? {
      var answer := AnswerFor(p, a.state, q).value;
      RetrievalEffect(p, a, q);
      var reported := Reported(p, a, q, answer);
      ReadyIgnoresSequence(a.state, reported.state);
      CounterCommit(p, reported, q, HitIds(answer.result));
    } else {
      RefusedRetrieval(p, a, q);
    }
  }

  lemma RefusedRetrieval(p: Platform, a: AdapterState, q: RetrievalQuery)
    requires AnswerFor(p, a.state, q).Err?
    ensures Retrieval(p, a, q) == Step(a, Err(AnswerFor(p, a.state, q).error))
  {
    hide AnswerFor;
  }

  lemma SteadyStep(p: Platform, a: AdapterState, op: Op)
    requires CounterReady(a.state) && Steady(op)
    ensures SameBase(a.state, Apply(p, a, op).state) && CounterReady(Apply(p, a, op).state)
    ensures Apply(p, a, op).state.logicalTime == a.state.logicalTime + Ticks(op)
    ensures !op.RetrieveOp? ==> Counter(Apply(p, a, op).state) == Counter(a.state)
  {
    hide Apply, Retrieval, CounterReady, Counter;
    match op
    case RetrieveOp(q) =>
      CounterRetrieval(p, a, q);
      ApplyRetrieves(p, a, q);
    case _ =>
      SteadyCallKeepsState(p, a, op);
      ReadyIgnoresClock(a.state, Apply(p, a, op).state);
  }

  // ----- runs -----

  predicate AskedBy(op: Op, principal: string) {
    op.RetrieveOp? && op.query.principalId == principal
  }

  /** The principal's own queries, in order. */
  function QueriesBy(ops: seq<Op>, principal: string): seq<RetrievalQuery> {
    if ops == [] then []
    else (if AskedBy(ops[0], principal) then [ops[0].query] else []) + QueriesBy(ops[1..], principal)
  }

  /** What the principal sees over a run: the outcomes of its own retrievals. */
  function Observed(p: Platform, a: AdapterState, ops: seq<Op>, principal: string)
    : seq<Result<RetrievalResult, AdapterError>>
    decreases |ops|
  {
    hide Apply, Retrieval;
    if ops == [] then []
    else (if AskedBy(ops[0], principal) then [Retrieval(p, a, ops[0].query).outcome] else [])
         + Observed(p, Apply(p, a, ops[0]), ops[1..], principal)
  }

  /** Whether the counter is positive each time the principal asks. */
  function BitsAt(p: Platform, a: AdapterState, ops: seq<Op>, principal: string): seq<bool>
    decreases |ops|
  {
    hide Apply;
    if ops == [] then []
    else (if AskedBy(ops[0], principal) then [CounterPositive(a.state)] else [])
         + BitsAt(p, Apply(p, a, ops[0]), ops[1..], principal)
  }

  predicate CounterPositive(s: StateSnapshot) {
    match CounterOf(s.derivedState) case Ok(counter) => counter > 0 case Err(_) => false
  }

  /** The time each time the principal asks, when a run begins at the given one. */
  function TimesAt(now: nat, ops: seq<Op>, principal: string): seq<nat>
    decreases |ops|
  {
    if ops == [] then []
    else (if AskedBy(ops[0], principal) then [now] else []) + TimesAt(now + Ticks(ops[0]), ops[1..], principal)
  }

  /** The answers the queries get from the snapshot, given a time and one bit each. */
  function AnswersWithBits(p: Platform, s: StateSnapshot, queries: seq<RetrievalQuery>, times: seq<nat>, bits: seq<bool>)
    : seq<Result<RetrievalResult, AdapterError>>
    requires |queries| == |times| == |bits|
  {
    if queries == [] then []
    else [AnswerResult(p, AtMoment(s, times[0], bits[0]), queries[0])]
         + AnswersWithBits(p, s, queries[1..], times[1..], bits[1..])
  }

  lemma {:induction false} AnswersOnBase(p: Platform, s: StateSnapshot, t: StateSnapshot, queries: seq<RetrievalQuery>,
                                         times: seq<nat>, bits: seq<bool>)
    requires |queries| == |times| == |bits| && SameBase(s, t)
    ensures AnswersWithBits(p, t, queries, times, bits) == AnswersWithBits(p, s, queries, times, bits)
  {
    hide AnswerFor, AtMoment;
    if queries != [] {
      AnswerOnBase(p, s, t, times[0], bits[0], queries[0]);
      AnswersOnBase(p, s, t, queries[1..], times[1..], bits[1..]);
    }
  }

  /** What one principal sees of a run, as the answers to its queries. */
  predicate SeenThroughOneBit(p: Platform, a: AdapterState, ops: seq<Op>, principal: string) {
    hide Apply, Retrieval, AnswersWithBits;
    var queries, times, bits :=
      QueriesBy(ops, principal), TimesAt(a.state.logicalTime, ops, principal), BitsAt(p, a, ops, principal);
    && |queries| == |times| == |bits|
    && Observed(p, a, ops, principal) == AnswersWithBits(p, a.state, queries, times, bits)
  }

  /** An ask in front: its own answer, then those of the rest. */
  lemma AskInFront(p: Platform, a: AdapterState, ops: seq<Op>, principal: string)
    requires CounterReady(a.state) && ops != [] && AskedBy(ops[0], principal)
    requires var b := Apply(p, a, ops[0]);
             SameBase(a.state, b.state) && b.state.logicalTime == a.state.logicalTime && SeenThroughOneBit(p, b, ops[1..], principal)
    ensures SeenThroughOneBit(p, a, ops, principal)
  {
    hide Apply, Retrieval, AnswerFor, AtMoment, CounterReady, SameBase, CounterPositive;
    var b := Apply(p, a, ops[0]);
    var queries, times, bits :=
      QueriesBy(ops[1..], principal), TimesAt(b.state.logicalTime, ops[1..], principal), BitsAt(p, b, ops[1..], principal);
    AnswersOnBase(p, a.state, b.state, queries, times, bits);
    FirstAnswer(p, a, ops[0].query);
    assert QueriesBy(ops, principal) == [ops[0].query] + queries;
    assert BitsAt(p, a, ops, principal) == [CounterPositive(a.state)] + bits;
    assert TimesAt(a.state.logicalTime, ops, principal) == [a.state.logicalTime] + times;
  }

  /** Any other call in front: the principal sees nothing of it. */
  lemma OtherInFront(p: Platform, a: AdapterState, ops: seq<Op>, principal: string)
    requires CounterReady(a.state) && ops != [] && !AskedBy(ops[0], principal)
    requires var b := Apply(p, a, ops[0]);
             && SameBase(a.state, b.state) && b.state.logicalTime == a.state.logicalTime + Ticks(ops[0])
             && SeenThroughOneBit(p, b, ops[1..], principal)
    ensures SeenThroughOneBit(p, a, ops, principal)
  {
    hide Apply, Retrieval, AnswersWithBits, CounterReady, SameBase, Ticks, AskedBy, CounterPositive;
    var b := Apply(p, a, ops[0]);
    var queries, times, bits :=
      QueriesBy(ops[1..], principal), TimesAt(b.state.logicalTime, ops[1..], principal), BitsAt(p, b, ops[1..], principal);
    AnswersOnBase(p, a.state, b.state, queries, times, bits);
    assert QueriesBy(ops, principal) == queries && BitsAt(p, a, ops, principal) == bits;
    assert TimesAt(a.state.logicalTime, ops, principal) == times;
    assert Observed(p, a, ops, principal) == Observed(p, b, ops[1..], principal);
  }

  /**
   All a principal sees of a run is determined by the first snapshot, its own queries with the times it
   asked them, and one bit per query: whether the counter is positive.
   */
  lemma {:induction false} ObservedThroughOneBit(p: Platform, a: AdapterState, ops: seq<Op>, principal: string)
    requires CounterReady(a.state) && AllSteady(ops)
    ensures SeenThroughOneBit(p, a, ops, principal)
    decreases |ops|
  {
    hide Apply, CounterReady, SameBase, AskedBy, SeenThroughOneBit;
    if ops == [] {
      NothingSeen(p, a, principal);
    } else {
      SteadyStep(p, a, ops[0]);
      ObservedThroughOneBit(p, Apply(p, a, ops[0]), ops[1..], principal);
      if AskedBy(ops[0], principal) {
        AsksTakeNoTime(ops[0], principal);
        AskInFront(p, a, ops, principal);
      } else {
        OtherInFront(p, a, ops, principal);
      }
    }
  }

  lemma NothingSeen(p: Platform, a: AdapterState, principal: string)
    ensures SeenThroughOneBit(p, a, [], principal)
  {
  }

  lemma AsksTakeNoTime(op: Op, principal: string)
    requires AskedBy(op, principal)
    ensures Ticks(op) == 0
  {
  }

  lemma FirstAnswer(p: Platform, a: AdapterState, q: RetrievalQuery)
    requires CounterReady(a.state)
    ensures Retrieval(p, a, q).outcome == AnswerResult(p, AtMoment(a.state, a.state.logicalTime, CounterPositive(a.state)), q)
  {
    hide AnswerFor, WithBit, Retrieval, PolicyAccepted, ById, SuppressedIds;
    CounterRetrieval(p, a, q);
    AnswerByBit(p, a.state, q);
    assert a.state.(logicalTime := a.state.logicalTime) == a.state;
  }

  lemma {:induction false} BitsDoNotMatter(p: Platform, s: StateSnapshot, queries: seq<RetrievalQuery>, times: seq<nat>,
                                           bits: seq<bool>, others: seq<bool>, principal: string)
    requires CounterReady(s) && |queries| == |times| == |bits| == |others|
    requires principal != Setting(s, "observer_principal_id")
    requires forall i | 0 <= i < |queries| :: queries[i].principalId == principal
    ensures AnswersWithBits(p, s, queries, times, bits) == AnswersWithBits(p, s, queries, times, others)
  {
    hide AnswerFor, WithBit, CounterReady, Setting;
    if queries != [] {
      BitDoesNotMatter(p, s, times[0], bits[0], others[0], queries[0]);
      BitsDoNotMatter(p, s, queries[1..], times[1..], bits[1..], others[1..], principal);
    }
  }

  lemma BitDoesNotMatter(p: Platform, s: StateSnapshot, time: nat, bit: bool, other: bool, q: RetrievalQuery)
    requires CounterReady(s) && q.principalId != Setting(s, "observer_principal_id")
    ensures AnswerFor(p, AtMoment(s, time, bit), q) == AnswerFor(p, AtMoment(s, time, other), q)
  {
    hide AnswerFor, WithBit, CounterReady, Counter;
    ReadyIgnoresClock(s, s.(logicalTime := time));
    AnswerByBit(p, s.(logicalTime := time), q);
  }

  lemma {:induction false} QueriesAreOnes(ops: seq<Op>, principal: string)
    ensures forall i | 0 <= i < |QueriesBy(ops, principal)| :: QueriesBy(ops, principal)[i].principalId == principal
  {
    if ops != [] {
      QueriesAreOnes(ops[1..], principal);
    }
  }

  /**
   Two runs from snapshots that differ at most in the counter, the sequence and the clock look the same to
   a principal who asks the same questions at the same times in both: to the observer, when the two runs
   agree at each of its probes on whether the counter is positive; to everyone else, whatever happened.
   */
  lemma OneBitNoninterference(p: Platform, a: AdapterState, ops: seq<Op>, b: AdapterState, others: seq<Op>, principal: string)
    requires CounterReady(a.state) && CounterReady(b.state) && SameBase(a.state, b.state)
    requires AllSteady(ops) && AllSteady(others)
    requires QueriesBy(ops, principal) == QueriesBy(others, principal)
    requires TimesAt(a.state.logicalTime, ops, principal) == TimesAt(b.state.logicalTime, others, principal)
    requires principal == Setting(a.state, "observer_principal_id") ==>
               BitsAt(p, a, ops, principal) == BitsAt(p, b, others, principal)
    ensures Observed(p, a, ops, principal) == Observed(p, b, others, principal)
  {
    hide AnswersWithBits, CounterReady, SameBase, Setting, BitsAt, Observed, TimesAt;
    ObservedThroughOneBit(p, a, ops, principal);
    ObservedThroughOneBit(p, b, others, principal);
    var queries, times := QueriesBy(ops, principal), TimesAt(a.state.logicalTime, ops, principal);
    AnswersOnBase(p, a.state, b.state, queries, times, BitsAt(p, b, others, principal));
    if principal != Setting(a.state, "observer_principal_id") {
      QueriesAreOnes(ops, principal);
      BitsDoNotMatter(p, a.state, queries, times, BitsAt(p, a, ops, principal), BitsAt(p, b, others, principal), principal);
    }
  }

  /** How many retrievals of a run were the victim's and returned the canary. */
  function CanaryReturns(p: Platform, a: AdapterState, ops: seq<Op>): nat
    decreases |ops|
  {
    hide Apply, Retrieval;
    if ops == [] then 0
    else (if ops[0].RetrieveOp? && CountedRetrieval(a.state, ops[0].query, Retrieval(p, a, ops[0].query).outcome) then 1 else 0)
         + CanaryReturns(p, Apply(p, a, ops[0]), ops[1..])
  }

  /** The counter always equals its start plus the number of victim retrievals that returned the canary. */
  lemma {:induction false} CounterCounts(p: Platform, a: AdapterState, ops: seq<Op>)
    requires CounterReady(a.state) && AllSteady(ops)
    ensures CounterReady(Run(p, a, ops).state) && SameBase(a.state, Run(p, a, ops).state)
    ensures Counter(Run(p, a, ops).state) == Counter(a.state) + CanaryReturns(p, a, ops)
    decreases |ops|
  {
    hide Apply, Retrieval, CounterReady, Counter, CountedRetrieval;
    if ops != [] {
      SteadyStep(p, a, ops[0]);
      if ops[0].RetrieveOp? {
        CounterRetrieval(p, a, ops[0].query);
        ApplyRetrieves(p, a, ops[0].query);
      }
      CounterCounts(p, Apply(p, a, ops[0]), ops[1..]);
    }
  }

  /** The bit is really readable: when both signals match a probe, its first hit tells it. */
  lemma ProbeRevealsBit(p: Platform, a: AdapterState, q: RetrievalQuery)
    requires CounterReady(a.state) && WithinTopK(a.state, q)
    requires q.principalId == Setting(a.state, "observer_principal_id")
    requires Setting(a.state, "no_hidden_signal_memory_id") in Ids(ScoreAll(p, a.state.sourceMemories, q, a.state.logicalTime))
    requires Setting(a.state, "hidden_signal_memory_id") in Ids(ScoreAll(p, a.state.sourceMemories, q, a.state.logicalTime))
    ensures Retrieval(p, a, q).outcome.Ok? && Retrieval(p, a, q).outcome.value.hits != []
    ensures Retrieval(p, a, q).outcome.value.hits[0].memoryId ==
            Setting(a.state, if Counter(a.state) > 0 then "hidden_signal_memory_id" else "no_hidden_signal_memory_id")
  {
    hide ScoreAll, Sorted, Retrieval, PolicyAccepted, ById, SuppressedIds, Ids, CounterOf, StrSetting;
    var s := a.state;
    CounterRetrieval(p, a, q);
    AcceptedSettings(s);
    var scored := Sorted(None, ScoreAll(p, s.sourceMemories, q, s.logicalTime));
    SortedIds(None, ScoreAll(p, s.sourceMemories, q, s.logicalTime));
    var preferred := Setting(s, if Counter(s) > 0 then "hidden_signal_memory_id" else "no_hidden_signal_memory_id");
    PreferredFirst(preferred, scored);
    assert Ranking(p, s, q) == Ok(Sorted(Some(preferred), scored));
    AnswerTop(p, s, q);
  }

  lemma AnswerTop(p: Platform, s: StateSnapshot, q: RetrievalQuery)
    requires CounterReady(s) && WithinTopK(s, q) && Ranking(p, s, q).Ok?
    ensures AnswerFor(p, s, q).Ok? && AnswerFor(p, s, q).value.result.hits == Top(Ranking(p, s, q).value, q.topK)
  {
    hide Ranking, Top, PolicyAccepted, ById, Without, Among, ProtectedIds;
    var scored := Ranking(p, s, q).value;
    var none: set<string> := {};
    NothingProtected(s, scored, none);
    assert none - none == none;
    WithoutNothing(scored);
  }
}
