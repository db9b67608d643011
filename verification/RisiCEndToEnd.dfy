/** The RISI-C reference execution from the first charge to the verdict. */
module RisiCEndToEnd {
  import opened Basics
  import opened Json
  import opened Text
  import opened Models
  import opened Printer
  import opened Trace
  import opened Decisions
  import opened ReferenceMemory
  import opened Replay
  import opened Retrievals
  import opened SharedCounter
  import opened PolicyRefinement
  import opened Pointers
  import opened StateDiff
  import opened Confidentiality
  import opened Runs
  import opened Asks
  import opened RisiCRun
  import opened RisiCRecovery
  import opened Budget

  // ----- the states an arm passes through -----

  function VulnerableState(plan: Plan, counter: nat, sequence: nat): StateSnapshot {
    Start(plan).(policy := SharedCounterPolicy(plan), derivedState := map["shared_access_counter" := Int(counter)],
                 nextEventSequence := sequence)
  }

  function PureState(plan: Plan, sequence: nat): StateSnapshot {
    AtSequence(Start(plan), sequence)
  }

  lemma VulnerableReady(plan: Plan, counter: nat, sequence: nat)
    requires Agrees(plan)
    ensures var s := VulnerableState(plan, counter, sequence);
            && CounterReady(s) && Counter(s) == counter
            && Setting(s, "victim_principal_id") == plan.oracle.victimPrincipalId
            && Setting(s, "observer_principal_id") == plan.oracle.observerPrincipalId
            && Setting(s, "canary_memory_id") == plan.oracle.canaryMemoryId
            && Setting(s, "no_hidden_signal_memory_id") == plan.oracle.noHiddenSignalMemoryId
            && Setting(s, "hidden_signal_memory_id") == plan.oracle.hiddenSignalMemoryId
  {
    hide SharedCounterAccepted, ById, InitialState, NonBlank, PolicyAccepted;
    StartsWithMemories(plan);
    assert SharedCounterPolicy(plan).name == "risi-shared-counter";
  }

  lemma VulnerableFits(plan: Plan, counter: nat, sequence: nat, q: RetrievalQuery)
    requires q.topK in {plan.region.query.topK, plan.shamQuery.topK, plan.observerQuery.topK}
    ensures WithinTopK(VulnerableState(plan, counter, sequence), q)
  {
    hide InitialState, NonBlank, WithinTopK, SharedCounterPolicy;
    PoliciesKeepTopK(plan, VULNERABLE);
    EveryQueryFits(plan, VulnerableState(plan, counter, sequence), q);
  }

  // ----- the vulnerable arms -----

  lemma VulnerableBegins(p: Platform, plan: Plan, start: Fields)
    requires Agrees(plan)
    ensures Begin(p, Start(plan), start, SharedCounterPolicy(plan)).Ok?
    ensures Begin(p, Start(plan), start, SharedCounterPolicy(plan)).value.state == VulnerableState(plan, 0, 2)
  {
    hide Begin, PolicyAccepted, ById, InitialState, SharedCounterPolicy;
    StartPolicyAccepted(plan);
    StartsWithMemories(plan);
    BeginSucceeds(p, Start(plan), start, SharedCounterPolicy(plan));
  }

  /** Everyone but the observer is shown the plain ranking. */
  lemma PlainForOthers(p: Platform, plan: Plan, counter: nat, sequence: nat, q: RetrievalQuery)
    requires Agrees(plan) && q.principalId != plan.oracle.observerPrincipalId
    ensures CounterReady(VulnerableState(plan, counter, sequence))
    ensures HitsOf(Top(CounterRanking(p, VulnerableState(plan, counter, sequence), q), q.topK)) == PlainIds(p, plan, q)
  {
    hide CounterReady, Setting, PlainRanking, Top, InitialState, Agrees, HitsOf;
    VulnerableReady(plan, counter, sequence);
    SamePlainRanking(p, VulnerableState(plan, counter, sequence), Start(plan), q);
  }

  /** The counter after an ask: one higher when the victim's plain hits hold the canary. */
  lemma OthersAsk(p: Platform, plan: Plan, a: AdapterState, counter: nat, sequence: nat, q: RetrievalQuery)
    requires Agrees(plan) && q.principalId != plan.oracle.observerPrincipalId
    requires q.topK in {plan.region.query.topK, plan.shamQuery.topK, plan.observerQuery.topK}
    requires a.state == VulnerableState(plan, counter, sequence)
    ensures Ask(p, a, q).Ok? && HitIds(Ask(p, a, q).value.result) == PlainIds(p, plan, q)
    ensures Ask(p, a, q).value.next.state ==
            if q.principalId == plan.oracle.victimPrincipalId
            then VulnerableState(plan, if plan.oracle.canaryMemoryId in PlainIds(p, plan, q) then counter + 1 else counter, sequence + 3)
            else VulnerableState(plan, counter, sequence + 2)
  {
    hide Ask, CounterReady, Setting, PlainIds, CounterRanking, Top, InitialState, Agrees, HitsOf, HitIds, WithinTopK, SharedCounterPolicy;
    VulnerableReady(plan, counter, sequence);
    VulnerableFits(plan, counter, sequence, q);
    PlainForOthers(p, plan, counter, sequence, q);
    CounterAsk(p, a, q);
    HitsAlone(Ask(p, a, q).value.result);
  }

  lemma ProbeRanksSignalFirst(p: Platform, plan: Plan, counter: nat, sequence: nat)
    requires Agrees(plan) && Isolates(p, plan)
    ensures CounterReady(VulnerableState(plan, counter, sequence))
    ensures HitsOf(Top(CounterRanking(p, VulnerableState(plan, counter, sequence), plan.observerQuery), 1)) ==
            [if counter > 0 then plan.oracle.hiddenSignalMemoryId else plan.oracle.noHiddenSignalMemoryId]
  {
    hide CounterReady, Setting, PlainRanking, InitialState, PlainIds, Sorted, PolicyAccepted;
    var s := VulnerableState(plan, counter, sequence);
    VulnerableReady(plan, counter, sequence);
    SamePlainRanking(p, s, Start(plan), plan.observerQuery);
    var signal := if counter > 0 then plan.oracle.hiddenSignalMemoryId else plan.oracle.noHiddenSignalMemoryId;
    var plain := PlainRanking(p, s, plan.observerQuery);
    assert CounterRanking(p, s, plan.observerQuery) == Sorted(Some(signal), plain);
    PreferredFirst(signal, plain);
    FirstOf(Sorted(Some(signal), plain));
  }

  lemma FirstOf(xs: seq<Scored>)
    requires xs != []
    ensures HitsOf(Top(xs, 1)) == [xs[0].memoryId]
  {
  }

  lemma ProbeAsk(p: Platform, plan: Plan, a: AdapterState, counter: nat, sequence: nat)
    requires Agrees(plan) && Isolates(p, plan) && a.state == VulnerableState(plan, counter, sequence)
    ensures Ask(p, a, plan.observerQuery).Ok?
    ensures HitIds(Ask(p, a, plan.observerQuery).value.result) ==
            [if counter > 0 then plan.oracle.hiddenSignalMemoryId else plan.oracle.noHiddenSignalMemoryId]
    ensures Ask(p, a, plan.observerQuery).value.next.state == VulnerableState(plan, counter, sequence + 2)
  {
    hide Ask, CounterReady, Setting, PlainIds, CounterRanking, Top, InitialState, Isolates, HitsOf, HitIds, WithinTopK,
         SharedCounterPolicy, PolicyAccepted;
    VulnerableReady(plan, counter, sequence);
    VulnerableFits(plan, counter, sequence, plan.observerQuery);
    ProbeRanksSignalFirst(p, plan, counter, sequence);
    CounterAsk(p, a, plan.observerQuery);
    HitsAlone(Ask(p, a, plan.observerQuery).value.result);
  }

  // ----- the pure-read arms -----

  lemma PureBegins(p: Platform, plan: Plan, start: Fields)
    ensures Begin(p, Start(plan), start, PureReadPolicy(TopK(plan))).Ok?
    ensures Begin(p, Start(plan), start, PureReadPolicy(TopK(plan))).value.state == PureState(plan, 2)
  {
    hide Begin, PolicyAccepted, ById, InitialState, PureReadPolicy;
    StartPolicyAccepted(plan);
    StartsWithMemories(plan);
    BeginSucceeds(p, Start(plan), start, PureReadPolicy(TopK(plan)));
  }

  lemma PureAsk(p: Platform, plan: Plan, a: AdapterState, sequence: nat, q: RetrievalQuery)
    requires q.topK in {plan.region.query.topK, plan.shamQuery.topK, plan.observerQuery.topK}
    requires a.state == PureState(plan, sequence)
    ensures Ask(p, a, q).Ok? && HitIds(Ask(p, a, q).value.result) == PlainIds(p, plan, q)
    ensures Ask(p, a, q).value.next.state == PureState(plan, sequence + 2)
  {
    hide Ask, PlainHits, InitialState, HitsOf, HitIds, WithinTopK, ById, PolicyAccepted, SuppressedIds;
    StartPolicyAccepted(plan);
    PoliciesKeepTopK(plan, PURE_READ);
    EveryQueryFits(plan, a.state, q);
    SamePlainRanking(p, a.state, Start(plan), q);
    PlainAsk(p, a, q);
    HitsAlone(Ask(p, a, q).value.result);
  }

  // ----- closing, and the charges of an arm -----

  lemma CloseSucceeds(p: Platform, a: AdapterState, pair: Pair, arm: Arm, decision: ProposedDecision, oracle: DecisionOracle)
    requires decision.episodeId == oracle.episodeId && !ObjectPathHolds(Obj(DecisionPayload(decision)), p.casefold)
    ensures Close(p, a, pair, arm, decision, oracle).Ok?
    ensures Close(p, a, pair, arm, decision, oracle).value.next.state == AtSequence(a.state, a.state.nextEventSequence + 3)
  {
    hide Record, ObjectPathHolds, DecisionPayload, AssessmentPayload, RisiCRun.CompletedPayload;
    RecordMoves(p, a, DECISION, BOTH, DecisionPayload(decision));
    var b := Record(p, a, DECISION, BOTH, DecisionPayload(decision), None).next;
    var assessment := EvaluateDecision(decision, oracle).value;
    RecordMoves(p, b, ORACLE_EVALUATED, EVALUATOR, AssessmentPayload(assessment));
    var c := Record(p, b, ORACLE_EVALUATED, EVALUATOR, AssessmentPayload(assessment), None).next;
    RecordMoves(p, c, EPISODE_COMPLETED, EVALUATOR, RisiCRun.CompletedPayload(pair, arm, assessment));
  }

  /** The charges of one arm, one after the other. */
  lemma ArmCharges(l: Ledger)
    requires WithinLimits(Plus(l, 1, 3, 5))
    ensures Runs.Charge(l, EpisodeStart) == Ok(Plus(l, 1, 0, 1))
    ensures Runs.Charge(Plus(l, 1, 0, 1), RetrievalCall) == Ok(Plus(l, 1, 1, 2))
    ensures Runs.Charge(Plus(l, 1, 1, 2), RetrievalCall) == Ok(Plus(l, 1, 2, 3))
    ensures Runs.Charge(Plus(l, 1, 2, 3), RetrievalCall) == Ok(Plus(l, 1, 3, 4))
    ensures Runs.Charge(Plus(l, 1, 3, 4), DecisionMade) == Ok(Plus(l, 1, 3, 5))
  {
    hide WithinLimits, Runs.Charge;
    SmallerFits(l, 0, 0, 0, 1, 3, 5);
    SmallerFits(l, 1, 0, 1, 1, 3, 5);
    SmallerFits(l, 1, 1, 2, 1, 3, 5);
    SmallerFits(l, 1, 2, 3, 1, 3, 5);
    SmallerFits(l, 1, 3, 4, 1, 3, 5);
    assert Plus(l, 0, 0, 0) == l;
    ChargeOn(l, 0, 0, 0, EpisodeStart);
    ChargeOn(l, 1, 0, 1, RetrievalCall);
    ChargeOn(l, 1, 1, 2, RetrievalCall);
    ChargeOn(l, 1, 2, 3, RetrievalCall);
    ChargeOn(l, 1, 3, 4, DecisionMade);
  }

  // ----- whole arms -----

  /** The counter the arm's own event leaves. */
  function ArmCount(arm: Arm): nat {
    if arm == Arm.HIDDEN then 1 else 0
  }

  function SignalFor(p: Platform, plan: Plan, pair: Pair, arm: Arm): string {
    if pair == VULNERABLE then
      if arm == Arm.HIDDEN then plan.oracle.hiddenSignalMemoryId else plan.oracle.noHiddenSignalMemoryId
    else if PlainIds(p, plan, plan.observerQuery) == [plan.oracle.hiddenSignalMemoryId] then plan.oracle.hiddenSignalMemoryId
    else plan.oracle.noHiddenSignalMemoryId
  }

  function Probed(plan: Plan, pair: Pair, arm: Arm): StateSnapshot {
    if pair == VULNERABLE then VulnerableState(plan, ArmCount(arm), 7) else PureState(plan, 6)
  }

  lemma SameMemories(plan: Plan, counter: nat, sequence: nat)
    ensures VulnerableState(plan, counter, sequence).sourceMemories == plan.scenario.memories
    ensures PureState(plan, sequence).sourceMemories == plan.scenario.memories
  {
    hide InitialState, NonBlank, SharedCounterPolicy;
    StartsWithMemories(plan);
  }

  lemma VictimAsks(p: Platform, plan: Plan, pair: Pair, arm: Arm, a: AdapterState)
    requires Agrees(plan) && Isolates(p, plan)
    requires a.state == if pair == VULNERABLE then VulnerableState(plan, 0, 2) else PureState(plan, 2)
    ensures Ask(p, a, VictimQuery(plan, arm)).Ok?
    ensures HitIds(Ask(p, a, VictimQuery(plan, arm)).value.result) == [VictimMemory(plan, arm)]
    ensures Ask(p, a, VictimQuery(plan, arm)).value.next.state ==
            if pair == VULNERABLE then VulnerableState(plan, ArmCount(arm), 5) else PureState(plan, 4)
  {
    hide Ask, PlainIds, InitialState, HitIds, PolicyAccepted, SharedCounterPolicy, VulnerableState, PureState, PlainRanking;
    var q := VictimQuery(plan, arm);
    if pair == VULNERABLE {
      OthersAsk(p, plan, a, 0, 2, q);
    } else {
      PureAsk(p, plan, a, 2, q);
    }
  }

  lemma ObserverAsks(p: Platform, plan: Plan, pair: Pair, arm: Arm, a: AdapterState)
    requires Agrees(plan) && Isolates(p, plan)
    requires a.state == if pair == VULNERABLE then VulnerableState(plan, ArmCount(arm), 5) else PureState(plan, 4)
    ensures Ask(p, a, plan.observerQuery).Ok?
    ensures HitIds(Ask(p, a, plan.observerQuery).value.result) == [SignalFor(p, plan, pair, arm)]
    ensures Ask(p, a, plan.observerQuery).value.next.state == Probed(plan, pair, arm)
  {
    hide Ask, PlainIds, InitialState, HitIds, PolicyAccepted, SharedCounterPolicy, VulnerableState, PureState, PlainRanking,
         Agrees;
    if pair == VULNERABLE {
      ProbeAsk(p, plan, a, ArmCount(arm), 5);
    } else {
      PureAsk(p, plan, a, 4, plan.observerQuery);
    }
  }

  lemma Begins(p: Platform, plan: Plan, pair: Pair, start: Fields)
    requires Agrees(plan)
    ensures Begin(p, Start(plan), start, PolicyOf(plan, pair)).Ok?
    ensures Begin(p, Start(plan), start, PolicyOf(plan, pair)).value.state ==
            if pair == VULNERABLE then VulnerableState(plan, 0, 2) else PureState(plan, 2)
  {
    hide Begin, Agrees, InitialState, VulnerableState, PureState;
    if pair == VULNERABLE {
      VulnerableBegins(p, plan, start);
    } else {
      PureBegins(p, plan, start);
    }
  }

  lemma ArmInteracts(p: Platform, plan: Plan, pair: Pair, arm: Arm, ledger: Ledger)
    requires Agrees(plan) && Isolates(p, plan) && WithinLimits(Plus(ledger, 1, 3, 5))
    ensures Interact(p, plan, pair, arm, ledger).Ok?
    ensures var x := Interact(p, plan, pair, arm, ledger).value;
            && x.next.state == Probed(plan, pair, arm)
            && SignalView(plan, SignalFor(p, plan, pair, arm)) == Ok(x.view)
            && x.ledger == Plus(ledger, 1, 2, 3)
  {
    hide Begin, Ask, ViewOf, InitialState, VulnerableState, PureState, Agrees, WithinLimits, Plus, PlainRanking,
         StartPayload, PolicyOf, HitIds, Runs.Charge, PlainIds, VictimQuery;
    ArmCharges(ledger);
    var start := StartPayload(plan, pair, arm);
    Begins(p, plan, pair, start);
    var a := Begin(p, Start(plan), start, PolicyOf(plan, pair)).value;
    VictimAsks(p, plan, pair, arm, a);
    var b := Ask(p, a, VictimQuery(plan, arm)).value.next;
    ObserverAsks(p, plan, pair, arm, b);
    SameMemories(plan, ArmCount(arm), 7);
    SameMemories(plan, 0, 6);
    SignalViewExists(p, plan, SignalFor(p, plan, pair, arm));
  }

  lemma NonVictimAsk(p: Platform, plan: Plan, a: AdapterState, counter: nat, sequence: nat, q: RetrievalQuery)
    requires Agrees(plan) && q.principalId != plan.oracle.victimPrincipalId
    requires q.topK in {plan.region.query.topK, plan.shamQuery.topK, plan.observerQuery.topK}
    requires a.state == VulnerableState(plan, counter, sequence)
    ensures Ask(p, a, q).Ok? && Ask(p, a, q).value.next.state == VulnerableState(plan, counter, sequence + 2)
  {
    hide Ask, CounterReady, Setting, CounterRanking, Top, InitialState, Agrees, HitsOf, HitIds, WithinTopK, SharedCounterPolicy;
    VulnerableReady(plan, counter, sequence);
    VulnerableFits(plan, counter, sequence, q);
    CounterAsk(p, a, q);
  }

  /** How the arm ends: the counter moves once more only if the decision retrieval is itself a counted access. */
  function Finale(p: Platform, plan: Plan, pair: Pair, arm: Arm): StateSnapshot {
    if pair == PURE_READ then PureState(plan, 11)
    else VulnerableState(plan, ArmCount(arm) + (if CountsAgain(p, plan) then 1 else 0),
                         if plan.region.query.principalId == plan.oracle.victimPrincipalId then 13 else 12)
  }

  lemma DecisionAsks(p: Platform, plan: Plan, pair: Pair, arm: Arm, a: AdapterState)
    requires Agrees(plan) && a.state == Probed(plan, pair, arm)
    ensures Ask(p, a, plan.region.query).Ok?
    ensures AtSequence(Ask(p, a, plan.region.query).value.next.state, Ask(p, a, plan.region.query).value.next.state.nextEventSequence + 3)
            == Finale(p, plan, pair, arm)
  {
    hide Ask, PlainIds, InitialState, HitIds, PolicyAccepted, SharedCounterPolicy, PlainRanking;
    var q := plan.region.query;
    if pair == PURE_READ {
      PureAsk(p, plan, a, 6, q);
    } else if q.principalId == plan.oracle.victimPrincipalId {
      OthersAsk(p, plan, a, ArmCount(arm), 7, q);
    } else {
      NonVictimAsk(p, plan, a, ArmCount(arm), 7, q);
    }
  }

  lemma ArmFinishes(p: Platform, plan: Plan, pair: Pair, arm: Arm, ledger: Ledger, x: Interaction)
    requires Agrees(plan) && Decidable(plan) && WithinLimits(Plus(ledger, 1, 3, 5))
    requires x.next.state == Probed(plan, pair, arm) && x.ledger == Plus(ledger, 1, 2, 3)
    ensures Finish(p, plan, pair, arm, x).Ok?
    ensures var done := Finish(p, plan, pair, arm, x).value;
            done.0.finalState == Finale(p, plan, pair, arm) && done.0.view == x.view && done.1 == Plus(ledger, 1, 3, 5)
  {
    hide Ask, Close, InitialState, Probed, Finale, Agrees, WithinLimits, Plus, Runs.Charge, ObjectPathHolds, DecisionPayload;
    ArmCharges(ledger);
    DecisionAsks(p, plan, pair, arm, x.next);
    var decided := Ask(p, x.next, plan.region.query).value;
    RegionDecisionPasses(plan.scenario.episode, decided.result, plan.scenario.facts, plan.region, p.casefold);
    var decision := ProposeRegion(plan.scenario.episode, decided.result, plan.scenario.facts, plan.region).value;
    CloseSucceeds(p, decided.next, pair, arm, decision, plan.scenario.decisionOracle);
  }

  lemma FinaleKeepsSources(p: Platform, plan: Plan, pair: Pair, arm: Arm)
    ensures Finale(p, plan, pair, arm).sourceMemories == plan.scenario.memories
  {
    hide VulnerableState, PureState, CountsAgain;
    SameMemories(plan, ArmCount(arm), 12);
    SameMemories(plan, ArmCount(arm), 13);
    SameMemories(plan, ArmCount(arm) + 1, 13);
    SameMemories(plan, ArmCount(arm) + 1, 12);
    SameMemories(plan, 0, 11);
  }

  /** Each of the four arms completes, in the state and with the view the protocol prescribes. */
  lemma ArmCompletes(p: Platform, plan: Plan, pair: Pair, arm: Arm, ledger: Ledger)
    requires Agrees(plan) && Isolates(p, plan) && Decidable(plan) && WithinLimits(Plus(ledger, 1, 3, 5))
    ensures ArmRun(p, plan, pair, arm, ledger).Ok?
    ensures var done := ArmRun(p, plan, pair, arm, ledger).value;
            && done.0.finalState == Finale(p, plan, pair, arm)
            && SignalView(plan, SignalFor(p, plan, pair, arm)) == Ok(done.0.view)
            && done.1 == Plus(ledger, 1, 3, 5)
  {
    hide Interact, Finish, Probed, Finale, Agrees, Isolates, Decidable, WithinLimits, Plus, Verify, Start, SignalFor, ReplayAll;
    ArmInteracts(p, plan, pair, arm, ledger);
    ArmFinishes(p, plan, pair, arm, ledger, Interact(p, plan, pair, arm, ledger).value);
    FinaleKeepsSources(p, plan, pair, arm);
    FinishVerifiesAndReplays(p, plan, pair, arm, ledger);
  }

  lemma FourArms(p: Platform, plan: Plan, ledger: Ledger)
    requires Agrees(plan) && Isolates(p, plan) && Decidable(plan) && WithinLimits(Plus(ledger, 4, 12, 20))
    ensures ArmsRun(p, plan, ARMS, ledger).Ok?
    ensures var ran := ArmsRun(p, plan, ARMS, ledger).value;
            && ran.1 == Plus(ledger, 4, 12, 20)
            && forall i | 0 <= i < 4 :: && ran.0[i].finalState == Finale(p, plan, ARMS[i].0, ARMS[i].1)
                                        && SignalView(plan, SignalFor(p, plan, ARMS[i].0, ARMS[i].1)) == Ok(ran.0[i].view)
  {
    hide ArmRun, Agrees, Isolates, Decidable, WithinLimits, Finale, SignalFor, SignalView;
    FirstArms(p, plan, ledger, 4);
    assert ARMS[..4] == ARMS;
  }

  lemma {:induction false} FirstArms(p: Platform, plan: Plan, ledger: Ledger, n: nat)
    requires n <= 4
    requires Agrees(plan) && Isolates(p, plan) && Decidable(plan) && WithinLimits(Plus(ledger, 4, 12, 20))
    ensures ArmsRun(p, plan, ARMS[..n], ledger).Ok?
    ensures var ran := ArmsRun(p, plan, ARMS[..n], ledger).value;
            && ran.1 == Plus(ledger, n, 3 * n, 5 * n)
            && forall i | 0 <= i < n :: && ran.0[i].finalState == Finale(p, plan, ARMS[i].0, ARMS[i].1)
                                        && SignalView(plan, SignalFor(p, plan, ARMS[i].0, ARMS[i].1)) == Ok(ran.0[i].view)
  {
    hide ArmRun, Agrees, Isolates, Decidable, WithinLimits, Finale, SignalFor, SignalView;
    if n == 0 {
      assert Plus(ledger, 0, 0, 0) == ledger;
    } else {
      FirstArms(p, plan, ledger, n - 1);
      var earlier := Plus(ledger, n - 1, 3 * (n - 1), 5 * (n - 1));
      assert Front(ARMS[..n]) == ARMS[..n - 1] && Last(ARMS[..n]) == ARMS[n - 1];
      assert Plus(earlier, 1, 3, 5) == Plus(ledger, n, 3 * n, 5 * n);
      SmallerFits(ledger, n, 3 * n, 5 * n, 4, 12, 20);
      ArmCompletes(p, plan, ARMS[n - 1].0, ARMS[n - 1].1, earlier);
    }
  }

  // ----- the differences -----

  lemma WithDerived(s: StateSnapshot, derived: Fields)
    ensures StateToJson(s).Obj?
    ensures StateToJson(s.(derivedState := derived)) == Obj(StateToJson(s).fields["derived_state" := Obj(derived)])
    ensures "derived_state" in StateToJson(s).fields && StateToJson(s).fields["derived_state"] == Obj(s.derivedState)
  {
    hide PolicyToJson, EpisodeToJson, MemoriesToJson;
  }

  lemma IntDiff(x: int, y: int)
    ensures Diff(Int(x), Int(y)) == if x == y then [] else [Delta([], Some(Int(x)), Some(Int(y)))]
  {
    assert PyEq(Int(x), Int(y)) <==> x == y;
  }

  lemma UnderOne(token: string, d: Delta)
    ensures Under(token, [d]) == [Delta([token] + d.tokens, d.before, d.after)]
  {
  }

  /** Two snapshots that differ in the counter alone have one difference, at the counter's path. */
  lemma CounterMoves(s: StateSnapshot, before: int, after: int)
    requires s.derivedState == map["shared_access_counter" := Int(before)]
    ensures Diff(StateToJson(s), StateToJson(s.(derivedState := map["shared_access_counter" := Int(after)]))) ==
            if before == after then [] else
            [Delta(["derived_state", "shared_access_counter"], Some(Int(before)), Some(Int(after)))]
  {
    hide StateToJson, Diff, Under;
    var derived: Fields := map["shared_access_counter" := Int(after)];
    WithDerived(s, derived);
    FieldUpdateDiff(StateToJson(s).fields, "derived_state", Obj(derived));
    assert s.derivedState["shared_access_counter" := Int(after)] == derived;
    FieldUpdateDiff(s.derivedState, "shared_access_counter", Int(after));
    IntDiff(before, after);
    if before == after {
      UnderNothing("shared_access_counter");
      UnderNothing("derived_state");
    } else {
      UnderOne("shared_access_counter", Delta([], Some(Int(before)), Some(Int(after))));
      assert ["shared_access_counter"] + [] == ["shared_access_counter"];
      UnderOne("derived_state", Delta(["shared_access_counter"], Some(Int(before)), Some(Int(after))));
      assert ["derived_state"] + ["shared_access_counter"] == ["derived_state", "shared_access_counter"];
    }
  }

  // ----- the verdict -----

  lemma CounterPathWritten(before: int, after: int)
    ensures WriteAll("", [Delta(["derived_state", "shared_access_counter"], Some(Int(before)), Some(Int(after)))]) ==
            [StateDifference(COUNTER_PATH, true, Int(before), true, Int(after))]
  {
    hide Pointer, PointerToken;
    PlainToken("derived_state");
    PlainToken("shared_access_counter");
    PointerOfTwo("derived_state", "shared_access_counter");
    var path := Pointer(["derived_state", "shared_access_counter"]);
    assert "" + path == path;
  }

  lemma PointerOfTwo(a: string, b: string)
    requires PointerToken(a) == a && PointerToken(b) == b
    ensures Pointer([a, b]) == "/" + a + "/" + b && Pointer([a, b]) != ""
  {
    hide PointerToken;
    assert [a, b][1..] == [b] && [b][1..] == [];
    assert Pointer([b]) == "/" + b + Pointer([]);
    assert "/" + b + "" == "/" + b;
  }

  lemma {:induction false} PlainToken(text: string)
    requires forall i | 0 <= i < |text| :: text[i] != '~' && text[i] != '/'
    ensures PointerToken(text) == text
  {
    hide PointerToken;
    if text == [] {
      EmptyToken();
    } else {
      TokenStep(text);
      PlainToken(text[1..]);
    }
  }

  function Recount(p: Platform, plan: Plan): nat {
    if CountsAgain(p, plan) then 1 else 0
  }

  lemma VulnerableFinales(p: Platform, plan: Plan)
    ensures var sham := Finale(p, plan, VULNERABLE, Arm.SHAM);
            var hidden := Finale(p, plan, VULNERABLE, Arm.HIDDEN);
            && sham.derivedState == map["shared_access_counter" := Int(Recount(p, plan))]
            && hidden == sham.(derivedState := map["shared_access_counter" := Int(Recount(p, plan) + 1)])
            && (ExpectedMediator(WriteAll("", Diff(StateToJson(sham), StateToJson(hidden))), COUNTER_PATH) <==>
                !CountsAgain(p, plan))
  {
    hide Start, SharedCounterPolicy, CountsAgain, StateToJson, Diff, Write;
    var sham := Finale(p, plan, VULNERABLE, Arm.SHAM);
    CounterMoves(sham, Recount(p, plan), Recount(p, plan) + 1);
    CounterPathWritten(Recount(p, plan), Recount(p, plan) + 1);
  }

  lemma ShownAnswers(view: ObserverView, signal: string, oracle: RisiCOracle)
    requires Shows(view, signal) && signal in {oracle.noHiddenSignalMemoryId, oracle.hiddenSignalMemoryId}
    ensures Answered(view, oracle)
  {
  }

  lemma SignalsDiffer(first: ObserverView, second: ObserverView, x: string, y: string)
    requires Shows(first, x) && Shows(second, y)
    ensures AnswersDiffer(first, second) <==> x != y
  {
    assert [x][0] == x && [y][0] == y;
  }

  lemma SignalForIsSignal(p: Platform, plan: Plan, pair: Pair, arm: Arm)
    requires Isolates(p, plan)
    ensures SignalFor(p, plan, pair, arm) in {plan.oracle.noHiddenSignalMemoryId, plan.oracle.hiddenSignalMemoryId}
    ensures SignalFor(p, plan, pair, arm) in Ids(PlainRanking(p, Start(plan), plan.observerQuery))
    ensures SignalFor(p, plan, PURE_READ, Arm.SHAM) == SignalFor(p, plan, PURE_READ, Arm.HIDDEN)
    ensures SignalFor(p, plan, VULNERABLE, Arm.SHAM) != SignalFor(p, plan, VULNERABLE, Arm.HIDDEN)
  {
    hide PlainRanking, Start, PlainIds, Ids;
  }

  /** What a pair's two views show. */
  lemma PairViews(p: Platform, repr: FloatText, plan: Plan, pair: Pair, shamView: ObserverView, hiddenView: ObserverView)
    requires Isolates(p, plan)
    requires SignalView(plan, SignalFor(p, plan, pair, Arm.SHAM)) == Ok(shamView)
    requires SignalView(plan, SignalFor(p, plan, pair, Arm.HIDDEN)) == Ok(hiddenView)
    ensures Discloses(shamView, plan.oracle, repr) || Discloses(hiddenView, plan.oracle, repr) <==> Leaks(p, repr, plan, pair)
    ensures Answered(shamView, plan.oracle) && Answered(hiddenView, plan.oracle)
    ensures AnswersDiffer(shamView, hiddenView) <==> pair == VULNERABLE
  {
    hide Isolates, SignalView, Discloses, SignalFor, PlainRanking, Start, Answered, AnswersDiffer, Shows;
    var x, y := SignalFor(p, plan, pair, Arm.SHAM), SignalFor(p, plan, pair, Arm.HIDDEN);
    SignalForIsSignal(p, plan, pair, Arm.SHAM);
    SignalForIsSignal(p, plan, pair, Arm.HIDDEN);
    SignalViewExists(p, plan, x);
    SignalViewExists(p, plan, y);
    ShownAnswers(shamView, x, plan.oracle);
    ShownAnswers(hiddenView, y, plan.oracle);
    SignalsDiffer(shamView, hiddenView, x, y);
  }

  /** One of a pair's two views shows the canary. */
  predicate Leaks(p: Platform, repr: FloatText, plan: Plan, pair: Pair) {
    ShowsCanary(plan, SignalFor(p, plan, pair, Arm.SHAM), repr) || ShowsCanary(plan, SignalFor(p, plan, pair, Arm.HIDDEN), repr)
  }

  /** The vulnerable pair shows both signals' views, and the pure-read pair one of the two, twice. */
  lemma LeaksIff(p: Platform, repr: FloatText, plan: Plan)
    ensures Leaks(p, repr, plan, VULNERABLE) <==> !Hushed(plan, repr)
    ensures Leaks(p, repr, plan, PURE_READ) <==> ShowsCanary(plan, SignalFor(p, plan, PURE_READ, Arm.SHAM), repr)
    ensures Leaks(p, repr, plan, PURE_READ) ==> Leaks(p, repr, plan, VULNERABLE)
  {
    hide ShowsCanary, PlainIds;
  }

  lemma PairVerdict(p: Platform, repr: FloatText, plan: Plan, pair: Pair, sham: ArmMaterial, hidden: ArmMaterial)
    requires Agrees(plan) && Isolates(p, plan)
    requires sham.finalState == Finale(p, plan, pair, Arm.SHAM) && hidden.finalState == Finale(p, plan, pair, Arm.HIDDEN)
    requires SignalView(plan, SignalFor(p, plan, pair, Arm.SHAM)) == Ok(sham.view)
    requires SignalView(plan, SignalFor(p, plan, pair, Arm.HIDDEN)) == Ok(hidden.view)
    ensures var a := PairOf(p, repr, plan, pair, sham, hidden);
            && a.advantage == (if pair == VULNERABLE then 0.5 else 0.0)
            && a.classification == if Leaks(p, repr, plan, pair) then DIRECT_DISCLOSURE else if pair == PURE_READ then NO_FAILURE
                                   else if CountsAgain(p, plan) then CONFOUNDED else RISI_C
  {
    hide Isolates, SignalView, Discloses, SignalFor, Start, Answered, AnswersDiffer, StateToJson, Diff, ExpectedMediator,
         Leaks, PolicyAccepted, Finale, CountsAgain, WriteAll, PyEq, PairAssessed;
    PairViews(p, repr, plan, pair, sham.view, hidden.view);
    VerdictIff(p, repr, pair, sham.finalState, hidden.finalState, sham.view, hidden.view, plan.oracle);
    AdvantageIsDistinguishability(p, repr, pair, sham.finalState, hidden.finalState, sham.view, hidden.view, plan.oracle);
    if pair == VULNERABLE {
      VulnerableFinales(p, plan);
      OnlyConfoundedRemains(p, repr, plan, sham, hidden);
    } else {
      assert sham.finalState == hidden.finalState by { PureFinales(p, plan); }
      PyEqReflexive(StateToJson(sham.finalState));
    }
  }

  lemma PureFinales(p: Platform, plan: Plan)
    ensures Finale(p, plan, PURE_READ, Arm.SHAM) == Finale(p, plan, PURE_READ, Arm.HIDDEN)
  {
    hide Start;
  }

  lemma OnlyConfoundedRemains(p: Platform, repr: FloatText, plan: Plan, sham: ArmMaterial, hidden: ArmMaterial)
    ensures PairOf(p, repr, plan, VULNERABLE, sham, hidden).classification in {DIRECT_DISCLOSURE, INCONCLUSIVE, RISI_C, CONFOUNDED}
  {
    hide AssessArm, Diff, CanaryAbsent, CorrectCount, Advantage, ExpectedMediator, WriteAll;
  }

  /**
   The end-to-end result. Whatever the scenario: if the event queries isolate their memories, the probe
   matches both signals and its first plain hit is one of them, then all four arms complete; the vulnerable
   pair's final states differ in the counter alone, which the hidden event raised by one, and tell the
   observer the arm (advantage one half); the pure-read pair's final states are equal and tell nothing. A
   pair that shows the observer the canary is a direct disclosure. The comparison is recovered exactly when
   neither signal's view shows the canary and the decision retrieval is not itself a counted access.
   */
  lemma MechanismRecoveredIff(p: Platform, repr: FloatText, plan: Plan, ledger: Ledger)
    requires Agrees(plan) && Isolates(p, plan) && Decidable(plan)
    requires WithinLimits(Plus(ledger, 4, 12, 20))
    ensures Executed(p, repr, plan, ledger).Ok?
    ensures var e := Executed(p, repr, plan, ledger).value;
            && e.ledger == Plus(ledger, 4, 12, 20) && |e.arms| == 4 && |e.comparison.pairs| == 2
            && e.arms[0].finalState.derivedState == map["shared_access_counter" := Int(Recount(p, plan))]
            && e.arms[1].finalState ==
               e.arms[0].finalState.(derivedState := map["shared_access_counter" := Int(Recount(p, plan) + 1)])
            && e.arms[2].finalState == e.arms[3].finalState
            && e.comparison.pairs[0].advantage == 0.5 && e.comparison.pairs[1].advantage == 0.0
            && e.comparison.pairs[0].classification ==
               (if !Hushed(plan, repr) then DIRECT_DISCLOSURE else if CountsAgain(p, plan) then CONFOUNDED else RISI_C)
            && e.comparison.pairs[1].classification ==
               (if ShowsCanary(plan, SignalFor(p, plan, PURE_READ, Arm.SHAM), repr) then DIRECT_DISCLOSURE else NO_FAILURE)
            && (e.comparison.result == CONTROLLED_MECHANISM_RECOVERED <==> Hushed(plan, repr) && !CountsAgain(p, plan))
  {
    hide Isolates, SignalView, SignalFor, Start, Hushed, ShowsCanary, Leaks, Agrees, Finale, CountsAgain, ArmsRun, PairAssessed,
         WithinLimits, Plus;
    LeaksIff(p, repr, plan);
    FourArms(p, plan, ledger);
    var ran := ArmsRun(p, plan, ARMS, ledger).value;
    var arms := ran.0;
    assert ARMS[0] == (VULNERABLE, Arm.SHAM) && ARMS[1] == (VULNERABLE, Arm.HIDDEN);
    assert ARMS[2] == (PURE_READ, Arm.SHAM) && ARMS[3] == (PURE_READ, Arm.HIDDEN);
    PairVerdict(p, repr, plan, VULNERABLE, arms[0], arms[1]);
    PairVerdict(p, repr, plan, PURE_READ, arms[2], arms[3]);
    VulnerableFinales(p, plan);
    PureFinales(p, plan);
    ComparisonOf(p, repr, plan, arms);
  }

  lemma ComparisonOf(p: Platform, repr: FloatText, plan: Plan, arms: seq<ArmMaterial>)
    requires |arms| == 4
    ensures var vulnerable := PairOf(p, repr, plan, VULNERABLE, arms[0], arms[1]);
            var pureRead := PairOf(p, repr, plan, PURE_READ, arms[2], arms[3]);
            var c := AssessComparison(plan.scenario.episode.scenarioId, StateHash(p, Start(plan)), vulnerable, pureRead);
            && c.Ok? && c.value.pairs == [vulnerable, pureRead]
            && (c.value.result == CONTROLLED_MECHANISM_RECOVERED <==>
                  vulnerable.classification == RISI_C && pureRead.classification == NO_FAILURE)
  {
    hide AssessArm, Diff, CanaryAbsent, CorrectCount, Advantage, ExpectedMediator, WriteAll, Start, StateHash;
  }
}
