/** Which policies the reference adapter accepts, and what accepting them is for (adapters/reference.py). */
module Policies {
  import opened Basics
  import opened Json
  import opened Text
  import opened Bytes
  import opened Models
  import opened Trace
  import opened ReferenceMemory
  import opened Retrievals

  // ----- the closed set of accepted policies -----

  datatype Accepted =
    | PureRead(topK: int)
    | Eclipsing(topK: int, trigger: string, suppressed: string)
    | ProtectedRecall(topK: int, trigger: string, suppressed: string)
    | SharedCounter(topK: int, canary: string, noHidden: string, hidden: string, victim: string, observer: string)

  /** The parameters are in their ranges and name known, different memories and different principals. */
  predicate InRange(a: Accepted, memoryIds: set<string>) {
    && a.topK > 0
    && match a
       case PureRead(_) => true
       case Eclipsing(_, trigger, suppressed) => trigger in memoryIds && suppressed in memoryIds && trigger != suppressed
       case ProtectedRecall(_, trigger, suppressed) => trigger in memoryIds && suppressed in memoryIds && trigger != suppressed
       case SharedCounter(_, canary, noHidden, hidden, victim, observer) =>
         && {canary, noHidden, hidden} <= memoryIds && canary != noHidden && canary != hidden && noHidden != hidden
         && victim != "" && observer != "" && victim != observer
  }

  function NameOf(a: Accepted): string {
    match a
    case PureRead(_) => "pure-read"
    case Eclipsing(_, _, _) => "memory-eclipsing"
    case ProtectedRecall(_, _, _) => "protected-critical-recall"
    case SharedCounter(_, _, _, _, _, _) => "risi-shared-counter"
  }

  function SettingsOf(a: Accepted): Fields {
    match a
    case PureRead(topK) => map["top_k" := Int(topK), "read_side_updates" := Bool(false)]
    case Eclipsing(topK, trigger, suppressed) =>
      map["top_k" := Int(topK), "read_side_updates" := Bool(true), "trigger_memory_id" := Str(trigger),
          "suppressed_memory_id" := Str(suppressed)]
    case ProtectedRecall(topK, trigger, suppressed) =>
      map["top_k" := Int(topK), "read_side_updates" := Bool(true), "trigger_memory_id" := Str(trigger),
          "suppressed_memory_id" := Str(suppressed), "protected_criticality" := Str("protected-recall")]
    case SharedCounter(topK, canary, noHidden, hidden, victim, observer) =>
      map["top_k" := Int(topK), "read_side_updates" := Bool(true), "canary_memory_id" := Str(canary),
          "no_hidden_signal_memory_id" := Str(noHidden), "hidden_signal_memory_id" := Str(hidden),
          "victim_principal_id" := Str(victim), "observer_principal_id" := Str(observer)]
  }

  /** The configuration is that policy, in its first version, with exactly its settings. */
  predicate Configures(policy: PolicyConfiguration, a: Accepted) {
    hide SettingsOf;
    policy.name == NameOf(a) && policy.version == "1" && policy.settings == SettingsOf(a)
  }

  function LimitIn(settings: Fields): int {
    match Get(settings, "top_k") case Int(n) => n case _ => 0
  }

  function TextIn(settings: Fields, name: string): string {
    match Get(settings, name) case Str(s) => s case _ => ""
  }

  /** The parameters, read off the settings. */
  function ParametersOf(policy: PolicyConfiguration): Accepted {
    var f := policy.settings;
    match policy.name
    case "memory-eclipsing" => Eclipsing(LimitIn(f), TextIn(f, "trigger_memory_id"), TextIn(f, "suppressed_memory_id"))
    case "protected-critical-recall" => ProtectedRecall(LimitIn(f), TextIn(f, "trigger_memory_id"), TextIn(f, "suppressed_memory_id"))
    case "risi-shared-counter" =>
      SharedCounter(LimitIn(f), TextIn(f, "canary_memory_id"), TextIn(f, "no_hidden_signal_memory_id"),
                    TextIn(f, "hidden_signal_memory_id"), TextIn(f, "victim_principal_id"), TextIn(f, "observer_principal_id"))
    case _ => PureRead(LimitIn(f))
  }

  lemma PureReadIff(policy: PolicyConfiguration, ids: set<string>)
    requires policy.name == "pure-read"
    ensures PolicyAccepted(policy, ids) <==> Configures(policy, ParametersOf(policy)) && InRange(ParametersOf(policy), ids)
  {
    if PolicyAccepted(policy, ids) {
      var f, g := policy.settings, SettingsOf(ParametersOf(policy));
      assert f.Keys == g.Keys && f["top_k"] == g["top_k"] && f["read_side_updates"] == g["read_side_updates"];
      assert f == g;
    }
  }

  lemma AdaptiveIff(policy: PolicyConfiguration, ids: set<string>)
    requires policy.name in {"memory-eclipsing", "protected-critical-recall"}
    ensures PolicyAccepted(policy, ids) <==> Configures(policy, ParametersOf(policy)) && InRange(ParametersOf(policy), ids)
  {
    var f, g := policy.settings, SettingsOf(ParametersOf(policy));
    if PolicyAccepted(policy, ids) {
      assert f.Keys == g.Keys && forall k | k in f :: f[k] == g[k];
      assert f == g;
    }
  }

  lemma CounterSettingsAre(policy: PolicyConfiguration, ids: set<string>)
    requires policy.name == "risi-shared-counter" && PolicyAccepted(policy, ids)
    ensures policy.settings == SettingsOf(ParametersOf(policy))
  {
    var f, g := policy.settings, SettingsOf(ParametersOf(policy));
    assert f["top_k"] == g["top_k"] && f["read_side_updates"] == g["read_side_updates"];
    assert f["canary_memory_id"] == g["canary_memory_id"] && f["no_hidden_signal_memory_id"] == g["no_hidden_signal_memory_id"];
    assert f["hidden_signal_memory_id"] == g["hidden_signal_memory_id"];
    assert f["victim_principal_id"] == g["victim_principal_id"] && f["observer_principal_id"] == g["observer_principal_id"];
    assert f.Keys == g.Keys;
    assert f == g;
  }

  lemma SharedCounterIff(policy: PolicyConfiguration, ids: set<string>)
    requires policy.name == "risi-shared-counter"
    ensures PolicyAccepted(policy, ids) <==> Configures(policy, ParametersOf(policy)) && InRange(ParametersOf(policy), ids)
  {
    if PolicyAccepted(policy, ids) {
      CounterSettingsAre(policy, ids);
    }
  }

  lemma SettingsReadBack(a: Accepted)
    ensures LimitIn(SettingsOf(a)) == a.topK
    ensures a.Eclipsing? || a.ProtectedRecall? ==>
              TextIn(SettingsOf(a), "trigger_memory_id") == a.trigger && TextIn(SettingsOf(a), "suppressed_memory_id") == a.suppressed
  {
  }

  lemma CounterSettingsReadBack(a: Accepted)
    requires a.SharedCounter?
    ensures TextIn(SettingsOf(a), "canary_memory_id") == a.canary
    ensures TextIn(SettingsOf(a), "no_hidden_signal_memory_id") == a.noHidden
    ensures TextIn(SettingsOf(a), "hidden_signal_memory_id") == a.hidden
    ensures TextIn(SettingsOf(a), "victim_principal_id") == a.victim
    ensures TextIn(SettingsOf(a), "observer_principal_id") == a.observer
  {
  }

  lemma ParametersReadBack(policy: PolicyConfiguration, a: Accepted)
    requires Configures(policy, a)
    ensures ParametersOf(policy) == a
  {
    hide SettingsOf, LimitIn, TextIn;
    SettingsReadBack(a);
    if a.SharedCounter? {
      CounterSettingsReadBack(a);
    }
  }

  /**
   The adapter accepts a configuration exactly when it is one of four, in its first version and with no more
   and no fewer settings, whose parameters are in range: a positive limit; for the adaptive two a trigger and
   a suppressed memory, known and different; for the shared counter three known and different memories and
   two named and different principals.
   */
  lemma AcceptedIff(policy: PolicyConfiguration, memoryIds: set<string>)
    ensures PolicyAccepted(policy, memoryIds) <==> exists a :: InRange(a, memoryIds) && Configures(policy, a)
  {
    hide Configures, InRange, ParametersOf, PureReadAccepted, AdaptiveAccepted, SharedCounterAccepted;
    forall a | Configures(policy, a) ensures ParametersOf(policy) == a && policy.name == NameOf(a) {
      ParametersReadBack(policy, a);
      ConfiguredName(policy, a);
    }
    if policy.name == "pure-read" {
      PureReadIff(policy, memoryIds);
    } else if policy.name in {"memory-eclipsing", "protected-critical-recall"} {
      AdaptiveIff(policy, memoryIds);
    } else if policy.name == "risi-shared-counter" {
      SharedCounterIff(policy, memoryIds);
    }
  }

  lemma ConfiguredName(policy: PolicyConfiguration, a: Accepted)
    requires Configures(policy, a)
    ensures policy.name == NameOf(a)
  {
    hide SettingsOf;
  }

  // ----- what acceptance is for -----

  /** An accepted policy, and adaptive state of the kinds the policies keep in it. */
  predicate Usable(s: StateSnapshot) {
    hide PolicyAccepted, ById;
    && PolicyAccepted(s.policy, ById(s.sourceMemories).Keys)
    && CounterOf(s.derivedState).Ok? && SuppressedIds(s.derivedState).Ok?
    && ("interaction_count" in s.policyState ==> s.policyState["interaction_count"].Int?)
  }

  /** The policy's settings are there for whoever reads them. */
  lemma AcceptedSettingsAreThere(policy: PolicyConfiguration, ids: set<string>)
    requires PolicyAccepted(policy, ids)
    ensures Get(policy.settings, "top_k").Int?
    ensures policy.name != "pure-read" ==> policy.name == "risi-shared-counter" || policy.name in {"memory-eclipsing", "protected-critical-recall"}
    ensures policy.name in {"memory-eclipsing", "protected-critical-recall"} ==>
              StrSetting(policy, "trigger_memory_id").Some? && StrSetting(policy, "suppressed_memory_id").Some?
    ensures policy.name == "risi-shared-counter" ==>
              && StrSetting(policy, "victim_principal_id").Some? && StrSetting(policy, "canary_memory_id").Some?
              && StrSetting(policy, "observer_principal_id").Some? && StrSetting(policy, "no_hidden_signal_memory_id").Some?
              && StrSetting(policy, "hidden_signal_memory_id").Some?
  {
  }

  lemma UsableAnswers(p: Platform, s: StateSnapshot, q: RetrievalQuery)
    requires Usable(s)
    ensures AnswerFor(p, s, q).Ok? <==> WithinTopK(s, q)
    ensures AnswerFor(p, s, q).Err? ==> AnswerFor(p, s, q).error == ValueError
    ensures Get(s.policy.settings, "top_k").Int?
  {
    hide PolicyAccepted, ById, CounterOf, SuppressedIds, StrSetting, Sorted, ScoreAll, Top, Without, Among, ProtectedIds;
    AcceptedSettingsAreThere(s.policy, ById(s.sourceMemories).Keys);
  }

  lemma CountedIsUsable(s: StateSnapshot, counter: nat)
    requires Usable(s)
    ensures Usable(CounterState(s, counter))
  {
    hide PolicyAccepted, ById;
    assert CounterState(s, counter).derivedState["shared_access_counter"] == Int(counter);
  }

  lemma CounterUpdateReturns(p: Platform, a: AdapterState, q: RetrievalQuery, retrieved: seq<string>)
    requires Usable(a.state) && a.state.policy.name == "risi-shared-counter"
    ensures CounterUpdate(p, a, q, retrieved).outcome.Ok? && Usable(CounterUpdate(p, a, q, retrieved).next.state)
  {
    hide Commit, PolicyAccepted, ById, StrSetting, CounterState, CounterPayload, CounterOf, SuppressedIds, NonBlank, ObjectPathHolds;
    AcceptedSettingsAreThere(a.state.policy, ById(a.state.sourceMemories).Keys);
    if q.principalId == StrSetting(a.state.policy, "victim_principal_id").value {
      var hidden := StrSetting(a.state.policy, "canary_memory_id").value in retrieved;
      var prior := CounterOf(a.state.derivedState).value;
      var counter := if hidden then prior + 1 else prior;
      CommitSucceeds(p, a, CounterState(a.state, counter), READ_SIDE_UPDATE, EVALUATOR, CounterPayload(counter, hidden),
                     Some(q.principalId));
      CountedIsUsable(a.state, counter);
    }
  }

  lemma EclipsedIsUsable(s: StateSnapshot, trigger: string, suppressed: string, tenant: string, count: int)
    requires Usable(s)
    ensures Usable(EclipseState(s, trigger, suppressed, tenant, count))
  {
    hide PolicyAccepted, ById;
    var after := EclipseState(s, trigger, suppressed, tenant, count);
    assert after.derivedState["suppressed_memory_ids"] == Strings([suppressed]) && Strings([suppressed]).items[0] == Str(suppressed);
    assert after.policyState["interaction_count"] == Int(count);
  }

  lemma EclipseUpdateReturns(p: Platform, a: AdapterState, q: RetrievalQuery, retrieved: seq<string>)
    requires Usable(a.state) && a.state.policy.name in {"memory-eclipsing", "protected-critical-recall"}
    ensures EclipseUpdate(p, a, q, retrieved).outcome.Ok? && Usable(EclipseUpdate(p, a, q, retrieved).next.state)
  {
    hide Commit, PolicyAccepted, ById, StrSetting, EclipseState, EclipsePayload, SuppressedIds, CounterOf, ObjectPathHolds, NonBlank;
    var s := a.state;
    AcceptedSettingsAreThere(s.policy, ById(s.sourceMemories).Keys);
    var trigger, suppressed := StrSetting(s.policy, "trigger_memory_id").value, StrSetting(s.policy, "suppressed_memory_id").value;
    if trigger in retrieved && suppressed !in SuppressedIds(s.derivedState).value {
      var prior := if "interaction_count" in s.policyState then s.policyState["interaction_count"].n else 0;
      EclipsePasses(trigger, suppressed, q.tenantId, prior + 1, p.casefold);
      CommitSucceeds(p, a, EclipseState(s, trigger, suppressed, q.tenantId, prior + 1), READ_SIDE_UPDATE, BOTH,
                     EclipsePayload(trigger, suppressed, q.tenantId, prior + 1), Some(q.principalId));
      EclipsedIsUsable(s, trigger, suppressed, q.tenantId, prior + 1);
    }
  }

  lemma UpdateReturns(p: Platform, a: AdapterState, q: RetrievalQuery, retrieved: seq<string>)
    requires Usable(a.state)
    ensures ReadSideUpdate(p, a, q, retrieved).outcome.Ok? && Usable(ReadSideUpdate(p, a, q, retrieved).next.state)
  {
    hide Usable, CounterUpdate, EclipseUpdate, PolicyAccepted, ById, Truthy;
    assert PolicyAccepted(a.state.policy, ById(a.state.sourceMemories).Keys) by { UsableIsAccepted(a.state); }
    AcceptedSettingsAreThere(a.state.policy, ById(a.state.sourceMemories).Keys);
    if a.state.policy.name == "risi-shared-counter" {
      CounterUpdateReturns(p, a, q, retrieved);
    } else if a.state.policy.name in {"memory-eclipsing", "protected-critical-recall"} {
      EclipseUpdateReturns(p, a, q, retrieved);
    }
  }

  lemma UsableIsAccepted(s: StateSnapshot)
    requires Usable(s)
    ensures PolicyAccepted(s.policy, ById(s.sourceMemories).Keys)
  {
    hide PolicyAccepted, ById;
  }

  lemma UsableIgnoresClock(s: StateSnapshot, t: StateSnapshot)
    requires Usable(s) && t == s.(nextEventSequence := t.nextEventSequence, logicalTime := t.logicalTime)
    ensures Usable(t)
  {
    hide PolicyAccepted, ById, CounterOf, SuppressedIds;
  }

  /**
   Under an accepted policy a retrieval never raises a type error: it returns exactly when the query asks for
   no more than the policy's limit, and otherwise raises a value error and leaves the adapter alone. The
   state it leaves is again one of which this is true.
   */
  lemma AcceptedPolicyNeverTypeErrors(p: Platform, a: AdapterState, q: RetrievalQuery)
    requires Usable(a.state)
    ensures Get(a.state.policy.settings, "top_k").Int? && Usable(Retrieval(p, a, q).next.state)
    ensures var step := Retrieval(p, a, q);
            && (step.outcome.Ok? <==> q.topK <= Get(a.state.policy.settings, "top_k").n)
            && (step.outcome.Err? ==> step == Step(a, Err(ValueError)))
  {
    hide Usable, AnswerFor, ReadSideUpdate, Reported, Retrieval, HitIds;
    UsableAnswers(p, a.state, q);
    if AnswerFor(p, a.state, q).Ok? {
      var answer := AnswerFor(p, a.state, q).value;
      RetrievalEffect(p, a, q);
      UsableIgnoresClock(a.state, Reported(p, a, q, answer).state);
      UpdateReturns(p, Reported(p, a, q, answer), q, HitIds(answer.result));
    } else {
      UnansweredRaises(p, a, q);
    }
  }

  lemma UnansweredRaises(p: Platform, a: AdapterState, q: RetrievalQuery)
    requires AnswerFor(p, a.state, q).Err?
    ensures Retrieval(p, a, q) == Step(a, Err(AnswerFor(p, a.state, q).error))
  {
    hide AnswerFor;
  }

  lemma CallKeepsUsable(p: Platform, a: AdapterState, op: Op)
    requires Usable(a.state)
    ensures Usable(Apply(p, a, op).state)
  {
    hide Usable, Retrieval, Configure, PolicyAccepted, ById;
    match op
    case RetrieveOp(query) => AcceptedPolicyNeverTypeErrors(p, a, query);
    case ConfigureOp(policy) => ConfigureKeepsUsable(p, a, policy);
    case _ =>
      SteadyCallKeepsState(p, a, op);
      UsableIgnoresClock(a.state, Apply(p, a, op).state);
  }

  lemma ConfigureKeepsUsable(p: Platform, a: AdapterState, policy: PolicyConfiguration)
    requires Usable(a.state)
    ensures Usable(Configure(p, a, policy).next.state)
  {
    hide BuildEvent, PolicyAccepted, ById, CounterOf, SuppressedIds, PolicyPayload, IsSha256;
  }

  /** Over every run of calls, whatever they configure, record or raise. */
  lemma {:induction false} RunKeepsUsable(p: Platform, a: AdapterState, ops: seq<Op>)
    requires Usable(a.state)
    ensures Usable(Run(p, a, ops).state)
    decreases |ops|
  {
    hide Usable, Apply;
    if ops != [] {
      CallKeepsUsable(p, a, ops[0]);
      RunKeepsUsable(p, Apply(p, a, ops[0]), ops[1..]);
    }
  }
}
