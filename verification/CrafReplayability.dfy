/** Which planned CRAF executions replay: the recheck of presentation, in terms of the scenario alone. */
module CrafReplayability {
  import opened Basics
  import opened Text
  import opened Models
  import opened Trace
  import opened Decisions
  import opened ReferenceMemory
  import opened Replay
  import opened Runs
  import opened Retained
  import opened Craf
  import opened CrafRun
  import opened CrafEndToEnd
  import opened CrafReplay
  import opened CrafBundleReplay
  import opened Budget

  /** One of the scenario's memories among the hits quotes the required identifier. */
  predicate QuotedAmong(plan: CrafPlan, hits: seq<RetrievalHit>) {
    exists i :: 0 <= i < |hits| && hits[i].memoryId in ById(plan.scenario.memories)
                && Quotes(ById(plan.scenario.memories), hits[i], plan.protocol.requiredMemoryId)
  }

  /** The arm recalls the required memory, or retrieves no memory that quotes it. */
  predicate Unambiguous(p: Platform, plan: CrafPlan, arm: CrafArm) {
    RecalledIn(p, plan, arm) || !QuotedAmong(plan, ArmHits(p, plan, arm, true, plan.protocol.query))
  }

  lemma MaterialUnambiguous(p: Platform, plan: CrafPlan, critical: MemoryRecord, oracle: MemoryOracle, m: CrafMaterial)
    requires '\n' !in plan.protocol.requiredMemoryId && oracle.memoryId == plan.protocol.requiredMemoryId
    requires AssessedFrom(p, plan, critical, oracle, m) && ContextBelongs(plan, m)
    requires m.decided.hits == ArmHits(p, plan, m.arm, true, plan.protocol.query)
    ensures Locatable(m) <==> Unambiguous(p, plan, m.arm)
  {
    hide ArmHits, Quotes, ById, Locatable, ContextOf, SourceDigest, ValidAt, OracleApplicable;
    LocatableIffUnquoted(p, plan, critical, oracle, m);
    assert HitIds(m.decided) == HitsOf(m.decided.hits);
  }

  /** The bundle replays to the execution's own result, unless a retrieved memory quotes one that was not retrieved. */
  predicate ReplaysUnlessQuoted(p: Platform, plan: CrafPlan, e: CrafExecution) {
    hide ReplayCrafBundle, CrafBundleOf, CrafResultName, CrafReplaysOf, Unambiguous;
    && |e.arms| == 3
    && ReplayCrafBundle(p, CrafBundleOf(plan, e)) ==
       if Unambiguous(p, plan, CONTROL) && Unambiguous(p, plan, VULNERABLE)
       then Ok((CrafResultName(e.comparison.result), CrafReplaysOf(e.arms))) else Err(Mislocalized)
  }

  /**
   Whatever the scenario: under the premises of the end-to-end result the execution completes, and its
   bundle replays to the execution's own result exactly when the plain ranking recalls the required memory
   or its first memories do not quote it, and what the eclipsed arm retrieves does not quote it. Otherwise
   the bundle is refused as mislocalized, even if the comparison is recovered.
   */
  lemma PlannedCrafReplaysIff(p: Platform, plan: CrafPlan, ledger: Ledger)
    requires '\n' !in plan.protocol.requiredMemoryId
    requires Triggers(p, plan) && Scorable(plan) && OnlyBlockingIsSafe(plan) && WithinLimits(Plus(ledger, 3, 6, 12))
    ensures CrafExecuted(p, plan, ledger).Ok? && ReplaysUnlessQuoted(p, plan, CrafExecuted(p, plan, ledger).value)
    ensures Unambiguous(p, plan, PROTECTED) <==> Unambiguous(p, plan, CONTROL)
    ensures Unambiguous(p, plan, VULNERABLE) <==> !QuotedAmong(plan, ArmHits(p, plan, VULNERABLE, true, plan.protocol.query))
  {
    hide Triggers, Scorable, OnlyBlockingIsSafe, WithinLimits, Plus, CrafExecuted, CrafAssembled, Unambiguous, ArmHits, ReplayCrafBundle,
         CrafBundleOf, CrafResultName, CrafReplaysOf, Locatable;
    CrafArmsDecideFrom(p, plan, ledger);
    CompletedCrafReplaysIff(p, plan, ledger);
    ArmsUnambiguous(p, plan, ledger);
    EclipsedUnambiguous(p, plan);
  }

  lemma EclipsedUnambiguous(p: Platform, plan: CrafPlan)
    ensures Unambiguous(p, plan, PROTECTED) <==> Unambiguous(p, plan, CONTROL)
    ensures Unambiguous(p, plan, VULNERABLE) <==> !QuotedAmong(plan, ArmHits(p, plan, VULNERABLE, true, plan.protocol.query))
  {
    hide QuotedAmong, RecalledIn;
    VulnerableForgets(p, plan);
  }

  lemma ArmsUnambiguous(p: Platform, plan: CrafPlan, ledger: Ledger)
    requires '\n' !in plan.protocol.requiredMemoryId && Scorable(plan)
    requires CrafExecuted(p, plan, ledger).Ok? && |CrafExecuted(p, plan, ledger).value.arms| == 3
    requires var ms := CrafExecuted(p, plan, ledger).value.arms;
             forall i | 0 <= i < 3 :: ms[i].decided.hits == ArmHits(p, plan, CRAF_ARMS[i], true, plan.protocol.query)
    ensures var ms := CrafExecuted(p, plan, ledger).value.arms;
            AllLocatable(ms) <==> Unambiguous(p, plan, CONTROL) && Unambiguous(p, plan, VULNERABLE) && Unambiguous(p, plan, PROTECTED)
  {
    hide CrafExecuted, Unambiguous, ArmHits, Locatable, AssessedFrom, ContextBelongs, RecordsCrafArm, EvaluateDecision, Accepted,
         ReplayAll, CrafStart, AssessCraf, StateHash, CriticalOracle, FindMemory, ProtectedCritical;
    var critical, oracle := ExecutedIsAssembled(p, plan, ledger);
    var ms := CrafExecuted(p, plan, ledger).value.arms;
    MaterialUnambiguous(p, plan, critical, oracle, ms[0]);
    MaterialUnambiguous(p, plan, critical, oracle, ms[1]);
    MaterialUnambiguous(p, plan, critical, oracle, ms[2]);
  }
}
