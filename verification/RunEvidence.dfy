/** From a run's budgeted evidence to its finished, inspected and recovered bundle. */
module RunEvidence {
  import opened Basics
  import opened Json
  import opened Text
  import opened Bytes
  import opened Printer
  import opened Paths
  import opened Artifacts
  import opened Evidence
  import opened EvidenceStore
  import opened BudgetedEvidence
  import opened Budget

  // ----- when every file can be written -----

  /** No name is a directory of another. */
  predicate NoNesting(names: set<string>) {
    forall x, y | x in names && y in names && x != y :: !(Parts(x) <= Parts(y))
  }

  lemma {:induction false} StagedIff(files: Files, order: seq<string>)
    requires Distinct(order) && forall name <- order :: name in files && IsCanonical(name)
    ensures Staged(files, order).Ok? <==> NoNesting(set name | name in order)
  {
    hide Parts, Staged, Obstructed;
    if order == [] {
      assert Staged(files, []).Ok? by { NothingStaged(files, []); }
    } else {
      var front, name := Front(order), Last(order);
      assert name in order && (forall x <- front :: x in order && x != name);
      assert forall x :: x in order <==> x in front || x == name;
      StagedIff(files, front);
      StagedLast(files, order);
      if Staged(files, front).Ok? {
        StagedHolds(files, front);
        ObstructedIff(files, front, name);
      }
    }
  }

  lemma StagedLast(files: Files, order: seq<string>)
    requires order != [] && forall name <- order :: name in files
    ensures (forall name <- Front(order) :: name in files) && Last(order) in files
    ensures Staged(files, order).Ok? <==>
            Staged(files, Front(order)).Ok? && !Obstructed(Staged(files, Front(order)).value, Parts(Last(order)))
  {
    hide Parts, Obstructed;
    assert forall name <- Front(order) :: name in order;
    assert Last(order) in order;
  }

  lemma ObstructedIff(files: Files, front: seq<string>, name: string)
    requires (forall x <- front :: x in files && IsCanonical(x) && x != name) && IsCanonical(name)
    requires Staged(files, front).Ok? && Holds(Staged(files, front).value, files, front)
    ensures Obstructed(Staged(files, front).value, Parts(name)) <==>
            exists x :: x in front && (Parts(x) <= Parts(name) || Parts(name) <= Parts(x))
  {
    hide Parts, Staged;
    var d := Staged(files, front).value;
    if k :| k in d && k != Parts(name) && (k <= Parts(name) || Parts(name) <= k) {
      var x :| x in front && Parts(x) == k;
    }
    if x :| x in front && (Parts(x) <= Parts(name) || Parts(name) <= Parts(x)) {
      assert Parts(x) in d;
      assert AsPosix(Parts(x)) == x && AsPosix(Parts(name)) == name;
    }
  }

  /** Files with findable names can all be written exactly when none is a directory of another, nor beneath inventory.json. */
  lemma FinishedIff(files: Files, order: seq<string>, inventory: Content)
    requires Ordering(order, files) && forall name | name in files :: ValidName(name) && Findable(name)
    ensures Finished(files, order, inventory).Ok? <==>
            NoNesting(files.Keys) && forall name | name in files :: Parts(name) != [] && Parts(name)[0] != INVENTORY
  {
    hide Parts, Staged, ValidName, IsCanonical;
    assert (set name | name in order) == files.Keys;
    assert forall name <- order :: IsCanonical(name) && Parts(name) != [] && Last(Parts(name)) != INVENTORY;
    StagedIff(files, order);
    if Staged(files, order).Ok? {
      var d := Staged(files, order).value;
      StagedHolds(files, order);
      forall name | name in files ensures name in order && Parts(name) in d {}
      InventoryObstructedIff(d, files, order);
    }
  }

  lemma InventoryObstructedIff(d: Directory, files: Files, order: seq<string>)
    requires Ordering(order, files) && Holds(d, files, order)
    requires forall name | name in files :: Parts(name) != [] && Last(Parts(name)) != INVENTORY
    ensures Obstructed(d, [INVENTORY]) <==> exists name :: name in files && Parts(name)[0] == INVENTORY
  {
    hide Parts;
    if k :| k in d && k != [INVENTORY] && (k <= [INVENTORY] || [INVENTORY] <= k) {
      var name :| name in order && Parts(name) == k;
      assert name in files && Parts(name)[0] == INVENTORY;
    }
    if name :| name in files && Parts(name)[0] == INVENTORY {
      assert name in order && Parts(name) in d;
      assert Last([INVENTORY]) == INVENTORY;
      assert [INVENTORY] <= Parts(name);
    }
  }

  // ----- the run's own documents -----

  const MANIFEST := "manifest.json"
  const TARGET := "target-scenario.json"

  /** The run's execution record, but for its resource use. */
  predicate ExecutionRecord(f: Fields, runId: string, manifestSha256: string, scenarioId: string, policy: string) {
    && Get(f, "policy") == Str(policy)
    && ReadOutcome(f, policy).Ok? && ReadOutcome(f, policy).value.2 == f.Keys + {"resource_use"}
    && ReadOutcome(f, policy).value.0.status == "succeeded"
    && PyEq(Get(f, "schema_version"), Int(1))
    && Get(f, "event_count").Int? && Get(f, "event_count").n >= 0 && Get(f, "episode_id").Str?
    && Get(f, "run_id") == Str(runId) && Get(f, "manifest_sha256") == Str(manifestSha256)
    && Get(f, "scenario_id") == Str(scenarioId)
  }

  /** The evidence a run's builder closes over: its manifest, its target scenario, and its execution record. */
  ghost predicate RecordsRun(t: Tools, runId: string, l: Ledger, x: Draft, manifest: Fields, target: Fields, policy: string) {
    && MANIFEST in x.others && x.others[MANIFEST] == JsonBytes(Obj(manifest), t.repr)
    && TARGET in x.others && x.others[TARGET] == JsonBytes(Obj(target), t.repr)
    && manifest.Keys == MANIFEST_FIELDS && PyEq(Get(manifest, "schema_version"), Int(1))
    && Get(manifest, "limits") == LimitsToJson(l.approved)
    && Get(manifest, "run_id") == Str(runId) && Get(manifest, "policy") == Str(policy)
    && Get(target, "scenario_id").Str?
    && ExecutionRecord(x.execution, runId, CanonicalSha256(t.sha, t.repr, Obj(manifest)), Get(target, "scenario_id").s, policy)
  }

  lemma OutcomeIgnoresUse(f: Fields, policy: string, use: Json)
    ensures ReadOutcome(f["resource_use" := use], policy) == ReadOutcome(f, policy)
  {
    var g := f["resource_use" := use];
    assert Get(g, "status") == Get(f, "status") && Get(g, "reason_code") == Get(f, "reason_code");
    assert Get(g, "safe") == Get(f, "safe") && Get(g, "comparison_result") == Get(f, "comparison_result");
    assert Get(g, "arms") == Get(f, "arms") && Get(g, "pairs") == Get(f, "pairs");
  }

  /** The record is parsed, with the ledger's own report, exactly as the run left it. */
  lemma ExecutionParses(f: Fields, l: Ledger, runId: string, manifestSha256: string, scenarioId: string, policy: string)
    requires ExecutionRecord(f, runId, manifestSha256, scenarioId, policy) && WithinLimits(l)
    ensures var parsed := ParseExecution(f["resource_use" := ReportJson(Report(l))]);
            && parsed.Ok? && parsed.value.runId == runId && parsed.value.manifestSha256 == manifestSha256
            && parsed.value.scenarioId == scenarioId && parsed.value.policy == policy
            && parsed.value.resourceUse == Report(l) && parsed.value.result == ReadOutcome(f, policy).value.0
  {
    hide ReadOutcome, ReportJson, ReadReport, WithinLimits;
    var g := f["resource_use" := ReportJson(Report(l))];
    OutcomeIgnoresUse(f, policy, ReportJson(Report(l)));
    ReportRoundTrip(l);
    assert g.Keys == f.Keys + {"resource_use"};
    assert Get(g, "policy") == Get(f, "policy") && Get(g, "schema_version") == Get(f, "schema_version");
    assert Get(g, "event_count") == Get(f, "event_count") && Get(g, "run_id") == Get(f, "run_id");
    assert Get(g, "manifest_sha256") == Get(f, "manifest_sha256") && Get(g, "scenario_id") == Get(f, "scenario_id");
    assert Get(g, "episode_id") == Get(f, "episode_id");
  }

  /** Every document is read back from its own bytes. */
  ghost predicate DocumentsReadBack(t: Tools, runId: string, l: Ledger, x: Draft, n: nat, manifest: Fields, target: Fields) {
    var files := FilesAt(t, l, x, n);
    && ReadsBack(t, Obj(manifest)) && ReadsBack(t, Obj(target)) && ReadsBack(t, Obj(WithUse(x, UseAt(l, n))))
    && ReadsBack(t, InventoryToJson(runId, EntriesOf(t, files), BundleHash(t, EntriesOf(t, files))))
  }

  /** The finished bundle holds the run's documents under their own names. */
  lemma FinishedHoldsDocuments(t: Tools, l: Ledger, x: Draft, n: nat, order: seq<string>, inventory: Content)
    requires Ordering(order, FilesAt(t, l, x, n)) && Finished(FilesAt(t, l, x, n), order, inventory).Ok?
    requires forall name | name in FilesAt(t, l, x, n) :: Findable(name)
    requires MANIFEST in x.others && TARGET in x.others
    ensures var d := Finished(FilesAt(t, l, x, n), order, inventory).value;
            && [MANIFEST] in d && d[[MANIFEST]] == x.others[MANIFEST]
            && [TARGET] in d && d[[TARGET]] == x.others[TARGET]
            && [EXECUTION] in d && d[[EXECUTION]] == JsonBytes(Obj(WithUse(x, UseAt(l, n))), t.repr)
  {
    hide Parts, Staged, Obstructed, JsonBytes, UseAt, IsCanonical;
    var files := FilesAt(t, l, x, n);
    FindableIsCanonical(files, order);
    StagedHolds(files, order);
    PlainDocumentNames();
    assert MANIFEST in order && TARGET in order && EXECUTION in order;
    assert Last([INVENTORY]) == INVENTORY && Last([MANIFEST]) == MANIFEST && Last([TARGET]) == TARGET && Last([EXECUTION]) == EXECUTION;
  }

  lemma PlainDocumentNames()
    ensures Parts(MANIFEST) == [MANIFEST] && Parts(TARGET) == [TARGET] && Parts(EXECUTION) == [EXECUTION]
    ensures MANIFEST != EXECUTION && TARGET != EXECUTION && MANIFEST != INVENTORY && TARGET != INVENTORY && EXECUTION != INVENTORY
  {
    hide Parts, AreComponents;
    NamedDocuments();
    assert MANIFEST[0] == 'm' && TARGET[0] == 't' && EXECUTION[0] == 'e' && INVENTORY[0] == 'i';
    assert AsPosix([MANIFEST]) == MANIFEST && AsPosix([TARGET]) == TARGET && AsPosix([EXECUTION]) == EXECUTION;
    PartsOfJoined([MANIFEST]);
    PartsOfJoined([TARGET]);
    PartsOfJoined([EXECUTION]);
  }

  lemma WithinAt(l: Ledger, n: nat)
    requires WithinLimits(l) && n <= l.approved.artifactBytes
    ensures WithinLimits(WithBytes(l, n))
  {
    WithinLimitsUnfolds(l);
    WithinLimitsUnfolds(WithBytes(l, n));
  }

  lemma DocumentsLoad(t: Tools, d: Directory, name: string, fields: Fields)
    requires [name] in d && d[[name]] == JsonBytes(Obj(fields), t.repr) && ReadsBack(t, Obj(fields))
    ensures Load(t, d, name) == Ok(fields)
  {
    hide JsonBytes;
  }

  /** The bundle's premises: the names can be found again, nothing obstructs a write, and the documents are the run's. */
  ghost predicate Bundles(t: Tools, runId: string, l: Ledger, x: Draft, order: seq<string>, n: nat) {
    && NamesValid(x) && MeasuredAt(t, runId, l, x, n) == n
    && Ordering(order, FilesAt(t, l, x, n)) && (forall name | name in FilesAt(t, l, x, n) :: Findable(name))
    && FinishedBundle(t, runId, FilesAt(t, l, x, n), order).Some?
  }

  function BundleAt(t: Tools, runId: string, l: Ledger, x: Draft, order: seq<string>, n: nat): Directory
    requires forall name <- order :: name in FilesAt(t, l, x, n)
    requires FinishedBundle(t, runId, FilesAt(t, l, x, n), order).Some?
  {
    FinishedBundle(t, runId, FilesAt(t, l, x, n), order).value
  }

  /** The writer's summary of the bundle: its size is the size it records. */
  function SummaryAt(t: Tools, runId: string, l: Ledger, x: Draft, n: nat): Result<BundleVerification, BundleError> {
    hide Prepared;
    var m :- Prepared(t, runId, FilesAt(t, l, x, n));
    Ok(Summary(t, runId, m))
  }

  lemma SettledVerifies(t: Tools, runId: string, l: Ledger, x: Draft, order: seq<string>, n: nat)
    requires Bundles(t, runId, l, x, order, n)
    requires ReadsBack(t, InventoryToJson(runId, EntriesOf(t, FilesAt(t, l, x, n)), BundleHash(t, EntriesOf(t, FilesAt(t, l, x, n)))))
    ensures SummaryAt(t, runId, l, x, n).Ok? && SummaryAt(t, runId, l, x, n).value.totalBytes == n
    ensures SummaryAt(t, runId, l, x, n).value.runId == runId
    ensures Verified(t, BundleAt(t, runId, l, x, order, n)) == SummaryAt(t, runId, l, x, n)
  {
    hide FilesAt, MeasuredAt, Prepared, Finished, Verified, NamesValid, Findable, EntriesOf, BundleHash, InventoryToJson, ReadsBack;
    BuiltIsPrepared(t, runId, l, x, n);
    var files := FilesAt(t, l, x, n);
    WrittenVerifies(t, runId, files, order);
  }

  lemma SettledLoads(t: Tools, runId: string, l: Ledger, x: Draft, order: seq<string>, n: nat, manifest: Fields, target: Fields,
                     policy: string)
    requires Bundles(t, runId, l, x, order, n) && RecordsRun(t, runId, l, x, manifest, target, policy)
    requires DocumentsReadBack(t, runId, l, x, n, manifest, target)
    ensures Load(t, BundleAt(t, runId, l, x, order, n), MANIFEST) == Ok(manifest)
    ensures Load(t, BundleAt(t, runId, l, x, order, n), TARGET) == Ok(target)
    ensures Load(t, BundleAt(t, runId, l, x, order, n), EXECUTION) == Ok(WithUse(x, UseAt(l, n)))
  {
    hide FilesAt, MeasuredAt, Prepared, Finished, NamesValid, Findable, EntriesOf, BundleHash, InventoryToJson, LimitsToJson, Load,
         ReadsBack, ExecutionRecord, UseAt, CanonicalSha256, MANIFEST_FIELDS, WithUse;
    var files := FilesAt(t, l, x, n);
    var d := BundleAt(t, runId, l, x, order, n);
    var m := Prepared(t, runId, files).value;
    assert Some(d) == Some(Finished(files, order, m.inventory).value);
    FinishedHoldsDocuments(t, l, x, n, order, m.inventory);
    DocumentsLoad(t, d, MANIFEST, manifest);
    DocumentsLoad(t, d, TARGET, target);
    DocumentsLoad(t, d, EXECUTION, WithUse(x, UseAt(l, n)));
  }

  /**
   The bundle of a run, at the size it records of itself: the verifier accepts it with the writer's own
   summary, and the inspector passes it with the ledger's own report, size check included.
   */
  lemma SettledEvidencePasses(t: Tools, runId: string, l: Ledger, x: Draft, order: seq<string>, manifest: Fields, target: Fields,
                              policy: string, n: nat)
    requires WithinLimits(l) && n <= l.approved.artifactBytes && Bundles(t, runId, l, x, order, n)
    requires RecordsRun(t, runId, l, x, manifest, target, policy) && DocumentsReadBack(t, runId, l, x, n, manifest, target)
    ensures SummaryAt(t, runId, l, x, n).Ok?
    ensures var d := BundleAt(t, runId, l, x, order, n);
            var v := SummaryAt(t, runId, l, x, n).value;
            && Verified(t, d) == Ok(v) && v.totalBytes == n
            && Inspected(t, d, v).Ok?
            && Inspected(t, d, v).value.resourceUse == Report(WithBytes(l, n)) && Inspected(t, d, v).value.runId == runId
            && Inspected(t, d, v).value.manifestSha256 == CanonicalSha256(t.sha, t.repr, Obj(manifest))
            && Load(t, d, EXECUTION).Ok? && ParseExecution(Load(t, d, EXECUTION).value).Ok?
  {
    hide FilesAt, MeasuredAt, SummaryAt, BundleAt, Verified, ParseExecution, ReadOutcome, UseAt, WithinLimits, NamesValid, Findable,
         CanonicalSha256, EntriesOf, BundleHash, InventoryToJson, LimitsToJson, Load, ReadsBack, Ordering, FinishedBundle, JsonBytes;
    SettledVerifies(t, runId, l, x, order, n);
    SettledLoads(t, runId, l, x, order, n, manifest, target, policy);
    WithinAt(l, n);
    ExecutionParses(x.execution, WithBytes(l, n), runId, CanonicalSha256(t.sha, t.repr, Obj(manifest)),
                    Get(target, "scenario_id").s, policy);
    UseIsReport(l, n);
  }

  lemma UseIsReport(l: Ledger, n: nat)
    ensures UseAt(l, n) == ReportJson(Report(WithBytes(l, n)))
  {
  }

  // ----- finishing and re-invoking -----

  datatype Recovery = Recovery(verification: BundleVerification, summary: EvidenceSummary, execution: ExecutionMaterial)

  /** `recover_existing_result`: nothing when the run has no bundle yet. */
  function Recovered(t: Tools, disk: Disk, runId: string, manifestSha256: string): Result<Option<Recovery>, BundleError> {
    hide Verified, Inspected, ParseExecution;
    if runId !in disk then Ok(None)
    else
      var v :- Verified(t, disk[runId]);
      var s :- Inspected(t, disk[runId], v);
      if s.runId != runId || s.manifestSha256 != manifestSha256 then Err(ForeignEvidence)
      else
        var raw :- Load(t, disk[runId], EXECUTION);
        var execution :- ParseExecution(raw);
        Ok(Some(Recovery(v, s, execution)))
  }

  /** The tail of a run: prepare, and write under the approved size limit. */
  function Concluded(t: Tools, disk: Disk, runId: string, l: Ledger, x: Draft, order: seq<string>, n: nat)
    : Result<BundleVerification, BundleError>
    requires forall name <- order :: name in FilesAt(t, l, x, n)
  {
    CreateOutcome(t, disk, runId, FilesAt(t, l, x, n), order, l.approved.artifactBytes)
  }

  /**
   What a run that has no bundle yet leaves: the writer never refuses the size, and in every state of the
   write, whether a crash stops there or not, invoking the run again either finds no bundle under its
   name, or recovers exactly the verification the writer returns, without writing.
   */
  lemma ReinvocationRecovers(t: Tools, before: Disk, now: Disk, staging: string, runId: string, l: Ledger, x: Draft,
                             order: seq<string>, manifest: Fields, target: Fields, policy: string, n: nat)
    requires WithinLimits(l) && n <= l.approved.artifactBytes && Bundles(t, runId, l, x, order, n)
    requires RecordsRun(t, runId, l, x, manifest, target, policy) && DocumentsReadBack(t, runId, l, x, n, manifest, target)
    requires runId !in before && staging != runId
    requires CrashSafe(before, now, runId, staging, FinishedBundle(t, runId, FilesAt(t, l, x, n), order))
    ensures Concluded(t, before, runId, l, x, order, n) == SummaryAt(t, runId, l, x, n)
    ensures SummaryAt(t, runId, l, x, n).Ok?
    ensures var again := Recovered(t, now, runId, CanonicalSha256(t.sha, t.repr, Obj(manifest)));
            && again.Ok?
            && (runId in now <==> again.value.Some?)
            && (runId in now ==> again.value.value.verification == SummaryAt(t, runId, l, x, n).value)
  {
    hide FilesAt, MeasuredAt, SummaryAt, Verified, Inspected, ParseExecution, UseAt, WithinLimits, NamesValid, Findable,
         CanonicalSha256, Load, RecordsRun, DocumentsReadBack;
    SettledEvidencePasses(t, runId, l, x, order, manifest, target, policy, n);
    ConcludedIsSummary(t, before, runId, l, x, order, n);
    if runId in now {
      assert now[runId] == BundleAt(t, runId, l, x, order, n) by {
        assert runId in now - {staging};
      }
    }
  }

  lemma ConcludedIsSummary(t: Tools, disk: Disk, runId: string, l: Ledger, x: Draft, order: seq<string>, n: nat)
    requires Bundles(t, runId, l, x, order, n) && runId !in disk && n <= l.approved.artifactBytes
    ensures Concluded(t, disk, runId, l, x, order, n) == SummaryAt(t, runId, l, x, n)
  {
    hide FilesAt, Prepared, Finished, NamesValid, Findable;
    BuiltIsPrepared(t, runId, l, x, n);
  }

  /** What an execution hands to the writer: its ledger, and its evidence up to the resource report. */
  datatype Produced = Produced(ledger: Ledger, draft: Draft)

  datatype FinalizeError<+E> = Unexecuted(failure: E) | Unprepared(evidence: EvidenceError) | Unfinished(bundle: BundleError)

  datatype Finalized = Finalized(verification: BundleVerification, reused: bool)

  /** What the writer is handed satisfies its premises. */
  ghost predicate Writable(t: Tools, y: Produced, order: seq<string>) {
    && y.ledger.consumed.artifactBytes == 0 && ShapesDigests(t) && NamesValid(y.draft)
    && forall name <- order :: name in y.draft.others || name == EXECUTION
  }

  /**
   `_execute_run`, given what its execution produces or raises: recover, or execute, prepare and write.
   A recovered run, a failed execution and an exhausted budget write nothing.
   */
  method FinalizeRun<E>(root: ArtifactRoot, t: Tools, runId: string, manifestSha256: string, executed: Result<Produced, E>,
                        order: seq<string>, staging: string) returns (outcome: Result<Finalized, FinalizeError<E>>)
    requires root.Valid() && staging != runId && staging !in root.bundles
    requires executed.Ok? ==> Writable(t, executed.value, order)
    modifies root
    ensures root.Valid() && old(root.trail) <= root.trail
    ensures runId in old(root.bundles) ==>
              && root.trail == old(root.trail) && root.bundles == old(root.bundles)
              && match Recovered(t, old(root.bundles), runId, manifestSha256)
                 case Err(error) => outcome == Err(Unfinished(error))
                 case Ok(recovery) => recovery.Some? && outcome == Ok(Finalized(recovery.value.verification, true))
    ensures runId !in old(root.bundles) && executed.Err? ==>
              && root.trail == old(root.trail) && root.bundles == old(root.bundles)
              && outcome == Err(Unexecuted(executed.error))
    ensures executed.Ok? ==>
              var ledger, x := executed.value.ledger, executed.value.draft;
              var n := Settled(t, runId, ledger, x);
              && NamesCovered(t, ledger, x, order, n)
              && (runId !in old(root.bundles) && n > ledger.approved.artifactBytes ==>
                    root.bundles == old(root.bundles) && outcome.Err? && outcome.error.Unprepared? && outcome.error.evidence.BudgetRefused?)
              && (runId !in old(root.bundles) && n <= ledger.approved.artifactBytes ==>
                    && (forall i | |old(root.trail)| <= i < |root.trail| ::
                          CrashSafe(old(root.bundles), root.trail[i], runId, staging,
                                    FinishedBundle(t, runId, FilesAt(t, ledger, x, n), order)))
                    && match Concluded(t, old(root.bundles), runId, ledger, x, order, n)
                       case Ok(v) => outcome == Ok(Finalized(v, false))
                       case Err(error) => outcome == Err(Unfinished(error)))
  {
    hide MeasuredAt, Settled, Verified, Inspected, ParseExecution, UseAt, NamesValid, ShapesDigests, CreateOutcome, FinishedBundle,
         CrashSafe;
    if executed.Ok? {
      CoversAt(t, executed.value.ledger, executed.value.draft, order,
               Settled(t, runId, executed.value.ledger, executed.value.draft));
    }
    var recovered := Recovered(t, root.bundles, runId, manifestSha256);
    if recovered.Err? {
      return Err(Unfinished(recovered.error));
    }
    if recovered.value.Some? {
      return Ok(Finalized(recovered.value.value.verification, true));
    }
    if executed.Err? {
      return Err(Unexecuted(executed.error));
    }
    var ledger, x := executed.value.ledger, executed.value.draft;
    var prepared := PrepareBudgetedEvidence(t, runId, ledger, x);
    if prepared.Err? {
      return Err(Unprepared(prepared.error));
    }
    var created := root.Create(t, runId, prepared.value.files, order, ledger.approved.artifactBytes, staging);
    if created.Err? {
      return Err(Unfinished(created.error));
    }
    return Ok(Finalized(created.value, false));
  }

  predicate NamesCovered(t: Tools, l: Ledger, x: Draft, order: seq<string>, n: nat) {
    forall name <- order :: name in FilesAt(t, l, x, n)
  }

  lemma CoversAt(t: Tools, l: Ledger, x: Draft, order: seq<string>, n: nat)
    requires forall name <- order :: name in x.others || name == EXECUTION
    ensures NamesCovered(t, l, x, order, n)
  {
    hide UseAt, JsonBytes;
  }
}
