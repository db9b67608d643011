/** Inspecting and comparing verified bundles (evidence.py). */
module Evidence {
  import opened Basics
  import opened Json
  import opened Text
  import opened Bytes
  import opened Paths
  import opened Artifacts
  import Budget

  // ----- inspection -----

  const MANIFEST_FIELDS: set<string> :=
    {"schema_version", "run_id", "profile", "scenario_path", "scenario_sha256", "seed", "adapter", "decision_provider",
     "policy", "capabilities", "limits"}
  const COMMON_FIELDS: set<string> :=
    {"schema_version", "run_id", "scenario_id", "manifest_sha256", "episode_id", "policy", "status", "initial_state_hash",
     "event_count", "resource_use"}

  datatype EvidenceResult = EvidenceResult(status: string, kind: string, value: string, reasonCode: Option<string>)

  datatype ExecutionMaterial = ExecutionMaterial(runId: string, manifestSha256: string, scenarioId: string, episodeId: string,
                                                 policy: string, result: EvidenceResult, resourceUse: Budget.ResourceUse,
                                                 eventCount: nat, details: Json)

  function ReadStr(f: Fields, name: string): Result<string, BundleError> {
    match Get(f, name) case Str(s) => Ok(s) case _ => Err(BadEvidence)
  }

  /** The experimental result and its detail, by policy, with the fields the execution record must then have. */
  function ReadOutcome(f: Fields, policy: string): Result<(EvidenceResult, Json, set<string>), BundleError> {
    var status :- ReadStr(f, "status");
    match policy
    case "pure-read" =>
      var reason :- ReadStr(f, "reason_code");
      if !Get(f, "safe").Bool? then Err(BadEvidence)
      else Ok((EvidenceResult(status, "decision", if f["safe"].b then "safe" else "unsafe", Some(reason)), Null,
               COMMON_FIELDS + {"safe", "reason_code", "final_state_hash"}))
    case "craf-reference" =>
      var comparison :- ReadStr(f, "comparison_result");
      if !Get(f, "arms").Arr? then Err(BadEvidence)
      else Ok((EvidenceResult(status, "comparison", comparison, None), f["arms"], COMMON_FIELDS + {"comparison_result", "arms"}))
    case "risi-c-reference" =>
      var comparison :- ReadStr(f, "comparison_result");
      if !Get(f, "pairs").Arr? then Err(BadEvidence)
      else Ok((EvidenceResult(status, "comparison", comparison, None), f["pairs"], COMMON_FIELDS + {"comparison_result", "pairs"}))
    case _ => Err(BadEvidence)
  }

  function ReadUse(v: Json): Result<Budget.ResourceUse, BundleError> {
    match Budget.ReadReport(v) case Ok(u) => Ok(u) case Err(_) => Err(BadEvidence)
  }

  /** `_parse_execution` */
  function ParseExecution(f: Fields): Result<ExecutionMaterial, BundleError> {
    var policy :- ReadStr(f, "policy");
    var outcome :- ReadOutcome(f, policy);
    if f.Keys != outcome.2 || !PyEq(Get(f, "schema_version"), Int(1)) || outcome.0.status != "succeeded" then Err(BadEvidence)
    else
      var use :- ReadUse(Get(f, "resource_use"));
      if !Get(f, "event_count").Int? || f["event_count"].n < 0 then Err(BadEvidence)
      else
        var runId :- ReadStr(f, "run_id");
        var manifest :- ReadStr(f, "manifest_sha256");
        var scenario :- ReadStr(f, "scenario_id");
        var episode :- ReadStr(f, "episode_id");
        Ok(ExecutionMaterial(runId, manifest, scenario, episode, policy, outcome.0, use, f["event_count"].n, outcome.1))
  }

  /** `load_json_artifact` for one of the bundle's own names. */
  function Load(t: Tools, d: Directory, name: string): Result<Fields, BundleError> {
    if [name] !in d then Err(BadArtifact)
    else match t.loads(d[[name]]) case Some(Obj(fields)) => Ok(fields) case _ => Err(BadArtifact)
  }

  function LimitsToJson(a: Budget.Amounts): Json {
    Obj(map["episodes" := Int(a.episodes), "retrieval_calls" := Int(a.retrievalCalls), "logical_steps" := Int(a.logicalSteps),
            "input_bytes" := Int(a.inputBytes), "memory_records" := Int(a.memoryRecords), "artifact_bytes" := Int(a.artifactBytes)])
  }

  datatype EvidenceSummary = EvidenceSummary(runId: string, manifestSha256: string, scenario: string, policy: string,
                                             result: EvidenceResult, resourceUse: Budget.ResourceUse,
                                             inventorySha256: string, bundleHash: string, paths: seq<string>)

  /** The checks across the three documents and the verification. */
  function Anchored(t: Tools, v: BundleVerification, manifest: Fields, execution: ExecutionMaterial, target: Fields)
    : Result<EvidenceSummary, BundleError>
  {
    var digest := CanonicalSha256(t.sha, t.repr, Obj(manifest));
    var scenario :- ReadStr(target, "scenario_id");
    if Get(manifest, "limits") != LimitsToJson(execution.resourceUse.approved) then Err(BadEvidence)
    else if execution.resourceUse.consumed.artifactBytes != v.totalBytes then Err(BadEvidence)
    else if Get(manifest, "run_id") != Str(v.runId) || execution.runId != v.runId then Err(BadEvidence)
    else if execution.manifestSha256 != digest || Get(manifest, "policy") != Str(execution.policy) then Err(BadEvidence)
    else if scenario != execution.scenarioId then Err(BadEvidence)
    else Ok(EvidenceSummary(v.runId, digest, scenario, execution.policy, execution.result, execution.resourceUse,
                            v.inventorySha256, v.bundleHash, SortedStrings(PathsOf(v.entries))))
  }

  /** `_inspect_verified` */
  function Inspected(t: Tools, d: Directory, v: BundleVerification): Result<EvidenceSummary, BundleError> {
    var manifest :- Load(t, d, "manifest.json");
    var raw :- Load(t, d, "execution.json");
    var target :- Load(t, d, "target-scenario.json");
    if manifest.Keys != MANIFEST_FIELDS || !PyEq(Get(manifest, "schema_version"), Int(1)) then Err(BadEvidence)
    else
      var execution :- ParseExecution(raw);
      Anchored(t, v, manifest, execution, target)
  }

  // ----- what inspection establishes -----

  /** The record's outcome, and the fields it must have, by policy. */
  predicate RecordsOutcome(raw: Fields, result: EvidenceResult) {
    && Get(raw, "status") == Str("succeeded") && result.status == "succeeded"
    && match Get(raw, "policy")
       case Str("pure-read") =>
         && raw.Keys == COMMON_FIELDS + {"safe", "reason_code", "final_state_hash"} && result.kind == "decision"
         && raw["safe"] in {Bool(true), Bool(false)} && result.value == (if raw["safe"] == Bool(true) then "safe" else "unsafe")
         && raw["reason_code"].Str? && result.reasonCode == Some(raw["reason_code"].s)
       case Str("craf-reference") =>
         && raw.Keys == COMMON_FIELDS + {"comparison_result", "arms"} && result.kind == "comparison" && result.reasonCode == None
         && raw["comparison_result"] == Str(result.value) && raw["arms"].Arr?
       case Str("risi-c-reference") =>
         && raw.Keys == COMMON_FIELDS + {"comparison_result", "pairs"} && result.kind == "comparison" && result.reasonCode == None
         && raw["comparison_result"] == Str(result.value) && raw["pairs"].Arr?
       case _ => false
  }

  /** The record's own fields are of their kinds, and its resource use is the summary's. */
  predicate RecordsUse(raw: Fields, use: Budget.ResourceUse) {
    hide PyEq;
    && PyEq(Get(raw, "schema_version"), Int(1)) && Get(raw, "event_count").Int? && Get(raw, "event_count").n >= 0
    && Get(raw, "episode_id").Str? && Budget.ReadReport(Get(raw, "resource_use")) == Ok(use)
  }

  /** The manifest, the execution record, the target and the verified bundle tell of one run. */
  predicate OneRun(t: Tools, v: BundleVerification, manifest: Fields, raw: Fields, target: Fields, s: EvidenceSummary) {
    hide PyEq, CanonicalSha256, LimitsToJson;
    && manifest.Keys == MANIFEST_FIELDS && PyEq(Get(manifest, "schema_version"), Int(1))
    && Get(manifest, "run_id") == Get(raw, "run_id") == Str(v.runId) && s.runId == v.runId
    && Get(manifest, "policy") == Get(raw, "policy") == Str(s.policy)
    && Get(target, "scenario_id") == Get(raw, "scenario_id") == Str(s.scenario)
    && Get(raw, "manifest_sha256") == Str(s.manifestSha256) && s.manifestSha256 == CanonicalSha256(t.sha, t.repr, Obj(manifest))
    && Get(manifest, "limits") == LimitsToJson(s.resourceUse.approved) && s.resourceUse.consumed.artifactBytes == v.totalBytes
    && s.inventorySha256 == v.inventorySha256 && s.bundleHash == v.bundleHash && s.paths == SortedStrings(PathsOf(v.entries))
  }

  lemma OutcomeIff(raw: Fields, result: EvidenceResult)
    ensures RecordsOutcome(raw, result) <==>
            && Get(raw, "policy").Str? && ReadOutcome(raw, Get(raw, "policy").s).Ok?
            && ReadOutcome(raw, Get(raw, "policy").s).value.0 == result && ReadOutcome(raw, Get(raw, "policy").s).value.2 == raw.Keys
            && result.status == "succeeded"
  {
  }

  lemma ParseIff(raw: Fields, result: EvidenceResult, use: Budget.ResourceUse)
    ensures var parsed := ParseExecution(raw);
            && (parsed.Ok? && parsed.value.result == result && parsed.value.resourceUse == use <==>
                  && RecordsOutcome(raw, result) && RecordsUse(raw, use)
                  && Get(raw, "run_id").Str? && Get(raw, "manifest_sha256").Str? && Get(raw, "scenario_id").Str?)
            && (parsed.Ok? ==>
                  && Get(raw, "run_id") == Str(parsed.value.runId) && Get(raw, "manifest_sha256") == Str(parsed.value.manifestSha256)
                  && Get(raw, "scenario_id") == Str(parsed.value.scenarioId) && Get(raw, "policy") == Str(parsed.value.policy))
  {
    hide PyEq, Budget.ReadReport, RecordsOutcome, ReadOutcome;
    OutcomeIff(raw, result);
  }

  /**
   Whatever the directory's three documents hold, inspection gives a summary exactly when each is a document
   of its kind and together with the verified bundle they tell of one run: its identifier, its policy, its
   scenario, the manifest's digest and limits, and the bundle's size are the same wherever they are recorded.
   */
  lemma InspectedIff(t: Tools, d: Directory, v: BundleVerification, s: EvidenceSummary)
    ensures var manifest, raw, target := Load(t, d, "manifest.json"), Load(t, d, "execution.json"), Load(t, d, "target-scenario.json");
            Inspected(t, d, v) == Ok(s) <==>
            && manifest.Ok? && raw.Ok? && target.Ok? && RecordsOutcome(raw.value, s.result) && RecordsUse(raw.value, s.resourceUse)
            && OneRun(t, v, manifest.value, raw.value, target.value, s)
  {
    hide Load, PyEq, CanonicalSha256, LimitsToJson, ParseExecution, RecordsOutcome, RecordsUse, SortedStrings, PathsOf;
    var raw := Load(t, d, "execution.json");
    if raw.Ok? {
      ParseIff(raw.value, s.result, s.resourceUse);
      if ParseExecution(raw.value).Ok? {
        ParseIff(raw.value, ParseExecution(raw.value).value.result, ParseExecution(raw.value).value.resourceUse);
      }
    }
  }

  // ----- comparison -----

  datatype Scope = EVIDENCE_PATH | SEMANTIC_ANCHOR
  datatype Kind = DIFFERENT | MISSING_FROM_A | MISSING_FROM_B
  datatype Difference = Difference(scope: Scope, path: string, kind: Kind)

  type ByPath = map<string, InventoryEntry>

  /** `{entry.path: entry for entry in entries}` */
  function PathMap(entries: seq<InventoryEntry>): ByPath {
    if entries == [] then map[] else PathMap(Front(entries))[Last(entries).path := Last(entries)]
  }

  function PathKind(a: ByPath, b: ByPath, path: string): Option<Kind> {
    if path !in a then Some(MISSING_FROM_A)
    else if path !in b then Some(MISSING_FROM_B)
    else if a[path] != b[path] then Some(DIFFERENT)
    else None
  }

  /** The loop over the sorted paths, over a prefix of them. */
  function PathDifferences(a: ByPath, b: ByPath, paths: seq<string>): seq<Difference> {
    if paths == [] then []
    else
      PathDifferences(a, b, Front(paths))
      + match PathKind(a, b, Last(paths)) case None => [] case Some(kind) => [Difference(EVIDENCE_PATH, Last(paths), kind)]
  }

  function ResultToJson(r: EvidenceResult): Json {
    Obj(map["status" := Str(r.status), "kind" := Str(r.kind), "value" := Str(r.value),
            "reason_code" := if r.reasonCode.None? then Null else Str(r.reasonCode.value)])
  }

  /** `_semantic_anchors` */
  function Anchors(s: EvidenceSummary): seq<(string, Json)> {
    [("/run_id", Str(s.runId)), ("/manifest_sha256", Str(s.manifestSha256)), ("/scenario", Str(s.scenario)),
     ("/policy", Str(s.policy)), ("/result", ResultToJson(s.result)),
     ("/resource_use", Budget.ReportJson(s.resourceUse)), ("/inventory_sha256", Str(s.inventorySha256)),
     ("/bundle_hash", Str(s.bundleHash))]
  }

  /** `dict(anchors)[path]` */
  function AnchorAt(anchors: seq<(string, Json)>, path: string): Option<Json> {
    if anchors == [] then None
    else if Last(anchors).0 == path then Some(Last(anchors).1)
    else AnchorAt(Front(anchors), path)
  }

  predicate AnchorDiffers(others: seq<(string, Json)>, anchor: (string, Json)) {
    match AnchorAt(others, anchor.0) case Some(value) => !PyEq(anchor.1, value) case None => true
  }

  function AnchorDifferences(anchors: seq<(string, Json)>, others: seq<(string, Json)>): seq<Difference> {
    if anchors == [] then []
    else
      AnchorDifferences(Front(anchors), others)
      + if AnchorDiffers(others, Last(anchors)) then [Difference(SEMANTIC_ANCHOR, Last(anchors).0, DIFFERENT)] else []
  }

  /** The sort key: evidence paths first, then by path. */
  predicate Precedes(x: Difference, y: Difference) {
    if x.scope != y.scope then x.scope == EVIDENCE_PATH else StrLess(x.path, y.path)
  }

  function Placed(x: Difference, ys: seq<Difference>): seq<Difference> {
    if ys == [] || Precedes(x, ys[0]) then [x] + ys else [ys[0]] + Placed(x, ys[1..])
  }

  function InOrder(xs: seq<Difference>): seq<Difference> {
    if xs == [] then [] else Placed(Last(xs), InOrder(Front(xs)))
  }

  datatype BundleComparison = BundleComparison(equal: bool, a: EvidenceSummary, b: EvidenceSummary, differences: seq<Difference>)

  function AllDifferences(va: BundleVerification, vb: BundleVerification, a: EvidenceSummary, b: EvidenceSummary): seq<Difference> {
    InOrder(PathDifferences(PathMap(va.entries), PathMap(vb.entries), SortedStrings(PathMap(va.entries).Keys + PathMap(vb.entries).Keys))
            + AnchorDifferences(Anchors(a), Anchors(b)))
  }

  predicate ExactlyEqual(va: BundleVerification, vb: BundleVerification) {
    va.inventorySha256 == vb.inventorySha256 && va.bundleHash == vb.bundleHash
  }

  /** `compare_bundles` */
  function Compared(t: Tools, d: Directory, e: Directory): Result<BundleComparison, BundleError> {
    var va :- Verified(t, d);
    var vb :- Verified(t, e);
    var a :- Inspected(t, d, va);
    var b :- Inspected(t, e, vb);
    var differences := AllDifferences(va, vb, a, b);
    if ExactlyEqual(va, vb) && differences != [] then Err(InconsistentComparison)
    else Ok(BundleComparison(ExactlyEqual(va, vb), a, b, differences))
  }

  method EntryDifferences(xs: seq<InventoryEntry>, ys: seq<InventoryEntry>) returns (differences: seq<Difference>)
    ensures differences == PathDifferences(PathMap(xs), PathMap(ys), SortedStrings(PathMap(xs).Keys + PathMap(ys).Keys))
  {
    hide PathMap, SortedStrings;
    var a, b := PathMap(xs), PathMap(ys);
    var paths := SortedStrings(a.Keys + b.Keys);
    differences := [];
    for i := 0 to |paths|
      invariant differences == PathDifferences(a, b, paths[..i])
    {
      assert Front(paths[..i + 1]) == paths[..i] && Last(paths[..i + 1]) == paths[i];
      var kind := PathKind(a, b, paths[i]);
      if kind.Some? {
        differences := differences + [Difference(EVIDENCE_PATH, paths[i], kind.value)];
      }
    }
    assert paths[..|paths|] == paths;
  }

  method CompareBundles(t: Tools, d: Directory, e: Directory) returns (comparison: Result<BundleComparison, BundleError>)
    ensures comparison == Compared(t, d, e)
  {
    hide Verified, Inspected, Anchors, AnchorDiffers, InOrder, PathMap, SortedStrings, PathDifferences;
    var va :- VerifyBundle(t, d);
    var vb :- VerifyBundle(t, e);
    var a :- Inspected(t, d, va);
    var b :- Inspected(t, e, vb);
    var paths := EntryDifferences(va.entries, vb.entries);
    var anchors, others := Anchors(a), Anchors(b);
    var found: seq<Difference> := [];
    for i := 0 to |anchors|
      invariant found == AnchorDifferences(anchors[..i], others)
    {
      assert Front(anchors[..i + 1]) == anchors[..i] && Last(anchors[..i + 1]) == anchors[i];
      if AnchorDiffers(others, anchors[i]) {
        found := found + [Difference(SEMANTIC_ANCHOR, anchors[i].0, DIFFERENT)];
      }
    }
    assert anchors[..|anchors|] == anchors;
    var differences := InOrder(paths + found);
    var exact := ExactlyEqual(va, vb);
    if exact && differences != [] {
      return Err(InconsistentComparison);
    }
    return Ok(BundleComparison(exact, a, b, differences));
  }

  // ----- the list of differences -----

  predicate Sorted(xs: seq<Difference>) {
    forall i, j | 0 <= i < j < |xs| :: Precedes(xs[i], xs[j])
  }

  /** No two records have the same scope and path. */
  predicate OneEach(xs: seq<Difference>) {
    forall i, j | 0 <= i < j < |xs| :: xs[i].scope != xs[j].scope || xs[i].path != xs[j].path
  }

  lemma PrecedesTransitive(x: Difference, y: Difference, z: Difference)
    requires Precedes(x, y) && Precedes(y, z)
    ensures Precedes(x, z)
  {
    if x.scope == y.scope == z.scope {
      StrLessTransitive(x.path, y.path, z.path);
    }
  }

  lemma PrecedesTotal(x: Difference, y: Difference)
    requires x.scope != y.scope || x.path != y.path
    ensures Precedes(x, y) || Precedes(y, x)
  {
    StrLessTrichotomy(x.path, y.path);
  }

  lemma {:induction false} PlacedKeeps(x: Difference, ys: seq<Difference>)
    requires Sorted(ys) && forall y <- ys :: x.scope != y.scope || x.path != y.path
    ensures Sorted(Placed(x, ys))
    ensures forall z :: z in Placed(x, ys) <==> z == x || z in ys
  {
    hide Precedes;
    if ys == [] {
    } else if Precedes(x, ys[0]) {
      forall j | 0 < j < |ys| ensures Precedes(x, ys[j]) { PrecedesTransitive(x, ys[0], ys[j]); }
      SortedCons(x, ys);
    } else {
      assert forall y <- ys[1..] :: y in ys;
      PlacedKeeps(x, ys[1..]);
      assert ys[0] in ys;
      PrecedesTotal(x, ys[0]);
      forall z | z in Placed(x, ys[1..]) ensures Precedes(ys[0], z) {
        if z != x {
          var j :| 0 <= j < |ys[1..]| && ys[1..][j] == z;
          assert ys[j + 1] == z;
        }
      }
      SortedConsAll(ys[0], Placed(x, ys[1..]));
      assert ys == [ys[0]] + ys[1..];
    }
  }

  lemma SortedCons(x: Difference, ys: seq<Difference>)
    requires Sorted(ys) && forall j | 0 <= j < |ys| :: Precedes(x, ys[j])
    ensures Sorted([x] + ys)
  {
    hide Precedes;
  }

  lemma SortedConsAll(x: Difference, ys: seq<Difference>)
    requires Sorted(ys) && forall y <- ys :: Precedes(x, y)
    ensures Sorted([x] + ys)
  {
    hide Precedes;
    forall j | 0 <= j < |ys| ensures Precedes(x, ys[j]) { assert ys[j] in ys; }
    SortedCons(x, ys);
  }

  lemma {:induction false} InOrderSorts(xs: seq<Difference>)
    requires OneEach(xs)
    ensures Sorted(InOrder(xs)) && forall z :: z in InOrder(xs) <==> z in xs
  {
    hide Precedes;
    if xs != [] {
      InOrderSorts(Front(xs));
      forall y | y in InOrder(Front(xs)) ensures Last(xs).scope != y.scope || Last(xs).path != y.path {
        assert y in Front(xs);
        var i :| 0 <= i < |xs| - 1 && xs[i] == y;
      }
      PlacedKeeps(Last(xs), InOrder(Front(xs)));
      assert xs == Front(xs) + [Last(xs)];
    }
  }

  lemma {:induction false} PathDifferencesExact(a: ByPath, b: ByPath, paths: seq<string>)
    requires Distinct(paths)
    ensures OneEach(PathDifferences(a, b, paths))
    ensures forall x :: x in PathDifferences(a, b, paths) <==>
                        x.scope == EVIDENCE_PATH && x.path in paths && PathKind(a, b, x.path) == Some(x.kind)
  {
    hide PathKind;
    if paths != [] {
      PathDifferencesExact(a, b, Front(paths));
      assert Last(paths) !in Front(paths);
      assert paths == Front(paths) + [Last(paths)];
      forall i | 0 <= i < |PathDifferences(a, b, Front(paths))|
        ensures PathDifferences(a, b, Front(paths))[i].path in Front(paths)
      {
        assert PathDifferences(a, b, Front(paths))[i] in PathDifferences(a, b, Front(paths));
      }
    }
  }

  /** The anchors' paths are distinct. */
  predicate DistinctAnchors(anchors: seq<(string, Json)>) {
    forall i, j | 0 <= i < j < |anchors| :: anchors[i].0 != anchors[j].0
  }

  lemma {:induction false} AnchorDifferencesExact(anchors: seq<(string, Json)>, others: seq<(string, Json)>)
    requires DistinctAnchors(anchors)
    ensures OneEach(AnchorDifferences(anchors, others))
    ensures forall x :: x in AnchorDifferences(anchors, others) <==>
                        x.scope == SEMANTIC_ANCHOR && x.kind == DIFFERENT
                        && exists i :: 0 <= i < |anchors| && anchors[i].0 == x.path && AnchorDiffers(others, anchors[i])
  {
    hide AnchorDiffers;
    if anchors != [] {
      AnchorDifferencesExact(Front(anchors), others);
      var front := AnchorDifferences(Front(anchors), others);
      forall i | 0 <= i < |front| ensures front[i].path != Last(anchors).0 {
        assert front[i] in front;
      }
      forall x ensures x in AnchorDifferences(anchors, others) <==>
                       x.scope == SEMANTIC_ANCHOR && x.kind == DIFFERENT
                       && exists i :: 0 <= i < |anchors| && anchors[i].0 == x.path && AnchorDiffers(others, anchors[i])
      {
        ListedInFront(anchors, others, x.path);
      }
    }
  }

  lemma ListedInFront(anchors: seq<(string, Json)>, others: seq<(string, Json)>, path: string)
    requires anchors != []
    ensures (exists i :: 0 <= i < |anchors| && anchors[i].0 == path && AnchorDiffers(others, anchors[i])) <==>
            || (Last(anchors).0 == path && AnchorDiffers(others, Last(anchors)))
            || exists i :: 0 <= i < |Front(anchors)| && Front(anchors)[i].0 == path && AnchorDiffers(others, Front(anchors)[i])
  {
    hide AnchorDiffers;
    if i :| 0 <= i < |anchors| && anchors[i].0 == path && AnchorDiffers(others, anchors[i]) {
      if i < |anchors| - 1 {
        assert Front(anchors)[i].0 == path && AnchorDiffers(others, Front(anchors)[i]);
      }
    }
    if i :| 0 <= i < |Front(anchors)| && Front(anchors)[i].0 == path && AnchorDiffers(others, Front(anchors)[i]) {
      assert anchors[i].0 == path && AnchorDiffers(others, anchors[i]);
    }
  }

  lemma AnchorsAreDistinct(s: EvidenceSummary)
    ensures DistinctAnchors(Anchors(s))
  {
    hide ResultToJson;
    var xs := Anchors(s);
    assert xs[0].0[1] == 'r' && xs[1].0[1] == 'm' && xs[2].0[1] == 's' && xs[3].0[1] == 'p';
    assert xs[4].0[1] == 'r' && xs[5].0[1] == 'r' && xs[6].0[1] == 'i' && xs[7].0[1] == 'b';
    assert xs[0].0[2] == 'u' && xs[4].0[2] == 'e' && xs[5].0[2] == 'e';
    assert xs[4].0[4] == 'u' && xs[5].0[4] == 'o';
  }

  lemma BothParts(xs: seq<Difference>, ys: seq<Difference>)
    requires OneEach(xs) && OneEach(ys)
    requires (forall x <- xs :: x.scope == EVIDENCE_PATH) && (forall y <- ys :: y.scope == SEMANTIC_ANCHOR)
    ensures OneEach(xs + ys)
  {
    var all := xs + ys;
    forall i, j | 0 <= i < j < |all| ensures all[i].scope != all[j].scope || all[i].path != all[j].path {
      if i < |xs| <= j {
        assert all[i] in xs && all[j] in ys;
      }
    }
  }

  /** The record states a real difference between the two bundles. */
  ghost predicate IsDifference(va: BundleVerification, vb: BundleVerification, a: EvidenceSummary, b: EvidenceSummary, x: Difference) {
    match x.scope
    case EVIDENCE_PATH =>
      var ma, mb := PathMap(va.entries), PathMap(vb.entries);
      (x.path in ma || x.path in mb) && PathKind(ma, mb, x.path) == Some(x.kind)
    case SEMANTIC_ANCHOR =>
      x.kind == DIFFERENT
      && exists i :: 0 <= i < |Anchors(a)| && Anchors(a)[i].0 == x.path && AnchorDiffers(Anchors(b), Anchors(a)[i])
  }

  /**
   The reported list is sorted by scope, then path, with one record for each; and its records are
   exactly the differing paths and anchors.
   */
  lemma DifferencesAreExact(va: BundleVerification, vb: BundleVerification, a: EvidenceSummary, b: EvidenceSummary)
    ensures Sorted(AllDifferences(va, vb, a, b)) && OneEach(AllDifferences(va, vb, a, b))
    ensures forall x :: x in AllDifferences(va, vb, a, b) <==> IsDifference(va, vb, a, b, x)
  {
    hide PathMap, PathKind, AnchorDiffers, InOrder, Anchors, Precedes;
    var ma, mb := PathMap(va.entries), PathMap(vb.entries);
    var paths := SortedStrings(ma.Keys + mb.Keys);
    SortedDistinct(paths);
    PathDifferencesExact(ma, mb, paths);
    AnchorsAreDistinct(a);
    AnchorDifferencesExact(Anchors(a), Anchors(b));
    var xs, ys := PathDifferences(ma, mb, paths), AnchorDifferences(Anchors(a), Anchors(b));
    BothParts(xs, ys);
    InOrderSorts(xs + ys);
    SortedAreOneEach(InOrder(xs + ys));
  }

  lemma SortedAreOneEach(xs: seq<Difference>)
    requires Sorted(xs)
    ensures OneEach(xs)
  {
    forall i, j | 0 <= i < j < |xs| ensures xs[i].scope != xs[j].scope || xs[i].path != xs[j].path {
      StrLessTrichotomy(xs[i].path, xs[j].path);
    }
  }

  // ----- equality is exact -----

  lemma NamedDocuments()
    ensures AreComponents(["manifest.json"]) && AreComponents(["execution.json"]) && AreComponents(["target-scenario.json"])
    ensures "manifest.json" != INVENTORY && "execution.json" != INVENTORY && "target-scenario.json" != INVENTORY
  {
    assert "manifest.json"[0] == 'm' && "execution.json"[0] == 'e' && "target-scenario.json"[0] == 't';
  }

  lemma LoadsAlike(t: Tools, d: Directory, e: Directory, name: string)
    requires ([name] in d <==> [name] in e) && ([name] in d ==> d[[name]] == e[[name]])
    ensures Load(t, d, name) == Load(t, e, name)
  {
  }

  /** The contents of both directories. */
  ghost predicate ContentsWithin(d: Directory, e: Directory, contents: set<Content>) {
    (forall k | k in d :: d[k] in contents) && (forall k | k in e :: e[k] in contents)
  }

  lemma EqualBundlesInspectAlike(t: Tools, d: Directory, e: Directory, contents: set<Content>)
    requires WellFormed(d) && WellFormed(e) && ContentsWithin(d, e, contents) && CollisionFree(t.sha, contents)
    requires Verified(t, d).Ok? && Verified(t, e).Ok?
    requires Verified(t, d).value.inventorySha256 == Verified(t, e).value.inventorySha256
    ensures Verified(t, d) == Verified(t, e)
    ensures Inspected(t, d, Verified(t, d).value) == Inspected(t, e, Verified(t, e).value)
  {
    hide Load, ParseExecution, Anchored, AreComponents, ReadHeader, VerifyEntries, BundleHash, ActualNames, Parts;
    assert d[[INVENTORY]] == e[[INVENTORY]] by { SameInventoryBytes(t, d, e, contents); }
    InventoryCommits(t, d, e, contents);
    NamedDocuments();
    SameInventorySameDirectory(t, d, e, contents, ["manifest.json"]);
    SameInventorySameDirectory(t, d, e, contents, ["execution.json"]);
    SameInventorySameDirectory(t, d, e, contents, ["target-scenario.json"]);
    LoadsAlike(t, d, e, "manifest.json");
    LoadsAlike(t, d, e, "execution.json");
    LoadsAlike(t, d, e, "target-scenario.json");
  }

  lemma SameInventoryBytes(t: Tools, d: Directory, e: Directory, contents: set<Content>)
    requires ContentsWithin(d, e, contents) && CollisionFree(t.sha, contents)
    requires Verified(t, d).Ok? && Verified(t, e).Ok?
    requires Verified(t, d).value.inventorySha256 == Verified(t, e).value.inventorySha256
    ensures d[[INVENTORY]] == e[[INVENTORY]]
  {
    hide ReadHeader, VerifyEntries, BundleHash, ActualNames;
  }

  lemma {:induction false} AnchorOfOwn(anchors: seq<(string, Json)>, i: nat)
    requires DistinctAnchors(anchors) && i < |anchors|
    ensures AnchorAt(anchors, anchors[i].0) == Some(anchors[i].1)
  {
    if i < |anchors| - 1 {
      AnchorOfOwn(Front(anchors), i);
    }
  }

  lemma SomeMember(xs: seq<Difference>)
    ensures xs != [] ==> exists x :: x in xs
  {
    if xs != [] {
      assert xs[0] in xs;
    }
  }

  /** A bundle does not differ from itself. */
  lemma NothingDiffers(v: BundleVerification, s: EvidenceSummary)
    ensures AllDifferences(v, v, s, s) == []
  {
    hide PathMap, InOrder, Anchors, PyEq, AllDifferences, AnchorAt, Sorted, OneEach;
    DifferencesAreExact(v, v, s, s);
    AnchorsAreDistinct(s);
    forall x ensures !IsDifference(v, v, s, s, x) {
      forall i | 0 <= i < |Anchors(s)| ensures !AnchorDiffers(Anchors(s), Anchors(s)[i]) {
        AnchorOfOwn(Anchors(s), i);
        PyEqReflexive(Anchors(s)[i].1);
      }
    }
    SomeMember(AllDifferences(v, v, s, s));
  }

  /** Different digests are themselves differing anchors. */
  lemma DigestsAreAnchors(t: Tools, d: Directory, e: Directory, va: BundleVerification, vb: BundleVerification,
                          a: EvidenceSummary, b: EvidenceSummary)
    requires a.inventorySha256 == va.inventorySha256 && a.bundleHash == va.bundleHash
    requires b.inventorySha256 == vb.inventorySha256 && b.bundleHash == vb.bundleHash
    requires !ExactlyEqual(va, vb)
    ensures AllDifferences(va, vb, a, b) != []
  {
    hide PathMap, InOrder, Anchors, PyEq, AllDifferences, AnchorAt, Sorted, OneEach;
    DifferencesAreExact(va, vb, a, b);
    AnchorsAreDistinct(b);
    DigestAnchors(a);
    DigestAnchors(b);
    AnchorOfOwn(Anchors(b), 6);
    AnchorOfOwn(Anchors(b), 7);
    var i := if va.inventorySha256 != vb.inventorySha256 then 6 else 7;
    StringsDiffer(Anchors(a)[i].1, Anchors(b)[i].1);
    assert AnchorDiffers(Anchors(b), Anchors(a)[i]);
    assert IsDifference(va, vb, a, b, Difference(SEMANTIC_ANCHOR, Anchors(a)[i].0, DIFFERENT));
  }

  lemma DigestAnchors(s: EvidenceSummary)
    ensures |Anchors(s)| == 8
    ensures Anchors(s)[6] == ("/inventory_sha256", Str(s.inventorySha256)) && Anchors(s)[7] == ("/bundle_hash", Str(s.bundleHash))
  {
  }

  lemma StringsDiffer(v: Json, w: Json)
    requires v.Str? && w.Str?
    ensures PyEq(v, w) <==> v == w
  {
  }

  lemma InspectionKeepsDigests(t: Tools, d: Directory, v: BundleVerification)
    requires Inspected(t, d, v).Ok?
    ensures Inspected(t, d, v).value.inventorySha256 == v.inventorySha256
    ensures Inspected(t, d, v).value.bundleHash == v.bundleHash
  {
    hide Load, ParseExecution;
  }

  /**
   Two bundles that pass inspection are reported equal exactly when no difference is reported, and the
   error for equal digests with inconsistent anchors is unreachable: if SHA-256 does not collide on the
   files at hand.
   */
  lemma ComparisonIsExact(t: Tools, d: Directory, e: Directory, contents: set<Content>)
    requires WellFormed(d) && WellFormed(e) && ContentsWithin(d, e, contents) && CollisionFree(t.sha, contents)
    requires Verified(t, d).Ok? && Verified(t, e).Ok?
    requires Inspected(t, d, Verified(t, d).value).Ok? && Inspected(t, e, Verified(t, e).value).Ok?
    ensures Compared(t, d, e).Ok?
    ensures Compared(t, d, e).value.equal <==> Compared(t, d, e).value.differences == []
  {
    hide Verified, Inspected, AllDifferences, WellFormed, CollisionFree;
    var va, vb := Verified(t, d).value, Verified(t, e).value;
    var a, b := Inspected(t, d, va).value, Inspected(t, e, vb).value;
    InspectionKeepsDigests(t, d, va);
    InspectionKeepsDigests(t, e, vb);
    if ExactlyEqual(va, vb) {
      EqualBundlesInspectAlike(t, d, e, contents);
      NothingDiffers(va, a);
    } else {
      DigestsAreAnchors(t, d, e, va, vb, a, b);
    }
  }
}
