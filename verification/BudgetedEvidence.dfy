/** The evidence bundle that records its own size (runner.py, `_prepare_budgeted_evidence`). */
module BudgetedEvidence {
  import opened Basics
  import opened Json
  import opened Text
  import opened Bytes
  import opened Printer
  import opened Paths
  import opened Artifacts
  import opened Budget
  import opened DigitCounts
  import opened PrintedSizes

  /** What the evidence builder closes over: the other files, and the execution record without its resource use. */
  datatype Draft = Draft(others: Files, execution: Fields)

  const EXECUTION := "execution.json"

  function WithUse(x: Draft, use: Json): Fields {
    x.execution["resource_use" := use]
  }

  /** The builder: the execution record with the given resource use, beside the other files. */
  function Built(t: Tools, x: Draft, use: Json): Files {
    x.others[EXECUTION := JsonBytes(Obj(WithUse(x, use)), t.repr)]
  }

  /** The ledger once the bundle's size has been charged. */
  function WithBytes(l: Ledger, n: nat): Ledger {
    l.(consumed := l.consumed.(artifactBytes := n))
  }

  function UseAt(l: Ledger, n: nat): Json {
    ReportJson(Report(WithBytes(l, n)))
  }

  function FilesAt(t: Tools, l: Ledger, x: Draft, n: nat): Files {
    Built(t, x, UseAt(l, n))
  }

  /** The measured size of the bundle that records the size `n`. */
  function MeasuredAt(t: Tools, runId: string, l: Ledger, x: Draft, n: nat): nat {
    match Prepared(t, runId, FilesAt(t, l, x, n)) case Ok(m) => m.totalBytes case Err(_) => 0
  }

  /** The size recorded in the `k`-th round. */
  function Round(t: Tools, runId: string, l: Ledger, x: Draft, k: nat): nat {
    if k == 0 then 0 else MeasuredAt(t, runId, l, x, Round(t, runId, l, x, k - 1))
  }

  function Settled(t: Tools, runId: string, l: Ledger, x: Draft): nat {
    Round(t, runId, l, x, 3)
  }

  // ----- the premises -----

  /** Every digest has the shape of a SHA-256. */
  ghost predicate ShapesDigests(t: Tools) {
    forall content :: IsSha256(t.sha(content))
  }

  predicate NamesValid(x: Draft) {
    forall name | name in x.others :: ValidName(name)
  }

  lemma ExecutionIsComponent()
    ensures IsComponent(EXECUTION) && '\\' !in EXECUTION && EXECUTION != ".." && EXECUTION != INVENTORY && !IsAbsolute(EXECUTION)
  {
    assert EXECUTION[0] == 'e' && INVENTORY[0] == 'i';
    assert ".."[0] == '.';
  }

  lemma ExecutionNameValid()
    ensures ValidName(EXECUTION)
  {
    hide IsComponent, Parts, IsAbsolute, INVENTORY, EXECUTION, NoSlash, Kept;
    ExecutionIsComponent();
    assert AsPosix([EXECUTION]) == EXECUTION;
    PartsOfJoined([EXECUTION]);
  }

  lemma FilesValid(t: Tools, l: Ledger, x: Draft, n: nat)
    requires NamesValid(x)
    ensures forall name | name in FilesAt(t, l, x, n) :: ValidName(name)
    ensures FilesAt(t, l, x, n) != map[] && EXECUTION in FilesAt(t, l, x, n)
    ensures FilesAt(t, l, x, n).Keys == FilesAt(t, l, x, 0).Keys
    ensures forall name | name in FilesAt(t, l, x, n) && name != EXECUTION :: FilesAt(t, l, x, n)[name] == FilesAt(t, l, x, 0)[name]
  {
    hide ValidName, UseAt, JsonBytes;
    ExecutionNameValid();
    assert EXECUTION in FilesAt(t, l, x, n);
  }

  // ----- the size of the execution record -----

  lemma AmountSize(approved: int, n: nat, repr: FloatText)
    ensures Size(AmountToJson(approved, n), repr) + 1 == Size(AmountToJson(approved, 0), repr) + DigitCount(n)
  {
    hide Size, DigitCount;
    var q: Fields := map["approved" := Int(approved), "consumed" := Int(0)];
    assert q["consumed" := Int(n)] == map["approved" := Int(approved), "consumed" := Int(n)];
    assert q["consumed" := Int(0)] == q;
    FieldReplace(q, "consumed", Int(n), Int(0), repr);
    IntSize(n, repr);
    IntSize(0, repr);
    assert DigitCount(0) == 1 by { ZeroHasOneDigit(); }
  }

  lemma ZeroHasOneDigit()
    ensures DigitCount(0) == 1
  {
  }

  lemma UseReplaces(l: Ledger, n: nat)
    ensures UseAt(l, 0).Obj? && "artifact_bytes" in UseAt(l, 0).fields
    ensures UseAt(l, n) == Obj(UseAt(l, 0).fields["artifact_bytes" := AmountToJson(l.approved.artifactBytes, n)])
  {
    hide AmountToJson;
  }

  lemma UseSize(l: Ledger, n: nat, repr: FloatText)
    ensures Size(UseAt(l, n), repr) + 1 == Size(UseAt(l, 0), repr) + DigitCount(n)
  {
    hide Size, DigitCount, AmountToJson, UseAt;
    UseReplaces(l, n);
    UseReplaces(l, 0);
    var m := UseAt(l, 0).fields;
    FieldReplace(m, "artifact_bytes", AmountToJson(l.approved.artifactBytes, n), AmountToJson(l.approved.artifactBytes, 0), repr);
    AmountSize(l.approved.artifactBytes, n, repr);
  }

  /** The execution record's length apart from the digits of the size it records. */
  function Inner(t: Tools, l: Ledger, x: Draft): int {
    |FilesAt(t, l, x, 0)[EXECUTION]| - 1
  }

  lemma ExecutionSize(t: Tools, l: Ledger, x: Draft, n: nat)
    ensures Inner(t, l, x) >= 0
    ensures |FilesAt(t, l, x, n)[EXECUTION]| == Inner(t, l, x) + DigitCount(n)
  {
    hide Size, DigitCount, UseAt, JsonBytes;
    var m := WithUse(x, UseAt(l, 0));
    assert m["resource_use" := UseAt(l, n)] == WithUse(x, UseAt(l, n)) && m["resource_use" := UseAt(l, 0)] == m;
    FieldReplace(m, "resource_use", UseAt(l, n), UseAt(l, 0), t.repr);
    UseSize(l, n, t.repr);
    JsonBytesSize(Obj(WithUse(x, UseAt(l, n))), t.repr);
    JsonBytesSize(Obj(m), t.repr);
    NewlineSize();
  }

  lemma NewlineSize()
    ensures |Encode("\n")| == 1
  {
    EncodeAscii("\n");
  }

  // ----- the size of the inventory -----

  /** Where the execution record stands in the inventory. */
  function Position(names: seq<string>): (i: nat)
    requires EXECUTION in names
    ensures i < |names| && names[i] == EXECUTION
  {
    if names[0] == EXECUTION then 0 else 1 + Position(names[1..])
  }

  lemma {:induction false} TotalReplace(entries: seq<InventoryEntry>, i: nat, e: InventoryEntry)
    requires i < |entries|
    ensures TotalBytes(entries[i := e]) + entries[i].byteCount == TotalBytes(entries) + e.byteCount
  {
    if i < |entries| - 1 {
      TotalReplace(Front(entries), i, e);
      assert Front(entries[i := e]) == Front(entries)[i := e];
    } else {
      assert Front(entries[i := e]) == Front(entries);
    }
  }

  lemma EntrySize(path: string, digest: string, other: string, m: nat, n: nat, repr: FloatText)
    requires IsSha256(digest) && IsSha256(other)
    ensures Size(EntryToJson(InventoryEntry(path, digest, m)), repr) + DigitCount(n) ==
            Size(EntryToJson(InventoryEntry(path, other, n)), repr) + DigitCount(m)
  {
    hide Size, DigitCount, IsSha256;
    var f := EntryToJson(InventoryEntry(path, digest, m)).fields;
    var g := f["sha256" := Str(other)];
    assert f["sha256" := Str(digest)] == f && g["bytes" := Int(m)] == g;
    assert Obj(g["bytes" := Int(n)]) == EntryToJson(InventoryEntry(path, other, n));
    FieldReplace(f, "sha256", Str(digest), Str(other), repr);
    FieldReplace(g, "bytes", Int(m), Int(n), repr);
    DigestSize(digest, repr);
    DigestSize(other, repr);
    IntSize(m, repr);
    IntSize(n, repr);
  }

  lemma EntriesSize(entries: seq<InventoryEntry>, i: nat, e: InventoryEntry, repr: FloatText)
    requires i < |entries| && e.path == entries[i].path && IsSha256(e.sha256) && IsSha256(entries[i].sha256)
    ensures Size(EntriesToJson(entries[i := e]), repr) + DigitCount(entries[i].byteCount) ==
            Size(EntriesToJson(entries), repr) + DigitCount(e.byteCount)
  {
    hide Size, DigitCount, IsSha256, EntryToJson;
    var items := EntriesToJson(entries).items;
    assert EntriesToJson(entries[i := e]).items == items[i := EntryToJson(e)];
    assert items[i := EntryToJson(entries[i])] == items;
    ItemReplace(items, i, EntryToJson(e), EntryToJson(entries[i]), repr);
    EntrySize(e.path, e.sha256, entries[i].sha256, e.byteCount, entries[i].byteCount, repr);
  }

  lemma InventorySize(runId: string, before: seq<InventoryEntry>, hash: string, after: seq<InventoryEntry>, other: string, repr: FloatText)
    requires IsSha256(hash) && IsSha256(other)
    ensures Size(InventoryToJson(runId, before, hash), repr) + Size(EntriesToJson(after), repr) ==
            Size(InventoryToJson(runId, after, other), repr) + Size(EntriesToJson(before), repr)
  {
    hide Size, IsSha256, EntriesToJson;
    var f := InventoryToJson(runId, before, hash).fields;
    var g := f["files" := EntriesToJson(after)];
    assert f["files" := EntriesToJson(before)] == f && g["bundle_hash" := Str(hash)] == g;
    assert Obj(g["bundle_hash" := Str(other)]) == InventoryToJson(runId, after, other);
    FieldReplace(f, "files", EntriesToJson(before), EntriesToJson(after), repr);
    FieldReplace(g, "bundle_hash", Str(hash), Str(other), repr);
    DigestSize(hash, repr);
    DigestSize(other, repr);
  }

  /** Files that differ in one file only have inventories that differ in its entry only. */
  lemma OneEntryDiffers(t: Tools, f: Files, g: Files)
    requires EXECUTION in f && EXECUTION in g && g == f[EXECUTION := g[EXECUTION]]
    ensures var content := g[EXECUTION];
            exists i :: && 0 <= i < |EntriesOf(t, f)|
                        && EntriesOf(t, f)[i] == InventoryEntry(EXECUTION, t.sha(f[EXECUTION]), |f[EXECUTION]|)
                        && EntriesOf(t, g) == EntriesOf(t, f)[i := InventoryEntry(EXECUTION, t.sha(content), |content|)]
  {
    hide SortedStrings, StrictlySorted, EXECUTION;
    assert g.Keys == f.Keys;
    var names := SortedStrings(f.Keys);
    SortedDistinct(SortedStrings(f.Keys));
    assert EXECUTION in names;
    var i := Position(names);
    var before, after, e := EntriesOf(t, f), EntriesOf(t, g), InventoryEntry(EXECUTION, t.sha(g[EXECUTION]), |g[EXECUTION]|);
    forall j | 0 <= j < |names| ensures after[j] == before[i := e][j] {
      assert names[j] in names;
      if j != i { assert names[j] != EXECUTION; }
    }
    assert after == before[i := e];
    assert before[i] == InventoryEntry(EXECUTION, t.sha(f[EXECUTION]), |f[EXECUTION]|);
  }

  lemma FilesDiffer(t: Tools, l: Ledger, x: Draft, n: nat)
    ensures EXECUTION in FilesAt(t, l, x, 0) && EXECUTION in FilesAt(t, l, x, n)
    ensures FilesAt(t, l, x, n) == FilesAt(t, l, x, 0)[EXECUTION := FilesAt(t, l, x, n)[EXECUTION]]
  {
    hide UseAt, JsonBytes, EXECUTION;
  }

  // ----- the size law -----

  /** The bundle's size apart from the digits it spends on its own size and on the execution record's. */
  function Fixed(t: Tools, runId: string, l: Ledger, x: Draft): int {
    MeasuredAt(t, runId, l, x, 0) - 1 - |Digits(|FilesAt(t, l, x, 0)[EXECUTION]|)|
  }

  lemma MeasuredIs(t: Tools, runId: string, l: Ledger, x: Draft, n: nat)
    requires NamesValid(x)
    ensures var entries := EntriesOf(t, FilesAt(t, l, x, n));
            MeasuredAt(t, runId, l, x, n) ==
            TotalBytes(entries) + Size(InventoryToJson(runId, entries, BundleHash(t, entries)), t.repr) + 1
  {
    hide FilesAt, Size, EntriesOf, BundleHash, InventoryToJson, ValidName, NamesValid;
    FilesValid(t, l, x, n);
    var entries := EntriesOf(t, FilesAt(t, l, x, n));
    JsonBytesSize(InventoryToJson(runId, entries, BundleHash(t, entries)), t.repr);
    NewlineSize();
  }

  /**
   The size of a bundle that records `n` as its size: a fixed part, the digits of `n`, and the digits of
   the execution record's length.
   */
  lemma SizeLaw(t: Tools, runId: string, l: Ledger, x: Draft, n: nat)
    requires ShapesDigests(t) && NamesValid(x)
    ensures Inner(t, l, x) >= 0
    ensures MeasuredAt(t, runId, l, x, n) == SizeFor(Fixed(t, runId, l, x), Inner(t, l, x), DigitCount(n))
  {
    hide FilesAt, MeasuredAt, Size, EntriesOf, BundleHash, InventoryToJson, TotalBytes, EntriesToJson, NamesValid, IsSha256, Digits;
    ExecutionSize(t, l, x, n);
    ExecutionSize(t, l, x, 0);
    MeasuredIs(t, runId, l, x, n);
    MeasuredIs(t, runId, l, x, 0);
    FilesDiffer(t, l, x, n);
    OneEntryDiffers(t, FilesAt(t, l, x, 0), FilesAt(t, l, x, n));
    var before, after := EntriesOf(t, FilesAt(t, l, x, 0)), EntriesOf(t, FilesAt(t, l, x, n));
    var content := FilesAt(t, l, x, n)[EXECUTION];
    var e := InventoryEntry(EXECUTION, t.sha(content), |content|);
    var first := FilesAt(t, l, x, 0)[EXECUTION];
    var i :| 0 <= i < |before| && before[i] == InventoryEntry(EXECUTION, t.sha(first), |first|) && after == before[i := e];
    TotalReplace(before, i, e);
    EntriesSize(before, i, e, t.repr);
    assert IsSha256(BundleHash(t, before)) && IsSha256(BundleHash(t, after)) by { HashesShaped(t, before, after); }
    InventorySize(runId, before, BundleHash(t, before), after, BundleHash(t, after), t.repr);
  }

  lemma HashesShaped(t: Tools, a: seq<InventoryEntry>, b: seq<InventoryEntry>)
    requires ShapesDigests(t)
    ensures IsSha256(BundleHash(t, a)) && IsSha256(BundleHash(t, b))
  {
    hide IsSha256, Encode, Print, EntriesToJson;
  }

  /** The rounds rise to a size that records itself by the third, whatever the evidence. */
  lemma RoundsSettle(t: Tools, runId: string, l: Ledger, x: Draft)
    requires ShapesDigests(t) && NamesValid(x)
    ensures Round(t, runId, l, x, 0) == 0
    ensures Round(t, runId, l, x, 1) <= Round(t, runId, l, x, 2) <= Settled(t, runId, l, x)
    ensures MeasuredAt(t, runId, l, x, Settled(t, runId, l, x)) == Settled(t, runId, l, x)
  {
    hide MeasuredAt, DigitCount, SizeFor, Fixed, Inner, ShapesDigests, NamesValid;
    var first := MeasuredAt(t, runId, l, x, 0);
    var second := MeasuredAt(t, runId, l, x, first);
    var third := MeasuredAt(t, runId, l, x, second);
    ThreeRounds(t, runId, l, x);
    SizeLaw(t, runId, l, x, 0);
    SizeLaw(t, runId, l, x, first);
    SizeLaw(t, runId, l, x, second);
    SizeLaw(t, runId, l, x, third);
    ZeroHasOneDigit();
    SizesSettle(Fixed(t, runId, l, x), Inner(t, l, x), first, second, third);
  }

  lemma ThreeRounds(t: Tools, runId: string, l: Ledger, x: Draft)
    ensures var first := MeasuredAt(t, runId, l, x, 0);
            var second := MeasuredAt(t, runId, l, x, first);
            && Round(t, runId, l, x, 0) == 0 && Round(t, runId, l, x, 1) == first && Round(t, runId, l, x, 2) == second
            && Round(t, runId, l, x, 3) == MeasuredAt(t, runId, l, x, second)
  {
    hide MeasuredAt;
    assert Round(t, runId, l, x, 1) == MeasuredAt(t, runId, l, x, Round(t, runId, l, x, 0));
    assert Round(t, runId, l, x, 2) == MeasuredAt(t, runId, l, x, Round(t, runId, l, x, 1));
  }

  // ----- the loop -----

  datatype EvidenceError = BudgetRefused(budget: BudgetError) | BundleRefused(bundle: BundleError) | DidNotConverge

  datatype Evidence = Evidence(files: Files, execution: Fields)

  lemma CandidateUse(l: Ledger, n: nat)
    requires l.consumed.artifactBytes == 0 && Consume(l, ARTIFACT_BYTES, n).Ok?
    ensures ReportJson(Report(Consume(l, ARTIFACT_BYTES, n).value)) == UseAt(l, n)
  {
    hide ReportJson;
  }

  /** A round that changes nothing has reached the settled size. */
  lemma StationaryIsSettled(t: Tools, runId: string, l: Ledger, x: Draft, k: nat)
    requires k <= 3 && Round(t, runId, l, x, k + 1) == Round(t, runId, l, x, k)
    ensures Round(t, runId, l, x, k) == Settled(t, runId, l, x)
  {
    hide MeasuredAt;
    ThreeRounds(t, runId, l, x);
    assert Round(t, runId, l, x, k + 1) == MeasuredAt(t, runId, l, x, Round(t, runId, l, x, k));
  }

  /** `_prepare_budgeted_evidence`: within the budget, it ends with a bundle that records its own size. */
  method PrepareBudgetedEvidence(t: Tools, runId: string, ledger: Ledger, x: Draft)
    returns (prepared: Result<Evidence, EvidenceError>)
    requires ledger.consumed.artifactBytes == 0 && ShapesDigests(t) && NamesValid(x)
    ensures prepared.Ok? <==> Settled(t, runId, ledger, x) <= ledger.approved.artifactBytes
    ensures prepared.Ok? ==>
              var n := Settled(t, runId, ledger, x);
              && prepared.value == Evidence(FilesAt(t, ledger, x, n), WithUse(x, UseAt(ledger, n)))
              && MeasuredAt(t, runId, ledger, x, n) == n
    ensures prepared.Err? ==> prepared.error.BudgetRefused? && prepared.error.budget.Exhausted?
  {
    hide UseAt, WithUse, Prepared, NamesValid, ShapesDigests, Round, EntriesOf, ReportJson;
    RoundsSettle(t, runId, ledger, x);
    var artifactBytes: nat := 0;
    prepared := Err(DidNotConverge);
    for round := 0 to 8
      invariant round <= 3 && artifactBytes == Round(t, runId, ledger, x, round)
    {
      assert artifactBytes <= Settled(t, runId, ledger, x) by { assert round == 0 || round == 1 || round == 2 || round == 3; }
      var candidate := Consume(ledger, ARTIFACT_BYTES, artifactBytes);
      if candidate.Err? {
        return Err(BudgetRefused(candidate.error));
      }
      CandidateUse(ledger, artifactBytes);
      var use := ReportJson(Report(candidate.value));
      var files := Built(t, x, use);
      var measured := Prepared(t, runId, files);
      assert measured.Ok? && measured.value.totalBytes == MeasuredAt(t, runId, ledger, x, artifactBytes) by {
        BuiltIsPrepared(t, runId, ledger, x, artifactBytes);
      }
      RoundStep(t, runId, ledger, x, round);
      if measured.value.totalBytes == artifactBytes {
        StationaryIsSettled(t, runId, ledger, x, round);
        return Ok(Evidence(files, WithUse(x, use)));
      }
      artifactBytes := measured.value.totalBytes;
    }
    assert false;
  }

  lemma RoundStep(t: Tools, runId: string, l: Ledger, x: Draft, k: nat)
    ensures Round(t, runId, l, x, k + 1) == MeasuredAt(t, runId, l, x, Round(t, runId, l, x, k))
  {
    hide MeasuredAt;
  }

  lemma BuiltIsPrepared(t: Tools, runId: string, l: Ledger, x: Draft, n: nat)
    requires NamesValid(x)
    ensures Prepared(t, runId, FilesAt(t, l, x, n)).Ok?
    ensures Prepared(t, runId, FilesAt(t, l, x, n)).value.totalBytes == MeasuredAt(t, runId, l, x, n)
  {
    hide FilesAt, EntriesOf, BundleHash, ValidName, NamesValid;
    FilesValid(t, l, x, n);
  }
}
