/**
 Evidence bundles (artifacts.py): the inventory writer and its verifier, over directories as maps from
 path components to file contents.
 */
module Artifacts {
  import opened Basics
  import opened Json
  import opened Text
  import opened Printer
  import opened Bytes
  import opened Paths

  datatype BundleError =
    | NoFiles | BadName | AlreadyExists | TooLarge | WriteFailed | NoBundle | UnreadableInventory | BadInventory | BadEntry
    | MissingFile | IntegrityFailure | DuplicatePath | UnlistedFiles | HashMismatch | BadArtifact | BadEvidence
    | ForeignEvidence | InconsistentComparison

  /** What the model takes from the libraries: SHA-256, float rendering, and JSON reading. */
  datatype Tools = Tools(sha: Sha256, repr: FloatText, loads: Content -> Option<Json>)

  // ----- inventory -----

  datatype InventoryEntry = InventoryEntry(path: string, sha256: string, byteCount: nat)

  function EntryToJson(e: InventoryEntry): Json {
    Obj(map["path" := Str(e.path), "sha256" := Str(e.sha256), "bytes" := Int(e.byteCount)])
  }

  function EntriesToJson(entries: seq<InventoryEntry>): Json {
    Arr(seq(|entries|, i requires 0 <= i < |entries| => EntryToJson(entries[i])))
  }

  function BundleHash(t: Tools, entries: seq<InventoryEntry>): string {
    CanonicalSha256(t.sha, t.repr, EntriesToJson(entries))
  }

  function InventoryToJson(runId: string, entries: seq<InventoryEntry>, bundleHash: string): Json {
    Obj(map["schema_version" := Int(1), "run_id" := Str(runId), "files" := EntriesToJson(entries),
            "bundle_hash" := Str(bundleHash)])
  }

  function TotalBytes(entries: seq<InventoryEntry>): nat {
    if entries == [] then 0 else TotalBytes(Front(entries)) + Last(entries).byteCount
  }

  type Files = map<string, Content>

  /** One entry per file, by name. */
  function EntriesOf(t: Tools, files: Files): seq<InventoryEntry> {
    var names := SortedStrings(files.Keys);
    seq(|names|, i requires 0 <= i < |names| =>
          assert names[i] in names; InventoryEntry(names[i], t.sha(files[names[i]]), |files[names[i]]|))
  }

  datatype Material = Material(entries: seq<InventoryEntry>, inventory: Content, bundleHash: string, totalBytes: nat)

  /** `_prepare_bundle_material` */
  function Prepared(t: Tools, runId: string, files: Files): Result<Material, BundleError> {
    if files == map[] then Err(NoFiles)
    else if !(forall name | name in files :: ValidName(name)) then Err(BadName)
    else
      var entries := EntriesOf(t, files);
      var hash := BundleHash(t, entries);
      var inventory := JsonBytes(InventoryToJson(runId, entries, hash), t.repr);
      Ok(Material(entries, inventory, hash, TotalBytes(entries) + |inventory|))
  }

  datatype BundleVerification = BundleVerification(runId: string, inventorySha256: string, bundleHash: string,
                                                   fileCount: nat, totalBytes: nat, entries: seq<InventoryEntry>)

  /** The summary the writer returns. */
  function Summary(t: Tools, runId: string, m: Material): BundleVerification {
    BundleVerification(runId, t.sha(m.inventory), m.bundleHash, |m.entries|, m.totalBytes, m.entries)
  }

  // ----- directories -----

  /** The regular files beneath a directory, by their path components. */
  type Directory = map<seq<string>, Content>

  /** A file cannot be written where a directory is, nor beneath a file. */
  predicate Obstructed(d: Directory, parts: seq<string>) {
    exists k | k in d :: k != parts && (k <= parts || parts <= k)
  }

  function WriteFile(d: Directory, parts: seq<string>, content: Content): Result<Directory, BundleError> {
    if Obstructed(d, parts) then Err(WriteFailed) else Ok(d[parts := content])
  }

  /** The staging directory once the named files have been written, in that order. */
  function Staged(files: Files, order: seq<string>): Result<Directory, BundleError>
    requires forall name <- order :: name in files
  {
    if order == [] then Ok(map[])
    else
      assert Last(order) in order;
      var d :- Staged(files, Front(order));
      WriteFile(d, Parts(Last(order)), files[Last(order)])
  }

  /** The files' insertion order names each of them. */
  ghost predicate Ordering(order: seq<string>, files: Files) {
    Distinct(order) && forall name :: name in order <==> name in files
  }

  /** The finished directory. */
  function Finished(files: Files, order: seq<string>, inventory: Content): Result<Directory, BundleError>
    requires forall name <- order :: name in files
  {
    var d :- Staged(files, order);
    WriteFile(d, [INVENTORY], inventory)
  }

  // ----- verification -----

  /** `_verify_entry` */
  function VerifyEntry(t: Tools, d: Directory, raw: Json): Result<InventoryEntry, BundleError> {
    if !raw.Obj? || raw.fields.Keys != {"path", "sha256", "bytes"} then Err(BadEntry)
    else if !raw.fields["path"].Str? || !raw.fields["sha256"].Str? then Err(BadEntry)
    else if !raw.fields["bytes"].Int? || raw.fields["bytes"].n < 0 then Err(BadEntry)
    else
      var name, digest, count := raw.fields["path"].s, raw.fields["sha256"].s, raw.fields["bytes"].n;
      if !ValidName(name) then Err(BadName)
      else if Parts(name) !in d then Err(MissingFile)
      else if |d[Parts(name)]| != count || t.sha(d[Parts(name)]) != digest then Err(IntegrityFailure)
      else Ok(InventoryEntry(name, digest, count))
  }

  function PathsOf(entries: seq<InventoryEntry>): set<string> {
    set i | 0 <= i < |entries| :: entries[i].path
  }

  lemma PathsExtend(entries: seq<InventoryEntry>, e: InventoryEntry)
    ensures PathsOf(entries + [e]) == PathsOf(entries) + {e.path}
  {
    var all := entries + [e];
    assert all[|entries|] == e;
    forall path ensures path in PathsOf(all) <==> path in PathsOf(entries) + {e.path} {
      if path in PathsOf(entries) {
        var i :| 0 <= i < |entries| && entries[i].path == path;
        assert all[i].path == path;
      }
    }
  }

  /** The loop over the inventory's entries, over a prefix of them. */
  function VerifyEntries(t: Tools, d: Directory, raws: seq<Json>): Result<seq<InventoryEntry>, BundleError> {
    if raws == [] then Ok([])
    else
      var entries :- VerifyEntries(t, d, Front(raws));
      var entry :- VerifyEntry(t, d, Last(raws));
      if entry.path in PathsOf(entries) then Err(DuplicatePath) else Ok(entries + [entry])
  }

  datatype Header = Header(runId: string, raws: seq<Json>, bundleHash: string)

  /** `_load_inventory` and `_validate_inventory_header` */
  function ReadHeader(t: Tools, content: Content): Result<Header, BundleError> {
    match t.loads(content)
    case None => Err(UnreadableInventory)
    case Some(v) =>
      if !v.Obj? || v.fields.Keys != {"schema_version", "run_id", "files", "bundle_hash"} then Err(BadInventory)
      else if !PyEq(v.fields["schema_version"], Int(1)) || !v.fields["run_id"].Str? then Err(BadInventory)
      else if !v.fields["files"].Arr? || !v.fields["bundle_hash"].Str? then Err(BadInventory)
      else Ok(Header(v.fields["run_id"].s, v.fields["files"].items, v.fields["bundle_hash"].s))
  }

  /** The names of the files found, those called inventory.json aside. */
  function ActualNames(d: Directory): set<string> {
    set k | k in d && k != [] && Last(k) != INVENTORY :: AsPosix(k)
  }

  /** The checks that follow the entries, and the summary. */
  function Concluded(t: Tools, d: Directory, content: Content, header: Header, entries: seq<InventoryEntry>)
    : Result<BundleVerification, BundleError>
  {
    if ActualNames(d) != PathsOf(entries) then Err(UnlistedFiles)
    else if header.bundleHash != BundleHash(t, entries) then Err(HashMismatch)
    else Ok(BundleVerification(header.runId, t.sha(content), header.bundleHash, |entries|,
                               TotalBytes(entries) + |content|, entries))
  }

  /** `verify_evidence_bundle` */
  function Verified(t: Tools, d: Directory): Result<BundleVerification, BundleError> {
    if [INVENTORY] !in d then Err(UnreadableInventory)
    else
      var content := d[[INVENTORY]];
      var header :- ReadHeader(t, content);
      var entries :- VerifyEntries(t, d, header.raws);
      Concluded(t, d, content, header, entries)
  }

  lemma {:induction false} RefusedEntryDecides(t: Tools, d: Directory, raws: seq<Json>, n: nat)
    requires n <= |raws| && VerifyEntries(t, d, raws[..n]).Err?
    ensures VerifyEntries(t, d, raws) == VerifyEntries(t, d, raws[..n])
    decreases |raws|
  {
    hide VerifyEntry;
    if n < |raws| {
      assert Front(raws)[..n] == raws[..n];
      RefusedEntryDecides(t, d, Front(raws), n);
    } else {
      assert raws[..n] == raws;
    }
  }

  lemma NoPaths()
    ensures PathsOf([]) == {}
  {
  }

  /** `_verify_entries` */
  method CheckEntries(t: Tools, d: Directory, raws: seq<Json>)
    returns (checked: Result<(seq<InventoryEntry>, set<string>, nat), BundleError>)
    ensures match VerifyEntries(t, d, raws)
            case Ok(entries) => checked == Ok((entries, PathsOf(entries), TotalBytes(entries)))
            case Err(error) => checked == Err(error)
  {
    hide VerifyEntry, PathsOf;
    var entries: seq<InventoryEntry> := [];
    var names: set<string> := {};
    var totalBytes := 0;
    NoPaths();
    for i := 0 to |raws|
      invariant VerifyEntries(t, d, raws[..i]) == Ok(entries)
      invariant names == PathsOf(entries) && totalBytes == TotalBytes(entries)
    {
      assert Front(raws[..i + 1]) == raws[..i] && Last(raws[..i + 1]) == raws[i];
      var entry := VerifyEntry(t, d, raws[i]);
      if entry.Err? {
        RefusedEntryDecides(t, d, raws, i + 1);
        return Err(entry.error);
      }
      if entry.value.path in names {
        RefusedEntryDecides(t, d, raws, i + 1);
        return Err(DuplicatePath);
      }
      PathsExtend(entries, entry.value);
      assert Front(entries + [entry.value]) == entries;
      entries := entries + [entry.value];
      names := names + {entry.value.path};
      totalBytes := totalBytes + entry.value.byteCount;
    }
    assert raws[..|raws|] == raws;
    return Ok((entries, names, totalBytes));
  }

  method VerifyBundle(t: Tools, d: Directory) returns (summary: Result<BundleVerification, BundleError>)
    ensures summary == Verified(t, d)
  {
    hide VerifyEntries, ReadHeader, BundleHash, ActualNames, PathsOf, TotalBytes;
    if [INVENTORY] !in d {
      return Err(UnreadableInventory);
    }
    var content := d[[INVENTORY]];
    var header :- ReadHeader(t, content);
    var checked :- CheckEntries(t, d, header.raws);
    if ActualNames(d) != checked.1 {
      return Err(UnlistedFiles);
    }
    if header.bundleHash != BundleHash(t, checked.0) {
      return Err(HashMismatch);
    }
    return Ok(BundleVerification(header.runId, t.sha(content), header.bundleHash, |checked.0|, checked.2 + |content|, checked.0));
  }

  // ----- what was written is what is read -----

  /** The document is read back from its own bytes. */
  ghost predicate ReadsBack(t: Tools, v: Json) {
    t.loads(JsonBytes(v, t.repr)) == Some(v)
  }

  lemma HeaderRoundTrip(t: Tools, runId: string, entries: seq<InventoryEntry>, hash: string)
    requires ReadsBack(t, InventoryToJson(runId, entries, hash))
    ensures ReadHeader(t, JsonBytes(InventoryToJson(runId, entries, hash), t.repr)) ==
            Ok(Header(runId, EntriesToJson(entries).items, hash))
  {
    hide JsonBytes, EntryToJson;
    var v := InventoryToJson(runId, entries, hash);
    assert v.fields["schema_version"] == Int(1) && v.fields["files"] == EntriesToJson(entries);
  }

  /** The directory holds the entry's file, as the entry describes it. */
  predicate Describes(t: Tools, d: Directory, e: InventoryEntry) {
    && ValidName(e.path) && Parts(e.path) in d
    && |d[Parts(e.path)]| == e.byteCount && t.sha(d[Parts(e.path)]) == e.sha256
  }

  lemma EntryRoundTrip(t: Tools, d: Directory, e: InventoryEntry)
    requires Describes(t, d, e)
    ensures VerifyEntry(t, d, EntryToJson(e)) == Ok(e)
  {
    hide ValidName, Parts;
    var f := EntryToJson(e).fields;
    assert f["path"] == Str(e.path) && f["sha256"] == Str(e.sha256) && f["bytes"] == Int(e.byteCount);
  }

  /** Accepted entries describe the directory's files, and are what the inventory says. */
  lemma EntryIsDescribed(t: Tools, d: Directory, raw: Json)
    requires VerifyEntry(t, d, raw).Ok?
    ensures Describes(t, d, VerifyEntry(t, d, raw).value) && raw == EntryToJson(VerifyEntry(t, d, raw).value)
  {
    hide ValidName, Parts;
    var e := VerifyEntry(t, d, raw).value;
    assert raw.fields["path"] == Str(e.path) && raw.fields["sha256"] == Str(e.sha256) && raw.fields["bytes"] == Int(e.byteCount);
    assert raw.fields == EntryToJson(e).fields;
  }

  predicate DistinctPaths(entries: seq<InventoryEntry>) {
    forall i, j | 0 <= i < j < |entries| :: entries[i].path != entries[j].path
  }

  lemma {:induction false} EntriesRoundTrip(t: Tools, d: Directory, entries: seq<InventoryEntry>)
    requires DistinctPaths(entries) && forall i | 0 <= i < |entries| :: Describes(t, d, entries[i])
    ensures VerifyEntries(t, d, EntriesToJson(entries).items) == Ok(entries)
  {
    hide VerifyEntry, Describes, EntryToJson;
    if entries != [] {
      var raws := EntriesToJson(entries).items;
      EntriesRoundTrip(t, d, Front(entries));
      assert Front(raws) == EntriesToJson(Front(entries)).items;
      EntryRoundTrip(t, d, Last(entries));
      assert entries == Front(entries) + [Last(entries)];
    }
  }

  /** Verified entries have distinct paths, describe the directory, and determine the inventory they were read from. */
  lemma {:induction false} EntriesAreDescribed(t: Tools, d: Directory, raws: seq<Json>)
    requires VerifyEntries(t, d, raws).Ok?
    ensures var entries := VerifyEntries(t, d, raws).value;
            DistinctPaths(entries) && EntriesToJson(entries).items == raws && forall i | 0 <= i < |entries| :: Describes(t, d, entries[i])
  {
    hide VerifyEntry, Describes, EntryToJson, EntriesToJson, PathsOf, DistinctPaths;
    if raws == [] {
      NoEntries();
    } else {
      EntriesAreDescribed(t, d, Front(raws));
      EntryIsDescribed(t, d, Last(raws));
      var entries, entry := VerifyEntries(t, d, Front(raws)).value, VerifyEntry(t, d, Last(raws)).value;
      OneMoreEntry(entries, entry);
      assert raws == Front(raws) + [Last(raws)];
    }
  }

  lemma NoEntries()
    ensures EntriesToJson([]).items == [] && DistinctPaths([])
  {
  }

  lemma OneMoreEntry(entries: seq<InventoryEntry>, e: InventoryEntry)
    requires DistinctPaths(entries) && e.path !in PathsOf(entries)
    ensures DistinctPaths(entries + [e]) && EntriesToJson(entries + [e]).items == EntriesToJson(entries).items + [EntryToJson(e)]
  {
    hide EntryToJson;
  }

  // ----- what acceptance means -----

  /** The document is an inventory of the run, of exactly those entries, with that bundle hash. */
  predicate IsInventory(v: Json, runId: string, entries: seq<InventoryEntry>, bundleHash: string) {
    hide PyEq, EntriesToJson;
    && v.Obj? && v.fields.Keys == {"schema_version", "run_id", "files", "bundle_hash"}
    && PyEq(v.fields["schema_version"], Int(1)) && v.fields["run_id"] == Str(runId)
    && v.fields["files"] == EntriesToJson(entries) && v.fields["bundle_hash"] == Str(bundleHash)
  }

  /** The entries have distinct paths, describe their files, and name every file that is not called inventory.json. */
  predicate Inventories(t: Tools, d: Directory, entries: seq<InventoryEntry>) {
    hide Describes;
    && DistinctPaths(entries) && (forall i | 0 <= i < |entries| :: Describes(t, d, entries[i]))
    && ActualNames(d) == PathsOf(entries)
  }

  /** What the summary of an accepted directory says of it. */
  predicate Summarizes(t: Tools, d: Directory, v: BundleVerification) {
    hide IsInventory, Inventories, BundleHash;
    && [INVENTORY] in d && t.loads(d[[INVENTORY]]).Some?
    && IsInventory(t.loads(d[[INVENTORY]]).value, v.runId, v.entries, v.bundleHash)
    && Inventories(t, d, v.entries) && v.bundleHash == BundleHash(t, v.entries)
    && v.inventorySha256 == t.sha(d[[INVENTORY]])
    && v.fileCount == |v.entries| && v.totalBytes == TotalBytes(v.entries) + |d[[INVENTORY]]|
  }

  lemma HeaderIff(t: Tools, content: Content, runId: string, entries: seq<InventoryEntry>, hash: string)
    ensures ReadHeader(t, content) == Ok(Header(runId, EntriesToJson(entries).items, hash)) <==>
            t.loads(content).Some? && IsInventory(t.loads(content).value, runId, entries, hash)
  {
    hide PyEq, EntryToJson;
    var items := EntriesToJson(entries).items;
    assert EntriesToJson(entries) == Arr(items);
  }

  /**
   Whatever the directory, it is accepted exactly when its inventory is read as a list of entries with
   distinct paths, each of which gives the size and the digest of a file that is there under a valid name,
   that name every file not called inventory.json, and whose canonical digest is the recorded bundle hash.
   */
  lemma VerifiedIff(t: Tools, d: Directory, v: BundleVerification)
    ensures Verified(t, d) == Ok(v) <==> Summarizes(t, d, v)
  {
    hide ReadHeader, VerifyEntries, BundleHash, ActualNames, PathsOf, TotalBytes, EntryToJson, DistinctPaths, Describes, IsInventory;
    if [INVENTORY] in d {
      var content := d[[INVENTORY]];
      HeaderIff(t, content, v.runId, v.entries, v.bundleHash);
      if ReadHeader(t, content).Ok? {
        var header := ReadHeader(t, content).value;
        if VerifyEntries(t, d, header.raws).Ok? {
          EntriesAreDescribed(t, d, header.raws);
        }
        if Inventories(t, d, v.entries) && header.raws == EntriesToJson(v.entries).items {
          EntriesRoundTrip(t, d, v.entries);
        }
      }
    }
  }

  // ----- the writer and the verifier agree -----

  /** The name is written where a reader of the directory will find it under the same name. */
  predicate Findable(name: string) {
    IsCanonical(name) && Parts(name) != [] && Last(Parts(name)) != INVENTORY
  }

  /** The names whose files have been staged, for canonical names: each in its own place, and nothing else. */
  ghost predicate Holds(d: Directory, files: Files, names: seq<string>)
    requires forall name <- names :: name in files
  {
    && (forall name <- names :: Parts(name) in d && d[Parts(name)] == files[name])
    && (forall k | k in d :: exists name :: name in names && Parts(name) == k)
  }

  lemma {:induction false} StagedHolds(files: Files, order: seq<string>)
    requires Distinct(order) && (forall name <- order :: name in files && IsCanonical(name))
    requires Staged(files, order).Ok?
    ensures Holds(Staged(files, order).value, files, order)
  {
    hide Parts, Obstructed;
    if order != [] {
      var name := Last(order);
      assert name in order && forall x <- Front(order) :: x in order && x != name;
      StagedHolds(files, Front(order));
      var before, after := Staged(files, Front(order)).value, Staged(files, order).value;
      assert after == before[Parts(name) := files[name]];
      forall x | x in order ensures Parts(x) in after && after[Parts(x)] == files[x] {
        if x != name {
          assert x in Front(order);
          assert AsPosix(Parts(x)) == x && AsPosix(Parts(name)) == name;
        }
      }
      forall k | k in after ensures exists x :: x in order && Parts(x) == k {
        if k in before {
          var x :| x in Front(order) && Parts(x) == k;
          assert x in order && Parts(x) == k;
        } else {
          assert name in order && Parts(name) == k;
        }
      }
    }
  }

  /** Every staged path is a valid name's components. */
  lemma {:induction false} StagedPathsAreComponents(files: Files, order: seq<string>)
    requires forall name <- order :: name in files && ValidName(name)
    requires Staged(files, order).Ok?
    ensures forall k | k in Staged(files, order).value :: AreComponents(k)
  {
    hide Parts, Obstructed, AreComponents, ValidName;
    if order != [] {
      assert Last(order) in order && forall x <- Front(order) :: x in order;
      StagedPathsAreComponents(files, Front(order));
      ValidPartsAreComponents(Last(order));
    }
  }

  lemma EntriesListFiles(t: Tools, files: Files)
    ensures DistinctPaths(EntriesOf(t, files)) && PathsOf(EntriesOf(t, files)) == files.Keys
    ensures forall i | 0 <= i < |EntriesOf(t, files)| ::
              var e := EntriesOf(t, files)[i];
              e.path in files && e.byteCount == |files[e.path]| && e.sha256 == t.sha(files[e.path])
  {
    var names, entries := SortedStrings(files.Keys), EntriesOf(t, files);
    forall i, j | 0 <= i < j < |entries| ensures entries[i].path != entries[j].path {
      StrLessTrichotomy(names[i], names[j]);
    }
    forall i | 0 <= i < |entries| ensures entries[i].path == names[i] && names[i] in files {
      assert names[i] in names;
    }
    forall name ensures name in PathsOf(entries) <==> name in files.Keys {
      if name in files {
        var i :| 0 <= i < |names| && names[i] == name;
        assert entries[i].path == name;
      }
    }
  }

  lemma CanonicalAreFound(d: Directory, files: Files, order: seq<string>, inventory: Content)
    requires Ordering(order, files) && Holds(d, files, order)
    requires forall name | name in files :: Findable(name)
    ensures ActualNames(d[[INVENTORY] := inventory]) == files.Keys
  {
    hide Parts;
    var full := d[[INVENTORY] := inventory];
    forall name ensures name in ActualNames(full) <==> name in files.Keys {
      if name in files {
        assert name in order;
        assert Parts(name) in full && Last(Parts(name)) != INVENTORY && AsPosix(Parts(name)) == name;
      }
      if name in ActualNames(full) {
        var k :| k in full && k != [] && Last(k) != INVENTORY && AsPosix(k) == name;
        assert k != [INVENTORY];
        var x :| x in order && Parts(x) == k;
        assert name == x;
      }
    }
  }

  lemma FilesDescribed(t: Tools, d: Directory, files: Files, order: seq<string>, inventory: Content)
    requires Ordering(order, files) && Holds(d, files, order)
    requires forall name | name in files :: ValidName(name) && Findable(name)
    ensures forall i | 0 <= i < |EntriesOf(t, files)| :: Describes(t, d[[INVENTORY] := inventory], EntriesOf(t, files)[i])
  {
    hide Parts, ValidName;
    var entries := EntriesOf(t, files);
    EntriesListFiles(t, files);
    forall i | 0 <= i < |entries| ensures Describes(t, d[[INVENTORY] := inventory], entries[i]) {
      var name := entries[i].path;
      assert name in order && Findable(name);
      assert Last([INVENTORY]) == INVENTORY;
      assert Parts(name) != [INVENTORY];
    }
  }

  /** Whatever canonical names the writer is given, the verifier accepts what it wrote, and summarizes it alike. */
  lemma WrittenVerifies(t: Tools, runId: string, files: Files, order: seq<string>)
    requires Ordering(order, files) && Prepared(t, runId, files).Ok?
    requires Finished(files, order, Prepared(t, runId, files).value.inventory).Ok?
    requires ReadsBack(t, InventoryToJson(runId, EntriesOf(t, files), BundleHash(t, EntriesOf(t, files))))
    requires forall name | name in files :: Findable(name)
    ensures var m := Prepared(t, runId, files).value;
            Verified(t, Finished(files, order, m.inventory).value) == Ok(Summary(t, runId, m))
  {
    hide Parts, ValidName, BundleHash, JsonBytes, ReadHeader, Findable, Describes, EntriesOf, VerifyEntries, ActualNames, Holds,
         IsCanonical;
    var m := Prepared(t, runId, files).value;
    var staged := Staged(files, order).value;
    var d := Finished(files, order, m.inventory).value;
    assert forall name <- order :: IsCanonical(name) by { FindableIsCanonical(files, order); }
    StagedHolds(files, order);
    EntriesListFiles(t, files);
    FilesDescribed(t, staged, files, order, m.inventory);
    CanonicalAreFound(staged, files, order, m.inventory);
    assert d == staged[[INVENTORY] := m.inventory];
    HeaderRoundTrip(t, runId, m.entries, m.bundleHash);
    EntriesRoundTrip(t, d, m.entries);
  }

  lemma FindableIsCanonical(files: Files, order: seq<string>)
    requires Ordering(order, files) && forall name | name in files :: Findable(name)
    ensures forall name <- order :: IsCanonical(name)
  {
    hide IsCanonical, Parts;
  }

  lemma ActualIsCanonical(d: Directory, name: string)
    requires forall k | k in d :: AreComponents(k)
    requires name in ActualNames(d)
    ensures Findable(name)
  {
    hide Parts, AreComponents;
    var k :| k in d && k != [] && Last(k) != INVENTORY && AsPosix(k) == name;
    PartsOfJoined(k);
  }

  /** Conversely, a directory that is accepted was written under names a reader finds. */
  lemma VerifiedAreFindable(t: Tools, runId: string, files: Files, order: seq<string>)
    requires Ordering(order, files) && Prepared(t, runId, files).Ok?
    requires Finished(files, order, Prepared(t, runId, files).value.inventory).Ok?
    requires ReadsBack(t, InventoryToJson(runId, EntriesOf(t, files), BundleHash(t, EntriesOf(t, files))))
    requires Verified(t, Finished(files, order, Prepared(t, runId, files).value.inventory).value).Ok?
    ensures forall name | name in files :: Findable(name)
  {
    hide Parts, ValidName, BundleHash, JsonBytes, ReadHeader, Findable, Describes, EntriesOf, VerifyEntries, ActualNames, AreComponents,
         Obstructed;
    var m := Prepared(t, runId, files).value;
    var d := Finished(files, order, m.inventory).value;
    StagedPathsAreComponents(files, order);
    assert AreComponents([INVENTORY]) by { InventoryIsComponent(); }
    HeaderRoundTrip(t, runId, m.entries, m.bundleHash);
    var entries := VerifyEntries(t, d, EntriesToJson(m.entries).items).value;
    EntriesAreDescribed(t, d, EntriesToJson(m.entries).items);
    EntriesToJsonInjective(entries, m.entries);
    EntriesListFiles(t, files);
    forall name | name in files ensures Findable(name) {
      ActualIsCanonical(d, name);
    }
  }

  lemma InventoryIsComponent()
    ensures AreComponents([INVENTORY])
  {
  }

  lemma EntriesToJsonInjective(a: seq<InventoryEntry>, b: seq<InventoryEntry>)
    requires EntriesToJson(a).items == EntriesToJson(b).items
    ensures a == b
  {
    assert |a| == |EntriesToJson(a).items| == |EntriesToJson(b).items| == |b|;
    forall i | 0 <= i < |a| ensures a[i] == b[i] {
      assert EntriesToJson(a).items[i] == EntryToJson(a[i]) && EntriesToJson(b).items[i] == EntryToJson(b[i]);
      EntryToJsonInjective(a[i], b[i]);
    }
  }

  lemma EntryToJsonInjective(a: InventoryEntry, b: InventoryEntry)
    requires EntryToJson(a) == EntryToJson(b)
    ensures a == b
  {
    var f, g := EntryToJson(a).fields, EntryToJson(b).fields;
    assert f["path"] == Str(a.path) && f["sha256"] == Str(a.sha256) && f["bytes"] == Int(a.byteCount);
    assert g["path"] == Str(b.path) && g["sha256"] == Str(b.sha256) && g["bytes"] == Int(b.byteCount);
  }

  /**
   The writer and the verifier agree on exactly the bundles whose names are canonical and never end in
   inventory.json; there the verifier's summary is the writer's.
   */
  lemma CreatedVerifiesIff(t: Tools, runId: string, files: Files, order: seq<string>)
    requires Ordering(order, files) && Prepared(t, runId, files).Ok?
    requires Finished(files, order, Prepared(t, runId, files).value.inventory).Ok?
    requires ReadsBack(t, InventoryToJson(runId, EntriesOf(t, files), BundleHash(t, EntriesOf(t, files))))
    ensures var m := Prepared(t, runId, files).value;
            var verified := Verified(t, Finished(files, order, m.inventory).value);
            && (verified.Ok? <==> forall name | name in files :: Findable(name))
            && (verified.Ok? ==> verified.value == Summary(t, runId, m))
  {
    hide Prepared, Finished, Verified, Findable, ReadsBack, EntriesOf, BundleHash;
    if forall name | name in files :: Findable(name) {
      WrittenVerifies(t, runId, files, order);
    }
    if Verified(t, Finished(files, order, Prepared(t, runId, files).value.inventory).value).Ok? {
      VerifiedAreFindable(t, runId, files, order);
    }
  }

  // ----- the inventory commits to the listed contents -----

  /** Two accepted directories with one inventory list the same names with the same contents. */
  lemma InventoryCommits(t: Tools, d: Directory, e: Directory, contents: set<Content>)
    requires Verified(t, d).Ok? && Verified(t, e).Ok? && d[[INVENTORY]] == e[[INVENTORY]]
    requires CollisionFree(t.sha, contents)
    requires (forall k | k in d :: d[k] in contents) && (forall k | k in e :: e[k] in contents)
    ensures Verified(t, d) == Verified(t, e)
    ensures forall x <- Verified(t, d).value.entries ::
              Parts(x.path) in d && Parts(x.path) in e && d[Parts(x.path)] == e[Parts(x.path)]
  {
    hide Parts, ValidName, BundleHash, ReadHeader, EntryToJson, VerifyEntry, ActualNames, EntriesToJson, PathsOf;
    var header := ReadHeader(t, d[[INVENTORY]]).value;
    var xs, ys := VerifyEntries(t, d, header.raws).value, VerifyEntries(t, e, header.raws).value;
    EntriesAreDescribed(t, d, header.raws);
    EntriesAreDescribed(t, e, header.raws);
    EntriesToJsonInjective(xs, ys);
    forall x | x in xs ensures Parts(x.path) in d && Parts(x.path) in e && d[Parts(x.path)] == e[Parts(x.path)] {
      var i :| 0 <= i < |xs| && xs[i] == x;
      assert Describes(t, d, xs[i]) && Describes(t, e, ys[i]);
    }
  }

  /** Every path of the directory is made of components, as a file system's are. */
  ghost predicate WellFormed(d: Directory) {
    forall k | k in d :: AreComponents(k)
  }

  /** Apart from files called inventory.json, two accepted directories with one inventory are the same directory. */
  lemma SameInventorySameDirectory(t: Tools, d: Directory, e: Directory, contents: set<Content>, k: seq<string>)
    requires WellFormed(d) && WellFormed(e)
    requires Verified(t, d).Ok? && Verified(t, e).Ok? && d[[INVENTORY]] == e[[INVENTORY]]
    requires CollisionFree(t.sha, contents)
    requires (forall k | k in d :: d[k] in contents) && (forall k | k in e :: e[k] in contents)
    requires AreComponents(k) && Last(k) != INVENTORY
    ensures (k in d <==> k in e) && (k in d ==> d[k] == e[k])
  {
    hide Parts, AreComponents, ReadHeader, VerifyEntries, BundleHash, CollisionFree;
    InventoryCommits(t, d, e, contents);
    ListedIffPresent(t, d, k);
    ListedIffPresent(t, e, k);
    PartsOfJoined(k);
  }

  /** In an accepted directory, a file not called inventory.json is present exactly when it is listed. */
  lemma ListedIffPresent(t: Tools, d: Directory, k: seq<string>)
    requires WellFormed(d) && Verified(t, d).Ok? && AreComponents(k) && Last(k) != INVENTORY
    ensures k in d <==> exists x :: x in Verified(t, d).value.entries && x.path == AsPosix(k)
  {
    hide Parts, AsPosix, ReadHeader, BundleHash, IsCanonical, VerifyEntry;
    var entries := Verified(t, d).value.entries;
    assert ActualNames(d) == PathsOf(entries);
    assert k != [] by { assert AreComponents(k); }
    PartsOfJoined(k);
    if k in d {
      assert AsPosix(k) in ActualNames(d);
      var i :| 0 <= i < |entries| && entries[i].path == AsPosix(k);
      assert entries[i] in entries;
    }
    if x :| x in entries && x.path == AsPosix(k) {
      var i :| 0 <= i < |entries| && entries[i] == x;
      assert AsPosix(k) in PathsOf(entries);
      var j :| j in d && j != [] && Last(j) != INVENTORY && AsPosix(j) == AsPosix(k);
      PartsOfJoined(j);
    }
  }
}
