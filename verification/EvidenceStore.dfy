/**
 Finalizing a run's evidence (artifacts.py, `create_evidence_bundle`), recovering it (evidence.py), and
 what a crash in between leaves.
 */
module EvidenceStore {
  import opened Basics
  import opened Json
  import opened Text
  import opened Bytes
  import opened Printer
  import opened Paths
  import opened Artifacts
  import opened Evidence
  import opened BudgetedEvidence
  import opened Budget

  /** The entries of the artifact root. */
  type Disk = map<string, Directory>

  /** What the writer returns or raises, for the root as it finds it. */
  function CreateOutcome(t: Tools, disk: Disk, runId: string, files: Files, order: seq<string>, maxBytes: int)
    : Result<BundleVerification, BundleError>
    requires forall name <- order :: name in files
  {
    hide Prepared, Finished;
    var m :- Prepared(t, runId, files);
    if runId in disk then Err(AlreadyExists)
    else if m.totalBytes > maxBytes then Err(TooLarge)
    else
      var _ :- Finished(files, order, m.inventory);
      Ok(Summary(t, runId, m))
  }

  /** A state of the root during a write: as before it, staging aside, or with the finished bundle under the run's name. */
  predicate CrashSafe(before: Disk, now: Disk, runId: string, staging: string, finished: Option<Directory>) {
    now - {staging} == before || (runId !in before && finished.Some? && now == before[runId := finished.value])
  }

  /** Every state agrees with the first outside the staging name. */
  ghost predicate OnlyStaging(before: Disk, states: seq<Disk>, staging: string) {
    forall i | 0 <= i < |states| :: states[i] - {staging} == before
  }

  lemma NoStates(before: Disk, staging: string)
    ensures OnlyStaging(before, [], staging)
  {
  }

  lemma StagingPut(before: Disk, states: seq<Disk>, staging: string, d: Directory)
    requires staging !in before && OnlyStaging(before, states, staging)
    ensures OnlyStaging(before, states + [before[staging := d]], staging)
    ensures OnlyStaging(before, states + [before], staging)
    ensures before[staging := d] - {staging} == before
  {
    assert before[staging := d] - {staging} == before;
    assert before - {staging} == before;
  }

  /** The finished bundle, when there is one. */
  function FinishedBundle(t: Tools, runId: string, files: Files, order: seq<string>): Option<Directory>
    requires forall name <- order :: name in files
  {
    hide Prepared, Finished;
    match Prepared(t, runId, files)
    case Err(_) => None
    case Ok(m) => match Finished(files, order, m.inventory) case Ok(d) => Some(d) case Err(_) => None
  }

  lemma {:induction false} ObstructionDecides(files: Files, order: seq<string>, n: nat)
    requires (forall name <- order :: name in files) && n <= |order|
    requires forall name <- order[..n] :: name in files
    requires Staged(files, order[..n]).Err?
    ensures Staged(files, order) == Staged(files, order[..n])
    decreases |order|
  {
    hide WriteFile, Parts;
    if n < |order| {
      assert Front(order)[..n] == order[..n];
      assert forall name <- Front(order) :: name in order;
      ObstructionDecides(files, Front(order), n);
    } else {
      assert order[..n] == order;
    }
  }

  lemma NothingStaged(files: Files, order: seq<string>)
    ensures Staged(files, order[..0]) == Ok(map[])
  {
  }

  /** One more file written: the staging directory, or the failure that decides the whole write. */
  lemma StageStep(files: Files, order: seq<string>, i: nat)
    requires i < |order| && (forall name <- order :: name in files)
    ensures (forall name <- order[..i] :: name in files) && (forall name <- order[..i + 1] :: name in files)
    ensures Staged(files, order[..i]).Ok? ==>
              var written := WriteFile(Staged(files, order[..i]).value, Parts(order[i]), files[order[i]]);
              && Staged(files, order[..i + 1]) == written
              && (written.Err? ==> Staged(files, order) == written)
  {
    hide WriteFile, Parts;
    assert forall name <- order[..i] :: name in order;
    assert forall name <- order[..i + 1] :: name in order;
    assert Front(order[..i + 1]) == order[..i] && Last(order[..i + 1]) == order[i];
    if Staged(files, order[..i + 1]).Err? {
      ObstructionDecides(files, order, i + 1);
    }
  }

  class ArtifactRoot {
    var bundles: Disk
    /** Every state the root has been in: any of them may be what a crash leaves. */
    ghost var trail: seq<Disk>

    ghost predicate Valid()
      reads this
    {
      trail != [] && Last(trail) == bundles
    }

    constructor (existing: Disk)
      ensures Valid() && bundles == existing && trail == [existing]
    {
      bundles := existing;
      trail := [existing];
    }

    method Put(name: string, d: Directory)
      requires Valid()
      modifies this
      ensures Valid() && bundles == old(bundles)[name := d] && trail == old(trail) + [bundles]
    {
      bundles := bundles[name := d];
      trail := trail + [bundles];
    }

    method Remove(name: string)
      requires Valid()
      modifies this
      ensures Valid() && bundles == old(bundles) - {name} && trail == old(trail) + [bundles]
    {
      bundles := bundles - {name};
      trail := trail + [bundles];
    }

    method Rename(source: string, target: string)
      requires Valid() && source in bundles && target != source
      modifies this
      ensures Valid() && bundles == (old(bundles) - {source})[target := old(bundles)[source]] && trail == old(trail) + [bundles]
    {
      bundles := (bundles - {source})[target := bundles[source]];
      trail := trail + [bundles];
    }

    /** Writes the files and then the inventory beneath the staging name, which is removed if a write fails. */
    method Stage(files: Files, order: seq<string>, inventory: Content, staging: string)
      returns (finished: Result<Directory, BundleError>, ghost states: seq<Disk>)
      requires Valid() && staging !in bundles
      requires forall name <- order :: name in files
      modifies this
      ensures Valid() && trail == old(trail) + states && OnlyStaging(old(bundles), states, staging)
      ensures finished == Finished(files, order, inventory)
      ensures bundles == if finished.Ok? then old(bundles)[staging := finished.value] else old(bundles)
    {
      hide WriteFile, Parts, OnlyStaging, Staged;
      ghost var before := bundles;
      var staged: Directory := map[];
      StagingPut(before, [], staging, staged) by { assert OnlyStaging(before, [], staging) by { NoStates(before, staging); } }
      Put(staging, staged);
      states := [bundles];
      assert [] + [bundles] == states && Staged(files, order[..0]) == Ok(staged) by { NothingStaged(files, order); }
      for i := 0 to |order|
        invariant Valid() && trail == old(trail) + states && OnlyStaging(before, states, staging)
        invariant bundles == before[staging := staged]
        invariant forall name <- order[..i] :: name in files
        invariant Staged(files, order[..i]) == Ok(staged)
      {
        StageStep(files, order, i);
        var written := WriteFile(staged, Parts(order[i]), files[order[i]]);
        StagingPut(before, states, staging, if written.Ok? then written.value else staged);
        if written.Err? {
          Remove(staging);
          assert bundles == before;
          states := states + [before];
          return Err(written.error), states;
        }
        staged := written.value;
        Put(staging, staged);
        assert bundles == before[staging := staged];
        states := states + [bundles];
      }
      assert order[..|order|] == order;
      var written := WriteFile(staged, [INVENTORY], inventory);
      StagingPut(before, states, staging, if written.Ok? then written.value else staged);
      if written.Err? {
        Remove(staging);
        assert bundles == before;
        states := states + [before];
        return Err(written.error), states;
      }
      Put(staging, written.value);
      assert bundles == before[staging := written.value];
      states := states + [bundles];
      return written, states;
    }

    /** `create_evidence_bundle` */
    method Create(t: Tools, runId: string, files: Files, order: seq<string>, maxBytes: int, staging: string)
      returns (outcome: Result<BundleVerification, BundleError>)
      requires Valid() && staging != runId && staging !in bundles
      requires forall name <- order :: name in files
      modifies this
      ensures Valid() && old(trail) <= trail
      ensures outcome == CreateOutcome(t, old(bundles), runId, files, order, maxBytes)
      ensures outcome.Err? ==> bundles == old(bundles)
      ensures outcome.Ok? ==> FinishedBundle(t, runId, files, order).Some?
                              && bundles == old(bundles)[runId := FinishedBundle(t, runId, files, order).value]
      ensures forall i | |old(trail)| <= i < |trail| ::
                CrashSafe(old(bundles), trail[i], runId, staging, FinishedBundle(t, runId, files, order))
    {
      hide Prepared, Finished;
      var prepared := Prepared(t, runId, files);
      if prepared.Err? {
        return Err(prepared.error);
      }
      if runId in bundles {
        return Err(AlreadyExists);
      }
      if prepared.value.totalBytes > maxBytes {
        return Err(TooLarge);
      }
      var finished, states := Stage(files, order, prepared.value.inventory, staging);
      assert forall i | |old(trail)| <= i < |trail| :: trail[i] == states[i - |old(trail)|];
      if finished.Err? {
        return Err(finished.error);
      }
      Rename(staging, runId);
      assert bundles == old(bundles)[runId := finished.value];
      return Ok(Summary(t, runId, prepared.value));
    }
  }
}
