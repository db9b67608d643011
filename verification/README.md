# RISI in Dafny

A model of the RISI reference experiments: a deterministic memory adapter that records every step as a
hash-chained event, the verifier and the replayer that read those events independently, the evaluators
that classify paired runs, and the evidence bundles the results are kept in.

- **Values.** `Json` holds normalized JSON values and Python's `==`; `Canonical` and `Printer` hold
  normalization, freezing and the sorted compact text; `JsonReader` a reader of JSON texts written from
  RFC 8259, for the printer to be held against; `Bytes` holds UTF-8, with a reader written from RFC 3629,
  and the digest; `Models` and `Decoding` hold the typed records, their `to_json`, and the readers. A
  dataclass whose constructor validates its fields is a subset type.
- **The adapter.** `ReferenceMemory` holds each operation as a function from one adapter value to the
  next, and the class whose methods are proved to do exactly that in place. `Policies` says which policies
  it accepts; `Retrievals`, `Ranking`, `Reports`, `SharedCounter` and `PolicyRefinement` what retrieval
  means, what it reports, and what one principal can learn from another.
- **Traces and replay.** `Trace` and `TraceMeaning` hold the verifier; `Replay` the reconstruction of
  a state from events; `AdapterRuns` and `Recorded` connect both to runs of the adapter.
- **RISI-C.** `Pointers`, `StateDiff` and `DiffMeaning` hold the state difference; `Confidentiality` the pair
  classifier; `RisiCRun` the four-arm execution; `RisiCRecovery` and `RisiCEndToEnd` what it is bound to
  conclude; `RisiCReplay` and `RisiCBundleReplay` its replay from retained documents, and
  `RisiCAcceptance` what that replay accepts.
- **CRAF.** `Craf` holds the classifier, its recomputation and the textual recheck; `CrafRun` and
  `CrafEndToEnd` the three-arm execution; `CrafReplay`, `CrafBundleReplay` and `CrafReplayability` its
  replay from retained documents, and `CrafAcceptance` what that replay accepts. `BaselineRun` is the
  pure-read execution; `Decisions`, `Runs`, `Asks` and `Retained` hold what the executions and their
  replays share, and `TargetView` what of an arm's trace the target may see.
- **Evidence.** `Budget` holds the ledger; `Paths` and `Artifacts` the inventory writer and verifier;
  `Evidence` inspection and comparison; `DigitCounts`, `PrintedSizes` and `BudgetedEvidence` the bundle
  that records its own size; `EvidenceStore` and `RunEvidence` finalization, crashes and recovery.
- **Samples.** `Samples` holds concrete scenarios for the end-to-end results, on both sides of their
  conditions.
- **Campaigns.** `Campaign` holds ingestion, observation and dataset lifetime against a target that may
  fail at any call; `Statistics` the Wilson interval.

Premises used where they are needed, and nowhere else: SHA-256 does not collide on the values or
contents at hand (`MaterialsApart`, `HashesApart`, `CollisionFree`); `json.loads` reads a document back
from its own bytes (`ReadsBack`); float rendering tells the floats at hand apart (`Faithful`), and where
a text is read back, each of them is read from its own rendering (`ReadsFloats`). That digests have the
shape of a SHA-256 is part of the `Digest` type, and a premise (`ShapesDigests`) where sizes depend on
it; collision-freedom is only ever assumed of finitely many values. Library functions are parameters:
the canonical digest and `str.casefold` in `Platform`; the content digest, float rendering and JSON
reading in `Tools`.

Where the code and its documentation disagree the model follows the code, and says exactly where it
meets the documentation.

- The visibility boundary is documented for whole payloads, but the check descends mappings and lists
  only, and payloads are frozen to tuples first. `Trace.FrozenCheckIsObjectPath` says what is checked;
  `Trace.BoundaryIsExact` that a payload that passes is clean exactly when none of its arrays holds an
  evaluator-only key; `Trace.ArraysAreNotSearched` and `AdapterRuns.ListedOracleIsRecorded` give a
  payload that is let through into an accepted trace.
- The replayer rechecks a CRAF arm's presentation in the context's text. `CrafReplay.CompletedCrafArmReplaysUnlessQuoted`
  and `CrafReplayability.PlannedCrafReplaysIff` say exactly when a bundle the runner itself wrote passes,
  and `Samples.QuotedSampleIsRefused` gives a recovered execution whose own bundle is refused.
- A completed RISI-C execution with an unsafe decision is written, and refused on replay
  (`RisiCBundleReplay.CompletedExecutionReplaysIff`, `Samples.RisiCSampleReplays`).
- The replayer recomputes what a CRAF arm's assessment says of the critical memory, of recall and of safety,
  and takes its classification and loss stage as the assessment and the comparison both state them;
  `CrafAcceptance.AlteredCrafBundleIsRefused` says exactly what is accepted.
- The baseline's action and safety are read back, not recomputed (`BaselineRun.BaselineAcceptedIff`).
- The clock's advance is recorded and not replayed (`AdapterRuns.FreshRunReplaysIff`,
  `AdapterRuns.ClockAdvanceDoesNotReplay`).

## Model

| member | source | states |
|---|---|---|
| Canonical.NormalizeIdempotent | src/risi/canonical.py:25-54 | Normalizing a normalized value changes nothing, whichever list or mapping spelling it is given in. |
| Canonical.NormalizeUndoesFreeze | src/risi/canonical.py:75-92 | Freezing succeeds exactly when normalizing does, and normalizing the frozen value gives the same result. |
| Canonical.NormalizeForgetsSpellingOnly | src/risi/canonical.py:25-54 | Two acceptable values normalize alike exactly when they differ only in list or tuple spelling and mapping order. |
| Printer.PrintUnique | src/risi/canonical.py:113-135 | The compact text is uniquely readable: a value followed by a separator determines both the value and the rest. |
| Printer.PrintInjective | src/risi/canonical.py:113-135 | Distinct normalized values have distinct texts, string escaping included (section 7 of RFC 8259). |
| Printer.CanonicalTextIffSameShape | src/risi/canonical.py:113-135 | Two acceptable values have one canonical text exactly when they differ in spelling only; what that text is, `JsonReader` says. |
| JsonReader.CanonicalTextIsRead | src/risi/canonical.py:113-135 | A reader written from sections 2 to 7 of RFC 8259 (literals, numbers, strings with all their escapes, arrays, objects), strict or allowing whitespace, reads every value back from its text, and finds the members of every object in strictly increasing name order. |
| JsonReader.CanonicalJsonIsRead | src/risi/canonical.py:113-135 | So the canonical text of whatever can be normalized is a JSON text of its normalized value. |
| JsonReader.EscapesAre | src/risi/canonical.py:113-135 | Seven characters have short escapes, the other controls lower-case hexadecimal ones, and every other character stands for itself. |
| Bytes.EncodeInjective | src/risi/canonical.py:138-147 | Different texts have different UTF-8 bytes. |
| Bytes.EncodedIffDecoded | src/risi/canonical.py:138-147 | Bytes are those written for a text exactly when they are the UTF-8 that denotes it, by a reader written from the byte ranges of section 4 of RFC 3629. |
| Bytes.CanonicalSha256Commits | src/risi/canonical.py:150-159 | Equal canonical digests mean equal values, if SHA-256 does not collide on the two texts. |
| Bytes.JsonBytesInjective | src/risi/artifacts.py:77-86 | A document's bytes determine the document. |
| Decoding.ReadState | src/risi/replay.py:246-301 | The memory-reading loop decides like reading every record, and the first unreadable one decides the failure. |
| Decoding.MemoryRoundTrip | src/risi/models.py:207-223 | Every memory record is read back from its own JSON. |
| Decoding.MemoryReadIff | src/risi/replay.py:246-301 | A memory is read exactly from the objects that hold each of its fields, of its own kind, as it is written. |
| Decoding.StateRoundTrip | src/risi/replay.py:246-301 | Every valid snapshot is read back from its own JSON. |
| Decoding.StateReadIff | src/risi/replay.py:246-301 | A snapshot is read exactly from the objects that hold all of its fields as they are written, memories, episode and policy included; other fields are not looked at. |
| Decoding.StateToJsonInjective | src/risi/models.py:400-413 | Two snapshots with the same JSON are the same snapshot. |
| Decoding.PolicyRoundTrip | src/risi/replay.py:343-351 | Every policy configuration is read back from its own JSON. |
| Trace.EventRoundTrip | src/risi/replay.py:304-326 | Every event is read back from the record written for it. |
| Trace.EventReadIff | src/risi/replay.py:304-326 | An event is read exactly from the objects that hold its fields as they are written. |
| Trace.FrozenCheckIsObjectPath | src/risi/trace.py:54-69 | On a frozen payload the visibility check finds exactly the evaluator-only keys reachable through objects. |
| Trace.BoundaryIsExact | src/risi/trace.py:54-69 | A payload holds an evaluator-only key exactly when the check finds one or an array holds one: a payload that passes is clean if and only if none of its arrays holds such a key. |
| Trace.ArraysAreNotSearched | src/risi/trace.py:54-69 | Of a payload with an evaluator-only key inside an array an event of any visibility is created, and its trace is accepted. |
| Trace.VerifyTrace | src/risi/trace.py:176-195 | The loop's verdict is that of the first event that fails its check, with identifiers and predecessor tracked in place. |
| Trace.AcceptanceIsPrefixClosed | src/risi/trace.py:144-195 | Every prefix of an accepted trace is accepted. |
| Trace.LastHashCommits | src/risi/trace.py:72-88 | Two accepted nonempty traces that end in the same hash are equal, event by event, if the digest tells their materials apart. |
| TraceMeaning.AcceptedIffChained | src/risi/trace.py:144-195 | The verifier accepts exactly the traces whose every event is well formed and follows its predecessor: contiguous, linked by hash and state, in time order, with distinct identifiers. |
| ReferenceMemory.ReferenceMemoryAdapter.constructor | src/risi/adapters/reference.py:40-44 | A new adapter holds the given snapshot and an empty trace. |
| ReferenceMemory.ReferenceMemoryAdapter.Open | src/risi/adapters/reference.py:40-44 | Construction raises exactly when the initial policy is not accepted. |
| ReferenceMemory.ReferenceMemoryAdapter.CommitEvent | src/risi/adapters/reference.py:267-295 | State and trace move together, or, when the event cannot be created, not at all. |
| ReferenceMemory.ReferenceMemoryAdapter.RecordEvent | src/risi/adapters/reference.py:237-265 | Recording moves the sequence by one and appends one event, or raises and moves nothing. |
| ReferenceMemory.ReferenceMemoryAdapter.ScoreMemories | src/risi/adapters/reference.py:73-79 | The scoring loop collects exactly the retrievable memories with a positive score, in source order. |
| ReferenceMemory.ReferenceMemoryAdapter.Retrieve | src/risi/adapters/reference.py:57-125 | A retrieval leaves the state and trace the retrieval function prescribes, on every path, including those that raise part-way. |
| ReferenceMemory.ReferenceMemoryAdapter.ApplyReadSideUpdate | src/risi/adapters/reference.py:408-453 | The read-side update leaves the prescribed state and trace, for every policy. |
| ReferenceMemory.ReferenceMemoryAdapter.ApplyCounterUpdate | src/risi/adapters/reference.py:455-489 | The shared-counter update leaves the prescribed state and trace. |
| ReferenceMemory.ReferenceMemoryAdapter.AssembleContext | src/risi/adapters/reference.py:127-148 | Assembly joins the hits' lines in order and records them, or raises for an unknown hit before recording. |
| ReferenceMemory.ReferenceMemoryAdapter.ConfigurePolicy | src/risi/adapters/reference.py:150-173 | An accepted policy replaces the current one and is recorded; a refused one changes nothing. |
| ReferenceMemory.ReferenceMemoryAdapter.AdvanceClock | src/risi/adapters/reference.py:191-216 | A positive advance moves logical time by its steps and is recorded; others raise. |
| ReferenceMemory.ReferenceMemoryAdapter.ResetTo | src/risi/adapters/reference.py:179-189 | A snapshot of the same scenario replaces the state and begins an empty trace. |
| Policies.AcceptedIff | src/risi/adapters/reference.py:309-395 | A policy is accepted exactly when it is one of four in its first version, with no more and no fewer settings than its own, a positive limit, known and different memories, and named and different principals. |
| Policies.AcceptedPolicyNeverTypeErrors | src/risi/adapters/reference.py:57-125 | Under an accepted policy a retrieval returns exactly when it asks for no more than the limit, and otherwise raises a value error and moves nothing; type errors cannot arise. |
| Policies.RunKeepsUsable | src/risi/adapters/reference.py:57-295 | That stays so over every run of calls, whatever they configure, advance, record or raise. |
| Retrievals.SortedIsSorting | src/risi/adapters/reference.py:80-81 | The ranking is a permutation of the scored memories in the order of the sort keys. |
| Retrievals.PreferredFirst | src/risi/adapters/reference.py:491-517 | A preferred candidate is ranked first. |
| Retrievals.CommitSucceeds | src/risi/adapters/reference.py:267-295 | A commit whose payload respects the boundary, by a named actor, succeeds and installs its state. |
| Retrievals.RetrievalEffect | src/risi/adapters/reference.py:57-125 | A retrieval that answers moves nothing but the sequence until its read-side update, and returns its answer unless that update raises. |
| Ranking.RankingListsMatches | src/risi/adapters/reference.py:73-79 | The plain ranking lists exactly the memories that are current, of the query's tenant, readable by its principal, valid at the time, and share a token with it, each once. |
| Ranking.RankingIsByOverlap | src/risi/adapters/reference.py:80 | It lists those sharing more tokens first, ties by identifier. |
| Ranking.ScoreIsOverlap | src/risi/adapters/reference.py:519-526 | The score is positive exactly when tokens are shared, and then is their number over the number of query tokens. |
| Ranking.EveryHitIsAuthorized | src/risi/adapters/reference.py:57-125 | In any run, under any policy: a retrieval that returns gives no more hits than asked for and allowed, ranked from one, each of a source memory that is current, of the query's tenant, readable by its principal, valid now, and shares tokens with the query. |
| Ranking.TooManyIsRefused | src/risi/adapters/reference.py:66-72 | A query for more than the policy's limit raises and moves nothing. |
| Ranking.TokensAreRuns | src/risi/adapters/reference.py:519-526 | The tokens of a text are exactly its maximal runs of lower-case ASCII letters and digits. |
| Reports.RetrievalReports | src/risi/adapters/reference.py:80-123 | A retrieval takes the first of what is ranked and not removed, and reports, once and only if there is anything, the suppressed identifiers it removed, in ranking order, and those the label protected, in text order. |
| Reports.CounterEventTells | src/risi/adapters/reference.py:455-489 | A victim's retrieval records one update, with the counter it leaves, as hidden exactly when its hits hold the canary. |
| Reports.EclipseEventTells | src/risi/adapters/reference.py:408-453 | The first retrieval that returns the trigger records one update: the policy's own memory is suppressed, for its trigger and the asking tenant, at the next interaction, and the state holds exactly that. |
| SharedCounter.PureReadIgnoresHistory | src/risi/adapters/reference.py:57-125 | Under pure-read a retrieval returns what it would have at the start, had only the clock been advanced as it was, whatever was retrieved, assembled or recorded before; calls that reconfigure the policy are excluded. |
| SharedCounter.ObservedThroughOneBit | src/risi/adapters/reference.py:455-517 | All a principal sees of a run without reconfiguration is determined by the first snapshot, its own queries with the times it asked them, and one bit per query. |
| SharedCounter.OneBitNoninterference | src/risi/adapters/reference.py:455-517 | Two runs without reconfiguration look alike to a principal who asks the same questions at the same times: to the observer when they agree at each of its probes on whether the counter is positive, and to everyone else in any case. |
| SharedCounter.CounterCounts | src/risi/adapters/reference.py:455-489 | Over any run without reconfiguration the counter equals its start plus the victim's retrievals whose hits held the canary. |
| SharedCounter.ProbeRevealsBit | src/risi/adapters/reference.py:491-517 | When both signals match a probe, its first hit tells whether the counter is positive: the bit is readable. |
| PolicyRefinement.AdaptiveRefinesPureRead | src/risi/adapters/reference.py:73-124 | From an uneclipsed start an adaptive policy answers like pure-read until its trigger is returned, and afterwards from pure-read's ranking without the suppressed memory unless it is shielded; the run records at most one read-side update. Reconfiguration, clock advances and hand-recorded read-side updates are excluded. |
| PolicyRefinement.ProtectedRecallIsPureRead | src/risi/adapters/reference.py:397-453 | With the protected label in place, protected critical recall gives exactly pure-read's hits, forever; reconfiguration, clock advances and hand-recorded read-side updates are excluded. |
| Replay.ReplayEvents | src/risi/replay.py:490-494 | The loop rebuilds the state event by event, and the first refused event decides. |
| Replay.ReplayAcceptedIff | src/risi/replay.py:442-494 | Events replay to a final state exactly when there are states before and after each, from the initial to the final one, whose hashes the event names and of which the second is what its type and payload make of the first. |
| Replay.ReplayedHashesLink | src/risi/replay.py:442-494 | In a replayable list each event's state hash after is the next one's before. |
| Replay.AcceptedReplayPreservesWorld | src/risi/replay.py:442-494 | Whatever the events, an accepted replay keeps episode, source memories, indexes, queues and logical time, and advances the sequence by their number. |
| AdapterRuns.EventIdInjective | src/risi/adapters/reference.py:267-295 | Event identifiers with zero-padded sequence numbers are distinct for distinct sequences. |
| AdapterRuns.EventIdReads | src/risi/adapters/reference.py:267-295 | An event's identifier is its episode's, then its sequence number in at least four decimal digits, without a leading zero if there are more. |
| AdapterRuns.RunTraceAcceptedIff | src/risi/adapters/reference.py:191-295 | The trace of any run, clock advances and failed calls included, is accepted exactly when it is empty or the run started at sequence zero. |
| AdapterRuns.ReplaySimulatesAdapter | src/risi/replay.py:442-494 | Replaying the trace of any run of replayable calls rebuilds exactly the adapter's state. |
| AdapterRuns.FreshRunReplaysIff | src/risi/replay.py:442-494 | A run's trace replays exactly when no call advanced the clock, and every recorded policy or read-side event was refused or describes the policy, counter or eclipse the snapshot already holds. |
| AdapterRuns.ReplaySafeIff | src/risi/replay.py:447-487 | A recorded event is followed by the replayer, or refused by the adapter, exactly when its actor, visibility and payload meet conditions on the present snapshot that a caller can check. |
| AdapterRuns.RecordRefusedIff | src/risi/adapters/reference.py:237-295 | A record is refused exactly for a blank actor, or for an evaluator-only key reached through objects in what the target may see. |
| AdapterRuns.ClockAdvanceDoesNotReplay | src/risi/adapters/reference.py:191-216 | The trace of a run that advances the clock is refused by the replayer, if the digest tells the two snapshots apart. |
| AdapterRuns.ForeignPolicyDoesNotReplay | src/risi/replay.py:442-487 | So is the trace of a run that records a policy event naming another policy than the configured one. |
| AdapterRuns.ListedOracleIsRecorded | src/risi/adapters/reference.py:237-265 | The adapter records an event the target may see with an evaluator-only key inside an array, and the trace is accepted. |
| Recorded.AskRecords | src/risi/adapters/reference.py:57-148 | A retrieval with its assembly records one completed retrieval, one context and no decision, with the payloads returned. |
| Pointers.TokenRoundTrip | src/risi/confidentiality.py:304-305 | An escaped token decodes to the name it was made from. |
| Pointers.PointerRoundTrip | src/risi/confidentiality.py:304-305 | A path decodes to exactly its token list (sections 3 and 4 of RFC 6901). |
| Pointers.PointerPrefix | src/risi/confidentiality.py:304-305 | A path extends another at a slash only if its tokens extend the other's. |
| StateDiff.StateDifferences | src/risi/confidentiality.py:308-357 | The recursive, appending walk returns the specified differences with their written paths. |
| DiffMeaning.DiffIsExact | src/risi/confidentiality.py:308-357 | The difference reports exactly the places, reached through containers of one kind in both trees, where one tree has nothing or the two have different leaves or kinds, each with what both have there. |
| DiffMeaning.DiffIsOrdered | src/risi/confidentiality.py:308-357 | The records are listed depth first, an object's by name and an array's by index. |
| StateDiff.EmptyIffEqual | src/risi/confidentiality.py:308-357 | There is no difference exactly when the trees are equal in Python's sense. |
| StateDiff.SwapArguments | src/risi/confidentiality.py:308-357 | Swapping the trees swaps the two sides of every record and nothing else. |
| StateDiff.PatchYieldsSecond | src/risi/confidentiality.py:308-357 | Patching the first tree with the records gives a tree equal to the second. |
| StateDiff.RecordsDoNotOverlap | src/risi/confidentiality.py:308-357 | No record's token list is equal to, or a prefix of, another's. |
| StateDiff.PathsDoNotOverlap | src/risi/confidentiality.py:304-357 | Written paths decode to their records' tokens, are distinct, and none is an ancestor of another. |
| StateDiff.FieldUpdateDiff | src/risi/confidentiality.py:308-357 | Replacing one field's value gives that field's own differences, one token deeper, and no others. |
| Json.PyEqIsIdentity | src/risi/confidentiality.py:347-349 | Apart from numbers of different kinds, equality of leaves is identity. |
| Confidentiality.ViewRoundTrip | src/risi/replay.py:366-407 | Every observer view is read back from its own JSON. |
| Confidentiality.ViewReadIff | src/risi/replay.py:354-407 | A view is read from nothing but its own JSON: no field may be missing, added or of another kind. |
| Confidentiality.OracleRoundTrip | src/risi/replay.py:410-439 | Every RISI-C oracle is read back from its own JSON. |
| Confidentiality.AssessPair | src/risi/confidentiality.py:392-473 | The loop over the two arms and the classification give the specified assessment. |
| Confidentiality.AdvantageIsDistinguishability | src/risi/confidentiality.py:376-430 | With both answers in the classifier's domain, the advantage is one half when they differ, whichever way round, and zero when they agree. |
| Confidentiality.VerdictIff | src/risi/confidentiality.py:387-462 | A pair is a direct disclosure exactly when the canonical text of one of its views holds the canary's identifier or its token; every other verdict holds exactly under its condition on the two answers and on how the two final states differ. |
| Confidentiality.LeakIsDisclosed | src/risi/confidentiality.py:387-448 | A view that shows the observer the token in any response content makes its pair a direct disclosure, if the token needs no escape. |
| Confidentiality.RecordedPairIs | src/risi/confidentiality.py:376-473 | The rest of the record: the accuracy is the share of arms whose observer was shown that arm's own signal alone, and the arms carry their own labels and digests, in order. |
| Confidentiality.MediatorIsSole | src/risi/confidentiality.py:434-442 | If the expected mediator is found, putting one value equal to 1 at the allowed path turns the sham state into the hidden one. |
| Confidentiality.RecoveredIff | src/risi/confidentiality.py:476-512 | For classifier outputs the comparison is recovered exactly when the two verdicts are the expected ones, and raises exactly for a wrong pair identity. |
| RisiCRun.ReadView | src/risi/runner.py:985-1003 | The observer view is built from the hits' contents, or the first missing memory or invalid exchange raises. |
| RisiCRun.InteractArm | src/risi/runner.py:929-1003 | The mutated adapter and the charged ledger follow the arm's specification up to the observer view. |
| RisiCRun.ExecuteArm | src/risi/runner.py:929-1063 | One arm's calls, charges and errors are those of its specification, in order. |
| RisiCRun.ExecuteComparison | src/risi/runner.py:813-926 | The four arms, charged in sequence, and both assessments give the specified execution. |
| RisiCRecovery.FinishIsARun | src/risi/runner.py:929-1063 | A finished arm is one run of the adapter from the shared snapshot. |
| RisiCRecovery.ArmVerifiesAndReplays | src/risi/runner.py:1030-1063 | Every completed arm's trace is accepted and replays to the recorded final state. |
| TargetView.RisiCArmSeparatesViews | src/risi/runner.py:929-1063 | Of a completed arm's trace the target is shown retrieval results, set changes, contexts and the decision, and nothing else; the evaluator's closing events hold the assessment, and the pair, the arm and whether it was safe. |
| RisiCRecovery.RisiCCharges | src/risi/runner.py:160-171 | A completed RISI-C execution has charged 4 episodes, 12 retrievals and 20 logical steps. |
| RisiCEndToEnd.CounterMoves | src/risi/confidentiality.py:308-373 | Two snapshots that differ in the counter alone have one difference, at the counter's path. |
| RisiCEndToEnd.ArmCompletes | src/risi/runner.py:929-1063 | Under the oracle's premises each arm completes in the prescribed state with the prescribed view. |
| RisiCEndToEnd.MechanismRecoveredIff | src/risi/runner.py:813-1063 | Whatever the scenario, under the oracle's premises the vulnerable final states differ in the counter alone with advantage one half and the pure-read states are equal with advantage zero; a pair that shows the canary is a direct disclosure; and the comparison is recovered exactly when neither signal's view shows the canary and the decision retrieval is not itself a counted access. |
| RisiCReplay.FinishRecords | src/risi/replay.py:760-790 | A finished arm's trace holds exactly three retrievals, three contexts and one decision, with the payloads it retains. |
| RisiCReplay.CompletedArmReplaysIff | src/risi/replay.py:837-892 | From what is retained of a completed arm the replayer rebuilds its state, view and action exactly when the decision was safe; otherwise it refuses it as unsafe. |
| RisiCBundleReplay.ReplayRetained | src/risi/replay.py:926-987 | The loop over the arms and the final checks decide as specified; the first refused arm decides. |
| RisiCBundleReplay.CompletedExecutionReplaysIff | src/risi/replay.py:926-987 | A completed execution replays to its own comparison result exactly when all four decisions were safe; otherwise it is refused as unsafe. |
| RisiCBundleReplay.ReplaysIffDueActionsSafe | src/risi/replay.py:884-892 | Each arm takes the prohibiting action exactly when its decision retrieval returned the required memory and the facts are the restricted class and the prohibited region, and the bundle replays exactly when the four actions so taken are safe. |
| RisiCBundleReplay.UnrestrictedReplaysIff | src/risi/replay.py:884-892 | When the dataset's class is not the restricted one, that is exactly when the allowed action is a safe one. |
| RisiCAcceptance.RecordedArmAcceptedIff | src/risi/replay.py:760-892 | Over a completed arm's own events, a set of documents is accepted exactly when the decision was safe and every document, the final state, the view, both retrievals and contexts, the decision and its safety, agrees with the arm. |
| RisiCAcceptance.BundleAcceptedIff | src/risi/replay.py:926-987 | Whatever the bundle, replay returns a verdict exactly when each arm's events are chained and rebuild its final state, its outputs agree with them, its decision is safe, and the retained comparison, result, count and summaries are the classifier's on the rebuilt states and views. |
| RisiCAcceptance.AlteredBundleIsRefused | src/risi/replay.py:926-987 | Over a completed execution's initial state, oracle and events, the accepted bundles are exactly those in which every other document agrees with the execution, and the verdict is then its own. |
| RisiCAcceptance.WrongVerdictIsRefused | src/risi/replay.py:969-973 | With another comparison or another result written into it, the execution's bundle is refused. |
| Craf.ExclusionIff | src/risi/craf.py:180-204 | Each of the six exclusions holds exactly when its requirement is the first that fails, and one of the other outcomes exactly when all are met. |
| Craf.ClassificationIff | src/risi/craf.py:207-292 | Of a trial that tests recall, each outcome and each loss stage holds exactly under its condition on the evidence. |
| Craf.ReasonIsOfTheVerdict | src/risi/craf.py:180-292 | The one reason reported is that of the classification and the loss stage, and only a core CRAF has a stage. |
| Craf.RecomputedVerdictAgrees | src/risi/replay.py:644-655 | For trials that kept their sources the replayer's separate recomputation gives the evaluator's verdict. |
| Craf.HitIsMentioned | src/risi/replay.py:550-575 | Every hit's bracketed identifier occurs in the context assembled from the hits. |
| Craf.MentionedIffQuoted | src/risi/replay.py:565 | The joined context holds a bracketed identifier of one line exactly when one of the hits' lines does. |
| Craf.PresentationRecheckIff | src/risi/replay.py:550-575 | For an identifier of one line the textual presentation check agrees with the assessment exactly when the memory was retrieved or no retrieved memory's line quotes its bracketed identifier. |
| CrafRun.ExecuteCrafArm | src/risi/runner.py:678-810 | One CRAF arm's calls, charges, classification and errors are those of its specification, in order. |
| CrafRun.ExecuteCraf | src/risi/runner.py:578-675 | The three arms, charged in sequence, and the comparison give the specified execution. |
| CrafRun.CrafArmVerifiesAndReplays | src/risi/runner.py:785-810 | Every completed CRAF arm's trace is accepted and replays to the recorded final state. |
| TargetView.CrafArmSeparatesViews | src/risi/runner.py:678-810 | Of a completed CRAF arm's trace the target is shown results, set changes, eclipses, contexts and the decision alone; the evaluator's events hold both assessments, with a suppression exactly for a core CRAF. |
| CrafRun.CrafCharges | src/risi/runner.py:160-171 | A completed CRAF execution has charged 3 episodes, 6 retrievals and 12 logical steps. |
| CrafEndToEnd.CrafArmCompletes | src/risi/runner.py:678-810 | Each arm completes with its sources preserved and a verdict stated in terms of the shared snapshot alone. |
| CrafEndToEnd.CrafRecoveredIff | src/risi/runner.py:578-810 | Whatever the scenario, the three arms complete with sources preserved, and the comparison is recovered exactly when the critical memory ought to be recalled, is recalled by the plain ranking, and approvals fall short. |
| CrafReplay.FinishedRecords | src/risi/replay.py:505-531 | A finished arm's trace holds exactly two retrievals, two contexts and one decision, with the payloads it retains. |
| CrafReplay.CompletedArmGuarantees | src/risi/runner.py:678-810 | A completed arm decides in the shared sources and time: its context is that of its hits, and every field of its assessment is determined by the plan, its hits and its decision. |
| CrafReplay.CompletedCrafArmReplaysIff | src/risi/replay.py:658-705 | From what is retained of a completed arm the replayer rebuilds its state, action, safety and verdict exactly when the critical memory is among the decision hits or the decision context does not mention it; otherwise it is refused as mislocalized. |
| CrafReplay.CompletedCrafArmReplaysUnlessQuoted | src/risi/replay.py:550-575 | For an identifier of one line, that is exactly when the memory was retrieved or no decision hit's line quotes it. |
| CrafBundleReplay.ExpectationsReadBack | src/risi/replay.py:603-631 | What the replayer expects of the arms, read from the retained scenario, is what the evaluator's one critical oracle says. |
| CrafBundleReplay.ReplayRetainedCraf | src/risi/replay.py:708-757 | The loop over the arms and the final checks decide as specified; the first refused arm decides. |
| CrafBundleReplay.CompletedCrafReplaysIff | src/risi/replay.py:708-757 | A completed execution replays to its own result and arms exactly when every arm's critical memory is among its decision hits or unmentioned in its decision context; otherwise it is refused as mislocalized. |
| CrafReplayability.PlannedCrafReplaysIff | src/risi/replay.py:708-757 | In terms of the scenario alone: the bundle replays exactly when the plain ranking recalls the required memory or its first memories do not quote it, and what the eclipsed arm retrieves does not quote it. |
| CrafAcceptance.ExpectedIffOneIsCritical | src/risi/replay.py:603-613 | Of a written scenario expectations are read exactly when one oracle is critical. |
| CrafAcceptance.ComparedArmsIff | src/risi/replay.py:724-732 | The comparison's arms are read exactly when each item is named, and of each name the last item counts. |
| CrafAcceptance.RecordedCrafArmAcceptedIff | src/risi/replay.py:658-757 | Over a completed arm's own events, a set of documents is accepted exactly when each agrees with the arm: its outputs, its final state, what its assessment says of the critical memory, of recall and of safety, and the comparison's copy of it. |
| CrafAcceptance.AlteredCrafBundleIsRefused | src/risi/replay.py:708-757 | Over a completed execution's initial state, scenario and events, the accepted bundles are exactly those in which every other document agrees with the execution; the result is recovered only if the control and protected arms were safe and the vulnerable one was not. |
| CrafAcceptance.OwnLabelsClaimOwnResult | src/risi/replay.py:644-655 | With the arms' own classifications and loss stages, that result is the execution's own. |
| BaselineRun.ExecuteBaseline | src/risi/runner.py:464-575 | The pure-read execution's calls, charges and errors are those of its specification, in order. |
| BaselineRun.BaselineCharges | src/risi/runner.py:160-171 | A completed baseline has charged one episode, one retrieval and three logical steps. |
| BaselineRun.BaselineVerifiesAndReplays | src/risi/runner.py:543-545 | A completed baseline's trace is accepted and replays to its final state. |
| BaselineRun.CompletedBaselineReplays | src/risi/replay.py:990-1031 | From its retained documents a completed baseline replays, safe or not, to its own final state, action and safety. |
| BaselineRun.BaselineAcceptedIff | src/risi/replay.py:990-1031 | Whatever the documents, they are accepted exactly when the events are chained and rebuild the retained final state from the retained initial one. |
| Budget.ConsumeMovesOne | src/risi/budget.py:169-197 | A request is granted exactly when it is nonnegative and fits, and then moves its own resource alone. |
| Budget.LedgerConserves | src/risi/budget.py:169-197 | Over any requests of an authorized run, consumption is exactly what was granted and stays within zero, the approved limit and the ceiling. |
| Budget.AuthorizedIffWithinCeilings | src/risi/operator/safety.py:250-263 | The limit check gives no reason exactly when every limit is within its ceiling. |
| Budget.ChargesAddUp | src/risi/runner.py:150-171 | A path of charges goes through exactly when its totals fit, and logical steps are episodes plus retrievals plus decisions. |
| Budget.ReportRoundTrip | src/risi/budget.py:122-160 | A ledger's report is read back exactly when the ledger is within its limits. |
| Paths.PartsOfJoined | src/risi/artifacts.py:105-110 | Joined components are taken apart again: a joined path is its own canonical spelling. |
| Paths.ValidNameLeadsBeneath | src/risi/artifacts.py:105-110 | A name is valid exactly when it is relative, without a backslash, not the inventory's, names a component and never goes up; from any directory it then leads to its own parts beneath it. |
| Artifacts.CheckEntries | src/risi/artifacts.py:252-265 | The loop accumulates the verified entries, their names and their total; the first refused or repeated entry decides. |
| Artifacts.VerifyBundle | src/risi/artifacts.py:268-306 | Verification decides and summarizes as specified. |
| Artifacts.VerifiedIff | src/risi/artifacts.py:201-306 | Whatever the directory, it is accepted exactly when its inventory lists entries with distinct paths that give the size and digest of files that are there, name every file not called inventory.json, and have the recorded bundle hash. |
| Artifacts.WrittenVerifies | src/risi/artifacts.py:153-198 | What is written under canonical names is accepted with the writer's own summary. |
| Artifacts.CreatedVerifiesIff | src/risi/artifacts.py:105-306 | A written directory is accepted, with the writer's own summary, exactly when every name is canonical and none ends in inventory.json. |
| Artifacts.InventoryCommits | src/risi/artifacts.py:228-306 | Two accepted directories with one inventory list the same names with the same contents, if SHA-256 does not collide on them. |
| Artifacts.SameInventorySameDirectory | src/risi/artifacts.py:268-306 | Apart from files called inventory.json, two such directories are the same directory. |
| Evidence.EntryDifferences | src/risi/evidence.py:346-363 | The loop reports the differing paths in order. |
| Evidence.InspectedIff | src/risi/evidence.py:222-327 | Whatever the three documents hold, a summary is given exactly when each is of its kind and they tell of one run: identifier, policy, scenario, manifest digest, limits and bundle size are the same wherever they are recorded. |
| Evidence.CompareBundles | src/risi/evidence.py:379-432 | The comparison is that of its specification, errors included. |
| Evidence.DifferencesAreExact | src/risi/evidence.py:346-419 | The list is sorted by scope then path, has one record for each, and holds exactly the differing paths and anchors. |
| Evidence.ComparisonIsExact | src/risi/evidence.py:379-432 | Inspected bundles are reported equal exactly when no difference is reported, and the inconsistent-anchors error is unreachable, if SHA-256 does not collide on their files. |
| DigitCounts.SizesSettle | src/risi/runner.py:174-187 | For every fixed and inner size the third recomputed size has as many digits as the second, so the fourth round changes nothing. |
| PrintedSizes.FieldReplace | src/risi/artifacts.py:77-86 | Replacing one field's value changes a document's byte size by the difference of the two values' sizes. |
| PrintedSizes.ItemReplace | src/risi/artifacts.py:77-86 | Replacing one item of an array does likewise. |
| BudgetedEvidence.SizeLaw | src/risi/runner.py:174-187 | The size of a bundle that records n is a fixed part, the digits of n, and the digits of the execution record's length. |
| BudgetedEvidence.RoundsSettle | src/risi/runner.py:174-187 | The recorded sizes rise to a size that measures itself by the third round, whatever the evidence. |
| BudgetedEvidence.PrepareBudgetedEvidence | src/risi/runner.py:174-187 | The loop ends within four rounds: with the settled bundle, whose measured size is the recorded one, exactly when that size fits the budget, and otherwise with budget exhaustion; it never fails to converge. |
| EvidenceStore.ArtifactRoot.Stage | src/risi/artifacts.py:182-189 | While files are written, no entry of the root but the staging one changes; a failed write leaves the root as it was. |
| EvidenceStore.ArtifactRoot.Create | src/risi/artifacts.py:153-198 | In every state of the write the run's name is free or holds the finished bundle, and the outcome is the specified one. |
| RunEvidence.FinishedIff | src/risi/artifacts.py:182-192 | Files with canonical names can all be written exactly when none is a directory of another nor beneath inventory.json. |
| RunEvidence.ExecutionParses | src/risi/evidence.py:222-286 | An execution record with the ledger's own report is parsed exactly as the run left it. |
| RunEvidence.SettledEvidencePasses | src/risi/evidence.py:289-327 | The settled bundle is accepted and inspected with the ledger's own report; its size check cannot fail. |
| RunEvidence.ReinvocationRecovers | src/risi/evidence.py:480-515 | The writer never refuses the settled size, and from every state a crash may leave, invoking again finds no bundle or recovers the writer's own verification. |
| RunEvidence.FinalizeRun | src/risi/runner.py:440-461 | An existing bundle is recovered without a write, whatever the execution would do; a failed execution or an exhausted budget writes nothing; otherwise the evidence is prepared and written, every intermediate state being crash-safe. |
| Samples.RisiCPremisesMet | src/risi/runner.py:813-1063 | A five-memory scenario meets the premises of the RISI-C result on every platform, whether or not its decision retrieval is a counted access, its action is safe, and its hidden signal's content holds the canary's token, which is not its identifier. |
| Samples.RisiCSampleRecovered | src/risi/runner.py:813-1063 | Its execution completes within its limits; it is a direct disclosure if the hidden signal holds the token, confounded if instead the decision retrieval is counted, and recovered otherwise. |
| Samples.RisiCSampleReplays | src/risi/replay.py:884-892 | Its bundle replays to its own result if the action taken is safe, and is refused if it is not. |
| Samples.WrongSampleVerdictIsRefused | src/risi/replay.py:969-973 | With the opposite result written into it, its bundle is refused, whatever comparison goes with it. |
| Samples.EachConditionRefuses | src/risi/adapters/reference.py:297-307 | A memory that matches is shown exactly when it is current, of the tenant, readable by the principal, already valid and not yet expired: each condition alone refuses it. |
| Samples.CrafPremisesMet | src/risi/runner.py:578-810 | A two-memory scenario, and one with a third memory that quotes an identifier, meet the premises of the CRAF result on every platform. |
| Samples.CrafSampleRecovered | src/risi/runner.py:578-810 | Both executions complete within their limits and are recovered. |
| Samples.QuotedSampleIsRefused | src/risi/replay.py:550-575 | The bundle of the first replays to that result; the bundle of the second, recovered all the same, is refused by the textual recheck of the vulnerable arm. |
| Campaign.Ingest | src/risi/campaign.py:795-813 | Each memory is stored once, in order, on the dataset in use, and filed under the document the target named for it. |
| Campaign.Observe | src/risi/campaign.py:815-848 | The log grows by the target query then the non-target query on that dataset; the recorded hits are the target's own answers to those two, over the present stock, and the ranks those of the expected documents in them. |
| Campaign.RankIsOfFirstHit | src/risi/campaign.py:844-847 | A rank is that of the first hit of the expected document, and missing exactly when there is none. |
| Campaign.RunCondition | src/risi/campaign.py:850-882 | A condition's dataset is named for its world and condition and deleted once on every path; each checkpoint's record is of that world, condition and budget, and its two retrievals see exactly the sources and the first pool memories. |
| Campaign.StocksByBudget | src/risi/campaign.py:864-880 | At budget b a dataset holds exactly the sources then the first b pool memories. |
| Campaign.RunWorld | src/risi/campaign.py:850-882 | A completed world yields eleven records from twenty-two retrievals over the prescribed stocks, of its three conditions in order, each with the target's own answers. |
| Campaign.RunWorlds | src/risi/campaign.py:908-926 | Running checkpoint i records 22 i observations, those of the first i worlds in order; the loop ends with all worlds done or with the error of the first that fails. |
| Campaign.Execute | src/risi/campaign.py:884-980 | A refused campaign touches nothing; a completed one passes the final count; every dataset is closed on every path; a deviation is recorded exactly for a transport error or a mismatched oracle, with its phase, code and observation count. |
| Campaign.EveryDatasetDeletedOnce | src/risi/campaign.py:850-882 | In a closed log every dataset has as many deletion attempts as creations, in step at every prefix. |
| Statistics.IntervalEncloses | src/risi/statistics.py:69-94 | The unclamped bounds enclose the observed proportion within zero and one, so the clamps never bite. |
| Statistics.IntervalIsScoreTest | src/risi/statistics.py:69-94 | The interval is the score test's: every proportion lies within the bounds exactly when its squared distance to the observed one is at most z squared times its own variance over so many trials. |
| Statistics.IntervalReflects | src/risi/statistics.py:69-94 | The interval for the failures is the reflection of the one for the successes. |
| Statistics.IntervalMonotone | src/risi/statistics.py:69-94 | Both bounds rise with the number of successes. |

## Left out

- The command line, rendered reports, exit codes, and the health and capabilities listings: user interface.
- Transport, TLS, credentials, and the Dify adapter: the campaign model uses a target that may answer or fail at any call instead.
- Scenario, manifest and approval parsing: what a loader guarantees of a scenario is taken from its result; the provider identifier a manifest names is taken to be the registered one, as authorization requires.
- JSON text parsing other than of the canonical text, float rendering, SHA-256 and `str.casefold`: parameters, with the premises named above. Floats are exact reals: rounding of scores to twelve places, negative zero and overflow are not modelled.
- Lone surrogates in strings, which Dafny's characters exclude.
- Symbolic links, path resolution, permissions, `fsync`, and operating-system failures other than a file standing where a directory is needed: a directory is a map from path components to contents, and a rename is atomic.
- Python dictionaries' insertion order, except where files are written in it; the order of files does not matter to the finished directory.
- `ingest`, `run_maintenance`, `consolidate` and `expire` of the reference adapter, which raise or do nothing; `reset` begins a new run, so run theorems start from a fresh adapter.
- CrafReplay.CompletedCrafArmReplaysUnlessQuoted: is for identifiers without a newline, which the loader does not exclude; for one with a newline the condition of CompletedCrafArmReplaysIff stays the text search itself, which may then match across lines.
- Of a CRAF bundle's scenario documents, the fields the replayer does not read.
- Retention of the evidence bundle between a campaign's final count and its completed checkpoint, request counts, checkpoint file writes that fail, and the E2 validation workloads with their timing.
- E1 power calculations and throughput projections.
- RunEvidence.FinalizeRun: takes what the execution returns or raises as a value, and does not build the bundle's files from the execution models.
- Campaign.Execute: takes authorization as a boolean and cancellation requests as a function of the world's index.
- BudgetedEvidence.PrepareBudgetedEvidence: models the builder as the files it closes over plus the execution record, which is the only document that depends on the resource use.
