# Verified model of a threshold-signing library

The library keeps threshold ECDSA keys, presignatures and signing attempts in a durable lifecycle
store, and runs the CGGMP21 protocol on top of it. This project models the store, its sharded file
form, compaction, crash behaviour, the key-refresh rounds and the signing arithmetic, and proves
properties of these models for every input, every run and every reachable state.

`dafny verify dfyconfig.toml` checks the whole project.

## How it is laid out

**The lifecycle state machine.** `LifecycleRecords`, `LifecycleState` and `LifecycleOps` define the
records, the twelve linked maps with two counters, and one function per store operation. Every change an
operation makes is a named function. `LifecycleInvariant` states the store's own validation
(`Valid`) and the facts that make it inductive (`Inv`): an available presign keeps its metadata, a
presign effect's presign carries the lease's binding, a disabled-refresh marker belongs to its key,
effects belong to finished leases. `LifecyclePreservation`, `LifecycleChanges` and
`LifecycleInductive` prove that every operation keeps it. `LifecycleRuns`, `LifecycleEvolution`,
`LifecycleTheorems`, `LifecycleRetry` and `LifecycleReads` prove what holds over whole runs,
compaction included.

**The stores as programs.** `LifecycleMemoryStore` is the in-memory store as a class whose methods
scan and update its maps in place; each method is proved to be the corresponding operation.
`LifecycleValidator` is the executable validator with its counters, proved to decide `Valid`.

**Compaction.** `LifecycleCompaction*`, `LifecycleRetention` and `LifecycleRetentionRuns`. Compaction
that retains nothing is never refused. With retention the validation that follows can refuse:
`RetentionValidIff` says exactly when, over the state before the call, and two runs of ordinary
operations reach the two ways it happens.

**The sharded file store.** `LifecycleSlices` to `LifecycleFileRuns`: the state cut into lineages,
operations that only see the lineages they load, buckets of owned identifiers, and the class
`FileLifecycleStore` that loads, operates, checks the index and publishes. It shows one global state
at all times; an operation is accepted exactly when that state accepts it, for a lease as it was
issued, and moves to the state that follows. The only difference from the plain store is the number a
fresh token gets: each transaction raises both counters to its own number (`Publish`).

**Crashes.** `LifecycleCrash` models write, sync, rename and directory sync, with loss of whatever is
not synced. `LifecycleDurable` puts the file store on it: what an operation writes, where it can fail,
and what the reopened store then shows. A process that dies leaves exactly the state before or after.
A crash of the machine does so exactly when no earlier rename still waits for its directory sync: the
code goes on after such a failure, reads the renamed root, and a crash can then bring back an older one
(`CrashAtomicIff`, `RenameForgotten`, `OutcomeForgotten`). `LifecycleRecovery` is the sweep at opening,
by the visible root; it is safe exactly when no root that may come back needs a removed blob.

**The protocol.** `Algebra*` develop congruences, Lagrange interpolation and a curve group as a
module over the scalars. `FigureSevenShares`, `FigureSevenRounds`, `FigureSevenTheorems`,
`FigureSevenBlame`, `FigureSevenAborts` and `FigureSevenSession` are the auxiliary-information rounds (Figure 7 of Canetti, Gennaro,
Goldfeder, Makriyannis and Peled, "UC Non-Interactive, Proactive, Threshold ECDSA with Identifiable
Aborts"); `FigureTenSigning` and `FigureTenSession` the online signing of Figure 10;
`ChildDerivation` the weighted contributions of a derived child.

**Two smaller parts.** `BroadcastConsistency` (acknowledgement collector and certificate verifier)
and `DerivationPaths` (parser and printer).

Byte strings are values, SHA-256 is an injective constructor, a mutex-protected method is one step.

## Model

| member | source | states |
|---|---|---|
| `LifecycleInductive.StepKeepsInv` | tssrun/lifecycle_memory.go:144-1215 | every operation, accepted or refused, leads from a state of the strengthened invariant to one |
| `LifecycleRuns.ReachableInv` | tssrun/file_lifecycle_state.go:21-304 | every state reached by any run of operations and validated compactions satisfies the validator and its strengthening |
| `LifecycleEvolution.RunEvolves` | tssrun/lifecycle_memory.go:144-1215 | between any two points of a run records only move forward: generations unchanged until retired, leases to finished, presigns available to claimed to burned, attempts to terminal, tombstones only grow, and a record that is gone is entombed |
| `LifecycleTheorems.PresignOneUse` | tssrun/lifecycle_memory.go:550-630 | over any run, compaction included, all successful sign commits that name one presign carry the same binding, intent (attempt, session, digest) and outbox digest |
| `LifecycleTheorems.ArtifactOneUse` | tssrun/lifecycle_memory.go:446-504 | commits through presigns of one public artifact are commits of one presign, with the same intent and outbox |
| `LifecycleTheorems.NameInstalledOnce` | tssrun/lifecycle_memory.go:1235-1245 | a generation name of a key is installed at most once in a run, whatever its epoch |
| `LifecycleTheorems.RetiredIsFinal` | tssrun/lifecycle_memory.go:895-1039 | a retired generation is never current again |
| `LifecycleTheorems.FinishedLeaseIsFinal` | tssrun/lifecycle_memory.go:363-404 | a finished lease keeps its outcome until compacted, and then its session is entombed |
| `LifecycleTheorems.TerminalAttemptIsFinal` | tssrun/lifecycle_memory.go:660-755 | an attempt is never aborted, delivered and completed at once; a terminal one keeps its record or is entombed |
| `LifecycleTheorems.RefreshDisabledForGood` | tssrun/lifecycle_memory.go:408-442 | once refresh failed for a key, no refresh lease is active on it or granted to it in any later state |
| `LifecycleTheorems.CompactedForGood` | tssrun/lifecycle_memory.go:1519-1523 | a compacted session, presign, artifact, attempt, generation name or cutover stays entombed and names nothing live in every later state, and every operation that names it, the receiver, refresh and reshare paths included, is refused there; at most a lease already used up is answered again, with no change |
| `LifecycleRetry.RetryIdempotent` | tssrun/lifecycle_memory.go:144-1215 | every operation repeated at once gives the same record and changes nothing |
| `LifecycleRetry.CommitRetryAnyLater` | tssrun/file_lifecycle.go:252-271 | in every later state that has not compacted the attempt, repeating a sign commit finds the one stored attempt and changes nothing, and the exact query finds it too |
| `LifecycleRetry.RefusalChangesNothing` | tssrun/lifecycle_memory.go:144-1215 | under the invariant a refused operation leaves the state as it was |
| `LifecycleRetry.FenceProgress` | tssrun/lifecycle_memory.go:962-1039 | in every reachable state an active fence can be committed: its target becomes current, its source retired, and the source's presigns burned |
| `LifecycleRetry.ReceiverProgress` | tssrun/lifecycle_memory.go:1143-1215 | in every reachable state an anchored receiver lease can install its declared target, and is then completed |
| `LifecycleReads.InstallStores` | tssrun/lifecycle_memory.go:962-1215 | an accepted installation, first or repeated, by any of the four operations leaves exactly the asked generation stored |
| `LifecycleReads.LoadedIsInstalled` | tssrun/lifecycle_memory.go:191-209 | over any run, a generation that loads as current is the one that was installed under its binding, secrets and metadata included |
| `LifecycleReads.CandidateIsStored` | tssrun/lifecycle_memory.go:508-546 | over any run, a presign candidate has the blob and metadata that were stored under its name |
| `LifecycleReads.OutboxReplayed` | tssrun/lifecycle_memory.go:633-646 | over any run, the exact query gives the committed outbox until the attempt is terminal, and an empty one after |
| `LifecycleMemoryStore.BurnEpoch` | tssrun/lifecycle_memory.go:1380-1401 | the in-place loop burns the epoch's available presigns and its claimed ones whose attempt is terminal, empties what they held, and leaves all others |
| `LifecycleMemoryStore.ArtifactTaken` | tssrun/lifecycle_memory.go:1247-1254 | the scan finds a presign of another name with the same artifact exactly when there is one |
| `LifecycleMemoryStore.KeyGenerationTaken` | tssrun/lifecycle_memory.go:1235-1245 | the scan finds the name of a generation, live or entombed, exactly when the key has used it |
| `LifecycleMemoryStore.AnyIncompatibleLease` | tssrun/lifecycle_memory.go:1309-1321 | the scan finds an active lease that excludes the requested kind exactly when there is one |
| `LifecycleMemoryStore.AnyActiveLeaseForKey` | tssrun/lifecycle_memory.go:1256-1272 | the scan finds an active lease of the key, other than the excepted one, exactly when there is one |
| `LifecycleMemoryStore.AnyNonTerminalAttempt` | tssrun/lifecycle_memory.go:1332-1339 | the scan finds an attempt of the binding that is not terminal exactly when there is one |
| `LifecycleMemoryStore.MemoryLifecycleStore.constructor` | tssrun/lifecycle_memory.go:125-140 | a new store is the empty state |
| `LifecycleMemoryStore.MemoryLifecycleStore.InstallInitial` | tssrun/lifecycle_memory.go:144-187 | the in-place update and its result are those of the operation |
| `LifecycleMemoryStore.MemoryLifecycleStore.AcquireLease` | tssrun/lifecycle_memory.go:214-278 | the in-place update and its result are those of the operation |
| `LifecycleMemoryStore.MemoryLifecycleStore.AcquireReceiver` | tssrun/lifecycle_memory.go:283-333 | the in-place update and its result are those of the operation |
| `LifecycleMemoryStore.MemoryLifecycleStore.FinishLease` | tssrun/lifecycle_memory.go:363-404 | the in-place update and its result are those of the operation |
| `LifecycleMemoryStore.MemoryLifecycleStore.RefreshFailed` | tssrun/lifecycle_memory.go:408-442 | the in-place update and its result are those of the operation |
| `LifecycleMemoryStore.MemoryLifecycleStore.CommitPresign` | tssrun/lifecycle_memory.go:446-504 | the in-place update and its result are those of the operation |
| `LifecycleMemoryStore.MemoryLifecycleStore.CommitAttempt` | tssrun/lifecycle_memory.go:550-630 | the in-place update and its result are those of the operation |
| `LifecycleMemoryStore.MemoryLifecycleStore.Progress` | tssrun/lifecycle_memory.go:660-715 | the in-place update and its result are those of the operation |
| `LifecycleMemoryStore.MemoryLifecycleStore.Abort` | tssrun/lifecycle_memory.go:719-755 | the in-place update and its result are those of the operation |
| `LifecycleMemoryStore.MemoryLifecycleStore.Burn` | tssrun/lifecycle_memory.go:759-800 | the in-place update and its result are those of the operation |
| `LifecycleMemoryStore.MemoryLifecycleStore.Begin` | tssrun/lifecycle_memory.go:804-837 | the in-place update and its result are those of the operation |
| `LifecycleMemoryStore.MemoryLifecycleStore.BeginFromLease` | tssrun/lifecycle_memory.go:842-889 | the in-place update and its result are those of the operation |
| `LifecycleMemoryStore.MemoryLifecycleStore.CommitRetirement` | tssrun/lifecycle_memory.go:895-958 | the in-place update and its result are those of the operation |
| `LifecycleMemoryStore.MemoryLifecycleStore.Commit` | tssrun/lifecycle_memory.go:962-1039 | the in-place update and its result are those of the operation |
| `LifecycleMemoryStore.MemoryLifecycleStore.AbortFence` | tssrun/lifecycle_memory.go:1043-1081 | the in-place update and its result are those of the operation |
| `LifecycleMemoryStore.MemoryLifecycleStore.CommitChild` | tssrun/lifecycle_memory.go:1086-1138 | the in-place update and its result are those of the operation |
| `LifecycleMemoryStore.MemoryLifecycleStore.CommitReshare` | tssrun/lifecycle_memory.go:1143-1215 | the in-place update and its result are those of the operation |
| `LifecycleMemoryStore.MemoryLifecycleStore.Handle` | tssrun/lifecycle_memory.go:144-1215 | any request on a store of the invariant leaves a store of the invariant, in the state the operation leads to |
| `LifecycleValidator.ValidateGenerations` | tssrun/file_lifecycle_state.go:60-89 | the counting loop decides that every key's index and its current generation agree, one of each |
| `LifecycleValidator.ValidateLeases` | tssrun/file_lifecycle_state.go:91-136 | the loops with counters decide the lease invariant: index and leases are in bijection, exclusive leases stand alone, anchors belong to active receivers |
| `LifecycleValidator.ValidateEffects` | tssrun/file_lifecycle_state.go:138-191 | decides that every effect fits its finished lease and what it points to |
| `LifecycleValidator.ValidateDisabled` | tssrun/file_lifecycle_state.go:193-207 | decides the disabled-refresh markers |
| `LifecycleValidator.ValidatePresigns` | tssrun/file_lifecycle_state.go:218-234 | decides the presign records and the uniqueness of artifacts |
| `LifecycleValidator.ValidateAttempts` | tssrun/file_lifecycle_state.go:236-270 | decides the attempt records against presigns, leases and generations |
| `LifecycleValidator.ValidateCutovers` | tssrun/file_lifecycle_state.go:272-304 | decides the cutovers and that the index holds exactly the active ones |
| `LifecycleValidator.ValidateTombs` | tssrun/file_lifecycle_state.go:49-58 | decides that every tombstone is well formed: a valid key and a state |
| `LifecycleValidator.ValidateState` | tssrun/file_lifecycle_state.go:21-47 | accepts exactly the valid states |
| `LifecycleCompactionTheorem.CompactionValidIff` | tssrun/file_lifecycle_compact.go:15-49 | for any retained records, the validation after compaction accepts if and only if no retained lease has its presign go and no retained committed cutover has a generation go, where what goes is read off the state before the call; then the whole invariant holds |
| `LifecycleCompactionTheorem.CompactionRetainNone` | tssrun/file_lifecycle_compact.go:56-99 | compaction that retains nothing keeps the invariant, so it is never refused |
| `LifecycleRetention.Top` | tssrun/file_lifecycle_compact.go:126-158 | keeps the given number of newest candidates, or all of them |
| `LifecycleRetention.Compact` | tssrun/file_lifecycle_compact.go:56-206 | the five passes in order, each keeping its newest candidates, compute the compacted state |
| `LifecycleRetention.RetainsNone` | tssrun/file_lifecycle_compact.go:56-99 | asked to retain none, every pass retains none |
| `LifecycleRetention.RetentionValidIff` | tssrun/file_lifecycle_compact.go:15-49 | when the newest of each kind are retained, compaction is accepted if and only if no retained lease produced a presign and no retained committed cutover has a generation that goes |
| `LifecycleRetentionRuns.RetainingOneRefused` | tssrun/file_lifecycle_compact.go:101-158 | a run of seven operations after which retaining one keeps the lease of a presign that goes, so compaction is refused |
| `LifecycleRetentionRuns.RetainingCutoverRefused` | tssrun/file_lifecycle_compact.go:160-206 | a run of eight operations after which retaining one keeps a cutover whose generation goes, so compaction is refused |
| `LifecycleLocalityCutovers.OpAgrees` | tssrun/file_lifecycle.go:184-358 | run on the lineages it names, an operation is accepted exactly when the whole store accepts it, up to identifiers another lineage owns, and does to them what it does within the whole |
| `LifecycleLocalityCutovers.OpFramed` | tssrun/file_lifecycle.go:184-358 | no operation touches a lineage it does not name, and it allocates at most one token of each kind |
| `LifecycleRestriction.RestrictInv` | tssrun/file_lifecycle_snapshot.go:111-161 | lineages that no effect leads out of form a valid state by themselves |
| `LifecycleLineages.Decode` | tssrun/file_lifecycle_snapshot.go:496-546 | a decoded snapshot holds its records and the rebuilt indexes of its leases and active cutovers |
| `LifecycleLineages.RebuildSessions` | tssrun/file_lifecycle_snapshot.go:496-546 | the loop maps every session to a lease of that session |
| `LifecycleLineages.RebuildFences` | tssrun/file_lifecycle_snapshot.go:496-546 | the loop maps every key with an active cutover to one |
| `LifecycleLineages.SessionsRebuilt` | tssrun/file_lifecycle_snapshot.go:496-546 | in a valid state any such session index is the one the state had |
| `LifecycleLineages.FencesRebuilt` | tssrun/file_lifecycle_snapshot.go:496-546 | in a valid state any such cutover index is the one the state had |
| `LifecycleLineages.ReadLineage` | tssrun/file_lifecycle_snapshot.go:391-546 | decoding what was encoded for a key gives back that key's slice of the state |
| `LifecycleLineages.MergeDistinct` | tssrun/file_lifecycle_snapshot.go:553-618 | merging maps is refused exactly when they share a key, and is their union |
| `LifecycleLineages.Merge` | tssrun/file_lifecycle_snapshot.go:553-618 | merging a lineage is refused exactly when records collide, and joins the states |
| `LifecycleLineages.MergeLineage` | tssrun/file_lifecycle_snapshot.go:553-618 | merging a further lineage of one state always succeeds and widens the restriction by its key |
| `LifecycleLineages.LineagesJoin` | tssrun/file_lifecycle_snapshot.go:429-618 | splitting by key and joining gives back the state |
| `LifecycleIndex.IndexUnique` | tssrun/file_lifecycle_snapshot.go:707-740 | in a valid state an identifier has one owner, and is live or used up but not both |
| `LifecycleIndex.OwnedByIndex` | tssrun/file_lifecycle_snapshot.go:620-648 | an identifier whose entries all belong to the loaded lineages is owned by no other |
| `LifecycleIndex.ClaimsEntered` | tssrun/file_lifecycle_snapshot.go:620-648 | every identifier an accepted operation claims is entered under a lineage it names |
| `LifecycleFileStore.IndexesFor` | tssrun/file_lifecycle_snapshot.go:620-648 | the loops collect exactly the index entries of the given lineages |
| `LifecycleBuckets.Canonicalize` | tssrun/file_lifecycle_snapshot.go:707-740 | finds a conflict exactly when an identifier is entered twice |
| `LifecycleBuckets.UpdateBuckets` | tssrun/file_lifecycle_snapshot.go:650-705 | rewrites the buckets entries fall into, before or after, and refuses exactly on a conflict in one of them |
| `LifecycleBuckets.IndexFollows` | tssrun/file_lifecycle_snapshot.go:650-705 | an operation the whole store accepts meets no conflict, and the buckets then hold exactly the entries of all lineages |
| `LifecycleBuckets.NoConflictOwns` | tssrun/file_lifecycle_snapshot.go:650-740 | an operation whose entries meet no conflict claims nothing another lineage owns |
| `LifecycleFileStore.SnapshotsFollow` | tssrun/file_lifecycle_snapshot.go:163-200 | rewriting only the snapshots of the operation's lineages represents the whole next state |
| `LifecycleFileStore.TargetsOf` | tssrun/file_lifecycle_snapshot.go:111-161 | the other lineages that a lineage's effects lead to, all of them and no others |
| `LifecycleFileStore.BumpInv` | tssrun/file_lifecycle_snapshot.go:111-121 | raising the token counters to the transaction number keeps the invariant |
| `LifecycleFileRuns.Load` | tssrun/file_lifecycle_snapshot.go:111-161 | the work queue loads a closed set of lineages around the named ones, which passes validation and is the restriction of the whole state to them |
| `LifecycleFileRuns.WriteLineages` | tssrun/file_lifecycle_snapshot.go:163-200 | writes the snapshots of the named lineages and leaves the others |
| `LifecycleFileRuns.Published` | tssrun/file_lifecycle_snapshot.go:163-200 | the new snapshots and buckets represent the published state, which is valid |
| `LifecycleFileRuns.FileLifecycleStore.constructor` | tssrun/file_lifecycle.go:105-164 | a new store shows the empty state |
| `LifecycleFileRuns.FileLifecycleStore.Perform` | tssrun/file_lifecycle.go:389-428 | an operation is accepted exactly when the global state shown accepts it (always so for a lease as issued), answers the same, and then the store shows the state that follows; refused, it is unchanged |
| `LifecycleFileRuns.FileLifecycleStore.Serve` | tssrun/file_lifecycle.go:389-428 | the states shown while serving any sequence of operations form a trace of the global store |
| `LifecycleFileRuns.TraceIsHistory` | tssrun/file_lifecycle.go:389-428 | what the store serves without failures is a history: every operation is published or leaves the state |
| `LifecycleFileRuns.HistoryEvolves` | tssrun/file_lifecycle.go:389-428 | every state of a history is valid and records only move forward along it |
| `LifecycleFileRuns.FilePresignOneUse` | tssrun/file_lifecycle.go:252-271 | over any history of the file store, with failures reported for operations that were published or not, accepted sign commits that name one presign carry one binding, intent and outbox |
| `LifecycleCrash.TransactionSound` | tssrun/file_lifecycle_snapshot.go:163-200 | a transaction cut short after any step leaves a medium whose every root that may come back has all its blobs durable |
| `LifecycleCrash.ProcessCrashAtomic` | tssrun/file_lifecycle_snapshot.go:163-200 | a process that dies at any point leaves exactly the disk before, or from the rename on exactly the disk after |
| `LifecycleCrash.CrashReopens` | tssrun/file_lifecycle_snapshot.go:163-200 | a machine that crashes at any point comes back with a root that could come back before, or the new one, and with the new one once the directory is synced |
| `LifecycleCrash.CrashAtomicIff` | tssrun/file_lifecycle_snapshot.go:266-327 | a transaction is atomic under crashes of the machine if and only if no earlier rename still waits for its directory sync |
| `LifecycleCrash.RenameForgotten` | tssrun/file_lifecycle_snapshot.go:317-322 | with a rename pending, a crash before the next transaction does anything comes back with a disk that is neither the one before nor the one after |
| `LifecycleCrash.FailedSyncForgets` | tssrun/file_lifecycle_snapshot.go:317-322 | how a rename comes to be pending: after a failed directory sync the new disk is read, and a crash can bring back the old one |
| `LifecycleCrash.FailureHarmless` | tssrun/file_lifecycle_snapshot.go:163-200 | a transaction that fails before the rename, and removes any part of what it wrote, leaves the old disk to a reader and no new outcome to a crash |
| `LifecycleRecovery.Recover` | tssrun/file_lifecycle_snapshot.go:949-1040 | recovery removes exactly the blobs that the visible root does not refer to and a leftover root file, and a reader sees what they saw |
| `LifecycleRecovery.RecoverySafeIff` | tssrun/file_lifecycle_snapshot.go:949-1005 | the store opens again after a crash at any point of recovery if and only if every root that may come back needs only blobs of the visible one |
| `LifecycleRecovery.SettledRecovery` | tssrun/file_lifecycle_snapshot.go:949-1005 | with no rename pending, recovery and any crash in it bring back the same disk |
| `LifecycleRecovery.ReplacedBlobUnsafe` | tssrun/file_lifecycle_snapshot.go:996-1003 | where recovery is not safe: a transaction replaced a blob and its directory sync failed |
| `LifecycleDurable.WriteSnapshots` | tssrun/file_lifecycle_snapshot.go:163-183 | one blob per named lineage is written under a fresh name and entered in the next root |
| `LifecycleDurable.WriteBuckets` | tssrun/file_lifecycle_snapshot.go:650-705 | every affected bucket is written or dropped from the next root, and a double entry is refused exactly when there is one |
| `LifecycleDurable.Prepare` | tssrun/file_lifecycle_snapshot.go:163-200 | the writes are fresh, the next root refers only to them and to old blobs, and it describes the named lineages and the refreshed buckets, everything else as before |
| `LifecycleDurable.PreparedShows` | tssrun/file_lifecycle_snapshot.go:163-200 | the prepared root describes the state after the operation |
| `LifecycleDurable.CrashedOperation` | tssrun/file_lifecycle_snapshot.go:163-200 | an operation cut short anywhere: a process that dies leaves a medium that shows the state before or after it, and so does a crash of the machine if no earlier rename is pending |
| `LifecycleDurable.OutcomeForgotten` | tssrun/file_lifecycle_snapshot.go:317-322 | an operation whose directory sync failed shows as done, to an exact query too, and a crash can still undo it |
| `LifecycleDurable.SettledCrash` | tssrun/file_lifecycle_snapshot.go:266-327 | a crash with no rename pending changes nothing that a reader sees |
| `LifecycleDurable.DurableLifecycleStore.constructor` | tssrun/file_lifecycle.go:105-164 | a new store shows the empty state |
| `LifecycleDurable.DurableLifecycleStore.Persist` | tssrun/file_lifecycle_snapshot.go:163-389 | a transaction that fails before the rename leaves the state and the roots, one that fails later is published all the same, and one that does not fail settles every rename |
| `LifecycleDurable.DurableLifecycleStore.Perform` | tssrun/file_lifecycle.go:389-428 | an operation on the medium, which may fail at any step: without a failure accepted exactly when the state shown accepts it; with one the store shows the state before or the state after |
| `LifecycleDurable.DurableLifecycleStore.Serve` | tssrun/file_lifecycle.go:389-428 | operations that may each fail anywhere form a history, so what is proved of histories holds of them |
| `LifecycleDurable.DurableLifecycleStore.Open` | tssrun/file_lifecycle.go:105-164 | opening with recovery keeps what a reader sees, and keeps the medium sound when no root that may come back needs a removed blob |
| `AlgebraLagrange.EvalAt` | internal/shamir/shamir.go:89-96 | Horner's loop computes the value of the polynomial modulo the order |
| `AlgebraLagrange.DifferenceVanishes` | internal/shamir/shamir.go:100-139 | the divided difference of a polynomial over more points than it has coefficients vanishes |
| `AlgebraShares.LagrangeCoefficient` | internal/shamir/shamir.go:100-139 | succeeds exactly for a listed identifier among distinct non-zero ones, and is then the product of x_j/(x_j - x_i) |
| `AlgebraShares.LambdaNonZero` | internal/shamir/shamir.go:100-139 | no coefficient vanishes |
| `AlgebraShares.Interpolation` | internal/shamir/shamir.go:98-139 | for distinct non-zero identifiers, at least as many as coefficients, the weighted shares add up to the constant term |
| `AlgebraShares.TweakedInterpolation` | cggmp21/secp256k1/child_derivation.go:206-229 | weighting tweaked shares tweaks the key exactly once |
| `ChildDerivation.ChildContributions` | cggmp21/secp256k1/child_derivation.go:191-254 | which of the four outcomes occurs and when, the expected points of all parties, and the local contribution |
| `ChildDerivation.HonestParentContributes` | cggmp21/secp256k1/child_derivation.go:206-247 | for an honest parent the aggregate check never fails, the local contribution opens its expected point, and derivation succeeds if and only if the tweak cancels neither the key nor any share and the secret is not zero |
| `ChildDerivation.CancelledShareRefused` | cggmp21/secp256k1/child_derivation.go:225-228 | a tweak that cancels one party's share yields a point that cannot be encoded, although the parent is honest |
| `ChildDerivation.TweakedSum` | cggmp21/secp256k1/child_derivation.go:206-238 | the weighted, tweaked public shares add up to the tweaked public key |
| `FigureSevenShares.EvaluateCommitments` | cggmp21/secp256k1/epoch_context.go:448-462 | the loop with running powers computes the committed point at the identifier |
| `FigureSevenShares.CommittedValue` | cggmp21/secp256k1/paper_auxiliary_primitives.go:327-344 | commitments to a polynomial evaluate to the polynomial's value, so an honest share verifies |
| `FigureSevenShares.AggregateCommitments` | cggmp21/secp256k1/paper_auxiliary_state.go:934-963 | adding coefficient by coefficient gives the sum of the vectors; refused exactly on a vector of another length |
| `FigureSevenShares.AggregateShareMatches` | cggmp21/secp256k1/paper_auxiliary_state.go:1348-1379 | shares that verify one by one add up to a share of the aggregate commitments |
| `FigureSevenShares.AggregateSecret` | cggmp21/secp256k1/paper_auxiliary_state.go:1348-1379 | the summing loop, and that its check against the public share cannot fail when every share was verified |
| `FigureSevenRounds.InitialInv` | cggmp21/secp256k1/paper_auxiliary_state.go:197-284 | a fresh state satisfies the invariant of the rounds |
| `FigureSevenRounds.ReceiveKeeps` | cggmp21/secp256k1/paper_auxiliary_state.go:571-613 | any message keeps it: the reveal has left exactly when all commitments are held, the proofs exactly when all reveals are, and a result exists exactly when all proofs and shares do |
| `FigureSevenTheorems.ReachableRounds` | cggmp21/secp256k1/paper_auxiliary_state.go:571-849 | the invariant holds after every sequence of deliveries, accepted or not |
| `FigureSevenTheorems.SentInOrder` | cggmp21/secp256k1/paper_auxiliary_state.go:615-849 | a reveal is sent by exactly the message that completes the commitments, proofs and shares by the one that completes the reveals |
| `FigureSevenTheorems.OrderIndependent` | cggmp21/secp256k1/paper_auxiliary_state.go:571-849 | two orders in which the same messages are all accepted end in the same state: coin, epoch, secret share and transcript |
| `FigureSevenTheorems.ResultOpens` | cggmp21/secp256k1/paper_auxiliary_state.go:1321-1427 | in every run the resulting secret share opens the public share derived from the aggregate commitments |
| `FigureSevenBlame.BlameAgrees` | cggmp21/secp256k1/paper_auxiliary_state.go:1197-1286 | observers of one run with the same reveals blame the same party |
| `FigureSevenBlame.HonestAccusationUpheld` | cggmp21/secp256k1/paper_auxiliary_state.go:1126-1169 | an honest receiver's accusation is judged a decryption error of the accused by every observer |
| `FigureSevenBlame.HonestSenderCleared` | cggmp21/secp256k1/paper_auxiliary_state.go:1171-1286 | no accusation, whatever exponent it discloses, makes an observer blame a sender who masked a verifying share with the common point: the reporter is blamed |
| `FigureSevenAborts.RunningIsRounds` | cggmp21/secp256k1/paper_auxiliary_state.go:571-613 | a session that has not failed is in the state its round messages lead to, whatever else was delivered |
| `FigureSevenAborts.AbortCauses` | cggmp21/secp256k1/paper_auxiliary_state.go:1126-1195 | a run is ended by exactly two things: a direct share that does not verify, and an accusation once all reveals are in |
| `FigureSevenAborts.AbortIsFinal` | cggmp21/secp256k1/paper_auxiliary_state.go:458-482 | after that every message is refused, nothing is sent and there is no result |
| `FigureSevenAborts.MismatchUpheld` | cggmp21/secp256k1/paper_auxiliary_state.go:1126-1169 | what a receiver broadcasts on a mismatch is upheld by every observer of the run |
| `FigureSevenSession.AuxInfoState.constructor` | cggmp21/secp256k1/paper_auxiliary_state.go:197-284 | a fresh state is the initial state of the rounds |
| `FigureSevenSession.AuxInfoState.GatherReveals` | cggmp21/secp256k1/paper_auxiliary_state.go:697-717 | the loop over the parties, counting the sender as already there, collects the reveals and says whether they are complete |
| `FigureSevenSession.AuxInfoState.ProofsExcept` | cggmp21/secp256k1/paper_auxiliary_state.go:1297-1307 | decides whether all other parties' proofs are held |
| `FigureSevenSession.AuxInfoState.SharesExcept` | cggmp21/secp256k1/paper_auxiliary_state.go:1309-1319 | decides whether all other parties' shares are held |
| `FigureSevenSession.AuxInfoState.PrepareResult` | cggmp21/secp256k1/paper_auxiliary_state.go:1321-1493 | the loops with the candidate slot compute the result of the completed run, or refuse a zero secret |
| `FigureSevenSession.AuxInfoState.TakeCommitment` | cggmp21/secp256k1/paper_auxiliary_state.go:615-657 | the in-place update is the step of the rounds |
| `FigureSevenSession.AuxInfoState.TakeReveal` | cggmp21/secp256k1/paper_auxiliary_state.go:659-849 | the in-place update, with the round change if complete, is the step of the rounds |
| `FigureSevenSession.AuxInfoState.TakeProofs` | cggmp21/secp256k1/paper_auxiliary_state.go:965-1020 | the in-place update is the step of the rounds |
| `FigureSevenSession.AuxInfoState.TakeDirect` | cggmp21/secp256k1/paper_auxiliary_state.go:1022-1124 | the in-place update is the step of the rounds |
| `FigureSevenSession.AuxInfoState.TakeAccusation` | cggmp21/secp256k1/paper_auxiliary_state.go:1171-1195 | an accusation is judged and ends the run in place |
| `FigureSevenSession.AuxInfoState.Destroy` | cggmp21/secp256k1/paper_auxiliary_state.go:458-482 | a destroyed state is aborted and holds no slot, epoch or result |
| `FigureSevenSession.AuxInfoState.Deliver` | cggmp21/secp256k1/paper_auxiliary_state.go:571-613 | any delivery, accusations included, is the step of the session, and keeps the invariant of the rounds as long as it runs |
| `FigureSevenSession.RunSession` | cggmp21/secp256k1/paper_auxiliary_state.go:571-613 | a whole run in place, refusals and failures included, ends where the session does, so what is proved of every run holds of it |
| `FigureTenSigning.HonestPartialVerifies` | cggmp21/secp256k1/online_sign_lifecycle.go:204-208 | an honestly built partial satisfies the partial equation |
| `FigureTenSigning.AggregateEquation` | cggmp21/secp256k1/paper_presign_artifact.go:139-163 | verified partials of any signer set satisfy s·Gamma = z·G + r·X |
| `FigureTenSigning.AggregateVerifies` | internal/curve/secp256k1/ecdsa.go:53-78 | the aggregate and its low form verify as in section 6.4 of FIPS 186-5 |
| `FigureTenSigning.FinalSignature` | cggmp21/secp256k1/online_sign_transition.go:116-158 | waits exactly while a partial is missing, refuses exactly a zero sum, otherwise gives the low form of the sum; with verified partials and a valid artifact the last check cannot reject |
| `FigureTenSession.ValidateArtifact` | cggmp21/secp256k1/paper_presign_artifact.go:62-137 | accepts exactly the artifacts with sorted signers, commitments in order that add up to the generator and the key, and an opened local commitment |
| `FigureTenSession.SignSession.AcceptPartial` | cggmp21/secp256k1/online_sign_transition.go:50-98 | accepts exactly a first, bound partial of a signer that satisfies its equation, and stores it |
| `FigureTenSession.SignSession.TryComplete` | cggmp21/secp256k1/online_sign_transition.go:185-214 | completes exactly once, with a signature that verifies, unless the sum is zero; the branch that rejects the aggregate is unreachable |
| `FigureTenSession.HonestRun` | cggmp21/secp256k1/online_sign_transition.go:27-158 | honest partials of all signers, in any order and repeated, complete the session unless the sum is zero |
| `BroadcastConsistency.VerifyStructure` | broadcast.go:462-515 | decides the structure of a certificate against envelope and parties |
| `BroadcastConsistency.VerifyFull` | broadcast.go:129-142 | decides structure and every acknowledgement's signature |
| `BroadcastConsistency.AcceptedIsPermutation` | broadcast.go:462-515 | an accepted certificate's parties are distinct, and its recipients and its acknowledging parties are each exactly these, each once |
| `BroadcastConsistency.EmittedVerifies` | broadcast.go:295-326 | every certificate made from a full set of held acknowledgements passes the full verification of the committed envelope |
| `BroadcastConsistency.ArrivalOrderImmaterial` | broadcast.go:246-281 | acknowledgements collected in any order are the same collection |
| `BroadcastConsistency.SameCertificate` | broadcast.go:295-326 | two orders of the same acknowledgements make the same certificate |
| `BroadcastConsistency.CollectCertificate` | broadcast.go:179-326 | a whole collection gives a certificate if and only if every party acknowledged once and nobody else did, and it passes the full verification of the committed envelope |
| `BroadcastConsistency.NewCollector` | broadcast.go:179-205 | a collector exists exactly for a usable set of parties, and holds them sorted |
| `BroadcastConsistency.Collector.Commit` | broadcast.go:213-238 | the first matching envelope is committed and never replaced |
| `BroadcastConsistency.Collector.AddAck` | broadcast.go:246-281 | adds exactly a first, verified acknowledgement of a recipient for the committed envelope |
| `BroadcastConsistency.Collector.Collect` | broadcast.go:246-281 | a sequence of acknowledgements is accepted exactly when they verify and come from different recipients, and is then what is held |
| `BroadcastConsistency.Collector.Certify` | broadcast.go:295-352 | a certificate is emitted exactly when all recipients acknowledged, is the sorted one, and passes the full verification of every envelope with the committed hashes, for the parties in any order |
| `DerivationPaths.ParseDerivationPath` | hd.go:69-105 | the loop parses element by element and stops at the first refused one |
| `DerivationPaths.RenderPath` | hd.go:117-128 | the loop prints the path |
| `DerivationPaths.ParseOfRender` | hd.go:69-149 | parsing what is printed gives the path back if and only if it is at most 255 deep with no hardened index |
| `DerivationPaths.RenderOfParse` | hd.go:69-128 | printing what is parsed gives the text back if and only if no element has a leading zero |

## Left out

- Cryptography itself: Paillier, ring-Pedersen and zero-knowledge proofs, curve arithmetic, hashing, masks and coins are given functions or checks with stated laws; the curve is any group that satisfies `Laws`.
- Width of tokens and transaction numbers: counters are unbounded and do not wrap at 64 bits.
- Contexts, timeouts and cancellation: a cancelled call returns early and changes nothing.
- JSON and wire encodings and size limits: records are modelled directly.
- Which blobs an operation opens on the medium: the durable store reads all that the visible root refers to, the code only those of the lineages and buckets it needs.
- File permissions, locks, sealing and passphrases: only write, sync, rename, directory sync and removal are modelled.
- Zeroization and redaction, except where an emptied blob or outbox is part of the invariant.
- Fields only ever written, such as the digest kept in a tombstone, and report counters of compaction.
- The order of index entries and ties between candidates of equal age in compaction: sets and any choice among ties are allowed.
- Compaction in the file store's refinement: a child lineage compacted alone does not see a parent's effect on it, so compaction is modelled on a state that holds every lineage.
- LifecycleFileRuns.FileLifecycleStore.Perform: the error a refusal carries may differ from the one the global state gives, because the index may refuse first.
- Late retries of a cutover commit, retirement or child or reshare install after a further generation change, which the code reports as corruption: idempotence is stated for an immediate retry.
- Figure 7 for a single party, which completes without rounds, and its payload and key-list validation.
- The recovery identifier of a signature, the coordinator's own record of a completion, Figure 9 and online-sign recovery.
- Paths and identifiers as bytes of UTF-8: a character is one byte here, which only affects which error a malformed path is refused with.
- Run store, session registry, dispatcher, replay cache, transports and refresh scheduler: they deliver messages and start runs, and the properties here are stated for every order of messages and operations they could bring about.
