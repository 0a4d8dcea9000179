# Verified model of the enterprise retrieval core

This project models the stateful core of a multi-tenant retrieval-augmented
generation service and proves what it is meant to guarantee: ingestion of
document versions that survives crashes without ever mixing versions, repair of
the data stores from the control plane, planning and parallel execution under a
shared budget, chunking, conflict resolution, the iterative answer loop with
its checkpoints, and the merging of retrieved evidence.

Run `dafny verify dfyconfig.toml` in this directory.

## How the model is built

Each component comes in two layers. A specification layer describes one
operation, or one run, as a function on values, and the theorems are proved
about it; the files named `Laws` say of the single operations what they come to,
in terms of their inputs and consequences alone. An imperative layer has the
classes, fields and loops of the program; every method is proved equal to the
specification, so that the theorems hold of the program's form as well.

| files | component |
|---|---|
| Policy, AccessLaws | access policy and its translation into a search filter; access, tightening and the retrieval gate in terms of the fields |
| ControlPlane, Lifecycle, MetadataLaws, MetadataStore | tables and transactions; invariants and fencing over all runs; what each transaction leaves and refuses; the store as a class |
| DataPlane, Stores, Retriever | points and parents, the visibility gate, the stores as classes, the retriever's walk |
| Ingestion, PlaneWrites, IngestionProgress, LostParents, Elsewhere, Restarts, IngestionVisibility | the ingestion job and its failure path as sequences of single writes that can be cut anywhere |
| Thinning, FailurePaths, Interruptions, CrashRefinement, TornCompensation, ProcessEnds | worlds with entries missing, cut failure paths, ends of the process, all worlds these can leave, and what recovery makes of them |
| PublishLaws | what a finished run leaves, field by field; what verification notices and what is turned away |
| IngestionJob | the job as a class |
| Reconciliation, Completeness, Reconciler | the repair run, as phases, what it takes for its result to be complete, and as a class |
| Histories, Repairs | ingestion, deletion, the end of the process, recovery and repair one after another |
| RepairLaws | what a repair run leaves of each point and parent, and who retrieves it |
| PlanGraph, PlanValidator, PlanExecution, StepLaws, PlanExecutor | cycle check, validation, layers, interleaved execution, what one step comes to, the executor |
| Chunking, ChunkingLaws, Chunker | rebalancing of parent segments, on strings, which segments and where, and on aliased objects |
| Conflicts, ConflictLaws, ConflictResolver | temporal filter and two-phase resolver; what they keep, in terms of dates, versions, values and authority |
| Iteration, IterationLaws, Resumption, ResumptionWitnesses, ChatService | the bounded answer loop; what it asks, shows the judge and rests on; checkpoint and resume; runs where resuming differs; the loop as classes |
| Deduplication, DeduplicationLaws, Deduplicator, MultiCorpus | folding overlapping hits; merging corpora |

SQL tables are maps and each transaction is one atomic step. A run of the
control plane is any sequence of transactions, so every property of "all runs"
includes any number of competing jobs, deletes, ACL changes and rollbacks. An
ingestion attempt is a list of single writes; a kill stops after any number of
them, a fault runs the program's failure path, which is a list of single writes
again and can be cut as well. A kill is one the process survives; the end of
the process is an event of its own, which may come at any time and empties the
parent store, the one store that lives in process memory. Threads of a layer take turns in
any order, one budget reservation or tool call at a time. Tools, the judge, the
retriever, the conflict stage, the assertion extractor, the text splitter and
text normalization are deterministic function parameters.

Assumed throughout: chunk, parent and point ids are an injective function of
their inputs, so that an id belongs to one version (`WellFormed`, `OwnIdsApply`,
`IdsAgree`, `FreshIds`), and the retrieval pointer of a corpus is the corpus
itself. Nothing is assumed of document ids: tenants of one corpus may share
them.

## What turned out false, and exactly when it holds

- A tightened ACL can admit a caller it did not admit before; it cannot exactly
  when the caller's clearances are closed under lower rank
  (`TighteningSafeIffClearanceClosed`).
- After a takeover the version recorded as replaced can differ from the one the
  commit replaces (`TakeoverMisrecords`); they agree exactly when the active
  version did not change between the first claim and the read of the base
  revision (`RecordedIffActiveAtFirstClaim`).
- A fault after the commit is meant to keep the published data. It does exactly
  when the faulting attempt made the switch itself
  (`FaultKeepsDataIffSwitchedHere`).
- Recovery is meant to survive any interruption. It does exactly when everything
  the step markers vouch for, and no later step writes again, is still there
  (`RecoveryLeavesNoTraceIff`). While the process lives, kills in the steps and
  whole failure paths never break that (`InterruptionsLeaveNoTrace`). Two things
  do: a failure path that is itself cut between a delete and the clearing of the
  markers, step by step as `CutPathIsSoundIff` says, and the end of the process
  once the parents are marked written (`ProcessEndDecides`). Before verification
  the loss is noticed and heals (`TornBeforeVerificationHeals`); behind it the
  version is published incomplete and no later attempt restores it
  (`TornAfterVerificationIsFinal`), which happens to every build that has a
  parent (`TornCompensationLosesVersion`, `ProcessEndLosesVersion`). A version
  that lost all its parents is served again by one full run of the reconciler,
  under the condition of `ProcessEndIsRepairedIff`.
- One reconciliation run is meant to restore agreement. A rebuild reads child
  rows of every tenant, so it does exactly when no version that needs a rebuild
  shares document id and version with child rows of another tenant that the run
  does not purge (`OneRunAgreesIff`); two tenants and a restart reach the
  failing case (`SharedVersionNeverAgrees`).
- Nor does agreement mean that nothing is missing: the reconciler looks for
  versions without any point or any parent. A run leaves an active version
  complete exactly when it was complete, or had no point, or had no parent
  (`WholeIffMendable`, `OneRunCompletesIff`); a version that lost one parent of
  several is never repaired (`PartialLossStays`).
- A repaired corpus is meant to be retrievable. A child row of an active version
  that ends whole is, for exactly those its ACL admits, unless its point was
  marked active and deprecated at once and its version needed no rebuild: the
  scan takes such a point as agreeing (`ShownBehindRunIff`).
- Reconciliation keeps the active set exactly when no document with an active
  version has data left, or rebuilt, of a deleted one (`ActiveKeptIff`); deleting
  a document and indexing it again loses it (`ReindexedVersionIsLost`).
- The outcome of conflict resolution can depend on the order of the evidence.
  What its first phase leaves does not exactly when no superseding document has
  two newest items (`SurvivorsOrderFreeIff`).
- The chunk size bound, and with it the unreachability of the closing error,
  holds exactly for strictly ordered sizes (`PairBoundIffStrict`,
  `NeverTooLongIffStrict`); the constructor also admits equal ones.
- A resumed answer is documented to equal the uninterrupted one. The checkpoint
  gives the state back exactly when nothing delivered has been overwritten away
  (`RebuildsIffAllShown`, failing in `ForgottenTextRun`). Then, with nothing
  revoked, resuming equals not crashing exactly when the next round is not the
  one the lost no-gain counter would have stopped (`ResumeEqualsNoCrashIff`,
  failing in `LostCounterRun`; for any number of crashes `AnyCrashesIff`); for a
  stop saved but not marked done, exactly when the stop repeats itself
  (`UnmarkedStopIff`, failing in `UnmarkedStopRun`), and for a refusal never
  (`UnmarkedRefusalAnswers`); for a completed run, exactly when it did not end
  in a judge fault (`CompletedResumesIff`, failing in `JudgeFaultRun`).

Where code and comments disagree, the model follows the code: parents are
written as `active` from the start although the comment speaks of an invisible
state (the version gate is what hides them, see `BuildingIsInvisible`), and the
contexts of a deduplicated hit follow the order of folding, not of score.

## Model

| member | source | states |
|---|---|---|
| Policy.BuildAccessFilter | src/agentic_rag_enterprise/security/filter.py:31-94 | The filter fails closed exactly when no clearance is allowed, and then the policy admits nothing either; otherwise it selects, over all payloads, exactly those of the corpus for which the truth-table predicate holds |
| Policy.TighteningSafeIffClearanceClosed | src/agentic_rag_enterprise/security/policy.py:148-169 | "A tightening of an ACL never admits more than before" holds for a caller if and only if the caller's clearances are closed under lower-or-equal rank |
| Policy.ClosedClearanceNeverWidens | src/agentic_rag_enterprise/security/policy.py:48-81 | With closed clearances, every access allowed after a tightening was allowed before it |
| Policy.UnclosedClearanceWidens | src/agentic_rag_enterprise/security/policy.py:144-169 | For every caller with a gap in the clearances there is a tightening that widens access: the rank comparison alone is not safe |
| AccessLaws.AccessIff | src/agentic_rag_enterprise/security/policy.py:48-81 | Access is exactly for callers of the tenant, cleared for the level, let in by scope, name or group, and not denied by name or group: a denial wins over every permission |
| AccessLaws.FilterIff | src/agentic_rag_enterprise/security/filter.py:31-94 | What passes the filter, field by field: active, not deprecated, and accessible |
| AccessLaws.TighteningIff | src/agentic_rag_enterprise/security/policy.py:144-169 | A change counts as a tightening exactly when it opens nothing: not the scope, not the level, not to a user or group, and no denial is lifted |
| AccessLaws.LevelsRank | src/agentic_rag_enterprise/security/policy.py:141-146 | Levels rank from public over internal to secret, and unknown ones above |
| AccessLaws.TighteningsCompose | src/agentic_rag_enterprise/security/policy.py:148-169 | A chain of tightenings is one, and an unchanged ACL counts as one |
| AccessLaws.RejectedWidens | src/agentic_rag_enterprise/security/policy.py:148-169 | Letting one user in, or lifting one denial, is rejected, and would give that user an access it did not have |
| Lifecycle.ApplyKeepsInv | src/agentic_rag_enterprise/storage/metadata_store.py:279-1253 | Every transaction, with every argument, keeps: at most one active row per document, that row carries the maximum revision, every running job owns the lease of its build and agrees with it on the replaced version |
| Lifecycle.Reachable | src/agentic_rag_enterprise/storage/metadata_store.py:279-1253 | The invariant holds after any sequence of transactions from the empty store |
| Lifecycle.RevisionCountsEffectiveSteps | src/agentic_rag_enterprise/storage/metadata_store.py:931-979 | A transaction raises the revision of a document by exactly one when it is an effective commit, rollback, delete or ACL change on it, and otherwise leaves revision and active version alone; so bumping only the own row still raises the document's revision |
| Lifecycle.RevisionMonotone | src/agentic_rag_enterprise/storage/metadata_store.py:875-884 | Between purges the revision of a document never falls |
| Lifecycle.StillRevisionStillActive | src/agentic_rag_enterprise/storage/metadata_store.py:931-979 | Between purges, an unchanged revision means an unchanged active version |
| Lifecycle.CommitIsFenced | src/agentic_rag_enterprise/storage/metadata_store.py:918-943 | Once any effective lifecycle change lands after a base revision was read, the commit against that base changes no row, unless the version is active already |
| Lifecycle.CommitSwitchesIffUnchanged | src/agentic_rag_enterprise/storage/metadata_store.py:897-982 | A commit switches if and only if nothing effective happened since its base was read and its row exists and is not active |
| MetadataLaws.RollbackIsFenced | src/agentic_rag_enterprise/storage/metadata_store.py:1610-1700 | The same fencing of rollbacks: once any effective change lands after the expected revision was read, a rollback changes no row, and answers with a stale revision exactly when it could otherwise have switched |
| MetadataLaws.RollbackSwitchesIff | src/agentic_rag_enterprise/storage/metadata_store.py:1610-1700 | A rollback switches if and only if another version is active, its target is there and not deleted, and nothing effective happened since the expected revision, if one is given, was read |
| MetadataLaws.SwitchReports | src/agentic_rag_enterprise/storage/metadata_store.py:945-982 | What a commit or rollback leaves, row by row: the target active one revision up, the version active before deprecated at that revision, nothing else moved, and the outcome says so; any other outcome leaves everything as it was |
| Lifecycle.BaseRevisionFrozen | src/agentic_rag_enterprise/storage/metadata_store.py:473-529 | A resume never refreshes a job's base revision: it is frozen for as long as the job row exists |
| Lifecycle.OneRunningJobPerBuild | src/agentic_rag_enterprise/storage/metadata_store.py:327-460 | In every reachable state two running jobs of one build are the same job |
| MetadataLaws.HeldUntilEnded | src/agentic_rag_enterprise/storage/metadata_store.py:372-460 | Along every run: a granted build is refused to every other job, and to every other attempt of its own job that does not recover, until the job ends, recovers the build, or the document is purged |
| MetadataLaws.ClaimIsGranted | src/agentic_rag_enterprise/storage/metadata_store.py:372-460 | Everybody else is let in: without a lease, when the owner has ended, and for one's own build once its lease has ended, under the same attempt, or to recover it |
| MetadataLaws.ForeignIdentityIsRefused | src/agentic_rag_enterprise/storage/metadata_store.py:473-529 | Another build or content under a known job id is refused and changes nothing |
| MetadataLaws.EndedIsFree | src/agentic_rag_enterprise/storage/metadata_store.py:679-722 | An ended job's build can be claimed by any other job at once, and by its own next attempt unless the job was cancelled |
| Lifecycle.TakeoverOnlyFromTerminalOwner | src/agentic_rag_enterprise/storage/metadata_store.py:372-460 | A lease changes owner only by a granted acquire and only from an ended owner; each grant, and nothing else, raises the generation by one; the recorded replaced version travels with the lease |
| Lifecycle.GenerationMonotone | src/agentic_rag_enterprise/storage/metadata_store.py:372-460 | Between purges the generation never falls and the recorded version never changes |
| Lifecycle.StaleOwnerStaysFenced | src/agentic_rag_enterprise/ingestion/job.py:562-588 | A job and generation that lost the build once never owns it again until a purge |
| Lifecycle.RunningJobRecordsLease | src/agentic_rag_enterprise/storage/metadata_store.py:462-529 | A running job carries the version recorded at the first claim of its lease |
| Lifecycle.ReplacedVersionIsRecorded | src/agentic_rag_enterprise/storage/metadata_store.py:339-371 | When the committing job made the first claim, the version its commit deactivates is the recorded one |
| Lifecycle.RecordedIffActiveAtFirstClaim | src/agentic_rag_enterprise/storage/metadata_store.py:372-377 | For any committing job: the replaced version is the recorded one if and only if the version active at the first claim is the one active when the job's base revision was read |
| Lifecycle.TakeoverMisrecords | src/agentic_rag_enterprise/storage/metadata_store.py:372-377 | A run in which a takeover commits and replaces v2 although "nothing" is recorded as replaced |
| MetadataStores.MetadataStore.AcquireJob | src/agentic_rag_enterprise/storage/metadata_store.py:279-538 | One transaction on lease, job and document rows, then the acquire marker as a write of its own; outcome and whole new state, and a refused acquire changes nothing |
| MetadataStores.MetadataStore.UpsertDocumentBuild | src/agentic_rag_enterprise/storage/metadata_store.py:557-581 | Committed, superseded and deleted rows, and all other rows, stay as they are; a processing or failed row is refreshed at its own revision; a missing one starts at revision 0 |
| MetadataStores.MetadataStore.MarkTerminal | src/agentic_rag_enterprise/storage/metadata_store.py:679-722 | Ends the job and, unless cancelled, the leases it owns, in one transaction |
| MetadataStores.MetadataStore.CommitActiveVersion | src/agentic_rag_enterprise/storage/metadata_store.py:897-982 | The compare-and-set switch: outcome and whole new state, including the row retired with it |
| MetadataStores.MetadataStore.RollbackActiveVersion | src/agentic_rag_enterprise/storage/metadata_store.py:1610-1700 | The switch back to a named version or to a candidate, as the fenced transaction of `RollbackIsFenced` and `RollbackSwitchesIff`; an unnamed target is one of greatest revision; every error leaves the tables as they were |
| MetadataStores.MetadataStore.RollbackCandidate | src/agentic_rag_enterprise/storage/metadata_store.py:1651-1662 | Finds a row of greatest revision among those neither active nor deleted, or none if there is none |
| MetadataStores.MetadataStore.LogicalDelete | src/agentic_rag_enterprise/storage/metadata_store.py:1065-1141 | Deletes the named active row, or the active one if the named row was superseded, one revision up |
| MetadataStores.MetadataStore.UpdateDocumentAcl | src/agentic_rag_enterprise/storage/metadata_store.py:1166-1228 | Replaces the ACL of an active row, one revision up; a row that is not active, and every other row and table, stays; the invariant holds |
| MetadataStores.MetadataStore.MarkDocumentFailed | src/agentic_rag_enterprise/storage/metadata_store.py:1020-1034 | Fails a processing or failed row at its own revision and hash; any other row, and every other table, stays; the invariant holds |
| MetadataStores.MetadataStore.DeleteDocument | src/agentic_rag_enterprise/storage/metadata_store.py:1230-1253 | Removes every row of the document with its leases, jobs and step markers, and nothing of any other |
| MetadataStores.MetadataStore.CurrentRevision | src/agentic_rag_enterprise/storage/metadata_store.py:875-884 | The loop over rows finds the maximum revision of the document |
| MetadataStores.MetadataStore.CurrentActive | src/agentic_rag_enterprise/storage/metadata_store.py:862-873 | The loop over rows finds the one active version, or none |
| MetadataLaws.EndedTables | src/agentic_rag_enterprise/storage/metadata_store.py:679-722 | An ended job moves its own row and the leases it owns, to done or failed as the job, and nothing else; a cancelled one leaves its leases |
| MetadataLaws.RowsWritten | src/agentic_rag_enterprise/storage/metadata_store.py:557-581 | Claim, failure and ACL change, row by row: which rows they touch, and every field they leave there |
| MetadataLaws.MarkersAndRows | src/agentic_rag_enterprise/storage/metadata_store.py:727-1018 | Markers and chunk rows are written one at a time, and cleared exactly for one job or one version |
| MetadataLaws.DeleteLeaves | src/agentic_rag_enterprise/storage/metadata_store.py:1065-1141 | A delete acts exactly when its row is there and not deleted and some version is active; it takes the active row one revision up to deleted, and then no version of the document is active |
| MetadataLaws.PurgeLeaves | src/agentic_rag_enterprise/storage/metadata_store.py:1230-1253 | A purge leaves no row, lease, job or marker of its document, everything of all others, and the chunk rows |
| AccessLaws.LoadsIff | src/agentic_rag_enterprise/retrieval/parent_reader.py:101-162 | A hit loads its parent exactly when that is live, of the same tenant, corpus, document and version, under the same rights, and these admit the caller; otherwise the error tells which of these failed |
| AccessLaws.VisibleIff | src/agentic_rag_enterprise/retrieval/retriever.py:143-173 | A chunk is shown exactly when its point is live, belongs to the active version of a document of the corpus, and loads its parent |
| Retrievers.Retrieve | src/agentic_rag_enterprise/retrieval/retriever.py:143-173 | The walk serves, in search order, exactly the hits of active versions whose parents pass, and counts every denial under its reason |
| Retrievers.ServedIsVisible | src/agentic_rag_enterprise/retrieval/retriever.py:146-167 | A pair is served if and only if its chunk passes search, version gate and parent authorization, with the stored parent |
| Retrievers.HitsAccounted | src/agentic_rag_enterprise/retrieval/retriever.py:143-173 | Every hit of an active version is served, or counted under one reason, exactly once; stale hits are neither |
| Stores.ParentStore.ActivateDocument | src/agentic_rag_enterprise/storage/parent_store.py:72-90 | Every parent of one version, and no other, becomes active |
| Stores.ParentStore.DeprecateDocument | src/agentic_rag_enterprise/storage/parent_store.py:92-112 | Every parent of one version, and no other, becomes inactive |
| Stores.ParentStore.DeleteDocument | src/agentic_rag_enterprise/storage/parent_store.py:114-132 | Removes exactly the parents of one version |
| Stores.ParentStore.ListParentIds | src/agentic_rag_enterprise/storage/parent_store.py:161-182 | Lists exactly the parent ids of one version |
| CrashRefinement.RecoveryLeavesNoTraceIff | src/agentic_rag_enterprise/ingestion/job.py:277-414 | Crash refinement, exactly: from every startable world, after any sequence of attempts each killed, or faulting, after any number of writes, with failure paths themselves cut after any number of writes, and of process ends that take the parent store, the next recovery ends with the rows, points, chunk rows and own parents of one uninterrupted run (and all other parents, unless the process has ended) if and only if everything the step markers vouch for, and no later step writes again, is still there |
| CrashRefinement.TornBeforeVerificationHeals | src/agentic_rag_enterprise/ingestion/job.py:613-712 | If something is missing and verification is still ahead, the recovery fails and the one after it ends as the uninterrupted run |
| CrashRefinement.TornAfterVerificationIsFinal | src/agentic_rag_enterprise/ingestion/job.py:250-276 | If something is missing behind the verify marker, the recovery reports success on an incomplete active version, and no later attempt, however cut, restores or changes anything of it |
| CrashRefinement.CutPathIsSoundIff | src/agentic_rag_enterprise/ingestion/job.py:820-848 | Which cuts do it: a failure path killed after a number of writes leaves a sound world if and only if no delete it made belongs to a step whose marker still stands and which no later step writes again, by step and number of writes |
| CrashRefinement.InterruptionsLeaveNoTrace | src/agentic_rag_enterprise/ingestion/job.py:277-414 | While the process lives, kills anywhere in the steps, and faults whose failure paths run to their end, always leave no trace |
| ProcessEnds.ProcessEndDecides | src/agentic_rag_enterprise/storage/parent_store.py:20-24 | The process ends after any interruptions. The recovery leaves no trace if and only if the build has no parents or has not yet marked them written; up to verification it fails once and the next one leaves no trace; behind it, it reports success on an active version without a single parent |
| ProcessEnds.ProcessEndLosesVersion | src/agentic_rag_enterprise/ingestion/job.py:732-742 | For every startable build with a parent: one kill behind the verify marker, the end of the process and a recovery give success, an active version without parents, and a document that shows nothing to anyone |
| LostParents.AttemptOwnOnly | src/agentic_rag_enterprise/ingestion/job.py:505-520 | An attempt, however cut, does the same with and without the parents of other builds: it reads and writes only its own |
| Elsewhere.AttemptKeeps | src/agentic_rag_enterprise/ingestion/job.py:505-848 | However it is cut, an attempt moves no row, point or parent of another document |
| ProcessEnds.OtherDocumentsOverRuns | src/agentic_rag_enterprise/retrieval/parent_reader.py:101-162 | Over all such runs every other document shows what it showed until the process ends, and nothing from then on |
| Repairs.GroupOwner | src/agentic_rag_enterprise/ingestion/job.py:1198-1275 | With no parent left, the rebuild phase gives all parents of one document id and version to the last of its tenants that it visits, live and with the ACL of their rows |
| Repairs.RepairShowsIff | src/agentic_rag_enterprise/ingestion/reconciler.py:236-279 | A full run over a world without any parent: a version with its rows is shown again, to exactly those its ACL admits, if and only if it is the last of its document id and version in the visiting order and its document is not purged |
| Repairs.ProcessEndIsRepairedIff | src/agentic_rag_enterprise/ingestion/reconciler.py:236-279 | The composition: the process ends behind the verify marker, the recovered version shows nothing to anyone, and one full run shows it again under exactly that condition |
| Repairs.ProcessEndCompletesIff | src/agentic_rag_enterprise/ingestion/reconciler.py:236-279 | Right after the end of the process one full run leaves every chunk of every active version in place, and nothing stray, if and only if the corpus converges |
| TornCompensation.TornCompensationLosesVersion | src/agentic_rag_enterprise/ingestion/job.py:820-848 | For every startable build with a parent: a fault in the commit step, its failure path killed behind the last parent delete, and a recovery, give success, an active version without any of its parents, and a document that shows nothing to anyone |
| TornCompensation.LostParentStays | src/agentic_rag_enterprise/ingestion/job.py:732-742 | Behind the verify marker no step, cut or failing, puts a missing parent back: publish passes over it |
| FailurePaths.CompensatingPath | src/agentic_rag_enterprise/ingestion/job.py:401-414 | The failure path after any number of its writes: points, parents and chunk rows dropped in that order, then markers cleared, row failed, job failed |
| Thinning.VerifyIff | src/agentic_rag_enterprise/ingestion/job.py:613-712 | On a built world with entries missing, verification passes if and only if nothing is missing |
| Thinning.ThinRun | src/agentic_rag_enterprise/ingestion/job.py:277-331 | The remaining steps over a world with entries missing, cut anywhere, make the same progress as over the whole one; uncut they end exactly when enough is there for verification |
| CrashRefinement.VisibilityOverRuns | src/agentic_rag_enterprise/ingestion/job.py:505-848 | At every cut of every such run, in the steps, in a failure path, or by the end of the process, a document shows exactly what it showed at the start (or nothing, once the process has ended) until the switch, and only the new version's chunks from then on |
| CrashRefinement.IndexedShowsAll | src/agentic_rag_enterprise/ingestion/job.py:714-784 | After a recovery from a sound world a caller sees all of the new version's chunks if its ACL admits the caller, and none otherwise |
| CrashRefinement.NewVersionCanStart | src/agentic_rag_enterprise/ingestion/job.py:447-474 | The hypothesis of these theorems is met by a new version in every reachable state |
| CrashRefinement.RedeliveryIsRefused | src/agentic_rag_enterprise/storage/metadata_store.py:413-460 | While an attempt runs, a redelivery under another attempt id that does not recover changes nothing |
| CrashRefinement.FaultKeepsDataIffSwitchedHere | src/agentic_rag_enterprise/ingestion/job.py:215-218 | A fault after the commit keeps the published data if and only if the faulting attempt made the switch itself; otherwise the active document shows nothing to anyone |
| CrashRefinement.ResumedFaultHidesDocument | src/agentic_rag_enterprise/ingestion/job.py:332-414 | The whole family of runs in which that happens: stopped behind the commit marker, recovered, faulting before the next step is done |
| IngestionProgress.RunStepsProgress | src/agentic_rag_enterprise/ingestion/job.py:277-331 | The remaining steps, cut anywhere, never raise and bring the build to some later step, to the end when not cut |
| IngestionProgress.CommitLands | src/agentic_rag_enterprise/ingestion/job.py:590-611 | In an undisturbed build the commit goes through and leaves the final rows, also when repeated |
| IngestionProgress.BuiltVerifies | src/agentic_rag_enterprise/ingestion/job.py:613-712 | Verification passes on what the write steps leave |
| Restarts.FaultRestarts | src/agentic_rag_enterprise/ingestion/job.py:820-848 | From the moment a failure path has cleared the markers, with or without its last two writes, the build can start over, towards the same rows and the same stores |
| Restarts.FinalPoint | src/agentic_rag_enterprise/ingestion/job.py:714-784 | Which points a finished build writes: its own, those of exactly the replaced version, and no others; what is in them is `RunEnds` |
| Restarts.FinalParent | src/agentic_rag_enterprise/ingestion/job.py:746-784 | The same for parents |
| PublishLaws.RunEnds | src/agentic_rag_enterprise/ingestion/job.py:505-784 | What one uninterrupted run leaves, field by field, from the request and the world it began in: own points, parents and rows active under the new ACL; of exactly the replaced version, points with their row's key, parent and text but inactive, and parents inactive and deprecated; the document rows switched one revision up; all else untouched |
| PublishLaws.RecoveryEnds | src/agentic_rag_enterprise/ingestion/job.py:277-414 | The same behind every recovery that leaves no trace, however often the build was interrupted |
| PublishLaws.ReplacedIsHidden | src/agentic_rag_enterprise/ingestion/job.py:746-784 | Then no point of the replaced version is found by anybody, in any corpus |
| PublishLaws.ReplacedParentIsHidden | src/agentic_rag_enterprise/storage/parent_store.py:47-60 | And no parent of it admits any hit |
| PublishLaws.TamperedPointIsNoticedIff | src/agentic_rag_enterprise/ingestion/job.py:643-676 | Verification notices a changed point exactly when its identity, parent, status or deprecation changed |
| PublishLaws.TamperedParentIsNoticedIff | src/agentic_rag_enterprise/ingestion/job.py:613-640 | And a changed parent exactly when its identity did |
| PublishLaws.LossIsNoticed | src/agentic_rag_enterprise/ingestion/job.py:613-660 | It notices every missing point and parent |
| PublishLaws.MiscountIsNoticed | src/agentic_rag_enterprise/ingestion/job.py:678-697 | It notices every chunk row of the version too few or too many |
| PublishLaws.UncommittableIsNoticedIff | src/agentic_rag_enterprise/ingestion/job.py:699-712 | And a document row exactly when it is gone or in a status that cannot be committed |
| PublishLaws.TurnedAwayIff | src/agentic_rag_enterprise/ingestion/job.py:283-345 | An attempt, however cut, is rejected exactly when job id or version is known with another build or other content, and done already exactly when its version is superseded, or active with a succeeded build; then no store, row or marker moves |
| IngestionVisibility.BuildingIsInvisible | src/agentic_rag_enterprise/ingestion/job.py:505-560 | After every step before the commit the document shows what it showed at the start, to every caller |
| IngestionVisibility.CompensationIsInvisible | src/agentic_rag_enterprise/ingestion/job.py:820-848 | So it does behind each of the last writes of a failure path |
| IngestionVisibility.CommittedShowsOwn | src/agentic_rag_enterprise/retrieval/retriever.py:146-167 | From the commit on it shows nothing but this build's chunks |
| IngestionVisibility.PublishedShowsAll | src/agentic_rag_enterprise/ingestion/job.py:714-784 | From publish on it shows all of them to whoever the new ACL admits |
| IngestionJobs.IngestionJob.PutParents | src/agentic_rag_enterprise/ingestion/job.py:505-520 | The loop over parents performs exactly the write operations of its step |
| IngestionJobs.IngestionJob.StepWriteQdrant | src/agentic_rag_enterprise/ingestion/job.py:522-560 | Performs exactly the write operations of its step: points as processing, then the chunk rows |
| IngestionJobs.IngestionJob.StepVerify | src/agentic_rag_enterprise/ingestion/job.py:613-712 | Complete if and only if rows, points and parents of the build agree one for one |
| IngestionJobs.IngestionJob.StepCommit | src/agentic_rag_enterprise/ingestion/job.py:590-611 | Checks the lease, then the compare-and-set; the outcome and the commit flag are those of the operations |
| IngestionJobs.IngestionJob.StepPublish | src/agentic_rag_enterprise/ingestion/job.py:714-784 | Promotes the own data, then retires the replaced version's rows one by one, in whatever order they come; with what in them, and hidden from whom, is `RunEnds` and `ReplacedIsHidden` |
| IngestionJobs.IngestionJob.Compensate | src/agentic_rag_enterprise/ingestion/job.py:820-848 | Performs exactly the write operations of the failure path (points, parents, chunk rows, markers, document row, in that order) if the lease is still held, and none otherwise |
| IngestionJobs.IngestionJob.HandleFault | src/agentic_rag_enterprise/ingestion/job.py:332-414 | Performs exactly the write operations of the failure path: compensation unless this object committed or lost its lease, then the job marked failed |
| IngestionJobs.IngestionJob.RunPending | src/agentic_rag_enterprise/ingestion/job.py:277-331 | Resumes behind the last marker and ends at the first step that raises, as the step specification does |
| IngestionJobs.IngestionJob.Run | src/agentic_rag_enterprise/ingestion/job.py:220-414 | A whole invocation, with its early exits, equals the attempt that the theorems are about |
| Reconciliation.OneRunAgrees | src/agentic_rag_enterprise/ingestion/reconciler.py:159-359 | Convergence: one non-dry run with both callbacks leaves points and parents of known versions only, with the status the metadata gives them, a point and a parent for every active version and none for a deleted one, in whatever order it visits the versions, if whatever its rebuilds rewrite besides their own versions is purged in the same run |
| Reconciliation.OneRunAgreesIff | src/agentic_rag_enterprise/ingestion/job.py:1198-1226 | And only then: rows are rebuilt by document and version whatever their tenant, so one run converges if and only if no version that needs a rebuild shares document id and version with child rows of another tenant, purged ones apart |
| Completeness.WholeIffMendable | src/agentic_rag_enterprise/ingestion/reconciler.py:236-279 | The run tests for no point or no parent at all: in a converging world it leaves an active version with the point and parent of every child row if and only if the version had them all, or had no point, or had no parent |
| Completeness.OneRunCompletes | src/agentic_rag_enterprise/ingestion/reconciler.py:159-359 | So one run leaves every active version complete if and only if that holds of each version that it does not purge |
| Completeness.OneRunCompletesIff | src/agentic_rag_enterprise/ingestion/reconciler.py:159-359 | Agreement and completeness together, as an if-and-only-if on the world before the run |
| RepairLaws.PointsBehindRun | src/agentic_rag_enterprise/ingestion/reconciler.py:181-245 | Behind any run, whatever its options, a point is one that was there, of a known version, with nothing rewritten but a lifecycle at odds with its version's, or one made from a child row, live, with the row's key, parent, text and ACL |
| RepairLaws.ActivePointIsFoundIff | src/agentic_rag_enterprise/ingestion/reconciler.py:211-231 | A point of an active version is then found by exactly those its ACL admits, unless it was marked active and deprecated at once |
| RepairLaws.InactivePointIsHidden | src/agentic_rag_enterprise/ingestion/reconciler.py:232-245 | A point of any other version is found by nobody, in any corpus |
| RepairLaws.MadePointIsFoundIff | src/agentic_rag_enterprise/ingestion/job.py:1198-1275 | A point made from a child row is found by exactly those the row's ACL admits |
| RepairLaws.ParentsBehindRun | src/agentic_rag_enterprise/ingestion/reconciler.py:300-350 | A parent of an active version is live, and one of another version admits no hit |
| RepairLaws.ShownBehindRunIff | src/agentic_rag_enterprise/ingestion/reconciler.py:159-359 | One full run over a converging corpus: a child row of an active version that ends whole is retrieved by exactly those its ACL admits, if and only if the version was rebuilt or its point was not marked active and deprecated at once |
| RepairLaws.CompleteShowsAll | src/agentic_rag_enterprise/ingestion/reconciler.py:159-359 | Where no point is so marked, a complete corpus shows every child row of every active version to exactly those its ACL admits |
| Reconciliation.RealignedIffRegistered | src/agentic_rag_enterprise/ingestion/reconciler.py:160-179 | The live collection pointer ends at the persisted one, or at the corpus id, if and only if the corpus is registered or was aligned already |
| Repairs.PartialLossStays | src/agentic_rag_enterprise/ingestion/reconciler.py:236-279 | From the empty stores, for every build of two parents or more: a failure path cut behind its first parent delete loses that parent for good; recovery reports success, the reconciler finds nothing amiss, and no run with any options changes anything |
| Histories.TwoTenantsNeverAgree | src/agentic_rag_enterprise/ingestion/job.py:1211-1226 | From the empty stores: two tenants index one document id and version of a corpus, the unpersisted parent store is lost; then no run, in whatever order, makes the corpus agree |
| Histories.SharedVersionNeverAgrees | src/agentic_rag_enterprise/ingestion/job.py:1211-1226 | Such a corpus, concretely |
| Reconciliation.ActiveLeft | src/agentic_rag_enterprise/ingestion/job.py:1176-1196 | The active versions a run leaves are exactly those of the documents it does not purge |
| Reconciliation.ActiveKeptIff | src/agentic_rag_enterprise/ingestion/job.py:1176-1196 | The run keeps the active set if and only if no document with an active version has data left, or rebuilt, of a deleted version: the purge takes every version |
| Reconciliation.AgreementIsFixpoint | src/agentic_rag_enterprise/ingestion/reconciler.py:159-359 | In an agreeing world a run, in any order and with any options, changes nothing |
| Reconciliation.SecondRunChangesNothing | src/agentic_rag_enterprise/ingestion/reconciler.py:159-359 | After one run over a converging corpus a second one, in whatever order, changes nothing |
| Histories.ReindexedIsPurged | src/agentic_rag_enterprise/ingestion/job.py:1176-1196 | Whenever a deleted version still has a point when its document is indexed again, from any startable world, the next full run removes what has been indexed |
| Histories.DeleteThenReindex | src/agentic_rag_enterprise/ingestion/job.py:1176-1196 | From the empty stores, for any two versions: index, delete, index the other, reconcile; the active set is lost |
| Histories.ReindexedVersionIsLost | src/agentic_rag_enterprise/ingestion/job.py:1176-1196 | Such a run, concretely, with its visiting orders |
| Histories.IngestKeepsIds | src/agentic_rag_enterprise/ingestion/job.py:505-560 | An ingestion with fresh ids keeps the ids of all versions apart, which is what reconciliation relies on |
| Histories.AttemptConfined | src/agentic_rag_enterprise/ingestion/job.py:220-414 | However an attempt is cut, the control plane's invariant stands and no other job or marker appears |
| Histories.TakeoverRetiresNothing | src/agentic_rag_enterprise/ingestion/job.py:746-784 | In the takeover run, whatever chunks are stored, the commit replaces v2 and publish retires nothing |
| Reconciliation.VisitsInAnyOrder | src/agentic_rag_enterprise/ingestion/reconciler.py:300-350 | Visiting the parents one by one, in any order, equals the parent phase as one map |
| Reconcilers.Reconciler.Reconcile | src/agentic_rag_enterprise/ingestion/reconciler.py:159-359 | The imperative run equals the specification; it reports nothing but dead letters if and only if there was nothing to repair, and then it changed nothing; dry runs change nothing; what it leaves of each point, and who retrieves it, is `PointsBehindRun` and `ShownBehindRunIff` |
| Reconcilers.Reconciler.ReconcileTwice | src/agentic_rag_enterprise/ingestion/reconciler.py:1-40 | Two runs in a row over a converging corpus, without a compensate callback: behind the first the stores agree, and are complete if and only if every version was mendable; the second mutates nothing and reports exactly the failed jobs |
| PlanGraph.HasCycle | src/agentic_rag_enterprise/planner/validator.py:303-320 | The counting algorithm returns true exactly when the edges have a closed walk, with duplicate edges and self-loops allowed |
| PlanGraph.RootlessIsCyclic | src/agentic_rag_enterprise/planner/validator.py:303-320 | A non-empty set of steps none of which is free of predecessors inside it contains a cycle |
| PlanGraph.RankedIsAcyclic | src/agentic_rag_enterprise/planner/validator.py:303-320 | A graph whose edges all climb a rank has no cycle |
| PlanValidation.CyclicIffDependencyCycle | src/agentic_rag_enterprise/planner/validator.py:277-300 | The listed edges are cyclic exactly when the plan's dependencies are, however often an edge is listed |
| PlanValidation.BuildEdges | src/agentic_rag_enterprise/planner/validator.py:277-300 | The edges are exactly the hard and optional dependencies on known steps |
| PlanValidation.Validate | src/agentic_rag_enterprise/planner/validator.py:40-275 | No violation if and only if ids are unique, the plan is acyclic, every step is sound and the step budgets fit; a cycle is reported exactly for a self-dependency or, with unique ids, for any cycle |
| PlanValidation.BuildLayers | src/agentic_rag_enterprise/planner/executor.py:459-493 | Terminates on every acyclic plan and places each step exactly once, behind all its dependencies and directly behind one of them |
| PlanExecution.AdvanceKeepsOutcome | src/agentic_rag_enterprise/planner/executor.py:208-376 | With room in the budget one micro-step of one thread keeps its final outcome, counts what it reserves and brings it nearer its end |
| PlanExecution.AnyScheduleSameOutcome | src/agentic_rag_enterprise/planner/executor.py:150-206 | Whenever all threads of a layer have ended, under any interleaving, each is where it would be alone and the shared counter is the sum of what they spent |
| PlanExecution.TurnsSuffice | src/agentic_rag_enterprise/planner/executor.py:150-206 | No thread blocks another: six turns each end a layer |
| PlanExecution.ScheduleIndependence | src/agentic_rag_enterprise/planner/executor.py:106-135 | Whole executions: whether it raises, all step results and the budget used are independent of the interleavings inside the layers |
| PlanExecution.BudgetIsNeverExhausted | src/agentic_rag_enterprise/planner/executor.py:208-376 | Under every schedule in which each layer ends, no step of an accepted plan ends with the shared budget exhausted |
| PlanExecution.FailedAncestorIdles | src/agentic_rag_enterprise/planner/executor.py:208-260 | Under every such schedule, along any chain of hard dependencies, a step behind one that did not succeed does not succeed and consumes nothing |
| PlanExecution.UsedIsConsumed | src/agentic_rag_enterprise/planner/executor.py:411-451 | Under every such schedule the shared counter ends as the sum of what the steps report |
| StepLaws.SucceedsAt | src/agentic_rag_enterprise/planner/executor.py:258-376 | If all attempts before the k-th were to be tried again and the k-th produces valid output, with k at most two and within the step's calls, the step succeeds with that output, k attempts and what they cost |
| StepLaws.FailsAt | src/agentic_rag_enterprise/planner/executor.py:280-376 | What every other last attempt comes to: invalid output, security, plan and programming errors, timeouts, and any other error |
| StepLaws.ExhaustedIff | src/agentic_rag_enterprise/planner/executor.py:332-376 | Retries count as exhausted if and only if some attempt fits the step's calls and every attempt that fits was to be tried again |
| StepLaws.NeverTried | src/agentic_rag_enterprise/planner/executor.py:258-264 | A step with fewer calls than corpora fails without calling anything |
| StepLaws.NotStarted | src/agentic_rag_enterprise/planner/executor.py:216-256 | A step that is unregistered, has an unmet hard dependency or cannot be bound calls and consumes nothing, and says which |
| StepLaws.NeverOverspends | src/agentic_rag_enterprise/planner/executor.py:262-280 | Whatever the plan, no micro-step takes the shared counter over its total; an attempt is refused exactly when it would |
| StepLaws.ExecutedStepSucceeds | src/agentic_rag_enterprise/planner/executor.py:106-135 | In every executed plan, whatever the schedules, a step whose k-th attempt is the first to succeed reports it so |
| PlanExecutors.AtomicToolBudget.TryReserve | src/agentic_rag_enterprise/planner/budget.py:26-39 | Grants exactly what fits and never exceeds the total |
| PlanExecutors.ExecuteSingleStep | src/agentic_rag_enterprise/planner/executor.py:208-376 | The retry loop ends where the thread alone ends, with the same budget; where that is, from tool and budget alone, is `SucceedsAt`, `FailsAt` and `ExhaustedIff` |
| PlanExecutors.ExecuteLayer | src/agentic_rag_enterprise/planner/executor.py:150-206 | One layer: raises exactly when some step would alone, otherwise every outcome and the budget used |
| PlanExecutors.ExecuteLayers | src/agentic_rag_enterprise/planner/executor.py:106-135 | All layers: equal to every step run alone, layer by layer |
| PlanExecutors.CollectEvidence | src/agentic_rag_enterprise/planner/executor.py:411-430 | The evidence ids are the first occurrences, in plan order, of those the steps found |
| PlanExecutors.BuildResult | src/agentic_rag_enterprise/planner/executor.py:411-451 | The overall status, evidence and counters report exactly the step results |
| PlanExecutors.ReportIff | src/agentic_rag_enterprise/planner/executor.py:411-451 | There is no usable evidence exactly when no succeeded step found any; otherwise each id found by a succeeded step is listed once, and the result is degraded exactly when some step did not succeed |
| PlanExecutors.FirstOccurrencesGrow | src/agentic_rag_enterprise/planner/executor.py:411-430 | The list keeps the order of first appearance |
| PlanExecutors.Execute | src/agentic_rag_enterprise/planner/executor.py:84-144 | Rejected exactly for unaccepted plans; a budget below its corpora is refused; otherwise the verdict reports the run of every step alone, and its tool calls are what the steps consumed |
| Chunking.RebalanceFits | src/agentic_rag_enterprise/ingestion/chunker.py:185-224 | A below-minimum segment and a neighbour within the maximum become two parts within the maximum, both at least the minimum when there is text for it |
| Chunking.PairBoundIffStrict | src/agentic_rag_enterprise/ingestion/chunker.py:84-109 | That bound holds on all inputs if and only if the minimum is strictly below the maximum; the constructor also admits equality |
| Chunking.EqualSizesBreakBound | src/agentic_rag_enterprise/ingestion/chunker.py:185-224 | For every size m, equal bounds m give a part of m + 1 characters |
| Chunking.NeverTooLongIffStrict | src/agentic_rag_enterprise/ingestion/chunker.py:132-137 | The closing error is unreachable, for all texts and all splitters that respect their size, if and only if the sizes are strictly ordered |
| Chunking.ParentsNeverTooLong | src/agentic_rag_enterprise/ingestion/chunker.py:111-143 | With strict sizes every parent is within the maximum |
| Chunking.MergeSmallLaws | src/agentic_rag_enterprise/ingestion/chunker.py:145-170 | Merging keeps the joined text exactly, and every segment reaches the minimum unless there is only one |
| Chunking.FoldSmallKeepsText | src/agentic_rag_enterprise/ingestion/chunker.py:226-245 | The first cleaning pass keeps the joined text exactly |
| Chunking.RebalanceKeepsText | src/agentic_rag_enterprise/ingestion/chunker.py:185-224 | Redistribution keeps the sequence of non-whitespace characters |
| Chunking.RebalanceFromKeepsText | src/agentic_rag_enterprise/ingestion/chunker.py:246-260 | So does the second pass as a whole |
| ChunkingLaws.MergedInStretches | src/agentic_rag_enterprise/ingestion/chunker.py:145-170 | Merging joins exactly the shortest starts that reach the minimum, one after another; only a small rest joins the last of them |
| ChunkingLaws.CleaningTouchesOnlySmall | src/agentic_rag_enterprise/ingestion/chunker.py:226-260 | Segments that all reach the minimum, and a single one, pass the cleaning as they are |
| ChunkingLaws.FoldingIsDone | src/agentic_rag_enterprise/ingestion/chunker.py:226-245 | What the first pass leaves small does not fit onto its predecessor |
| ChunkingLaws.SplitNext | src/agentic_rag_enterprise/ingestion/chunker.py:172-183 | Exactly the segments above the maximum are replaced by the splitter's parts |
| ChunkingLaws.SplitsEachAlone | src/agentic_rag_enterprise/ingestion/chunker.py:172-183 | The splitter is asked segment by segment |
| ChunkingLaws.CutsAtBoundary | src/agentic_rag_enterprise/ingestion/chunker.py:200-211 | The cut is at the boundary nearest the preferred position, the last before it or else the first behind it, of the first separator that has one in the window |
| ChunkingLaws.RedistributedAt | src/agentic_rag_enterprise/ingestion/chunker.py:185-224 | The preferred position is the middle, and the parts are the trimmed sides of the cut, or the halves when a side would fall short of the minimum |
| ChunkingLaws.SpacesAre | src/agentic_rag_enterprise/ingestion/chunker.py:194-218 | White space, by code point, as the strip operations know it |
| ChunkingLaws.PairIsKeptWhole | src/agentic_rag_enterprise/ingestion/chunker.py:185-224 | A pair is replaced by the two parts of its joined text, or left as it is when a part would be empty |
| ChunkingLaws.ClosingCheck | src/agentic_rag_enterprise/ingestion/chunker.py:132-143 | The segments are handed out exactly when every one is within the maximum |
| Chunkers.MergeSmallParents | src/agentic_rag_enterprise/ingestion/chunker.py:145-170 | In-place merging over aliased segments equals the specification |
| Chunkers.SplitLargeParents | src/agentic_rag_enterprise/ingestion/chunker.py:172-183 | Only oversized segments are replaced, each by the splitter's parts |
| Chunkers.FoldOne | src/agentic_rag_enterprise/ingestion/chunker.py:226-245 | One step of the first pass, editing a neighbour through its alias, leads to the same end |
| Chunkers.CleanSmallChunks | src/agentic_rag_enterprise/ingestion/chunker.py:226-260 | Both passes equal the specification |
| Chunkers.ChunkParents | src/agentic_rag_enterprise/ingestion/chunker.py:111-143 | The whole rebalancing, with its closing check, equals the specification |
| Conflicts.FilterPartitions | src/agentic_rag_enterprise/evidence/temporal.py:54-131 | Every item is retained or filtered out, once each, and retained exactly when nothing objects |
| Conflicts.FilterByTemporalScope | src/agentic_rag_enterprise/evidence/temporal.py:54-131 | The loop equals the filter, in input order, with reasons |
| ConflictLaws.AsOfKeepsIff | src/agentic_rag_enterprise/evidence/temporal.py:54-131 | At a date an item is retained exactly when it is in force then |
| ConflictLaws.RangeKeepsIff | src/agentic_rag_enterprise/evidence/temporal.py:54-131 | Over a range it is retained exactly when it is in force at some instant of the range |
| ConflictLaws.CurrentKeepsIff | src/agentic_rag_enterprise/evidence/temporal.py:54-131 | Otherwise exactly when it is in force now and not deprecated, and the reason says which of the two fails |
| Conflicts.SupersededIff | src/agentic_rag_enterprise/evidence/conflict_resolver.py:144-196 | With unique ids phase 1 drops exactly the non-winners of superseding documents |
| ConflictLaws.FirstPhaseKeepsIff | src/agentic_rag_enterprise/evidence/conflict_resolver.py:144-196 | Phase 1 keeps an item if and only if its document has one version only, or a temporary and a permanent one compared at one instant, or the item is the latest: no item of the document takes effect later, nor at the same time with a greater version |
| ConflictLaws.LexLessIff | src/agentic_rag_enterprise/evidence/conflict_resolver.py:144-196 | Versions compare by code point at the first difference, a proper prefix being smaller |
| Conflicts.OneItemPerSupersedingDocument | src/agentic_rag_enterprise/evidence/conflict_resolver.py:144-196 | Such a document is left with one item, even when several share its newest version |
| Conflicts.NeverResolvesToNothing | src/agentic_rag_enterprise/evidence/conflict_resolver.py:62-118 | With unique ids the kept set is empty exactly when the input is |
| Conflicts.StageEmptyIffFiltered | src/agentic_rag_enterprise/services/chat_service.py:311-335 | The conflict stage comes back empty exactly when the temporal filter leaves nothing |
| Conflicts.LosersHaveKeptDominator | src/agentic_rag_enterprise/evidence/conflict_resolver.py:198-285 | Every phase-2 loser has a kept item with the same assertion key and at least the margin more authority |
| ConflictLaws.SecondPhaseDropsIff | src/agentic_rag_enterprise/evidence/conflict_resolver.py:198-285 | Phase 2 drops an item if and only if one that is left, from another document, says something else of the same key with at least the margin more authority, the two not being a temporary and a permanent one |
| ConflictLaws.ContradictedIff | src/agentic_rag_enterprise/evidence/conflict_resolver.py:100-128 | The evidence is contradicted if and only if versions of one document cannot be told apart, or two items left contend and neither outranks the other |
| ConflictLaws.ConflictFreeIff | src/agentic_rag_enterprise/evidence/conflict_resolver.py:100-128 | It is free of conflicts if and only if no document has two versions and any two comparable items say the same of the same key |
| Conflicts.OrderDoesNotMatter | src/agentic_rag_enterprise/evidence/conflict_resolver.py:62-118 | Kept set and status do not depend on the input order when no superseding document has two newest items |
| Conflicts.SurvivorsOrderFreeIff | src/agentic_rag_enterprise/evidence/conflict_resolver.py:144-196 | What phase 1 leaves is the same for every order of the input if and only if no superseding document has two newest items |
| Conflicts.TiesDependOnOrder | src/agentic_rag_enterprise/evidence/conflict_resolver.py:144-196 | Where two are newest, the input with the one that does not win moved to its end is resolved differently |
| ConflictResolvers.ResolveVersionGroup | src/agentic_rag_enterprise/evidence/conflict_resolver.py:144-196 | One document's finding, its choice and its losers |
| ConflictResolvers.ResolvePair | src/agentic_rag_enterprise/evidence/conflict_resolver.py:198-285 | One pair: no conflict, an unresolved one, or one overruled by authority |
| ConflictResolvers.Resolve | src/agentic_rag_enterprise/evidence/conflict_resolver.py:62-128 | Both phases with their counters and drop sets give the specified status and kept ids; findings are numbered, and open exactly when contradicted |
| ConflictResolvers.RunConflictStage | src/agentic_rag_enterprise/services/chat_service.py:311-335 | Filter, resolver and reselection give the specified stage |
| Iteration.PlanLaws | src/agentic_rag_enterprise/judge/gap_planner.py:25-61 | Planned queries are distinct, new, each for a gap, and every gap with a new candidate is planned for |
| Iteration.RoundAccounts | src/agentic_rag_enterprise/services/chat_service.py:820-1005 | Each round keeps: issued queries pairwise distinct, one retrieval call each, at most one more per round |
| Iteration.LoopEndsInTime | src/agentic_rag_enterprise/services/chat_service.py:687-741 | Every run ends within its rounds through a stop, a refusal or a fault, never by running out, with its queries distinct and counted |
| Iteration.GoesOnIff | src/agentic_rag_enterprise/judge/stop_policy.py:29-108 | The stop policy lets a run of rounds go on if and only if no verdict ends it, no two rounds in a row are gainless, and rounds are left |
| Iteration.StopReason | src/agentic_rag_enterprise/judge/stop_policy.py:29-108 | Which round it stops and why: for want of new evidence exactly at the second gainless round in a row, for the maximum only if nothing else stops it |
| IterationLaws.JudgeSeesKept | src/agentic_rag_enterprise/services/chat_service.py:945-1005 | A round depends on the judge only through its verdict on the evidence that the conflict stage keeps |
| IterationLaws.SelectedConcat | src/agentic_rag_enterprise/services/chat_service.py:945-957 | Selecting the kept evidence goes item by item and keeps the order |
| IterationLaws.RunSeesKept | src/agentic_rag_enterprise/services/chat_service.py:687-741 | So does every run: judges that agree on kept evidence, whatever they say of dropped evidence, give the same run |
| IterationLaws.AssessedIs | src/agentic_rag_enterprise/services/chat_service.py:923-1005 | What ends a round and why, what lets it go on, and the coverage it leaves: the conflict verdict, or the judge's on exactly the evidence the state keeps |
| IterationLaws.RoundAsks | src/agentic_rag_enterprise/services/chat_service.py:820-883 | A round asks for the first open gap, or stops if there is none; it fails exactly when the retriever does or hands over evidence of another tenant or corpus |
| IterationLaws.TakenInNew | src/agentic_rag_enterprise/services/chat_service.py:884-919 | A batch brings new content if and only if some text, or some version of a document, in it was not seen before the batch |
| IterationLaws.Delivered | src/agentic_rag_enterprise/services/chat_service.py:884-919 | A delivery appends an unknown id and replaces a known one exactly when its version or text changed |
| IterationLaws.RunFromQuestion | src/agentic_rag_enterprise/services/chat_service.py:587-741 | From a question on: all evidence of a run is of its tenant and corpus; an answer rests on kept evidence only, with the conflict verdict or the judge's on precisely it; a refusal abstains; the question is the first query |
| Resumption.RebuildsIffAllShown | src/agentic_rag_enterprise/services/chat_service.py:775-818 | The checkpoint before the loop, or behind any round that goes on, gives the state back if and only if every text and document version delivered so far is still shown by some of the evidence |
| Resumption.ConsistentIsShown | src/agentic_rag_enterprise/services/chat_service.py:884-919 | It does if no id was delivered twice with different content |
| Resumption.ResumeEqualsNoCrashIff | src/agentic_rag_enterprise/services/chat_service.py:1079-1354 | From such a checkpoint, with nothing overwritten away or revoked, the resumed run ends as the uninterrupted one, with the same state and stop reason, if and only if the next round is not the one the lost no-gain counter would have stopped |
| Resumption.OneCrashIsResume | src/agentic_rag_enterprise/services/chat_service.py:1298-1354 | A run that crashes once is the resume of its checkpoint |
| Resumption.AnyCrashesIff | src/agentic_rag_enterprise/services/chat_service.py:1298-1354 | Any number of crashes, each resumed from the latest checkpoint with a counter started again: the run ends as the uninterrupted one if and only if it never crashed in front of, or within, the round at which that one stops for want of new evidence |
| Resumption.UnmarkedStopIff | src/agentic_rag_enterprise/services/chat_service.py:703-719 | From the checkpoint of a stopping round that is not yet marked done, the resumed run ends as the uninterrupted one if and only if it was the last round, or the stop was for exhausted sources with no query left and the round counted |
| Resumption.UnmarkedRefusalAnswers | src/agentic_rag_enterprise/services/chat_service.py:721-737 | From the checkpoint of a refusing round that is not yet marked done the resumed run never refuses |
| IterationLaws.UnkeptAnswersFromAll | src/agentic_rag_enterprise/services/chat_service.py:775-818 | With no gap open it answers from all the evidence of the checkpoint, whatever the conflict stage kept |
| Resumption.CompletedResumesIff | src/agentic_rag_enterprise/services/chat_service.py:1282-1296 | A completed run of which nothing was revoked resumes to its own outcome without any retrieval if and only if it did not end in a judge fault |
| Resumption.RevokedStaysOut | src/agentic_rag_enterprise/services/chat_service.py:1146-1172 | Whatever the status of the checkpoint, revoked evidence is neither kept nor answered from, unless retrieval brings it again |
| IterationLaws.AllRevokedRefuses | src/agentic_rag_enterprise/services/chat_service.py:1174-1219 | With all evidence revoked a resume refuses at once |
| IterationLaws.SomeRevokedReassesses | src/agentic_rag_enterprise/services/chat_service.py:1221-1281 | With some revoked, conflict stage and judge are asked again about the rest only, and decide between refusal, failure, answer and going on |
| IterationLaws.RevokedRestsOn | src/agentic_rag_enterprise/services/chat_service.py:1221-1354 | However such a run ends, its evidence is of its tenant and corpus, and an answer rests on kept evidence with the verdict on precisely it |
| ResumptionWitnesses.LostCounterRun | src/agentic_rag_enterprise/judge/stop_policy.py:26-27 | With three rounds or more: a run that loses its counter and ends otherwise |
| ResumptionWitnesses.UnmarkedStopRun | src/agentic_rag_enterprise/services/chat_service.py:703-719 | With four rounds or more: a stop saved but not marked done, and a resumed run that ends otherwise |
| ResumptionWitnesses.ForgottenTextRun | src/agentic_rag_enterprise/services/chat_service.py:775-818 | With four rounds or more: a text is overwritten and comes back; the resumed run takes it for new and ends otherwise |
| ResumptionWitnesses.JudgeFaultRun | src/agentic_rag_enterprise/services/chat_service.py:1282-1296 | A run refused for a judge fault whose completed checkpoint, and whose unmarked one, resume into synthesis |
| ChatServices.PlanGaps | src/agentic_rag_enterprise/judge/gap_planner.py:25-61 | The loop with its growing prior set gives the specified queries |
| ChatServices.IterationState.DeliverAll | src/agentic_rag_enterprise/services/chat_service.py:884-919 | Delivery of a batch updates evidence, trackers and gains as specified |
| ChatServices.IterationState.AssessRound | src/agentic_rag_enterprise/services/chat_service.py:923-1005 | Conflict stage, judge and stop policy on the state in place, as the assessment of `AssessedIs` and `JudgeSeesKept` |
| ChatServices.IterationState.Round | src/agentic_rag_enterprise/services/chat_service.py:820-1005 | One round on the state in place equals the round function |
| ChatServices.Loop | src/agentic_rag_enterprise/services/chat_service.py:687-741 | The loop equals the recursive run |
| ChatServices.AnswerWithIteration | src/agentic_rag_enterprise/services/chat_service.py:587-744 | A fresh run equals the run from the initial state and never runs out of rounds |
| ChatServices.ResumeRun | src/agentic_rag_enterprise/services/chat_service.py:1079-1354 | A resumed run, with evidence revoked or not, completed or not, equals the resume function the theorems are about |
| ChatServices.Reauthorize | src/agentic_rag_enterprise/services/chat_service.py:1146-1172 | The loop keeps exactly the evidence that is still authorized, in order, and notices whether some is not |
| ChatServices.Reassess | src/agentic_rag_enterprise/services/chat_service.py:1221-1281 | With evidence revoked, conflict stage and judge over the rest decide between refusing, answering and going on, in the state it states field by field |
| Deduplication.DeduplicationConserves | src/agentic_rag_enterprise/retrieval/deduplication.py:102-118 | The multiset of the survivors' own and duplicate sources equals the input's; survivors are pairwise distinct in span, parent and normalized text, and descend in score |
| Deduplication.ContextsFollowTheirHits | src/agentic_rag_enterprise/retrieval/deduplication.py:184-191 | Every candidate's sources and contexts are all held by one survivor, and every context of a survivor was brought by a candidate it answers for |
| Deduplication.DeduplicationIsIdempotent | src/agentic_rag_enterprise/retrieval/deduplication.py:102-118 | Deduplicating the survivors again changes nothing |
| Deduplication.CollapseConserves | src/agentic_rag_enterprise/retrieval/deduplication.py:122-134 | One pass leaves one survivor per key and neither loses nor duplicates a source |
| Deduplication.SurvivorsAreElected | src/agentic_rag_enterprise/retrieval/deduplication.py:122-163 | Each survivor is the hit of its group's champion: strictly better than all earlier members, bettered by no later one |
| DeduplicationLaws.ChampionIff | src/agentic_rag_enterprise/retrieval/deduplication.py:122-191 | The champion of a group, spelled out: earlier members are weaker, later ones no stronger; weaker in authority first among equal texts, else in score |
| DeduplicationLaws.StrongestSurvives | src/agentic_rag_enterprise/retrieval/deduplication.py:122-163 | Of every candidate a pass keeps one that is the same to it and no weaker |
| DeduplicationLaws.AllAccounted | src/agentic_rag_enterprise/retrieval/deduplication.py:102-118 | Behind all passes every hit's source and retrievals stand with some survivor, and no two survivors share span, parent or normalised text |
| Deduplication.ArrivalOrder | src/agentic_rag_enterprise/retrieval/deduplication.py:122-163 | Survivors stand in the order in which their groups first appeared |
| Deduplication.DistinctnessSurvives | src/agentic_rag_enterprise/retrieval/deduplication.py:107-115 | A later pass keeps apart what an earlier one made distinct |
| Deduplication.SortLaws | src/agentic_rag_enterprise/retrieval/deduplication.py:117-118 | The final sort is a permutation into descending score that keeps the order of equal scores |
| Deduplicators.FoldInto | src/agentic_rag_enterprise/retrieval/deduplication.py:184-191 | In-place folding equals the fold; a candidate folded into itself would count its own record once too often, hence distinct objects |
| Deduplicators.CollapseBy | src/agentic_rag_enterprise/retrieval/deduplication.py:122-163 | One pass over a dictionary of mutable survivors equals the specification, also through shared candidates |
| Deduplicators.SortSurvivors | src/agentic_rag_enterprise/retrieval/deduplication.py:117-118 | The sorted list is the stable order; no candidate is touched |
| Deduplicators.DeduplicateHits | src/agentic_rag_enterprise/retrieval/deduplication.py:102-118 | The three passes and the sort, in place, equal the specification |
| MultiCorpus.FoldedLaws | src/agentic_rag_enterprise/retrieval/multi_corpus.py:105-157 | Survivors have distinct ids and contents, are first occurrences, and each first occurrence has a survivor of its content with no less authority |
| MultiCorpus.SurvivorsByContent | src/agentic_rag_enterprise/retrieval/multi_corpus.py:105-157 | No two survivors share text, document and version, and every snapshot has one that shares them with no less authority |
| MultiCorpus.FoldedIsUnique | src/agentic_rag_enterprise/retrieval/multi_corpus.py:105-157 | The description (the leader of every content, in order of first appearance) determines the merge |
| MultiCorpus.MergeIsIdempotent | src/agentic_rag_enterprise/retrieval/multi_corpus.py:105-157 | Merging the survivors again returns them unchanged |
| MultiCorpus.FirstsLaws | src/agentic_rag_enterprise/retrieval/multi_corpus.py:131-134 | First occurrences have distinct ids and cover every id |
| MultiCorpus.MergeState.Take | src/agentic_rag_enterprise/retrieval/multi_corpus.py:131-153 | One snapshot, with both dictionaries and the contributor set, keeps the description |
| MultiCorpus.MergeEvidence | src/agentic_rag_enterprise/retrieval/multi_corpus.py:105-157 | The merge holds exactly the leader of every content among the first occurrences, in order of first appearance, and the contributors are exactly the corpora of the first occurrences |

## Left out

- Wall-clock lease expiry, the reconciler's own lease and its run records, and the per-process build guard.
- Timestamps, manifest counts and job messages; on a resume that only finalizes, the manifest counts come from empty lists.
- A kill inside a purge or inside a rebuild: both are one atomic step here.
- The reconciler's optional `compensate_job` callback, which nothing in the program supplies: with one, every run that meets a failed job reports a mutation.
- `upsert_document`, `set_document_status` and `set_job_previous_version` of the metadata store, which the protocol does not call.
- `DocumentManager` entry points other than what reconciliation calls: authorization of the caller and propagation of an ACL change, delete or rollback to the data stores.
- The text and ACL of rebuilt parents: a function parameter; presence and status are proved.
- Reconciliation of the collection pointer beyond the registry: points are those of the resolved collection, which exists.
- Search ranking, encoders, `top_k` and the vector database; the filter's meaning is proved over all payloads.
- Type checks on untrusted parent metadata: the model's parents are well typed.
- Metadata merge and section paths of segments, child chunks and the ids of chunks.
- Order and text of limitations and messages in plan results, query templates and bindings, tool timeouts as wall-clock time.
- The `difflib` similarity below a threshold of 1, and the regular expressions behind normalization and temporal scopes.
- The gates of a resume in front of re-authorization (principal, policy version, discoverable corpus), the decision of which evidence is still authorized, and the persisted status of a checkpoint, which is a field here.
- Refusal texts, prompts, synthesis and citation rendering.
- The order of the reported contributing corpora, which are a set here, and the sorting of corpus ids, which is the order given to `MergeEvidence`.
- Capability catalog, corpus router, answer envelopes, index migration and evidence store: short code whose members would only be easy.
- Resumption.ResumeEqualsNoCrashIff: the field that every round overwrites before reading it is not compared.
- Reconciliation.OneRunAgrees: assumes that every active version has child rows with parent ids and that the collection holds this corpus only, as the repair needs both.
- Reconciliation.OneRunAgreesIff: the converse is stated where every parent of an active version is the parent of one of its child rows and no document has both a deleted and an active row (the latter case is `ActiveKeptIff`); agreement asks for one point and one parent of each active version, all of them are `OneRunCompletesIff`.
- CrashRefinement.InterruptionsLeaveNoTrace: kills that the process survives and failure paths that run to their end; cut failure paths and ends of the process are `RecoveryLeavesNoTraceIff`.
- Reconcilers.Reconciler.Reconcile: without the `compensate_job` callback and the persisted records of runs and findings.
- Resumption.AnyCrashesIff: crashes between saving a stopping round and marking the run done are `UnmarkedStopIff` and `UnmarkedRefusalAnswers`.
- Conflicts.OrderDoesNotMatter: one way; phase 2 can drop both of two newest items, and then their order does not show.
- RepairLaws.ShownBehindRunIff: assumes that what is there of a row's point and parent shows the row's parent id and ACL, and that a rebuilt parent has the ACL its child rows share; the run does not compare them.
- RepairLaws.CompleteShowsAll: under the same assumptions.
- Repairs.RepairShowsIff: assumes that a rebuilt parent has the ACL its child rows share, which is how the program assembles it.
- MetadataStores.MetadataStore.DeleteDocument: one atomic step, where the program issues one statement after another.
- IngestionJobs.IngestionJob.Run: without `max_step`, which ends a run early for tests, and without the per-process guard against two runs of one build.
- PlanValidation.Validate: corpus discovery, the capability catalog and binding syntax are decisions given as parameters.
- PlanExecutors.ExecuteLayer: a sequential loop; that the thread pool's interleavings come to the same is `ScheduleIndependence`.
- Retrievers.Retrieve: starts from the hits of the search; what the search selects is `BuildAccessFilter`.
- MultiCorpus.MergeEvidence: contributors are a set, and the corpora come in the order given.
- PlanExecution.ScheduleIndependence: speaks of schedules in which every layer ends; `TurnsSuffice` shows that six turns per thread are enough.
