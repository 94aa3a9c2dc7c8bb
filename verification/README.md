# Drivebase: a model of its operation engine, uploads, hierarchies and caches

Drivebase moves files between storage providers. A request becomes a plan of entries, the plan
becomes rows of a jobs table, and workers, the API and BullMQ work through the rows until the
operation is final. This project models that engine and the algorithms around it, and proves what
they keep.

| files | what they model |
|---|---|
| `Paths.dfy` | the path algebra, read as lists of segments |
| `Traverse.dfy`, `Enqueue.dfy` | from a tree to plan entries, from entries to job rows and parent links |
| `Engine.dfy`, `EngineInvariant.dfy`, `EngineSafety.dfy`, `EngineTermination.dfy`, `EngineTheorems.dfy`, `EngineLateLaunch.dfy`, `EngineDecisions.dfy` | one operation as a state machine: every action is the code between two awaits of one participant, so any interleaving of workers, `failed` listeners, `executePlan` and `resolveConflict` requests is a sequence of actions |
| `Bookkeeping.dfy`, `Uninterrupted.dfy` | the same statements in place, loops included, over the tables; one process of the machine, left alone, refines them |
| `Destination.dfy`, `Conflict.dfy` | folder materialisation, the parent lookup, conflict decisions, free names |
| `Chunks.dfy`, `Staging.dfy`, `Reassembly.dfy`, `Parts.dfy` | the chunked upload from the browser's slices to the reassembled stream; direct-mode parts |
| `S3.dfy`, `S3Tree.dfy`, `S3Delete.dfy`, `Crawl.dfy` | the S3 key tree, its walk, the paginated folder delete |
| `Like.dfy`, `Subtree.dfy` | the LIKE patterns and the row rewrites of move and delete |
| `PreviewCache.dfy`, `PreviewLock.dfy`, `Sorting.dfy` | the preview index, its eviction and its lock |
| `Meter.dfy`, `TokenStore.dfy` | throttled metering, single-flight token refresh |

Every lemma carries `{:induction false}`: all inductions are written out.

## What holds, and where the code falls short

*The engine.* From the state `executePlan` starts in, for every forest of jobs and every
interleaving: no queued job is stranded, all racers past the count agree on the verdict, every run
ends after at most 46 actions a job, and it can stop only when every request and delivery is over
and no conflict is left to decide. Source deletes follow a published success, and success means that
every job succeeded or was skipped: a skipped job counts as success. A handler is only ever given a
decision the user made for its job, and the ledger of a finished run splits by kind: uploads count as
uploaded, copies, transfers and moves as transferred.

`executePlan` writes `running` after enqueuing and without a guard
(`apps/api/services/orchestrator/preflight.ts:101-109`). If an operation is final by then, the write
reopens it: it stays `running` for ever, or a second racer finalises it again and publishes and deletes
the sources twice. `EveryCompleteRun` gives the exact condition: an operation ends final with its
verdict published exactly once if and only if that write did not find it final already;
`LateMeansAWinCameFirst` says when that is. `RunningForEver` (one job) and `SourcesDeletedTwice` (two
jobs) are complete runs from the start; `BothRacersCanWin` is the general form of the second.

*The upload.* The receipt of a chunk can outlive its bytes: a later PUT of the same index that breaks off
or is cut short removes or replaces the bytes and leaves the receipt. `UploadRoundTrip` gives the exact
condition for the file to come out, `ReceiptOutlivesBytes` the counterexamples.

*Move and delete.* The pattern escapes `%` and `_` but not the backslash. It selects what is below a
path, for all paths that rows can have, if and only if the path has no backslash
(`PatternIsExactOnRows`); otherwise either rows of strangers are selected or no row is
(`BackslashSpoils`): moving `/a\b` takes `/ab/x` along and leaves `/a\b/x` behind (`BackslashExample`).

Paths of live and deleted rows are not unique: `packages/db/schema/nodes.ts:51` is a plain index, and the
rewrite (`apps/workers/handlers/move.ts:165-176`) does not look at `deletedAt`. So of all parents
at a source path that is left only the moved row keeps its children, and only if it does not land below itself
(`ChildrenStayChildren` is exact for any two rows of the table): delete `/a`, recreate it and
move it to `/b`, and the rows of the deleted folder are rewritten to `/b/…` while it stays at `/a`
(`DeletedFolderLosesChildren`). A file moved into a folder of its own path, where a provider allows
the two, has its own row rewritten twice, and the folder's rows with it: `/a` goes to `/a/a/a`, and
the folder's `/a/x` to `/a/a/x`, although the folder did not move (`MovedIntoNamesake`,
`MovedBelowItself`).

*The preview cache.* A preview written now stays exactly when it and the entries behind its place that were
accessed in the same millisecond fit the limit together (`NewestSurvivesExactly`). A new key is always last,
so it stays exactly when it fits; a rewritten one that fits can be evicted (`TieEvictsTheNewest`).

*Tokens.* A forced refresh gets a token that an exchange after the call brought, unless the refresh in flight
has its exchange behind it, persisting or about to run its `finally` callback: then, and only then, it
waits for a refresh whose token was obtained before the call (`ForcedTokenIsNew`, an if-and-only-if
over every reached state and every later run). Both stages are reached (`ExchangeBehindIsReached`), and
there the caller is given the very token it may be complaining about (`ForcedTokenIsOld`).

*The job graph.* The parent links form a forest if and only if no `createFolder` entry is at `/`.

Where comments and code differ, the model follows the code. The comment in
`apps/api/services/orchestrator/enqueue.ts:63-65` says that a parent is in the map before its child is
looked up; with duplicate sibling folders the last of them is the parent of all children, also of those before
it. `apps/api/services/uploads/sessions.ts:267-272` says that a session goes from `uploading` to
`ready`; the code also accepts `pending`. `apps/workers/handlers/move.ts:22` names the pattern
`/old/%`; see above for backslashes.

## Assumptions

- BullMQ gives a job to one worker at a time, and `failed` fires only after the last of 5 attempts.
- Reads and writes of Postgres and Redis for bookkeeping do not throw; the handler and `enqueueChildren` may.
- Every conflict is decided while its job is still paused, and nobody cancels the operation.
- Job rows change only through the statements modelled; a remote id that holds one of the plan's
  folders is never reported as something else (`Engine.KeepsFolders`).
- Handlers of move and delete jobs touch no folder row of the destination of a plan with folders (such plans have none).
- Node names are non-empty and have no slash; paths are characters already in NFC.
- Provider replies, clocks, page boundaries, read boundaries and the order of rows are parameters or free choices.
- Sizes are exact integers (below 2^53 for the source's numbers).

## Model

| member | source | states |
|---|---|---|
| Paths.NormalizeIsRender | packages/storage/path.ts:8-17 | for every string, normalizePath renders the list of its non-empty segments |
| Paths.NormalizeFixesExactlyCanonical | packages/storage/path.ts:8-17 | the result is canonical, normalising again changes nothing, and exactly the canonical paths are left alone |
| Paths.PathOperationsOnSegments | packages/storage/path.ts:19-36 | joinPath appends segments, parentPath drops the last, basename is the last, for every string |
| Paths.SplitUndoesJoin | packages/storage/path.ts:19-36 | parentPath and basename take back what joinPath put together |
| Paths.JoinUndoesSplit | packages/storage/path.ts:19-36 | joining the parent and the base name of a canonical path gives it back |
| Paths.ParentIsCanonical | packages/storage/path.ts:24-30 | the parent is canonical, shorter, and the path itself only for the root |
| Traverse.Planner.Walk | apps/api/services/orchestrator/traverse.ts:53-86 | the recursive push into one array appends exactly the specified plan of the nodes |
| Traverse.PlanFromLocalTree | apps/api/services/orchestrator/traverse.ts:43-87 | the local tree's entries |
| Traverse.PlanFromNodesSubtree | apps/api/services/orchestrator/traverse.ts:96-147 | the root's entry, then those of the walk below it |
| Traverse.BuildTreeEntries | apps/api/services/orchestrator/preflight.ts:133-200 | the entries of several roots, in order |
| Traverse.PlanListsTree | apps/api/services/orchestrator/traverse.ts:43-147 | one entry per node in document order, at the destination's segments followed by the node's own branch, with its kind and name |
| Traverse.PlanCarries | apps/api/services/orchestrator/traverse.ts:43-87 | every entry carries its file's size, and the known parent id exactly directly below the destination |
| Traverse.FoldersFirst | apps/api/services/orchestrator/traverse.ts:39-41 | the folder of every branch is listed before it |
| Enqueue.EnqueuePlan | apps/api/services/orchestrator/enqueue.ts:42-107 | every entry becomes a row of its kind and path with the next id, its parent the last createFolder entry at its parent path; exactly the rows without parent are added at once, in order |
| Enqueue.MapFolders | apps/api/services/orchestrator/enqueue.ts:66-73 | the map holds the last createFolder entry of every path |
| Enqueue.LinkParents | apps/api/services/orchestrator/enqueue.ts:78-92 | parent links and the set of withheld rows |
| Enqueue.ForestExactlyWithoutRootFolder | apps/api/services/orchestrator/enqueue.ts:63-92 | for any entries: every parent is a createFolder row at parentPath of its child and shorter, if and only if no createFolder entry is at the root |
| Enqueue.TreeJobsFormForest | apps/api/services/orchestrator/enqueue.ts:63-105 | for every tree, duplicate siblings included: the links mirror the tree, the jobs added at once are the destination-level entries, all others hang below one of them |
| EngineTheorems.GoodStep | apps/workers/runtime/handler.ts:52-388 | every action of every participant keeps all invariants of the operation |
| EngineTheorems.NoJobIsStranded | apps/workers/runtime/handler.ts:222-264 | in every reachable state a queued job or an ancestor of it has a process that will claim, release or skip it |
| EngineTheorems.FinalisationIsComing | apps/workers/runtime/operation-state.ts:16-56 | if all jobs are terminal, an update has won or some process still has its count or update to do |
| EngineTheorems.RacersAgree | apps/workers/runtime/operation-state.ts:16-74 | all racers past the count, all published verdicts and the operation row agree; source deletes never outnumber the winning updates, and only after every job succeeded or was skipped |
| EngineTheorems.EveryRunIsBounded | apps/workers/runtime/handler.ts:105-265 | every run of n jobs has at most 46 n + 1 actions |
| EngineTheorems.StuckExactlyWhenQuiescent | apps/workers/runtime/handler.ts:105-265 | no deadlock: a run can be continued exactly until it is quiescent |
| EngineTheorems.EveryCompleteRun | apps/api/services/orchestrator/preflight.ts:85-112 | how complete runs end: all jobs terminal, and the operation final with one verdict published exactly if the running write came before the first win |
| EngineTheorems.LateMeansAWinCameFirst | apps/api/services/orchestrator/preflight.ts:101-109 | the running write is late exactly when a finaliser won before it |
| EngineLateLaunch.RunningForEver | apps/api/services/orchestrator/preflight.ts:101-109 | a complete run of a one-file plan that ends with the operation running |
| EngineLateLaunch.BothRacersCanWin | apps/workers/runtime/operation-state.ts:41-74 | two racers past the count before the running write: the run can be continued so that both publish and both delete sources |
| EngineLateLaunch.SourcesDeletedTwice | apps/api/services/orchestrator/preflight.ts:101-109 | a complete run of a two-file transfer, from the start, after which the success is published twice and the sources sent to deletion twice |
| EngineTheorems.OverIsOver | apps/workers/runtime/handler.ts:114-133 | a terminal job status never changes again |
| EngineTheorems.SkippedNeverRuns | apps/workers/runtime/handler.ts:114-133 | a delivery of a skipped job is dropped at the claim, and the job stays skipped in every continuation |
| EngineTheorems.FolderBeforeContent | apps/workers/runtime/handler.ts:242-257 | when a job with a parent is claimed, its parent has succeeded and a live folder row is at its parent path |
| EngineTheorems.LedgerAtTheEnd | apps/workers/runtime/handler.ts:286-328 | at the end of every run the uploaded counters grew by the bytes and the number of the succeeded uploads that moved bytes, the transferred ones by those of the succeeded copies, transfers and moves |
| EngineDecisions.DecisionsAreTheUsers | apps/api/graphql/modules/operations/mutations/resolveConflict.ts:58-87 | in every reached state a handler's decision is one the user made for its job, or for another and all paused jobs, and never skip |
| EngineDecisions.DecisionIsCarriedOut | apps/api/graphql/modules/operations/mutations/resolveConflict.ts:100-127 | skip ends the paused job; any other decision requeues it and goes with its one new delivery |
| EngineDecisions.FifthAttemptIsLast | apps/workers/queues.ts:18 | a delivery that throws is tried again with the same decision, four times |
| Engine.QueuedChildren | apps/workers/runtime/handler.ts:336-344 | exactly the queued children of a job, in row order |
| Bookkeeping.Decide | apps/workers/runtime/operation-state.ts:25-39 | from any correct GROUP BY result: nothing while a job is queued, running or paused, else failed before cancelled before succeeded, and succeeded exactly if every job succeeded or was skipped |
| Bookkeeping.Tables.Claim | apps/workers/runtime/handler.ts:114-133 | the claiming update takes exactly queued, running, failed and paused rows, and changes that row alone |
| Bookkeeping.Tables.IncrementTransferStats | apps/workers/runtime/handler.ts:286-328 | an upload moves the two uploaded counters, a copy, transfer or move the two transferred ones, folders, deletes and empty jobs none |
| Bookkeeping.Tables.EnqueueChildren | apps/workers/runtime/handler.ts:335-351 | which children BullMQ is told of and gets, also when an add throws midway |
| Bookkeeping.LevelCascades | apps/workers/runtime/handler.ts:366-375 | one level: every job it skips is reached from the root through queued jobs, and no queued child of a job skipped before is forgotten |
| Bookkeeping.Tables.CascadeSkipDescendants | apps/workers/runtime/handler.ts:358-388 | on any parent graph, cycles included: ends, and skips exactly the jobs reached through chains of queued jobs |
| Uninterrupted.ClaimAlone | apps/workers/runtime/handler.ts:114-133 | the claiming action of the machine writes the rows that Tables.Claim writes, and goes on exactly when it returns a row |
| Uninterrupted.EnqueueAlone | apps/workers/runtime/handler.ts:335-351 | a releasing process of the machine, left alone, tells BullMQ of the same children, with the same deliveries, as Tables.EnqueueChildren, also when an add throws, and changes nothing else |
| Uninterrupted.CascadeAlone | apps/workers/runtime/handler.ts:358-388 | a cascading process of the state machine, left alone, skips the same closure in finitely many levels and changes nothing else |
| Uninterrupted.SuccessAlone | apps/workers/runtime/handler.ts:214-257 | a handler that returns, left alone: the row succeeded with the reported bytes, the counters of its kind count them, a folder goes on to its children, any other job to the count |
| Uninterrupted.FailureAlone | apps/workers/runtime/handler.ts:64-88 | a last attempt that threw, left alone: the job failed, and everything reached below a folder skipped |
| Uninterrupted.FinaliseAlone | apps/workers/runtime/operation-state.ts:8-75 | a counting process, left alone, does what Tables.MaybeFinalizeOperation does to the operation row, the publications and the source deletes, and nothing else |
| Bookkeeping.DeliveredOnce | apps/workers/runtime/handler.ts:346-350 | a job told of is delivered once if BullMQ did not know its id, and not at all if it did |
| Bookkeeping.Tables.ReleaseOrSkip | apps/workers/runtime/handler.ts:245-257 | whether or not the release throws, no child stays queued that BullMQ does not know, and nothing changes but skipped descendants |
| Bookkeeping.Tables.OnFailed | apps/workers/runtime/handler.ts:64-96 | the failed listener: the job failed, its descendants skipped if it is a folder, the operation failed and published once nothing is pending; no source delete, no counter |
| Bookkeeping.Tables.MaybeFinalizeOperation | apps/workers/runtime/operation-state.ts:8-75 | one final write, one publication, source deletes on success only, nothing otherwise |
| Destination.LiveNodes.ResolveDestinationParent | apps/workers/runtime/destination.ts:12-54 | fails for lack of a row exactly when no live row is at the parent path, yields only a live folder there |
| Destination.LiveNodes.HandleCreateFolder | apps/workers/handlers/create-folder.ts:23-104 | reuses the first folder of the name listed, else the created one or, after a conflict, the first of a second listing; returns only if the parent can be found and there is such a folder, and always if the parent is sure to be; returns only with a live folder row at the entry's path, writes nothing if it throws |
| Destination.LookupOfReleasedJob | apps/workers/runtime/destination.ts:23-53 | in every reachable state the parent lookup of a job being claimed finds its row, and the folder unless a file row shares the path |
| Conflict.CheckDestinationExists | apps/workers/runtime/conflict.ts:40-54 | finds a node exactly if some page lists the name: the first of that name, with its type and id |
| Conflict.FetchSiblingNames | apps/workers/runtime/conflict.ts:127-139 | exactly the names of all pages |
| Conflict.CandidateInjective | apps/workers/runtime/conflict.ts:114-119 | different numbers give different candidate names |
| Conflict.CandidateKeepsExtension | apps/workers/runtime/conflict.ts:109-116 | the number goes before the last dot, unless that is the first character, else to the end |
| Conflict.AutoRename | apps/workers/runtime/conflict.ts:109-121 | ends after at most one try more than there are siblings, with the first free candidate |
| Conflict.RenamedPathJoins | apps/workers/handlers/transfer.ts:64 | the renamed path is the new name under the old parent |
| Conflict.PlaceFile | apps/workers/handlers/transfer.ts:40-66 | the job's decision before the blanket one before the strategy; skip, pause, overwrite of the first file listed, or the first free numbered name with the path that goes with it, for each of them |
| Chunks.TotalChunks | apps/api/services/uploads/sessions.ts:122-127 | the least number of chunks that holds the file |
| Chunks.PlanSessions | apps/api/services/uploads/sessions.ts:108-158 | a chunk count for every entry, or the refusal of the request, exactly when a size or the chunk size is not positive or there is no entry |
| Chunks.ChunkSizes | packages/apps/files/src/hooks/use-upload-files.ts:184-188 | no chunk is empty or too large, all but the last are full |
| Chunks.SliceFile | packages/apps/files/src/hooks/use-upload-files.ts:184-248 | the slices put together are the file, and the loaded count its size |
| Staging.UploadSession.WriteChunk | packages/upload-staging/index.ts:46-82 | the chunk file is exactly the reads of the last body, or gone if it broke off |
| Staging.UploadSession.HandleUploadChunk | apps/api/rest/upload-chunk.ts:77-142 | 409 exactly if the session is not open, 500 exactly if the body breaks, 200 exactly if index, body and declared length are right; a receipt exactly with a 200, for the bytes then on disk; what every other answer leaves |
| Staging.UploadSession.CompleteUploadSession | apps/api/services/uploads/sessions.ts:282-336 | proxy mode: accepts exactly an open session with all receipts; else the number of missing indices and the least ten of them, ascending |
| Staging.UploadSession.CancelUploadSession | apps/api/services/uploads/sessions.ts:344-403 | terminal sessions unchanged; else cancelled with the staged bytes gone |
| Staging.SessionHolds | apps/api/rest/upload-chunk.ts:77-137 | after any PUTs: what is on disk and what has a receipt, index by index |
| Staging.ReceiptsAreAnswers | apps/api/rest/upload-chunk.ts:77-142 | after any PUTs an index has a receipt exactly if some PUT of it was answered with 200, and it is the size in the last such answer |
| Staging.UploadRoundTrip | apps/api/services/uploads/sessions.ts:313-337 | after any client PUTs: accepted exactly when every index had an acknowledged PUT, and the staged bytes are the file exactly when the last PUT of every index was acknowledged |
| Staging.CompletedUploadIsTheFile | apps/api/services/uploads/sessions.ts:313-337 | if every last PUT was acknowledged: accepted exactly when all indices were sent, and the file stays intact whatever is sent later |
| Staging.ReceiptOutlivesBytes | apps/api/rest/upload-chunk.ts:93-130 | two PUTs of one chunk after which an accepted session does not hold the file |
| Reassembly.AssembledStream.Pull | packages/upload-staging/index.ts:99-121 | the next non-empty read; closes after the last file, breaks exactly at a missing one |
| Reassembly.Drain | packages/upload-staging/index.ts:90-130 | the whole stream is the files' contents in order, however the reads are split |
| Reassembly.StreamYieldsStagedFile | packages/upload-staging/index.ts:84-130 | the stream yields the file exactly when the session holds it |
| Reassembly.RoundTrip | packages/upload-staging/index.ts:46-130 | browser to provider: the stream is the file exactly when every last PUT was acknowledged |
| Reassembly.AssembledSize | packages/upload-staging/index.ts:133-144 | the length of the assembled bytes, if all chunks are there |
| Parts.CompleteDirect | apps/api/services/uploads/sessions.ts:288-311 | accepts exactly the lists whose numbers are a permutation of 1..totalChunks with every etag present, and stores them in order |
| Parts.CollectParts | packages/apps/files/src/hooks/use-upload-files.ts:222-237 | the browser's parts are numbered 1..n, so they are accepted exactly when every response had an ETag |
| Parts.ManifestOfStored | packages/providers/s3/provider.ts:421-438 | the second sort moves nothing; part i + 1 is in place i with its own etag, quoted unless it starts with a quote |
| S3.FolderIdSplits | packages/providers/s3/provider.ts:508-513 | parent and name of a folder id, for every prefix and slash-free name, the empty one included |
| S3.FileIdSplits | packages/providers/s3/provider.ts:515-519 | parent and name of a file id |
| S3.UploadedFileIsWhereItSays | packages/providers/s3/provider.ts:200-237 | upload and getMetadata agree on parent and name exactly if the name has no slash |
| S3.ListChildren | packages/providers/s3/provider.ts:83-132 | the nodes of one page, folders first: one for every common prefix and key but the empty one, the prefix itself and keys that end in a slash, and no other |
| S3Tree.AnyPages | packages/providers/s3/provider.ts:83-132 | the nodes of all pages of a folder are the same multiset however the listing is cut into pages |
| S3Tree.ChildrenOnce | packages/providers/s3/provider.ts:97-131 | over any pages, a folder's listing is exactly its nodes one level down, each once |
| S3Tree.TreeIsBucket | packages/providers/s3/provider.ts:83-169 | walking from the root over any pages ends and yields every key without final slash once, every key prefix with final slash once, nothing else, each with the parent getMetadata gives |
| S3Delete.Bucket.Delete | packages/providers/s3/provider.ts:313-350 | over any pagination of a bucket that shrinks meanwhile: an id ending in a slash takes exactly the keys it is a prefix of, any other exactly that key; none and the empty id are refused and take nothing |
| S3Delete.TreeAfterDelete | packages/providers/s3/provider.ts:313-350 | the tree after a delete by any id, over any pages: which files and folders are left |
| S3Delete.TreeAfterDeletingNode | packages/providers/s3/provider.ts:313-350 | after deleting a listed node: it is gone, of the files exactly what was it or below it, of the folders exactly those left without a key |
| Like.PatternMatchesBelow | apps/workers/handlers/move.ts:163-174 | without backslash in the source the pattern matches exactly the strict descendants |
| Like.PatternIsExact | apps/workers/handlers/move.ts:165 | among all strings, the pattern is exact if and only if the source has no backslash |
| Like.PatternIsExactOnRows | apps/workers/handlers/move.ts:165-174 | the same among the paths rows can have, for every source path but the root |
| Like.BackslashSpoils | apps/workers/handlers/move.ts:165-174 | with a backslash in the source: either a row path that is not below is selected, or no row path is; without a leftover wildcard everything below is missed |
| Like.BackslashExample | apps/workers/handlers/move.ts:165-174 | /a\b selects /ab/x and misses /a\b/x |
| Subtree.NodesTable.UpdateNodeAfterMove | apps/workers/handlers/move.ts:145-182 | every row after the two updates and the loop |
| Subtree.NodesTable.SoftDelete | apps/workers/handlers/delete.ts:29-50 | exactly the node and the selected rows become deleted, nothing else changes |
| Subtree.MovedSubtree | apps/workers/handlers/move.ts:145-182 | the node gets the destination path exactly if that is not below the source; descendants keep their suffix and name; all other rows are untouched |
| Subtree.DeletedSubtree | apps/workers/handlers/delete.ts:42-50 | what is selected is exactly what is below |
| Subtree.ChildrenStayChildren | apps/workers/handlers/move.ts:139-182 | for any two rows of a provider, live or deleted: when exactly a row at its parent's path and its own name stays so |
| Subtree.DeletedFolderLosesChildren | apps/workers/handlers/move.ts:165-181 | /a deleted, recreated and moved to /b: the deleted folder stays, the rows below it go to /b |
| Subtree.MovedIntoNamesake | apps/api/services/orchestrator/preflight.ts:215-226 | a row moved below its own path ends one level too deep, and rows below that path of a node that did not move are rewritten too |
| Subtree.MovedBelowItself | apps/workers/handlers/move.ts:145-182 | the file /a moved into the folder /a: its row ends at /a/a/a, the folder's /a/x at /a/a/x |
| PreviewCache.PreviewIndex.Write | apps/workers/services/preview-cache-writer.ts:53-72 | the index after a write: distinct keys, within the limit |
| PreviewCache.Evict | apps/workers/services/preview-cache-writer.ts:59-69 | the loop removes the specified oldest run |
| PreviewCache.TrimFits | apps/workers/services/preview-cache-writer.ts:59-69 | what is left fits and is exactly the survivors |
| PreviewCache.SurvivesExactly | apps/workers/services/preview-cache-writer.ts:59-69 | an entry survives exactly when it and all entries accessed after it fit the limit |
| PreviewCache.OldestGoFirst | apps/workers/services/preview-cache-writer.ts:60-68 | no evicted entry was accessed later than a kept one |
| PreviewCache.NewestSurvivesExactly | apps/workers/services/preview-cache-writer.ts:53-69 | the preview just written survives exactly when it and the entries tied with it behind its place fit the limit together |
| PreviewCache.NewestSurvives | apps/workers/services/preview-cache-writer.ts:53-69 | so a new key, or a rewrite without a tie, survives exactly when it fits |
| PreviewCache.TieEvictsTheNewest | apps/workers/services/preview-cache-writer.ts:60-68 | a tied rewrite that is evicted under a limit it fits, and kept under the limit that holds both |
| PreviewCache.IndexFitsUnderLock | apps/workers/services/preview-cache-writer.ts:42-73 | after any interleaving of writes, some failing: distinct keys, within the limit once one write succeeded |
| PreviewLock.LockSerialises | apps/workers/services/preview-cache-writer.ts:8-17 | in every interleaving the index on disk is the settled bodies replayed in call order; at most one body works; a failed body does not block the next |
| PreviewLock.AllSettled | apps/workers/services/preview-cache-writer.ts:8-17 | no update is lost |
| Meter.MeterStream.Pull | packages/storage/stream.ts:20-36 | one read passes through; when it is reported and what |
| Meter.Drain | packages/storage/stream.ts:7-41 | chunks unchanged, reports growing and ending with the exact total, and at most 2 + total/chunkThreshold + elapsed/minIntervalMs of them |
| Meter.ReadStreamToBytes | packages/storage/stream.ts:44-63 | the buffer filled by offset is the chunks put together |
| TokenStore.Store.GetAccessToken | packages/providers/google-drive/token-store.ts:63-75 | hands the token out exactly if it has no deadline or at least 60 s to go, refuses exactly an expired one without refresh token, and else joins the refresh in flight or starts one |
| TokenStore.Store.ForceRefresh | packages/providers/google-drive/token-store.ts:81-89 | refused exactly without refresh token; else the expiry is 0 and the caller joins or starts a refresh |
| TokenStore.Store.AfterExchange | packages/providers/google-drive/token-store.ts:103-112 | the new tokens keep the refresh token |
| TokenStore.RefreshesAreSingleFlight | packages/providers/google-drive/token-store.ts:63-115 | for every interleaving: one exchange at most outstanding, the refresh token never lost, every waiting caller waits for a refresh that can move and gets the token it obtained |
| TokenStore.HandedOutTokenIsFresh | packages/providers/google-drive/token-store.ts:63-96 | in every reached state a token handed out at once was issued, at the start or by an exchange, without deadline or with one at least 60 s away |
| TokenStore.ExpiredCallersJoin | packages/providers/google-drive/token-store.ts:63-89 | in every reached state an expired or forced caller joins the refresh in flight and starts none, or starts the only one; over every later run it and all others that wait are given what that refresh obtained |
| TokenStore.ForcedTokenIsNew | packages/providers/google-drive/token-store.ts:81-115 | in every reached state the refresh a forced caller waits for has its exchange ahead exactly when the one in flight is not past it; then, over every later run, its token is one that an exchange of that run brought, else one obtained before the call |
| TokenStore.ForcedTokenIsOld | packages/providers/google-drive/token-store.ts:81-115 | at both stages past the exchange a forced caller is given the token already obtained, and the next caller starts a refresh of its own |
| TokenStore.ExchangeBehindIsReached | packages/providers/google-drive/token-store.ts:63-115 | both stages are reached from an expired token |

## Left out

- Cancellation of operations and the `awaiting_user` status: the success and failure writes are unconditional by job id, so statuses are stable only without it.
- Plans without entries: `executePlan` marks them succeeded itself (apps/api/services/orchestrator/preflight.ts:91-99); the state machine starts from at least one job.
- A conflict decided twice: `resolveConflict` writes by job id whether or not the job is still paused; the model resolves paused jobs only.
- EngineTheorems.FolderBeforeContent: relies on `KeepsFolders`, that no reply turns a plan folder's remote id into something else; claims a live folder row at the path, not that the lookup picks it: a live file row may share the path, and LIMIT 1 has no order.
- EngineTheorems.RacersAgree: publication and the call of `maybeEnqueueSourceDelete` are one action; deletes are counted as calls.
- EngineLateLaunch.BothRacersCanWin: from a state with two racers past the count; `SourcesDeletedTwice` exhibits one.
- Engine.Next: source deletes are counted as calls of `maybeEnqueueSourceDelete`, not as the delete operations and jobs it inserts.
- EngineTheorems.LedgerAtTheEnd: one operation's share of a user's counters; concurrent operations add theirs in separate atomic updates.
- Paths.NormalizeIsRender: the NFC normalisation of the result (paths are taken as already in NFC).
- Traverse.BuildTreeEntries: the `src` reference of each entry.
- Traverse.PlanFromNodesSubtree: works on the tree that parent links form; a cycle of parent links would make the source recurse for ever. The rows' own columns besides name, kind and size are not carried. `name.split("/").pop()` is the name, names having no slash.
- Destination.LiveNodes.ResolveDestinationParent: the `parentId` half of the result, which only fills a column.
- Staging.UploadSession.CompleteUploadSession: the proxy branch; direct mode is Parts.CompleteDirect. Ownership is not modelled.
- Staging.UploadSession.CancelUploadSession: proxy sessions; the multipart abort of direct mode is a provider call.
- Staging.UploadSession.HandleUploadChunk: requests are atomic; the ownership lookup (404) and the refusal of direct-mode sessions are not modelled.
- Chunks.PlanSessions: exact integers instead of doubles; of `initiateUploadSession` only the sizes, not the ownership and status checks nor the rows it inserts.
- Reassembly.AssembledStream.Pull: `cancel` of the stream is not modelled, nor of the metered stream.
- S3.ListChildren: node fields other than id, name, type and parent; the continuation token, which callers only hand back; error translation.
- Subtree.NodesTable.UpdateNodeAfterMove: timestamps and `parentId`, which the source leaves stale on purpose.
- PreviewCache.PreviewIndex.Write: whether the preview files are on disk (they are written and unlinked outside what the index says); keys that look like integers, which JavaScript would list first.
- TokenStore.Store.AfterExchange: errors are one case; the Dropbox and OneDrive stores have the same logic and are not repeated.
- Provider calls, OAuth over HTTP, encryption, Redis and BullMQ internals, SQL generation: parameters or free choices of the environment.
- The web UI, telemetry, logging and progress payloads: presentation.
- `refreshSubtree`, `getUsage`, `summarize`, `sha256PassThrough`, `renameWithSuffix`: easy members, or outside the flows above.
