# The life of one collaborative document

A Dafny model of the server side of a shared document, and proofs about it: the in-memory cache
of Yjs documents in front of Redis and Postgres, the idempotent appends that go through it, the
attachment tables kept in step with what is saved, and the sockets that hold documents open.

The server runs on one thread and yields only at an `await`. So every component is a transition
system whose steps are the code between two awaits; a run is any sequence of steps, and a step
that is not possible in a state leaves the state alone. Theorems speak about every run, or every
state that a run can reach. Beside the transition systems stand classes that hold the source's
own mutable fields; their methods are proved to change the fields as the transition systems say.

| module | what it models |
|---|---|
| `YDocs` | the Yjs document: per client a prefix of one fixed history, plus a delete set |
| `ManagedDocs`, `NodeMachine`, `NodeFrames` | one node: cached record, timers, operation queue, running task, database writes, Redis replies, row |
| `SaveChain`, `Agreement` | what each save writes, what a record remembers, and when the row agrees with memory |
| `Eviction`, `EarlyEviction`, `Durability`, `RowHistory`, `EmbedJobs`, `Versions`, `Appends`, `Timers`, `Progress`, `Liveness` | the properties of all runs of a node |
| `Debounce`, `Effects` | from an edit to its flush; what each event does to a node, seen from outside |
| `Witnesses` | runs that show why the conditions of those theorems are needed |
| `DocManager` | the manager as a class over heap records, refining `NodeMachine` |
| `OperationQueue` | the promise-tail map against a FIFO queue per node |
| `FlushPool`, `DocLoading`, `SaveTiming` | the worker pool of `flushAll`, shared loads, the timers against a clock |
| `NodeContent` | the idempotency protocol over one Redis cell, on both entry paths |
| `AttachmentStore`, `AttachmentSyncs` | the two attachment tables; one sync, and many interleaved |
| `UrlScanner`, `Base64`, `CrdtStore` | S3 addresses found in content; the text form of Redis states; load and save of the stores |
| `Membership` | the gateway's socket-to-nodes map against the manager's client sets |

## Where the code does not do what its comments say

* `src/global/yjs/yjs-doc-manager.ts:28-31` takes an equal state vector for "nothing to save". It is
  so for structs and not for deletions: when the test holds, the row is the snapshot last saved, and
  it is the whole document exactly if nothing was deleted since (`Agreement.SkipMeansRowIsCurrent`,
  and per edit `Agreement.EditIsSkippedIff`; a run is `Witnesses.DeletionReachesRedisOnly`). Redis
  gets the whole document either way, so loads from it lose nothing (`Durability.NothingIsEverLost`).
* `src/global/yjs/yjs-doc-manager.ts:223-229` says that saves of one node never overlap. A flush
  whose Redis write fails returns while its database write is still running, and the next flush
  then overlaps it. `Agreement.OnlyOwnWriteUnlessAbandoned` shows that this is the only way. The row
  then loses saved text exactly when the older write commits after a newer one with new structs
  (`RowHistory.CommitSetsRowBackIff`; a run is `Witnesses.AbandonedWriteUndoesNewerSave`).
* `evictDoc` looks at the clients and not at the queue. A timer that its record has forgotten can
  drop unsaved text (`Witnesses.EarlyEvictionLosesText`); it does exactly if a struct gained since the
  load is behind the saves (`EarlyEviction.EvictionKeepsAllIff`).
* `src/domain/node-content/service/node-content.service.ts:144-150` counts on the key to keep one
  command from being applied twice. A flush that fails after the text went in releases the key, and
  the repeated command appends again (`NodeContent.FailedFlushAllowsSecondAppend`). So does a failed
  broadcast on the event bus path, and nothing else without expiry (`NodeContent.RepeatsIffGivenBack`).
* A burst of edits causes exactly one debounced flush only if no other flush cancels the debounce
  (`SaveTiming.BurstIsFlushedOnce`, `SaveTiming.SafetyFlushReplacesDebounce`).
* "ACTIVE exactly if attached" survives a failed and retried sync only under the condition of
  `AttachmentStore.RetryRestoresStatusIff`, and overlapping syncs of one file can break it
  (`AttachmentSyncs.OverlapOnOneFileBreaksStatus`), by a late ORPHAN or an untimely
  failure and nothing else (`AttachmentSyncs.TieBreaksIff`).
* Disconnecting is meant to take a socket out of all its documents. A join that completes after its
  socket was swept leaves a client that no clean-up removes, and so does a presence update that
  fails, for then the handler ends before the clean-up. Exactly these two do
  (`Membership.GhostsAppearIff`, `Membership.LateJoinHappens`, `Membership.LostSweepHappens`).

## Model

| member | source | states |
|---|---|---|
| YDocs.VectorDeterminesStructs | src/global/yjs/yjs-doc-manager.ts:255-263 | two documents of one history have equal state vectors if and only if they hold the same structs |
| YDocs.BelowIffClocks | src/global/yjs/yjs-doc-manager.ts:255-256 | holding no other structs is the same as having no larger clock for any client |
| YDocs.MergeIsAbove | src/global/yjs/yjs-doc-manager.ts:162-168 | applying an update loses nothing: the result holds all structs and deletions of both and stays in the history |
| YDocs.MergeIsLeast | src/global/yjs/yjs-doc-manager.ts:162-168 | and it holds nothing beyond both |
| YDocs.MergeCommutes | src/global/yjs/yjs-doc-manager.ts:162-168 | updates may arrive in either order |
| YDocs.MergeAssociates | src/global/yjs/yjs-doc-manager.ts:162-168 | and in any grouping |
| YDocs.MergeOfKnownStructs | src/global/yjs/yjs-doc-manager.ts:255-263 | an update leaves the state vector as it was if and only if it brings no struct the document lacks |
| YDocs.GrowthShowsInVector | src/global/yjs/yjs-doc-manager.ts:260-263 | a new struct makes the state vector differ from every earlier one |
| YDocs.DeletionInvisible | src/global/yjs/yjs-doc-manager.ts:255-263 | an edit that only deletes changes the document and not its state vector |
| NodeMachine.Step | src/global/yjs/yjs-doc-manager.ts:59-371 | every handler, at every await, keeps the node well formed: the running operation heads the queue, its write is its own and has not failed, the Redis reply it waits for is still to come |
| NodeFrames.StepLog | src/global/yjs/yjs-doc-manager.ts:243-298 | only a commit writes the row, and only a finished save is remembered or queues a job |
| SaveChain.RunKeepsSound | src/global/yjs/yjs-doc-manager.ts:255-286 | in every run, failures included: the snapshots saved for a record grow, in structs and deletions, and stay below the live document whatever is edited during the awaits, and the record remembers exactly the vector and result of its last successful save |
| SaveChain.SnapshotKeepsChain | src/global/yjs/yjs-doc-manager.ts:255-283 | a save writes the snapshot taken at its start, which is above all earlier ones of the record |
| SaveChain.ResultKeepsSound | src/global/yjs/yjs-doc-manager.ts:285-286 | after both stores answered, the last remembered save of the record is this one, and of every other record the one it was |
| Agreement.OnlyOwnWriteUnlessAbandoned | src/global/yjs/yjs-doc-manager.ts:274-283 | a database write runs without a flush waiting for it if and only if the flush's Redis write failed first |
| Agreement.RunKeepsAgrees | src/global/yjs/yjs-doc-manager.ts:255-286 | while no write is abandoned, the row lies between what the loaded record remembers as saved and what it holds; it is that very snapshot or a later one with new structs |
| Agreement.SkipsIffNoNewStructs | src/global/yjs/yjs-doc-manager.ts:260-263 | the skip test holds if and only if the document was saved and has gained no struct since its last successful snapshot |
| Agreement.SkipIsCurrent | src/global/yjs/yjs-doc-manager.ts:260-267 | when the skip test holds the row is exactly the snapshot last saved: it has all structs of the live document, and is the whole document if and only if nothing was deleted since that snapshot |
| Agreement.SkipMeansRowIsCurrent | src/global/yjs/yjs-doc-manager.ts:258-267 | the same at every moment of every run that abandons no write |
| Agreement.EditIsSkippedIff | src/global/yjs/yjs-doc-manager.ts:255-267 | for every edit of a fully saved document: the next flush skips it if and only if it brings no new struct, and the row is then still the whole document if and only if it brings no new deletion |
| RowHistory.CommitSetsRowBackIff | src/global/yjs/yjs-doc-manager.ts:274-286 | in every run, with any failures: a commit takes structs out of the row that a save of the same record had put there if and only if its write is older than the last committed one and lacks structs of it, and then no flush waits for it |
| RowHistory.RunKeepsLastWrite | src/global/yjs/yjs-crdt.service.ts:138-146 | in every run the row is the snapshot of the write that committed last |
| Eviction.EvictionLosesNothing | src/global/yjs/yjs-doc-manager.ts:134-359 | in every run where edits come from attached sockets or appends, saves succeed and an idle timer fires only on an empty queue: when a document is dropped, every struct it gained since it was loaded is in the row, also after a skipped flush |
| Eviction.OnlyIdleTimersEvict | src/global/yjs/yjs-doc-manager.ts:347-353 | in such runs a document is only dropped by its idle timer, with no clients and an empty queue |
| Eviction.RunCovers | src/global/yjs/yjs-doc-manager.ts:134-150 | a document without clients is unchanged since its load, in the row, about to be saved as it is, or has a flush queued |
| EarlyEviction.EvictionKeepsAllIff | src/global/yjs/yjs-doc-manager.ts:347-359 | an idle timer drops a document, whatever its queue holds, after a run where edits come from attached sockets or appends, saves succeed, earlier idle timers fired on an empty queue and loads brought no less than the row: every struct gained since the load is in the row or in the write about to commit if and only if no struct is behind the saves, or none was gained |
| EarlyEviction.NothingBehindIsStored | src/global/yjs/yjs-doc-manager.ts:347-359 | in any run that abandons no write, failures included: if no struct is behind the saves, none gained is missing from row and running write |
| EarlyEviction.RunHolds | src/global/yjs/yjs-doc-manager.ts:255-286 | in such runs the row is the last snapshot of the loaded record, or no more than it was loaded with, or below the write under way |
| Durability.NothingIsEverLost | src/global/yjs/yjs-doc-manager.ts:84-150 | in every run of that kind whose loads bring what Redis or else the row holds: each struct and each deletion a loaded document held at any moment, it and every later load of the node hold ever after, through any number of evictions |
| Durability.DroppedDocumentIsStored | src/global/yjs/yjs-doc-manager.ts:87-97 | while a once loaded document is not cached, the next load reads exactly the document that was dropped, deletions included |
| Durability.FlushIsDurable | src/global/yjs/yjs-doc-manager.ts:255-283 | a flush, saving or skipping, sends exactly the whole document to Redis, whatever clients and queue; what is stored then is never more than the document, and all of it unless a flush is due |
| Durability.StepGrows | src/global/yjs/yjs-doc-manager.ts:162-187 | no step, failing or not, takes a struct or a deletion out of a record |
| EmbedJobs.JobsAlternateWithEdits | src/global/yjs/yjs-doc-manager.ts:289-296 | in every run, every job follows a marked edit made since the record's last job, and comes directly after a successful save of the same record |
| EmbedJobs.JobsBoundedByEdits | src/global/yjs/yjs-doc-manager.ts:288-296 | between two moments a record gets at most one job per marked edit in between, and one more if it owed one: flushes without edits add none |
| EmbedJobs.MarkGoesByJobOrSkip | src/global/yjs/yjs-doc-manager.ts:260-296 | a mark leaves its record only with a job queued for it, or when a flush finds nothing to save |
| Versions.VersionCountsCommits | src/global/yjs/yjs-crdt.service.ts:138-146 | the row version is its initial value plus the number of committed row updates |
| Versions.CalmFlushesRaiseVersionAtMostOnce | src/global/yjs/yjs-doc-manager.ts:258-267 | flushes that succeed while no new struct comes in raise the version at most once, whatever is deleted, repeated or appended without effect, and not at all if nothing was unsaved; a save uncommitted at the start and every load in between may add one |
| Versions.SkippedFlushReportsLastSave | src/global/yjs/yjs-doc-manager.ts:260-267 | a flush that skips returns the pair stored by the record's last own save |
| Versions.NoVersionIsAhead | src/global/yjs/yjs-doc-manager.ts:285-297 | in every run no record, write, running flush or answered append knows a version the row has not had |
| Appends.AddedIsNotSkipped | src/global/yjs/yjs-doc-manager.ts:176-186 | the flush of an append that added a struct never takes the skip branch |
| Appends.AppendAdvancesVersion | src/global/yjs/yjs-doc-manager.ts:170-187 | in every run, a successful append had its text applied no earlier than its caller read the row, reports no version the row has not had, and if it added a struct reports one above the row version at the moment of its text, so above the one its caller had read |
| Timers.AtMostOneSaveTimer | src/global/yjs/yjs-doc-manager.ts:205-219 | a node never has two armed save timers, and has none when its document is not loaded |
| Timers.LeavesPileUpIdleTimers | src/global/yjs/yjs-doc-manager.ts:140-149 | a leave on a document without clients arms a second idle timer beside the first |
| Debounce.ScheduledEditArmsDebounce | src/global/yjs/yjs-doc-manager.ts:205-219 | right after a scheduled edit of a loaded node exactly one debounce is armed, a new one, and it is the record's; the update is in, the record marked, a named user its last editor, eviction timers and queue as before |
| Debounce.DebounceAsksForFlush | src/global/yjs/yjs-doc-manager.ts:214-218 | a debounce that fires puts one flush at the back of the queue and touches nothing else |
| Debounce.ScheduledEditAwaitsFlush | src/global/yjs/yjs-doc-manager.ts:205-219 | in every run, failures included: from a scheduled edit until a flush begins, while its document stays loaded, the record's debounce is armed or a queued operation has yet to take the snapshot |
| Effects.JoinStopsEviction | src/global/yjs/yjs-doc-manager.ts:60-68 | a join on a loaded node adds the socket and stops exactly the eviction timer the record knows of |
| Effects.LastLeaveFlushes | src/global/yjs/yjs-doc-manager.ts:134-150 | a leave takes the socket out; if none is left a flush is queued at once and one more eviction timer armed, else nothing |
| Effects.UnscheduledEditWaits | src/domain/ws/controller/ws.gateway.ts:346-369 | an update of the sync handshake reaches the document and arms, marks and queues nothing |
| Effects.IdleTimerEvicts | src/global/yjs/yjs-doc-manager.ts:347-359 | an eviction timer drops a document without clients, and its debounce with it, and else only goes off |
| Effects.CleanupDrops | src/global/yjs/yjs-doc-manager.ts:362-370 | a clean-up drops the document whoever is attached, stops its timers and sends Redis a delete |
| Effects.UnloadedFlushFails | src/global/yjs/yjs-doc-manager.ts:247-248 | a flush of a document that is not loaded fails and its turn is over |
| Effects.FlushSends | src/global/yjs/yjs-doc-manager.ts:250-283 | a flush stops the debounce and sends the whole document to Redis; if it was saved with this vector it loses its mark and the database is left alone, else its snapshot goes to the database and the mark stays |
| Effects.AppendSends | src/global/yjs/yjs-doc-manager.ts:176-184 | an append puts its text and user into the record and sends the result to Redis; unless nothing is new it is written to the database with a mark |
| Effects.AppendLoads | src/global/yjs/yjs-doc-manager.ts:177 | an append on an unloaded node loads it first, and fails if the load does |
| Effects.LoadedAppendSends | src/global/yjs/yjs-doc-manager.ts:177-184 | an append that had to load its document is always written, marked and under its user's name |
| Effects.RedisTakesEffect | src/global/yjs/yjs-crdt.service.ts:36-46 | Redis carries out the commands of a node in the order sent, and an error leaves the cell alone |
| Effects.SkipEnds | src/global/yjs/yjs-doc-manager.ts:264-266 | a skipping flush ends with the remembered pair, or with the error of its Redis write |
| Effects.SaveHearsFromRedis | src/global/yjs/yjs-doc-manager.ts:274-283 | a saving flush goes on when Redis has answered, and fails on its error with the database write still open |
| Effects.CommitWrites | src/global/yjs/yjs-crdt.service.ts:138-146 | a commit puts the snapshot into the row, under the next version and the time |
| Effects.SyncFinishesWrite | src/global/yjs/yjs-crdt.service.ts:99-110 | a write is finished when its attachments are |
| Effects.FailedWriteEndsItsFlush | src/global/yjs/yjs-crdt.service.ts:80-111 | a failing write fails the flush that waits for it and no other |
| Effects.GoneRowCleansUp | src/global/yjs/yjs-doc-manager.ts:332-345 | a background flush whose row is gone fails and drops the document and its Redis cell; an append only fails |
| Effects.SaveReturns | src/global/yjs/yjs-doc-manager.ts:285-297 | when both stores have answered the vector and the result are remembered, and a marked record with a named editor gets a job for that editor and loses its mark, whoever is attached |
| Effects.JobQueued | src/global/yjs/yjs-doc-manager.ts:291-297 | with its job queued a flush returns the result of its save |
| Effects.CallsJoin | src/global/yjs/yjs-doc-manager.ts:109-120 | calls join the queue at its back, and a load inserts a record with nothing but its document |
| Progress.SettlingLessens | src/global/yjs/yjs-doc-manager.ts:189-202 | every answer of a store or start of a queued operation lessens what all queued operations together have left to do |
| Progress.HeadIsNeverStuck | src/global/yjs/yjs-doc-manager.ts:176-186 | the head of the queue never waits for its own queue: what it waits for is a load or a store, and the answer moves it on |
| Progress.EveryOperationFinishes | src/global/yjs/yjs-doc-manager.ts:170-202 | a bound: when nothing new is asked for meanwhile, every queued operation has finished after as many answers as there is work left, whatever the answers are |
| Liveness.StepIsInTurn | src/global/yjs/yjs-doc-manager.ts:189-202 | no event of any kind sets the head of the queue back in stage and answers owed; the queue grows at the back only and shrinks by its head only |
| Liveness.AnswersBringOn | src/global/yjs/yjs-doc-manager.ts:170-202 | every answer the head waits for takes it off the queue or lowers that rank |
| Liveness.AwaitedAnswers | src/global/yjs/yjs-doc-manager.ts:176-186 | the head always waits for its turn, a load, a store call or its own continuation, never for an operation behind it |
| Liveness.EveryQueuedOperationEnds | src/global/yjs/yjs-doc-manager.ts:189-202 | in every infinite run, with any edits, submissions, leaves, timers and clean-ups in between: if the head is always answered sooner or later, either way, the operation queued at any place leaves the queue, after exactly those before it |
| Liveness.FairRunsExist | src/global/yjs/yjs-doc-manager.ts:189-202 | such a run starts in every state |
| Witnesses.AbandonedWriteUndoesNewerSave | src/global/yjs/yjs-doc-manager.ts:274-286 | a run after which the row lacks a struct that the record takes for saved |
| Witnesses.EarlyEvictionLosesText | src/global/yjs/yjs-doc-manager.ts:140-149 | a run in which every save succeeds and only attached clients edit: an idle timer that its record has forgotten fires while a flush is saving and another queued, and the text of the client ends up in neither store |
| Witnesses.DeletionReachesRedisOnly | src/global/yjs/yjs-doc-manager.ts:260-267 | after a delete-only edit a flush sends the full state to Redis and leaves the row without the deletion |
| Witnesses.EmptyAppendKeepsVersion | src/global/yjs/yjs-doc-manager.ts:176-186 | an append that adds no struct can report the version its caller had read |
| DocManager.ManagedDoc.constructor | src/global/yjs/yjs-doc-manager.ts:109-120 | a loaded record starts with its document, no clients, no timers and nothing remembered |
| DocManager.ManagedDoc.MarkEdited | src/global/yjs/yjs-doc-manager.ts:209-211 | the record is marked and remembers a named editor |
| DocManager.ManagedDoc.Conclude | src/global/yjs/yjs-doc-manager.ts:285-296 | the record remembers the save, and gives up its mark exactly when a job is due |
| DocManager.YjsDocManager.InsertDoc | src/global/yjs/yjs-doc-manager.ts:109-122 | the end of a load puts a fresh record in the map; other nodes are as before |
| DocManager.YjsDocManager.GetDoc | src/global/yjs/yjs-doc-manager.ts:60-68 | a cached document loses its pending idle timer |
| DocManager.YjsDocManager.AddClient | src/global/yjs/yjs-doc-manager.ts:127-132 | the socket joins a loaded record; an unknown node is ignored |
| DocManager.YjsDocManager.RemoveClient | src/global/yjs/yjs-doc-manager.ts:134-150 | the socket leaves; an emptied record queues a flush and arms an idle timer without clearing the old one |
| DocManager.YjsDocManager.ScheduleSave | src/global/yjs/yjs-doc-manager.ts:205-219 | the debounce is moved to a new timer and the record marked |
| DocManager.YjsDocManager.ApplyUpdate | src/global/yjs/yjs-doc-manager.ts:162-168 | the update is merged, with or without a save being scheduled |
| DocManager.YjsDocManager.EvictDoc | src/global/yjs/yjs-doc-manager.ts:347-359 | a record without clients leaves the map with its two known timers |
| DocManager.YjsDocManager.CleanupNode | src/global/yjs/yjs-doc-manager.ts:362-370 | the record leaves the map whoever is attached |
| DocManager.YjsDocManager.AppendText | src/global/yjs/yjs-doc-manager.ts:178-182 | the appended text is in the document before anything is saved |
| DocManager.YjsDocManager.BeginFlush | src/global/yjs/yjs-doc-manager.ts:247-283 | refuses an unloaded node, skips with the remembered pair exactly when the machine does, or sends the snapshot taken now to both stores |
| DocManager.YjsDocManager.FinishFlush | src/global/yjs/yjs-doc-manager.ts:285-297 | the record the flush began with, in the map or not, remembers the save, and a job is queued exactly when one is due |
| OperationQueue.TailMapIsFifo | src/global/yjs/yjs-doc-manager.ts:189-202 | the tail map is a FIFO queue per node: calls join at the back, only the front starts, it leaves when it settles either way, other nodes see nothing |
| OperationQueue.AtMostOneRuns | src/global/yjs/yjs-doc-manager.ts:189-202 | in every interleaving at most one task of a node runs |
| OperationQueue.FrontCanStart | src/global/yjs/yjs-doc-manager.ts:193-194 | a failed task never blocks its successor |
| OperationQueue.FrontRunsToItsOutcome | src/global/yjs/yjs-doc-manager.ts:193-201 | started, the front of an idle node runs; its caller gets the outcome it settles with; and the key goes with the last call |
| OperationQueue.OutcomeIsItsOwn | src/global/yjs/yjs-doc-manager.ts:194-197 | in every run a call that has settled or returned did so with the outcome of its own function |
| OperationQueue.EveryCallCanReturn | src/global/yjs/yjs-doc-manager.ts:189-202 | from every reachable state all calls made can be brought to return, and then no key is left |
| OperationQueue.KeysMatchWork | src/global/yjs/yjs-doc-manager.ts:195-201 | an absent key means nothing is queued or running, and no key remains once all calls have returned |
| OperationQueue.Operations.RunExclusive | src/global/yjs/yjs-doc-manager.ts:193-195 | a call chains behind the tail it finds and becomes the tail |
| OperationQueue.Operations.BeginTask | src/global/yjs/yjs-doc-manager.ts:194 | the queued function runs once the promise before it has settled, resolved or rejected |
| OperationQueue.Operations.SettleTask | src/global/yjs/yjs-doc-manager.ts:194-197 | the running function settles with the given outcome |
| OperationQueue.Operations.Finish | src/global/yjs/yjs-doc-manager.ts:198-201 | the call removes the key only if it is still its own |
| FlushPool.PoolIsBounded | src/global/yjs/yjs-doc-manager.ts:305-324 | in every interleaving nodes are flushed in order, none twice, and never more than four or the list's length at once |
| FlushPool.PoolIsComplete | src/global/yjs/yjs-doc-manager.ts:309-323 | when the pool returns, every listed node's flush was started once and has settled, whatever failed |
| FlushPool.PoolTerminates | src/global/yjs/yjs-doc-manager.ts:309-316 | every turn of a worker lessens remaining indices plus active workers, and a worker that is not gone has a turn |
| FlushPool.FlushAll | src/global/yjs/yjs-doc-manager.ts:305-324 | under any scheduling the loop starts exactly the listed nodes, in order, within the limit |
| DocLoading.OneLoadAtATime | src/global/yjs/yjs-doc-manager.ts:70-82 | at most one load of a node is in flight, it is the one in the map, and the node is not cached meanwhile |
| DocLoading.InsertNeverOverwrites | src/global/yjs/yjs-doc-manager.ts:109-120 | a finished load always finds the node absent from the cache |
| DocLoading.SharersAgree | src/global/yjs/yjs-doc-manager.ts:70-79 | all callers sharing a load get the same document, or all its failure |
| DocLoading.FailedLoadLeavesRoom | src/global/yjs/yjs-doc-manager.ts:77-81 | after a failed load the next caller starts a new one |
| DocLoading.SettledLoadDelivers | src/global/yjs/yjs-doc-manager.ts:77-81 | once nothing is loading, every waiting caller has its answer |
| DocLoading.CallFinds | src/global/yjs/yjs-doc-manager.ts:60-75 | a call gets the cached document itself, else shares the load under way, else starts the one load |
| DocLoading.SharedLoadGoesThrough | src/global/yjs/yjs-doc-manager.ts:70-82 | two callers of an uncached node cause one load and one record, and both get it |
| DocLoading.DroppedNodeLoadsAnew | src/global/yjs/yjs-doc-manager.ts:70-75 | the next call after a document was dropped loads it anew |
| DocLoading.FailedLoadRejects | src/global/yjs/yjs-doc-manager.ts:77-81 | a load that fails rejects its caller and leaves nothing in the cache |
| SaveTiming.NothingUnsavedBeyondInterval | src/global/yjs/yjs-doc-manager.ts:51-54 | with flushes that take no time and succeed, no struct stays unsaved longer than the safety interval, however edits reset the debounce and also if no save was scheduled for it |
| SaveTiming.BurstIsFlushedOnce | src/global/yjs/yjs-doc-manager.ts:213-218 | a burst with gaps below the debounce delay causes at most one debounced flush, not before the delay after its last edit; and exactly one if and only if no other flush cancelled that debounce |
| SaveTiming.QuietEditIsSavedAfterDelay | src/global/yjs/yjs-doc-manager.ts:213-218 | an edit followed by quiet is saved, with all before it, exactly when the debounce delay has run out |
| SaveTiming.SafetyFlushSavesAll | src/global/yjs/yjs-doc-manager.ts:51-54 | at the end of the safety interval everything is saved, scheduled or not |
| SaveTiming.RequestedFlushSavesAll | src/global/yjs/yjs-doc-manager.ts:250-283 | a flush that is asked for saves everything at once and stops the debounce |
| SaveTiming.SafetyFlushReplacesDebounce | src/global/yjs/yjs-doc-manager.ts:250-253 | a burst whose debounced flush never happens because a safety flush came first |
| NodeContent.AtMostOneAppend | src/domain/node-content/service/node-content.service.ts:105-126 | for any number of requests on both paths and no expiry: at most one holds the claim, and the key is appended once per failed flush or failed broadcast of the event bus path, and at most once more |
| NodeContent.RepeatsIffGivenBack | src/domain/node-content/service/node-content.service.ts:115-126 | without expiry, the text a claim is about to apply is a repetition if and only if a flush failed before, or the broadcast after a flush of the event bus path |
| NodeContent.AnswersAgree | src/domain/node-content/service/node-content.service.ts:79-141 | all successful answers for a key are for one body and equal except for `duplicate`; at most one is fresh, and its text was appended |
| NodeContent.FreshVersionAdvances | src/domain/node-content/service/node-content.service.ts:129-141 | a fresh success that added a struct has `version` above `previousVersion`, whatever else was committed in between, given of a flush only what `Appends.AppendAdvancesVersion` proves |
| NodeContent.VersionIsCheckedAtRead | src/domain/node-content/service/node-content.service.ts:58-141 | in every run, expiry included: a request goes by the row version at the moment it read the node; it writes only if the version it expects is that one, is refused for its version only if it is not, and a fresh answer names it as previous |
| NodeContent.CellDecides | src/domain/node-content/service/node-content.service.ts:79-103 | exactly when the cached cell means a version conflict, a claim, the recorded answer, an operation in progress or a reused key |
| NodeContent.HttpGoesThrough | src/domain/node-content/service/node-content.service.ts:95-141 | a request that fits, on a free key, goes through: text appended once, answer recorded and returned with both versions |
| NodeContent.RecordedAnswersRepeat | src/domain/node-content/service/node-content.service.ts:80-93 | once an answer is recorded the same body gets it as a duplicate and another body is refused |
| NodeContent.TakenKeyIsNotApplied | src/domain/node-content/service/node-content.service.ts:182-193 | a command of the event bus whose key is taken is not applied |
| NodeContent.ClaimDecides | src/domain/node-content/service/node-content.service.ts:105-113 | a claim wins exactly on an absent cell; else an HTTP request is told of the operation in progress and a command taken for applied |
| NodeContent.BusGoesThrough | src/domain/node-content/service/node-content.service.ts:182-205 | a command on a free key is applied once and its key stays taken |
| NodeContent.FailedBroadcast | src/domain/node-content/service/node-content.service.ts:195-213 | a broadcast that throws gives the key of a command back and leaves the key of an HTTP request taken |
| NodeContent.LostCallsReject | src/domain/node-content/service/node-content.service.ts:105-142 | a store call that fails rejects its request, and the cell shows whether it took effect |
| NodeContent.FailureFreesKey | src/domain/node-content/service/node-content.service.ts:123-126 | a failed append or flush frees the key on either path, and then new requests of either path can write |
| NodeContent.StepKeepsOneHolder | src/domain/node-content/service/node-content.service.ts:182-213 | every step of either path, store failures included, keeps the claim with one request |
| NodeContent.ExpiryAllowsSecondAppend | src/domain/node-content/service/node-content.service.ts:105-110 | without the no-expiry condition a repeated HTTP request appends while the first still holds its claim |
| NodeContent.FailedFlushAllowsSecondAppend | src/domain/node-content/service/node-content.service.ts:206-208 | a failed flush releases the key though the text is in the document, and the text is appended twice |
| NodeContent.ContentOperations.ReadCell | src/domain/node-content/service/node-content.service.ts:79-103 | key reused, still in progress, answered before, version conflict, or free to claim |
| NodeContent.ContentOperations.ClaimCell | src/domain/node-content/service/node-content.service.ts:105-113 | the claim succeeds exactly on an absent cell |
| NodeContent.ContentOperations.RecordAnswer | src/domain/node-content/service/node-content.service.ts:129-141 | the answer returned is the one recorded for the body's hash |
| NodeContent.ContentOperations.ReleaseCell | src/domain/node-content/service/node-content.service.ts:123-126 | a failed append gives the key back |
| AttachmentStore.SyncSetsRows | src/domain/file-attachment/service/file-attachment.service.ts:59-72 | a complete sync makes the node's rows the referenced files and touches no other node's |
| AttachmentStore.SyncKeepsGood | src/domain/file-attachment/service/file-attachment.service.ts:64-72 | it keeps "ACTIVE exactly if attached" |
| AttachmentStore.StatusAfter | src/domain/file-attachment/service/file-attachment.service.ts:100-107 | whatever the tables were: added files are ACTIVE, removed ones ORPHAN exactly if no row is left, others as before |
| AttachmentStore.RetryRestoresStatusIff | src/domain/file-attachment/service/file-attachment.service.ts:64-72 | after a failure between any two repository calls and a retry the rows are right; the statuses are if and only if no affected file was without another node |
| AttachmentStore.CreateEffect | src/domain/file-attachment/repository/file-attachment.repository.ts:32-37 | rows of this node and these files are added, nothing else changes |
| AttachmentStore.DeleteEffect | src/domain/file-attachment/repository/file-attachment.repository.ts:39-43 | rows of this node and these files are removed, nothing else changes |
| AttachmentStore.FileAttachments.MarkFiles | src/domain/file-attachment/repository/file-attachment.repository.ts:57-77 | exactly the named files that exist get the status |
| AttachmentStore.FileAttachments.OrphanUnreferenced | src/domain/file-attachment/service/file-attachment.service.ts:100-107 | only files without any remaining row turn ORPHAN |
| AttachmentStore.FileAttachments.SyncNode | src/domain/file-attachment/service/file-attachment.service.ts:47-79 | the uninterrupted sync: rows as referenced, statuses kept right |
| AttachmentStore.FileAttachments.ReleaseNode | src/domain/file-attachment/service/file-attachment.service.ts:86-97 | a release is a sync of a node that references nothing |
| AttachmentSyncs.CompletedSyncFits | src/domain/file-attachment/service/file-attachment.service.ts:47-79 | with syncs of other nodes interleaved at every repository call and failing anywhere, the step that completes a sync leaves its node with exactly the referenced files, from any tables |
| AttachmentSyncs.UndisturbedSyncCompletes | src/domain/file-attachment/service/file-attachment.service.ts:47-79 | undisturbed, a sync is over after at most six repository calls and has set rows and statuses as a whole sync does |
| AttachmentSyncs.StepTouchesOneNode | src/domain/file-attachment/repository/file-attachment.repository.ts:32-43 | no step of a sync changes another node's rows |
| AttachmentSyncs.StatusRestoredAtQuiescence | src/domain/file-attachment/service/file-attachment.service.ts:59-72 | when overlapping syncs change different files, "ACTIVE exactly if attached" holds whenever none is open |
| AttachmentSyncs.OrphanOnlyWhenUnreferenced | src/domain/file-attachment/service/file-attachment.service.ts:100-107 | in such runs a file turns ORPHAN only with its last reference gone |
| AttachmentSyncs.OnlyLateOrphansBreak | src/domain/file-attachment/service/file-attachment.service.ts:59-72 | for syncs overlapping in any way: a step breaks the tie between statuses and rows if and only if it marks a file ORPHAN that got a row since the count and that no open sync is about to mark ACTIVE |
| AttachmentSyncs.TieBreaksIff | src/domain/file-attachment/service/file-attachment.service.ts:59-72 | for syncs overlapping and failing in any way: a step breaks the tie between statuses and rows if and only if it is a late ORPHAN, or a failure of a sync that alone was about to set the status of a file whose rows it changed |
| AttachmentSyncs.StatusRestoredIfNothingBreaks | src/domain/file-attachment/service/file-attachment.service.ts:59-72 | without such steps "ACTIVE exactly if attached" holds whenever no sync is open, also for files that several syncs change at once and with syncs that fail |
| AttachmentSyncs.OverlapOnOneFileBreaksStatus | src/domain/file-attachment/service/file-attachment.service.ts:100-107 | one node drops a file while another takes it up: it ends ORPHAN though attached |
| UrlScanner.KeyRoundTrip | src/global/upload/s3.service.ts:19-32 | the key of a key's public address is that key |
| UrlScanner.AddressRoundTrip | src/global/upload/s3.service.ts:26-32 | an address is accepted if and only if it is some key's public address, and then the key gives it back |
| UrlScanner.MatchesAreAddresses | src/domain/file-attachment/service/file-attachment.service.ts:25-30 | every match is the prefix followed by a maximal non-empty run of non-terminators |
| UrlScanner.MatchesAreApart | src/domain/file-attachment/service/file-attachment.service.ts:30 | matches come in text order and do not overlap |
| UrlScanner.ScanOverlooksNothing | src/domain/file-attachment/service/file-attachment.service.ts:28-30 | wherever the pattern matches lies inside a match |
| UrlScanner.MatchYieldsItsKey | src/domain/file-attachment/service/file-attachment.service.ts:33-35 | extracting the key of a match never throws |
| UrlScanner.KeysAreMentioned | src/domain/file-attachment/service/file-attachment.service.ts:33-35 | no key repeats, and each is the whole key of an address in the text |
| UrlScanner.FreeMentionIsFound | src/domain/file-attachment/service/file-attachment.service.ts:25-35 | an address that begins inside no other has its key extracted |
| UrlScanner.EmbeddedKeysAreExtracted | src/domain/file-attachment/service/file-attachment.service.ts:25-35 | for text built of addresses separated by terminators the keys are exactly the embedded ones |
| UrlScanner.KeyEndsThere | src/domain/file-attachment/service/file-attachment.service.ts:25-35 | for every key of letters, digits and `-_/.`: followed by a quote, a closing parenthesis, a backslash or any white space, the key is exactly what stands before |
| UrlScanner.KeyGoesOn | src/domain/file-attachment/service/file-attachment.service.ts:28 | followed by another sign, as an opening parenthesis, comma, bracket or `>`, the key goes on through it to the next ending character |
| UrlScanner.AddressShape | src/global/upload/s3.service.ts:19-21 | an address is `https://`, bucket, `.s3.`, region, `.amazonaws.com/` and the key |
| UrlScanner.ReferencedFilesAreMentioned | src/domain/file-attachment/repository/file-attachment.repository.ts:9-22 | a referenced file is live, of the workspace, and its address stands in the content |
| UrlScanner.MentionedFilesAreReferenced | src/domain/file-attachment/service/file-attachment.service.ts:19-41 | a live file of the workspace whose free-standing address is in the content is referenced |
| Base64.DecodeEncode | src/global/yjs/yjs-crdt.service.ts:33-39 | decoding an encoded state gives the same bytes, for every length and padding |
| Base64.EncodeDecode | src/global/yjs/yjs-crdt.service.ts:33-39 | no two texts in base64 form stand for the same bytes |
| Base64.AlphabetIsOneToOne | src/global/yjs/yjs-crdt.service.ts:39 | the alphabet is a bijection that leaves out the padding character |
| Base64.CharacterValues | src/global/yjs/yjs-crdt.service.ts:39 | the values of the characters are those of table 1 of RFC 4648 |
| Base64.OneByteVector | src/global/yjs/yjs-crdt.service.ts:39 | the encoding of one byte and its two pads, as in section 10 of RFC 4648 |
| Base64.TwoByteVector | src/global/yjs/yjs-crdt.service.ts:39 | the encoding of two bytes and the pad |
| Base64.ThreeByteVector | src/global/yjs/yjs-crdt.service.ts:39 | the encoding of three bytes |
| CrdtStore.RedisRoundTrip | src/global/yjs/yjs-crdt.service.ts:26-42 | loading after saving gives exactly the saved bytes of a non-empty state, and null for an empty one |
| CrdtStore.UpdatedRowLoads | src/global/yjs/yjs-crdt.service.ts:59-77 | an updated row loads as the saved state, holds the new Markdown body and its other content unchanged |
| CrdtStore.UnsavedRowLoads | src/global/yjs/yjs-crdt.service.ts:67-77 | a row that was never saved opens as its Markdown body if that is not empty, and else as nothing |
| CrdtStore.UpdateStampsRow | src/global/yjs/yjs-crdt.service.ts:138-146 | an update stores the time and raises the version by one |
| CrdtStore.Stores.SaveToRedis | src/global/yjs/yjs-crdt.service.ts:36-42 | the node loads as saved, other nodes as before |
| CrdtStore.Stores.LoadFromRedis | src/global/yjs/yjs-crdt.service.ts:26-34 | an absent or empty cell loads as null, and so does a failed read |
| CrdtStore.Stores.DeleteFromRedis | src/global/yjs/yjs-crdt.service.ts:44-46 | the node loads as null afterwards |
| CrdtStore.Stores.UpdateNodeRow | src/global/yjs/yjs-crdt.service.ts:119-152 | a missing row is reported and nothing written; otherwise state, body and time are stored and the version raised by one and returned |
| Membership.RoomsAreInverseOfClients | src/domain/ws/controller/ws.gateway.ts:301-311 | in every run without node clean-up a socket is a client of a loaded document if and only if the gateway tracks it there, and no empty set is kept |
| Membership.ClientsStayTracked | src/domain/ws/controller/ws.gateway.ts:165-171 | with clean-up every client is still tracked |
| Membership.LeaveLeaves | src/domain/ws/controller/ws.gateway.ts:385-393 | after a leave neither side has the pair, and every other pair is as before |
| Membership.TrackedIffJoinedLast | src/domain/ws/controller/ws.gateway.ts:301-311 | in every run the gateway tracks a socket for a node if and only if its last completed join came after its last leave or sweep |
| Membership.ClientIffJoinedLast | src/domain/ws/controller/ws.gateway.ts:305 | and the socket is a client if and only if that join found the document and no clean-up took it away since |
| Membership.JoinSucceeds | src/domain/ws/controller/ws.gateway.ts:271-327 | a connected socket that asks to join becomes client and tracked once the document is loaded |
| Membership.FailedJoinLeavesNothing | src/domain/ws/controller/ws.gateway.ts:276-301 | a join that fails leaves nothing on either side, and a socket that is not connected cannot ask for one |
| Membership.DroppedIff | src/global/yjs/yjs-doc-manager.ts:347-371 | an eviction drops a document exactly if it has no client, a clean-up always |
| Membership.DisconnectLeavesAll | src/domain/ws/controller/ws.gateway.ts:164-171 | a disconnected and swept socket is tracked nowhere and client of nothing; other sockets are as before |
| Membership.GhostsAppearIff | src/domain/ws/controller/ws.gateway.ts:147-172 | a tracked socket without connection or pending clean-up appears if and only if a join completes after its socket was swept, or the presence update of a disconnect fails for a socket that is tracked |
| Membership.NoGhostsIffAllSwept | src/domain/ws/controller/ws.gateway.ts:147-172 | a run has no such socket at any moment if and only if neither happens in it |
| Membership.LateJoinHappens | src/domain/ws/controller/ws.gateway.ts:147-172 | a run in which such a join happens |
| Membership.LostSweepHappens | src/domain/ws/controller/ws.gateway.ts:158-171 | a run in which the presence update fails and the socket stays a client, without any late join |
| Membership.Gateway.CompleteJoin | src/domain/ws/controller/ws.gateway.ts:303-311 | the socket becomes client and the node tracked, in one step |
| Membership.Gateway.HandleYjsLeave | src/domain/ws/controller/ws.gateway.ts:385-393 | both sides forget the pair, and a socket without nodes is dropped |
| Membership.Gateway.SweepClient | src/domain/ws/controller/ws.gateway.ts:164-171 | a disconnected socket leaves every tracked node, and only those |
| Membership.Gateway.LoseSweep | src/domain/ws/controller/ws.gateway.ts:158-162 | a disconnect whose presence update fails leaves the maps as they are |

## Left out

- Conversion between Lexical, Markdown and Yjs: an append is an update, and whether it adds a struct is the run's choice.
- Yjs encodings, pending structs and text order: a document is structs per client and a delete set, updates fit their history without gaps.
- More than one node in `NodeMachine`: every map of the manager is keyed by node; `DocManager` shows that a handler leaves other nodes alone.
- Promise jobs between the settling of a promise and the code that awaits it: they are one step in `NodeMachine`, so a clean-up of a node in between its load and the append that asked for it is not seen.
- The load inside `NodeMachine` is one step that any caller may cause; sharing and failure of loads are in `DocLoading`, reading Redis before the database in `CrdtStore`.
- `lastActivity`, `knownMarkdown` and the text passed to `saveToDb`: nothing reads the first, and the others reach only the row's content.
- Conversions that throw: a flush then fails before its database write, an append before its text is in; nothing of the saving theorems changes.
- The clean-up after a row was found gone runs in the catch of the outer call, after the next queued task may have begun; `NodeMachine.Fail` has it in the failing step. No theorem depends on the difference.
- Deleting the workspace cache key after a sync: its failure is swallowed and its key shared with nothing here.
- Other processes that write, lower or delete the node row during a run: the row changes by the manager's own commits only.
- Redis expiry of saved documents, and crashes. `Durability` takes loads to bring what the stores hold; the other theorems let a load bring any document of the history.
- `Liveness` takes for granted that the stores answer the head of the queue sooner or later; no time limit of Redis or Postgres is modelled.
- Expiry of the idempotency cell is excluded from the theorems on appends; `NodeContent.ExpiryAllowsSecondAppend` shows what it does.
- The SHA-256 of a request body stands for the body.
- Checks before the protocol of an append (key length, empty Markdown, permission, node type): one branch each.
- Syncs of one node that overlap because an abandoned database write reaches its sync late; `AttachmentSyncs` runs syncs of one node one after the other, as the operation queue does.
- `findStaleFiles`, `markFilesDeleted`: not called in this repository. `releaseNodeAttachments` is not called either but shares the protocol of a sync.
- JSON escapes in the scanned text: the scanner works on the text it is given, in characters.
- Node's lenient decoder for malformed base64: only text that was saved is decoded.
- Presence, awareness, permissions, room delivery, event-bus dispatch, metrics and logs; of a disconnect only that its presence update may fail.
- Shutdown (`onModuleDestroy`): it flushes everything with the pool that is modelled and clears the maps.
