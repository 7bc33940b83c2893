# Camera workspace: offline sync, revisions, groups, write-back and queues

A Dafny model of the stateful core of the system, with proofs over whole runs.

A desktop client queues field changes while offline and replays them to a server that merges them
field by field. The server keeps cameras as the projection of an append-only revision log, approves
imported changes by three-way merge, keeps a multi-parent group hierarchy, and writes results back to
files under per-file locks. Each part has a specification as functions of its state, theorems about
every reachable state, and a class whose methods update the same state in place and are proved to
compute the specification. The modules named `…Effects` and `JobRetries` say what each request does in
terms of its arguments and of what could be seen before it, without the functions of the specification.

| Files | What they model |
|---|---|
| `Reconciler`, `ReconcilerTheorems`, `ReviewEffects`, `ReconciliationEngine` | the server's field-level merge of mutations, its duplicate filter and conflict review |
| `MutationQueue` | the desktop's table of mutation events and the replay of a bounded batch |
| `SyncProtocol`, `SyncRuns`, `SyncReview` | desktop and server together over a channel that loses requests and responses |
| `Graph`, `Organize`, `OrganizeTheorems`, `OrganizeEffects`, `OrganizeRetries`, `OrganizeStore` | the group hierarchy, its cycle search, and memberships |
| `Merge`, `Revisions`, `RevisionTheorems`, `ImportEffects`, `RevisionEffects`, `CodeIndex`, `RevisionRuns`, `RevisionStore` | three-way merge, the revision log, ChangeSets and their approval |
| `WriteBack`, `WriteBackTheorems`, `WriteBackEffects`, `PlanEffects`, `WriteBackRuns`, `RestoreRuns`, `WriteBackStore` | preview plans, write jobs, file locks and file versions |
| `JobQueue`, `JobRetries`, `ManifestQueue` | the desktop's job queue over two tables |
| `Codec`, `CodecTheorems`, `Snapshot`, `PostgresStore` | the snapshot codec and the transaction around each request |
| `Outbox` | the event outbox, the audit chain, and cursor polling |
| `Tiles` | the map tiles of an offline area and the validator's count |
| `Regions` | the tables of a worksheet as maximal runs of occupied rows |

Conventions: a UUID is a natural number, and drawing a fresh one is a parameter of the operation;
one request, transaction or SQL statement is one step; clocks, disk contents and what a client sends
are parameters. `Result` and `Option` stand for exceptions, error returns and missing values.

## What turned out not to hold

Where the code does not keep the obvious stronger claim, the model keeps the code and the theorem
says exactly when the claim holds. Where the failing case is a whole run, a short run that reaches it is
proved possible.

- Moving a group, or giving it new parents, discards edges from the set it is iterating over, so it
  raises after the first discarded edge. Past its checks such a request leaves the edges and the parent
  lists in agreement if and only if the group had no parents (`OrganizeTheorems.RelinkingKeepsMirrorIff`),
  and the first one that had parents breaks it (`OrganizeTheorems.FirstInterruptionBreaksMirror`). In
  `OrganizeTheorems.InterruptedRun` the lists even form a cycle afterwards. What every run keeps is weaker:
  acyclic edges, each of them listed. A group with n edges loses one at each of n attempts, and the attempt
  after them ends as meant; edges and lists agree again exactly then
  (`OrganizeRetries.RepeatedMoveEndsAsMeant`, `OrganizeRetries.AgreementReturnsAtTheEnd`). The theorems
  about the effect the code is meant to have carry `Meant` in their names.
- A forced sync (`OverwriteWithClient`) only queues the event again. Replaying a page leaves the server as
  it was if and only if the request is lost or the server knows every event of the page
  (`SyncProtocol.ForcedSyncChangesNothingIff`); in particular an event the desktop holds as synced or
  staged can no longer change the server (`SyncRuns.SettledEventCannotChangeServer`). The retry count is
  not reset, and the bound of four recorded retries holds through a run if and only if no event that has
  used up its attempts is queued again (`SyncRuns.RetriesStayBoundedIff`).
- An event is staged on the desktop exactly when the answered replay is the first to deliver it and a
  field clashes (`SyncProtocol.StagedExactlyOnFirstDelivery`). So an event can be shown as synced while the
  server holds it for review: exactly when it arrived first with a clash, the answer was lost or the event
  was queued again since, and no review has been accepted (`SyncReview.SyncedWhileHeldIff`).
  `SyncRuns.MisleadingRun` is such a run.
- Two entities share their fields if and only if one key text can be read as both
  (`ReconcilerTheorems.EntitiesShareKeyIff`); types without a colon keep theirs apart
  (`ReconcilerTheorems.PlainTypesSeparate`). Entity "c" of type "A:B" and entity "B:c" of type "A" clash
  (`ReconcilerTheorems.DistinctEntitiesClash`).
- The code index and the cameras' codes stay inverse to each other under an approval if and only if it
  applies nothing or its resolved items exchange codes: each code ends with the entity it was last given
  to, no camera leaves its code to nobody, and no code is taken from a camera the items do not name
  (`CodeIndex.ApproveKeepsCodesIff`, and through whole runs `CodeIndex.CodesStayInverseIff`). Two files that
  bring a new camera with the same code, both proposed before either is approved, break them
  (`RevisionRuns.TwinsBreakCodes`).
- A file import under a known idempotency key is answered if and only if that key belongs to a file import
  (`RevisionTheorems.KnownKeyAnsweredIff`); under the key of a document import it fails
  (`RevisionRuns.SharedKeyRefused`).
- Completion that meets a conflict does not stop the other jobs of an all-or-nothing plan
  (`WriteBackTheorems.ConflictLeavesSiblings`); only an explicit failure does. In
  `WriteBackRuns.AppliedByHalf` a sibling is applied after the conflict.
- A file known only from an import can be planned and queued, but its job can only end in conflict: a
  queued job can be applied if and only if a version of its file is registered
  (`WriteBackRuns.QueuedJobCompletableIff`).
- Recording a failure does not look at the job's status, so a finished or cancelled job becomes
  claimable again exactly when it is given a failure short of its limit, or is queued again
  (`JobQueue.RevivedIff`, and `JobQueue.RevivedRun` for a finished job).
- A ChangeSet that has been decided on is not applied later (`RevisionTheorems.SettledForGood`), except
  that of a restore: it is applied later in a run if and only if its job is still to be applied and then is
  (`RestoreRuns.AppliedLaterIff`), and in `RestoreRuns.AppliedAfterReview` that happens after it was sent to
  review.
- A request is isolated from what an earlier raised request left in memory exactly when the snapshot
  holds every attribute (`Snapshot.IsolatedIff`); before the first snapshot is written it is not
  (`Snapshot.NewRowKeepsRaisedChanges`).

## Model

| member | source | states |
|---|---|---|
| SyncProtocol.ExactlyOnce | apps/desktop/src-tauri/src/replay_cmd.rs:22-62 | in every run of enqueue, lost request, lost response, answered replay, requeue, other clients and reviews: the server is as if each id had been delivered once, at its first arrival, and an event the desktop holds as synced or staged took effect with its own mutation, each field applied or held beside the server value |
| SyncProtocol.BehaviourKeepsInv | crates/desktop-core/src/replay.rs:50-86 | in every reachable state a synced or staged event was delivered to the server, a staged one has its conflict record there, and what was delivered under its id is its own mutation |
| SyncProtocol.OutcomesFollowAcks | apps/desktop/src-tauri/src/replay_cmd.rs:46-61 | looking acknowledgements up by id gives each event of the page its own one: conflict exactly when the server staged it, delivered otherwise |
| SyncProtocol.StagedExactlyOnFirstDelivery | apps/desktop/src-tauri/src/replay_cmd.rs:51-60 | after an answered replay an event is staged if and only if this batch is the first to deliver it and a field clashes on arrival; otherwise synced |
| SyncProtocol.LostResponseStillApplies | apps/desktop/src-tauri/src/replay_cmd.rs:34-45 | when only the response is lost the server has processed every event of the page |
| SyncProtocol.LostResponseCountsAsFailure | crates/desktop-core/src/replay.rs:61-84 | on the desktop each event of that page has used up one attempt and is pending or, after the fifth, failed |
| SyncProtocol.ForcedSyncChangesNothingIff | crates/desktop-core/src/server_sync.rs:56-59 | a replay leaves the server as it was if and only if the request is lost or every event of the page has been delivered before |
| SyncRuns.SettledEventCannotChangeServer | crates/desktop-core/src/server_sync.rs:56-59 | in every run, once an event is synced or staged on the desktop, any later replay of it leaves the server as the replay without it would |
| SyncRuns.RetriesStayBoundedIff | crates/desktop-core/src/replay.rs:76-84 | through a whole run a pending event has at most four recorded retries if and only if no event that has used up its attempts is queued again |
| SyncRuns.MisleadingRun | apps/desktop/src-tauri/src/replay_cmd.rs:46-61 | a possible run ends with a mutation synced on the desktop while the server still holds it for review |
| SyncReview.HeldIff | apps/server/app/shared/reconciler.py:95-121 | in every run the server holds an event of the desktop for review if and only if some replay brought it there first with a clash and no review of it has been accepted since |
| SyncReview.SyncedWhileHeldIff | apps/desktop/src-tauri/src/replay_cmd.rs:46-61 | in every run an event shown as synced is held for review if and only if it arrived first with a clash, that answer was lost or the event was queued again since, and no review has been accepted |
| ReconcilerTheorems.DuplicatesAreHarmless | apps/server/app/shared/reconciler.py:60-71 | any sequence of deliveries and reviews ends in the state of the same sequence with only the first delivery of each new id |
| ReconcilerTheorems.FirstDeliveriesAreDistinct | apps/server/app/shared/reconciler.py:60-71 | that shorter sequence delivers exactly the delivered new ids, each once |
| ReconcilerTheorems.BatchAppend | apps/server/app/shared/reconciler.py:59-135 | processing a then b gives the state and acknowledgements of processing a + b |
| ReconcilerTheorems.CountAppend | apps/server/app/shared/reconciler.py:137-143 | counters of consecutive batches add up |
| ReconcilerTheorems.CountsAddUp | apps/server/app/shared/reconciler.py:137-143 | synced, conflict and duplicate acknowledgements together are the processed count |
| ReconcilerTheorems.RedeliveryIsIgnored | apps/server/app/shared/reconciler.py:60-71 | a batch of known ids changes nothing and is acknowledged as duplicates throughout |
| ReconcilerTheorems.RetryIsIdempotent | apps/server/app/shared/reconciler.py:53-71 | sending a whole batch again leaves the server unchanged |
| ReconcilerTheorems.NewMutationFields | apps/server/app/shared/reconciler.py:82-93 | a new mutation applies exactly its fields that do not clash, with its stamp, and touches no other field of any entity |
| ReconcilerTheorems.NewMutationConflicts | apps/server/app/shared/reconciler.py:97-135 | it is staged if and only if some field clashes; the record holds exactly the clashing fields beside the server values, and no other record changes |
| ReconcilerTheorems.NewMutationAck | apps/server/app/shared/reconciler.py:112-135 | its acknowledgement names the mutation and the entity and lists each changed field once: under conflicts if another client wrote it last with another value, as applied if not |
| ReconcilerTheorems.RunKeepsInv | apps/server/app/shared/reconciler.py:164-187 | over every run values and stamps name the same fields with equal values, and each conflict record belongs to a processed mutation and holds a server value for every client field |
| ReconcilerTheorems.NoSilentOverwrite | apps/server/app/shared/reconciler.py:82-93 | over every run reconciling changes an existing value only for its recorded last writer; another client's different value is staged with the exact pair and the field stays |
| ReconcilerTheorems.RunRemembers | apps/server/app/shared/reconciler.py:153-187 | processed ids and conflict records are never lost; a record only ever changes its review status |
| ReconcilerTheorems.EffectSurvives | apps/server/app/shared/reconciler.py:95-112 | in every run each field of a first delivery was applied there, or is still held at the end with the server value it met |
| ReconcilerTheorems.EntitiesShareKeyIff | apps/server/app/shared/reconciler.py:73 | two entities share one key, and so their fields, if and only if they are the same or one type is the other followed by a colon and the start of its id |
| ReconcilerTheorems.PlainTypesSeparate | apps/server/app/shared/reconciler.py:73 | entities whose types have no colon keep separate fields |
| ReconcilerTheorems.DistinctEntitiesClash | apps/server/app/shared/reconciler.py:73 | writes of two clients to entity "c" of type "A:B" and to entity "B:c" of type "A" clash |
| ReconciliationEngine.MergeFields | apps/server/app/shared/reconciler.py:77-93 | the field loop writes, stamps and splits the fields as specified |
| ReconciliationEngine.Engine.ReconcileBatch | apps/server/app/shared/reconciler.py:53-143 | the batch loop leaves the specified state, acknowledgements and counters |
| ReconciliationEngine.Engine.ReconcileItem | apps/server/app/shared/reconciler.py:59-135 | one mutation: duplicate, merged or staged, as specified |
| ReconciliationEngine.Engine.ResolveConflict | apps/server/app/shared/reconciler.py:153-187 | resolving writes the given values or the chosen client's fields, as `ReviewEffects` tells, creates the entity's tables if missing, also before refusing a foreign client, and marks the record |
| ReviewEffects.RecordedIff | apps/server/app/shared/reconciler.py:95-112 | in every run there is a conflict record of a first-delivered mutation if and only if it arrived with a clash; the record keeps its client, user, workspace, entity and time and exactly its clashing fields with its values |
| ReviewEffects.RaisedBefore | apps/server/app/shared/reconciler.py:95-112 | and nothing else is ever up for review |
| ReviewEffects.ReviewAcceptedIff | apps/server/app/shared/reconciler.py:160-187 | in every run a review of a first-delivered mutation is accepted if and only if it arrived with a clash and the operator gives values, gives nothing, or names its client; it settles that record, and a refused one changes no record |
| ReviewEffects.ChosenClientWins | apps/server/app/shared/reconciler.py:173-184 | in every run choosing the mutation's client sets exactly the fields that clashed on arrival, each to the mutation's value, stamped with that client and the time; every other field of every entity stays |
| ReviewEffects.CustomValuesWin | apps/server/app/shared/reconciler.py:173-184 | in every run given values are written as they are, stamped with the chosen client or else the mutation's own, and no other field changes |
| ReviewEffects.OtherReviewsWriteNothing | apps/server/app/shared/reconciler.py:173-184 | in every run a review without values that does not name the client of the conflict changes no field |
| ReviewEffects.UnknownConflictIsIgnored | apps/server/app/shared/reconciler.py:160-162 | in every run a review of anything that did not arrive with a clash is refused and leaves the server as it is |
| MutationQueue.ReplayDrains | crates/desktop-core/src/replay.rs:50-86 | without requeues n pending events have left the queue after 5n online replays, whatever the server answers |
| MutationQueue.ReplayUsesAttempts | crates/desktop-core/src/replay.rs:76-84 | each replay of a non-empty page uses up attempts of its events and gives none to any other |
| MutationQueue.RequeueKeepsRetriesBounded | crates/desktop-core/src/server_sync.rs:56-59 | queueing an event again keeps that bound if and only if the event has attempts left |
| MutationQueue.OutcomesAddUp | crates/desktop-core/src/replay.rs:88-100 | the batch's three counters add up to its size |
| MutationQueue.SettleAllAt | crates/desktop-core/src/replay.rs:66-86 | each event of the page is settled by its own outcome and no other row changes |
| MutationQueue.EncryptedDb.ReplayPendingBatch | crates/desktop-core/src/replay.rs:32-101 | offline nothing happens; online the page is settled as specified and the counters count its outcomes; a short or failed answer fails every event |
| MutationQueue.EncryptedDb.GetPendingMutationEvents | crates/desktop-core/src/db_encrypted.rs:240-269 | the first `limit` pending rows in timestamp order, all of them when there are fewer |
| MutationQueue.EncryptedDb.ResolveConflict | crates/desktop-core/src/server_sync.rs:46-61 | discards the event or makes it pending again, its retry count unchanged |
| MutationQueue.ReplayTakesEffect | crates/desktop-core/src/replay.rs:50-86 | a replay settles each event of its page by the outcome the answer gives it: synced, staged, or one more attempt used, pending before the fifth and failed at it; the rest of the row and every other row stay |
| MutationQueue.ChoiceTakesEffect | crates/desktop-core/src/server_sync.rs:46-61 | the choice discards the event or makes it pending with the attempts it has used; no other row changes |
| SyncRuns.QueuedAsMade | crates/desktop-core/src/db_encrypted.rs:219-238 | a mutation made on the desktop is queued under its own id and time, pending, with no attempt used, and the server does not change |
| Graph.ReplaceIsCyclicIff | apps/server/app/domain.py:305-316 | on an acyclic relation, giving a group these parents closes a cycle if and only if one of them already reaches the group |
| OrganizeStore.Store.WouldCreateCycle | apps/server/app/domain.py:305-316 | the worklist search ends on every finite parent relation and answers whether a parent reaches the group |
| OrganizeTheorems.BehaviourKeepsInv | apps/server/app/domain.py:318-451 | in every run the edges are acyclic and listed, edges and memberships stay within a project and name existing groups, parent lists are sorted, names are distinct within a project; and while no request was interrupted the edges equal the parent lists |
| OrganizeTheorems.MoveOutcome | apps/server/app/domain.py:404-424 | in every reachable state a move to existing groups of the project is refused if and only if the new relation would have a cycle; it succeeds if and only if it would not and the group has no edges, and then the edges are the given ones |
| OrganizeTheorems.RelinkingKeepsMirrorIff | apps/server/app/domain.py:392-396 | past its checks a request with new parents leaves edges and parent lists in agreement if and only if the group had no parents |
| OrganizeTheorems.FirstInterruptionBreaksMirror | apps/server/app/domain.py:416-420 | the first request of a run that gives new parents to a group with parents breaks the agreement |
| OrganizeTheorems.InterruptedRun | apps/server/app/domain.py:404-424 | a possible run: a moved group keeps its list while its edge is gone, and the next move closes a cycle in the lists |
| OrganizeRetries.RepeatedMoveEndsAsMeant | apps/server/app/domain.py:416-423 | an accepted move of a group with n edges, sent again and again, ends as meant at the attempt after n interrupted ones |
| OrganizeRetries.AgreementReturnsAtTheEnd | apps/server/app/domain.py:416-423 | edges and lists that agreed disagree from the first of these attempts on and agree again exactly after the last |
| OrganizeTheorems.MeantBehaviourKeepsMirror | apps/server/app/domain.py:318-451 | were the edges replaced as meant, edges and parent lists would agree in every run |
| OrganizeTheorems.MeantMoveRefusedIffCyclic | apps/server/app/domain.py:404-424 | and a move would be refused if and only if it would close a cycle |
| OrganizeTheorems.RunsWithoutInterruptionAreMeant | apps/server/app/domain.py:318-451 | a run without interrupted requests is such a run |
| OrganizeTheorems.StepKeepsInv | apps/server/app/domain.py:318-505 | every request keeps the invariant, and the agreement of edges and lists if and only if it is not interrupted |
| OrganizeTheorems.DeleteKeepsInv | apps/server/app/domain.py:435-451 | deleting a group, its edges, its id in other lists and its memberships keeps the invariant and the agreement |
| OrganizeEffects.CreatedIff | apps/server/app/domain.py:318-343 | a group is created if and only if the project is open, the name usable and borne by no group of the project, and the parents groups of the project; a borne name is refused with a conflict |
| OrganizeEffects.CreateTakesEffect | apps/server/app/domain.py:333-343 | the new group is active with exactly the name and the parents asked for, in lists and edges; nothing else changes |
| OrganizeEffects.UpdatePassesIff | apps/server/app/domain.py:368-390 | in every state that keeps the invariant an update passes its checks if and only if the group is the project's, something usable is given, no other group bears the given name, given parents are groups of the project, and edges to the given or listed parents close no cycle; otherwise it changes nothing |
| OrganizeEffects.UpdateDoneIff | apps/server/app/domain.py:392-402 | past its checks it is done if and only if it gives no parents or the group has no edge; otherwise it is interrupted with one edge lost and nothing else changed |
| OrganizeEffects.UpdateTakesEffect | apps/server/app/domain.py:392-402 | a finished update leaves the group with the given name, status and parents where given and its own where not; its project, every other group and every membership are as before |
| OrganizeEffects.RenamedNamesCount | apps/server/app/domain.py:371-398 | in every run, after a finished rename creating a group with the new folded name is refused with a conflict, and creating one with the old folded name, if it differs, succeeds in an open project |
| OrganizeEffects.MovePassesIff | apps/server/app/domain.py:410-415 | a move passes if and only if group and parents are the project's and the edges would close no cycle; otherwise it changes nothing |
| OrganizeEffects.MoveTakesEffect | apps/server/app/domain.py:416-424 | a finished move leaves the group with its name and status and exactly the given parents, and everything else as before |
| OrganizeEffects.MoveDoneIff | apps/server/app/domain.py:416-420 | past its checks a move is done if and only if the group has no edge; otherwise one edge is lost and nothing else changes |
| OrganizeEffects.DeleteTakesEffect | apps/server/app/domain.py:435-451 | a deleted group is gone from the groups, from the parents of the others, from the edges and from the memberships; everything else is as before and its name is free again |
| OrganizeEffects.AssignTakesEffect | apps/server/app/domain.py:476-505 | a membership is there afterwards if and only if it was and is not being replaced, or the finished assignment asked for it; it is finished if and only if the checks pass and no item is a camera of another project |
| OrganizeEffects.RemoveTakesEffect | apps/server/app/domain.py:519-540 | exactly the memberships of the items in the groups are gone, in an open project |
| OrganizeStore.Store.CreateGroup | apps/server/app/domain.py:318-343 | creates the group with sorted parents and their edges, or fails with the specified error and changes nothing |
| OrganizeStore.Store.UpdateGroup | apps/server/app/domain.py:359-402 | renames, sets the status and re-parents as specified, fails and changes nothing, or is interrupted after one discarded edge |
| OrganizeStore.Store.MoveGroup | apps/server/app/domain.py:404-424 | gives a group without edges its new parents, refuses and changes nothing, or is interrupted after one discarded edge |
| OrganizeStore.Store.DiscardOutEdges | apps/server/app/domain.py:392-396 | the discarding loop ends at once without an edge of the group, and otherwise raises after discarding exactly one |
| OrganizeStore.Store.DeleteGroup | apps/server/app/domain.py:435-451 | drops the group, its edges and its memberships, and its id from its project's parent lists |
| OrganizeStore.Store.AssignGroups | apps/server/app/domain.py:476-505 | adds the memberships, after dropping the items' old ones when replacing, also when a later item is refused |
| OrganizeStore.Store.RemoveGroups | apps/server/app/domain.py:519-540 | drops exactly the named memberships |
| Merge.MergeIsExact | apps/server/app/domain.py:1186-1208 | conflicts are exactly the fields both sides changed differently; without one, each field keeps the side that changed it |
| Merge.NoConflictIff | apps/server/app/domain.py:1186-1208 | there is no conflict if and only if no field was changed on both sides to different values |
| Merge.MergeIsSymmetric | apps/server/app/domain.py:1186-1208 | the same fields clash whichever side is called server, and without a clash the results are equal |
| RevisionStore.MergeItem | apps/server/app/domain.py:1186-1208 | the field loop computes that merge |
| RevisionTheorems.BehaviourKeepsInv | apps/server/app/domain.py:2238-2274 | in every run each camera has a non-empty history numbered 1..n ending in its payload, each item's base payload is what its base revision recorded, and histories only grow |
| RevisionTheorems.FastPathIsMerge | apps/server/app/domain.py:1183-1208 | with an unchanged revision number the shortcut equals the three-way merge |
| RevisionTheorems.ResolveMerges | apps/server/app/domain.py:1179-1208 | an item resolves if and only if no field was changed on both sides differently, and then keeps every one-sided change |
| RevisionTheorems.ApproveAllOrNothing | apps/server/app/domain.py:1163-1254 | a ChangeSet of any length is applied, each entity gaining one revision per item naming it, if and only if every item resolves; else cameras, codes and histories are untouched |
| RevisionTheorems.ApproveMergesFields | apps/server/app/domain.py:1226-1239 | after an approval each camera holds, for the last item naming it, every one-sided change |
| RevisionTheorems.ApplyItemsAppends | apps/server/app/domain.py:1226-1239 | each history grows by exactly the items naming its entity, tagged with the ChangeSet; entities named by none are unchanged |
| RevisionTheorems.SettledForGood | apps/server/app/domain.py:1174-1175 | a file, document or field ChangeSet that has left PENDING_APPROVAL never returns to it and is not applied again; for restores see `RestoreRuns` |
| RevisionTheorems.AppliedAtMostOnce | apps/server/app/domain.py:1163-1239 | no ChangeSet is applied twice in any run |
| CodeIndex.ApplyItemKeepsCodesIff | apps/server/app/domain.py:1229-1238 | applying an item keeps the code index and the cameras' codes inverse if and only if it adds a camera with a free code or keeps the code of a camera of the project |
| CodeIndex.ApplyItemsKeepsCodesIff | apps/server/app/domain.py:1226-1239 | applying a list keeps them inverse if and only if the items give codes and entities to each other one to one, abandon no code and take none from a camera they do not name |
| CodeIndex.ApproveKeepsCodesIff | apps/server/app/domain.py:1163-1239 | so an approval keeps them inverse if and only if it is refused, meets a conflict, or its resolved items are such a list |
| CodeIndex.CodesStayInverseIff | apps/server/app/domain.py:851-1239 | through a whole run they are inverse if and only if every direct import brings a known code or a new camera of its project and every approval is such a one |
| CodeIndex.DistinctCodesExchange | apps/server/app/domain.py:1226-1239 | items with distinct codes, each free or unchanged, are such a list |
| RevisionRuns.TwinsBreakCodes | apps/server/app/domain.py:1226-1239 | a possible run: two imports, proposed before either is approved, each bring a new camera with the same code; after the first approval index and codes are inverse, after the second the first camera is out of the index |
| RevisionTheorems.ResultMatchesItems | apps/server/app/domain.py:893-927 | an import's items are the rows it reports as inserted or changed, and every row is reported once |
| RevisionTheorems.KnownKeyAnsweredIff | apps/server/app/domain.py:883-889 | in every reachable state an import under a known key is answered, with the earlier ChangeSet and its result, if and only if the key's ChangeSet is a file import |
| RevisionRuns.SharedKeyRefused | apps/server/app/domain.py:884-886 | after a document import a file import under the same key fails |
| ImportEffects.ItemsAreChangingRows | apps/server/app/domain.py:896-927 | in every state that keeps the invariant an import proposes, in order, one item for each row that adds or changes a camera: the row's fields for the camera with its code, based on that camera's payload and on the length of its history, or on nothing for a new camera |
| ImportEffects.RowsAreReported | apps/server/app/domain.py:896-914 | its result reports each row once, in order: inserted if its code is new, changed or unchanged as it compares with the camera that has its code |
| ImportEffects.ImportOpens | apps/server/app/domain.py:928-959 | in every run a new import opens a ChangeSet with these items, told by the first, and changes no camera, code or history and no other ChangeSet |
| ImportEffects.ImportReports | apps/server/app/domain.py:893-914 | and records that result with it |
| ImportEffects.ImportIsAnswered | apps/server/app/domain.py:884-889 | the same key, or the same file, is then answered with that ChangeSet and result, and nothing changes |
| ImportEffects.ApprovedAsGiven | apps/server/app/domain.py:1163-1239 | in every run an import whose new rows bring unused ids, approved with no step on it or on its cameras in between, succeeds, and each camera ends with the payload of the last row that adds or changes it |
| ImportEffects.ApprovalLeavesOthers | apps/server/app/domain.py:1226-1239 | a camera that none of its rows adds or changes stays, with its history |
| RevisionEffects.ItemIsRevision | apps/server/app/domain.py:1226-1239 | each applied item is a revision of its camera with the item's patch, in the order of the items, numbered on and tagged with the ChangeSet |
| RevisionEffects.ConflictsAreRecorded | apps/server/app/domain.py:1209-1224 | in every run an approval with conflicts records, in order, exactly the items that stand against their camera, each with exactly the fields changed on both sides and the three values; nothing else changes |
| RevisionEffects.OnlyOpenImportsAreApproved | apps/server/app/domain.py:1169-1175 | anything but an open file import of the project is refused and nothing changes |
| RevisionEffects.EditTakesEffect | apps/server/app/domain.py:970-983 | an edit is accepted if and only if it names a field of a record of an open import; it sets that field of the record's first item and nothing else |
| RevisionEffects.RejectTakesEffect | apps/server/app/domain.py:1010-1017 | exactly an open file or document import of the project can be rejected, and only its status changes |
| RevisionEffects.ReviewTakesEffect | apps/server/app/domain.py:1138-1161 | any ChangeSet of the project is sent to review from any status, and only its status changes |
| RevisionEffects.ObservationAppliedIff | apps/server/app/domain.py:1372-1391 | in every run an open ChangeSet approved as a field observation is applied if and only if its camera has as many revisions as it was based on; otherwise it conflicts, and nothing else changes |
| RevisionEffects.DocumentTakesEffect | apps/server/app/domain.py:1083-1123 | a document import opens a ChangeSet in a known project unless its key is known, and sent again under its key is answered with the same ChangeSet |
| RevisionEffects.ObservationOpens | apps/server/app/domain.py:1342-1357 | an observation opens a ChangeSet of one camera at the revision it was based on |
| RevisionEffects.DirectImportTakesEffect | apps/server/app/domain.py:851-867 | in every run an imported camera is added under a new code, replaces the camera that has its code if it differs, or changes nothing; each change is one revision of that camera and touches no other |
| RevisionEffects.GeometryTakesEffect | apps/server/app/domain.py:1256-1279 | in every run a new position is recorded, as one revision with the camera's payload and that position, if and only if the camera is the project's and has as many revisions as the request was based on |
| RevisionStore.Store.ImportCamera | apps/server/app/domain.py:851-867 | inserts, updates or leaves the camera and its log as specified |
| RevisionStore.Store.CreateFileImport | apps/server/app/domain.py:869-959 | returns the earlier ChangeSet and its result for a known key or file, or records what each row proposes and which rows are new, changed or unchanged |
| RevisionStore.Store.CreateDocumentImport | apps/server/app/domain.py:1075-1138 | returns the earlier ChangeSet for a known key, or records a document ChangeSet under it |
| RevisionStore.Store.EditItem | apps/server/app/domain.py:961-1001 | changes one field of one item of a pending import |
| RevisionStore.Store.Reject | apps/server/app/domain.py:1003-1032 | rejects a pending file or document import and changes nothing else |
| RevisionStore.Store.ResolveAll | apps/server/app/domain.py:1179-1208 | the item loop resolves every item and collects the conflicts |
| RevisionStore.Store.Approve | apps/server/app/domain.py:1163-1254 | approves as specified: conflicted, or applied item by item |
| RevisionStore.Store.UpdateGeometry | apps/server/app/domain.py:1256-1279 | appends a revision with the geometry if the base is current, else refuses |
| WriteBackTheorems.BehaviourKeepsInv | apps/server/app/domain.py:1794-2133 | in every run a file's lock names a job if and only if that job is a pending enforced job on the file; plan statuses agree with their jobs; every applied job's result revision carries its result hash; file histories are numbered, free of repeated hashes, and only grow |
| WriteBackTheorems.StepKeepsInv | apps/server/app/domain.py:1794-2133 | every operation keeps all of these |
| WriteBackTheorems.OneWriterPerFile | apps/server/app/domain.py:1447-1453 | at most one enforced pending job per file |
| WriteBackTheorems.QueueingNeverBlocks | apps/server/app/domain.py:1857-1887 | after the pre-check every file of the plan gets its job |
| WriteBackTheorems.ExecuteQueuesAll | apps/server/app/domain.py:1826-1889 | so a plan past its checks is always queued in full; the rollback branch is unreachable |
| WriteBackTheorems.CompletionAdvancesOnce | apps/server/app/domain.py:1969-2011 | a completed enforced job moved its file from exactly its expected revision to the next, or left it when the hash was known, and released its lock |
| WriteBackTheorems.FailStopsWholePlan | apps/server/app/domain.py:2040-2065 | after a failure in an all-or-nothing plan no job of it is pending, none holds a lock, and the plan is failed |
| WriteBackTheorems.ConflictLeavesSiblings | apps/server/app/domain.py:1970-1997 | after a conflict exit the plan has no pending job if and only if the conflicting job was its last |
| WriteBackEffects.FailAcceptedIff | apps/server/app/domain.py:2040-2045 | a failure is accepted if and only if the job is the project's and not applied; otherwise nothing changes |
| WriteBackEffects.FailTakesEffect | apps/server/app/domain.py:2046-2065 | it fails the named job; another job differs from before if and only if the named job is all-or-nothing and the other was a pending job of the same plan, and then it is failed; versions, ChangeSets and other plans stay |
| WriteBackEffects.FailReleases | apps/server/app/domain.py:2046-2052 | in every reachable state a lock stays if and only if its holder did not fail |
| WriteBackEffects.PerFileFailureIsAlone | apps/server/app/domain.py:2048 | in a plan run file by file every other job and every lock of another job is as it was |
| WriteBackEffects.SiblingsStayCompletable | apps/server/app/domain.py:2048 | so in every reachable state each pending sibling can be completed afterwards if and only if it could be before |
| WriteBackEffects.ReportTakesEffect | apps/server/app/domain.py:1956-2035 | in every reachable state a report on a pending job ends it in conflict if the file moved on or has other content, as failed if it lacks a backup, and otherwise applied; no other job changes and exactly the job's lock is released |
| WriteBackEffects.ReportRecords | apps/server/app/domain.py:1998-2014 | an applied report records the result as the system's own write, a version of that file alone, and settles the job's ChangeSet alone; any other changes none of these |
| WriteBackEffects.LateReportsChangeNothing | apps/server/app/domain.py:1956-1961 | a report on an applied job is answered, one on a job that ended otherwise or is not the project's is refused, and nothing changes |
| PlanEffects.PreviewTakesEffect | apps/server/app/domain.py:1587-1776 | in every run a preview makes an open plan as asked for with each file once, in the order first named, expecting the requested version or else the known one; it can be confirmed if and only if nothing else warns and every expectation is complete and does not differ from a known version |
| PlanEffects.ExecuteTakesEffect | apps/server/app/domain.py:1808-1905 | in every run an execution that does not confirm an open confirmable plan changes nothing; it queues one job per file, as planned and holding the file's lock, if and only if every file is free, known at the expected version and not stale on disk; otherwise only the plan is marked as conflicting |
| PlanEffects.FreshPlanIsQueued | apps/server/app/domain.py:1826-1889 | a confirmable plan executed as soon as it is made, with nothing stale on disk, is queued if and only if each of its files is known and free |
| PlanEffects.SingleJobTakesEffect | apps/server/app/domain.py:1441-1472 | a job is made as given unless it is enforced and unconfirmed or its file locked; only an enforced one takes the lock |
| WriteBackRuns.AppliedByHalf | apps/server/app/domain.py:1970-2011 | a possible run: one job of an all-or-nothing plan ends in conflict, its sibling stays pending and is then applied, and the plan has failed |
| WriteBackRuns.CompletableIff | apps/server/app/domain.py:1962-1997 | in every reachable state some report completes a pending job if and only if it is not enforced or as many versions of its file are registered as it expects |
| WriteBackRuns.QueuedJobCompletableIff | apps/server/app/domain.py:1838-1887 | in every run a job queued by an executed plan can be completed as things stand if and only if a version of its file is registered |
| WriteBackTheorems.RegisterEffect | apps/server/app/domain.py:1917-1932 | registering answers the revision carrying the hash and appends one version exactly for a new hash |
| WriteBackTheorems.RefreshedStatusAgrees | apps/server/app/domain.py:1798-1806 | the refreshed status is failed, applied or queued as the plan's jobs are |
| WriteBackTheorems.JobsEndForGood | apps/server/app/domain.py:1956-1961 | an applied job never changes again, and a failed or conflicting one never recovers |
| WriteBackTheorems.EndsForGood | apps/server/app/domain.py:1956-1961 | over any run an applied job stays exactly as it is, a failed or conflicting job and a failed plan stay so |
| WriteBackTheorems.FailedPlanIsFinal | apps/server/app/domain.py:1798-1806 | a failed plan stays failed |
| WriteBackStore.Store.CreatePreview | apps/server/app/domain.py:1587-1776 | one expectation per distinct file; confirmable when no file is in doubt and there is no other warning |
| WriteBackStore.Store.CreateWriteJob | apps/server/app/domain.py:1424-1472 | adds the job; an enforced one must be confirmed and takes the free lock |
| WriteBackStore.Store.ExecuteOrganizeWriteback | apps/server/app/domain.py:1808-1905 | refuses, blocks, or queues one job per file, undoing the jobs made if a lock is lost |
| WriteBackStore.Store.RegisterFileVersion | apps/server/app/domain.py:1907-1944 | the search loop and the append compute the specified registration |
| WriteBackStore.Store.RefreshPlanStatus | apps/server/app/domain.py:1798-1806 | a pass over all jobs computes the refreshed status |
| WriteBackStore.Store.CompleteWriteJob | apps/server/app/domain.py:1946-2035 | the checks in their order, then the result and the restore's ChangeSet applied, as specified |
| WriteBackStore.Store.FailWriteJob | apps/server/app/domain.py:2040-2065 | fails the named job and releases its lock; in an all-or-nothing plan the sibling loop does the same to every other pending job of the plan |
| WriteBackStore.Store.CreateRestoreJob | apps/server/app/domain.py:2079-2133 | a planless enforced job for an existing version of a file at its expected revision, and a pending ChangeSet beside it |
| PlanEffects.RestoreTakesEffect | apps/server/app/domain.py:2088-2133 | in every run a restore is made if and only if the file has the version, is at the expected revision and is free: a confirmed enforced job against the latest version, its lock, and a ChangeSet that names the file, its revision and the target version |
| PlanEffects.RestoreReturnsToVersion | apps/server/app/domain.py:1917-2014 | completed at once with the target's content, the job is applied at the target revision, the file gets no new version, its lock is released and the ChangeSet is applied |
| PlanEffects.DecisionsTakeEffect | apps/server/app/domain.py:1138-1161 | a restore's ChangeSet is sent to review from any status, approving an open one marks it as conflicting, and nothing else changes |
| RestoreRuns.AppliedLaterIff | apps/server/app/domain.py:2013-2014 | in every run a restore's ChangeSet, whatever was decided about it, is applied from some point on if and only if its job is not yet applied then and is at the end, and then once |
| RestoreRuns.AppliedOnce | apps/server/app/domain.py:1956-2014 | no restore's ChangeSet is applied twice in any run |
| RestoreRuns.BehaviourKeepsChanges | apps/server/app/domain.py:2099-2133 | in every reachable state each restore job has a ChangeSet of its own, and an applied one belongs to an applied job |
| RestoreRuns.AppliedAfterReview | apps/server/app/domain.py:2013-2014 | a possible run: a restore's ChangeSet is sent to review and applied afterwards |
| JobQueue.ClaimsInOrder | crates/desktop-core/src/manifest.rs:1028-1094 | claiming n times takes the first min(n, eligible) jobs sorted by creation time and id, marks them processing, and changes nothing else |
| JobQueue.SortedIsOrdered | crates/desktop-core/src/manifest.rs:1039 | the claim order is strict in creation time, then id |
| JobQueue.TextLessIff | crates/desktop-core/src/manifest.rs:1039 | text is ordered by the first character that differs, a beginning before what it begins |
| JobQueue.SortedHasTheIds | crates/desktop-core/src/manifest.rs:1034-1038 | and lists every eligible job once |
| JobQueue.ClaimsAreSeparated | crates/desktop-core/src/manifest.rs:1037-1049 | in every run two claims of one job have a recorded failure or a requeue of it between them |
| JobQueue.ClaimsAreBounded | crates/desktop-core/src/manifest.rs:914-943 | without a requeue a job is claimed at most as often as failures are allowed |
| JobQueue.RevivedIff | crates/desktop-core/src/manifest.rs:933-941 | a job that cannot be claimed becomes claimable if and only if it gets a failure short of its limit or is queued again |
| JobQueue.RevivedRun | crates/desktop-core/src/manifest.rs:933-941 | a possible run: a done job is given a failure and claimed again |
| JobQueue.DoneWasClaimed | crates/desktop-core/src/manifest.rs:1096-1101 | in every run a job that is processing or done was claimed, with no failure and no requeue since |
| JobRetries.RecordFollowsSteps | crates/desktop-core/src/manifest.rs:914-943 | in every run the attempts kept of a job are its failures since it was last queued again, and its retry time is that of the last of them |
| JobRetries.WaitingFollowsSteps | crates/desktop-core/src/manifest.rs:1034-1037 | in every run a job is claimable if and only if it was queued, queued again or failed short of its limit, and has neither been claimed, cancelled nor resolved since |
| JobRetries.TakenIff | crates/desktop-core/src/manifest.rs:1034-1040 | in every run enough claims at some time take exactly the jobs that wait so and whose last retry time has come |
| JobRetries.ClaimsWaitForRetry | crates/desktop-core/src/manifest.rs:1038 | in every run a job is claimed no earlier than the retry time its last recorded failure asked for |
| JobRetries.RetriedInTime | crates/desktop-core/src/manifest.rs:914-943 | in every run a job that failed short of its limit, and since then neither failed nor was queued again, claimed, cancelled or resolved, is taken by enough claims if and only if its retry time has come |
| JobRetries.OnlyNamedJobsChange | crates/desktop-core/src/manifest.rs:782-1101 | a step changes a job only by claiming, failing, requeueing or withdrawing it, or by completing or reporting on it |
| JobRetries.ClaimTakesEffect | crates/desktop-core/src/manifest.rs:1050-1053 | a claimed job is processing, under the phase it had if it had made progress, and is otherwise as before |
| JobRetries.FailureTakesEffect | crates/desktop-core/src/manifest.rs:921-942 | a failure keeps its error and retry time, counts one attempt, and sets retry below the limit and failed at it; an unknown job is an error |
| JobRetries.EnqueueTakesEffect | crates/desktop-core/src/manifest.rs:782-796 | a job is queued as asked for if and only if its id and key are unused |
| JobRetries.ScanTakesEffect | crates/desktop-core/src/manifest.rs:835-851 | a scan of an own write changes nothing; any other withdraws the path's failure and is queued if its id is unused |
| JobRetries.ScanFailureTakesEffect | crates/desktop-core/src/manifest.rs:889-912 | a failed scan has a job of its own with the failure on it, to be retried at once and three times at most |
| JobRetries.RequeueTakesEffect | crates/desktop-core/src/manifest.rs:338-382 | the job with the key starts over, pending, without progress and with a clean record |
| JobRetries.RequeueOfNewKey | crates/desktop-core/src/manifest.rs:338-382 | without one a job is queued under the key, unless its id is taken |
| JobRetries.CancelTakesEffect | crates/desktop-core/src/manifest.rs:961-967 | cancelling takes back a waiting job, asks a running one to stop and leaves an ended one |
| JobRetries.ResolveTakesEffect | crates/desktop-core/src/manifest.rs:945-952 | resolving withdraws a job that has not ended and leaves an ended one |
| JobRetries.WorkTakesEffect | crates/desktop-core/src/manifest.rs:954-959 | progress is stored as reported if it is a percentage and else as the nearest one; exactly a running job can be completed |
| JobQueue.BehaviourKeepsInv | crates/desktop-core/src/manifest.rs:1297-1314 | in every run no job is lost, keys are unique, attempts belong to jobs, a pending job has a clean record, and progress stays within 0 and 100 |
| ManifestQueue.ManifestDb.ClaimNextJob | crates/desktop-core/src/manifest.rs:1028-1094 | claims the first eligible row and returns it as updated |
| ManifestQueue.ManifestDb.ClaimPendingJobs | apps/desktop/src-tauri/src/jobs.rs:8-25 | the claim loop returns the first jobs of the order, each once, and changes no other row |
| ManifestQueue.ManifestDb.RecordJobFailure | crates/desktop-core/src/manifest.rs:914-943 | counts the failure, sets retry or failed, and says whether it may be retried; an unknown job is an error |
| ManifestQueue.ManifestDb.EnqueueJob | crates/desktop-core/src/manifest.rs:782-796 | inserts a pending job, or fails on a used id or key |
| ManifestQueue.ManifestDb.EnqueueFileScan | crates/desktop-core/src/manifest.rs:835-851 | nothing for the program's own writes; else resolves the path's failure and inserts unless known |
| ManifestQueue.ManifestDb.EnqueueFileFailure | crates/desktop-core/src/manifest.rs:889-912 | makes the path's failure job if needed and records a failure on it |
| ManifestQueue.ManifestDb.RequeueFileScan | crates/desktop-core/src/manifest.rs:338-382 | the job with the key starts over with clean attempts, or a new one is made |
| CodecTheorems.RoundTripIff | apps/server/app/persistence.py:28-76 | a well-formed value is read back as an equal one, its object members in any order and its sets rebuilt in any order, if and only if every dataclass in it is known; otherwise reading fails |
| CodecTheorems.RoundTrip | apps/server/app/persistence.py:28-76 | decoding gives the value back with its sets rebuilt: text and other keys, a `__kind__` key, sets, tuples, lists and dataclasses nested anyhow |
| CodecTheorems.RereadIsEqual | apps/server/app/persistence.py:66-67 | a value with its sets rebuilt, in whatever order each iterates, equals the value |
| CodecTheorems.UnregisteredFails | apps/server/app/persistence.py:70-74 | a dataclass outside the table, anywhere inside, also in a set or a key, makes reading fail |
| CodecTheorems.EncodingDetermines | apps/server/app/persistence.py:28-52 | two values have equal encodings if and only if they are equal and list their sets and dicts in the same order |
| CodecTheorems.SetsHaveTwoEncodings | apps/server/app/persistence.py:44-45 | the set of 0 and 8 has different encodings in its two orders |
| CodecTheorems.EncodeIsProper | apps/server/app/persistence.py:28-52 | every object in an encoding has each name once |
| Snapshot.SnapshotsDetermineStates | apps/server/app/persistence.py:154-160 | states with the same snapshot are equal; equal states have the same snapshot if and only if their sets and dicts are listed in the same order |
| Snapshot.StoreRoundTrip | apps/server/app/persistence.py:79-92 | a stored snapshot is read back as equal attributes, with their sets rebuilt |
| Snapshot.ServeIsTransaction | apps/server/app/persistence.py:145-169 | on a complete snapshot a request runs on a state equal to the committed one, commits its result unless it raised, and advances the revision if and only if it changed a value or the order of a set or dict |
| Snapshot.RunIsSerial | apps/server/app/persistence.py:145-172 | in every run of requests and restarts the row holds what the successful requests produced one after another, each on a state equal to what the ones before it left |
| Snapshot.RunIsCommitted | apps/server/app/persistence.py:145-172 | in every run of requests that do not depend on the order of sets, the row holds a state equal to what the same requests produce without any storage |
| Snapshot.ReadersNeverWrite | apps/server/app/persistence.py:151-160 | however sets are listed on each load, a run of requests that only read and of restarts never changes the row |
| Snapshot.IsolatedIff | apps/server/app/persistence.py:142-153 | what a request sees is independent of memory if and only if the snapshot has every attribute |
| Snapshot.NewRowKeepsRaisedChanges | apps/server/app/persistence.py:120-130 | before the first snapshot the next request sees what a raised one left in memory |
| PostgresStore.PostgresCameraStore.RequestContext | apps/server/app/persistence.py:145-172 | loads, runs and writes as specified |
| Outbox.PollingIsLossless | apps/server/app/domain.py:1405-1406 | however appends and polls interleave, a poller resuming at its last cursor receives exactly the project's events in order, none lost or repeated |
| Outbox.CausationVisitsTheAggregate | apps/server/app/domain.py:2171-2208 | following causation back from an aggregate's last event visits exactly its events, and two events share a correlation id if and only if they have the same aggregate |
| Outbox.RunIsNumbered | apps/server/app/domain.py:2174-2179 | in every run cursors count from 1, event ids are distinct, and each event has its audit row |
| Outbox.RunIsChained | apps/server/app/domain.py:2171-2173 | in every run each event is caused by its aggregate's previous one |
| Outbox.EventsAreKept | apps/server/app/domain.py:2171-2208 | in every run, whatever correlations and causations are given, the i-th addition is the i-th event under its own id, aggregate and project; what is given is recorded, and otherwise the cause is the aggregate's previous event |
| Outbox.CorrelationIsShared | apps/server/app/domain.py:2172 | two events that were given no correlation share one if and only if they are of one aggregate |
| Outbox.EventLog.Add | apps/server/app/domain.py:2152-2208 | appends the event and its audit row with the correlation and causation as specified |
| Outbox.EventLog.Changes | apps/server/app/domain.py:1405-1406 | the filter loop returns the project's events past the cursor |
| Tiles.ExactCover | apps/web/src/features/design/offlineBasemap.ts:138-151 | for an area on the map the list has exactly the tiles of its zoom levels that share a point with the open area |
| Tiles.NoRepeats | apps/web/src/features/design/offlineBasemap.ts:138-151 | the list is strictly ordered by zoom, column and row, so no tile occurs twice |
| Tiles.ClosedUnderParents | apps/web/src/features/design/offlineBasemap.ts:138-151 | with a tile the list has its parent at the zoom above, down to the lowest zoom |
| Tiles.CountIsLength | apps/web/src/features/design/offlineBasemap.ts:159-168 | the validator's sum is the length of the list |
| Tiles.MeetsIff | apps/web/src/features/design/offlineBasemap.ts:121-136 | a tile shares a point with the area if and only if it lies in the clamped ranges of both axes |
| Tiles.OnGridIsProduct | apps/web/src/features/design/offlineBasemap.ts:121-124 | a grid coordinate is the map coordinate times two to the zoom |
| Tiles.RejectedEarlyIff | apps/web/src/features/design/offlineBasemap.ts:153-158 | which check an area fails before it is counted: it must be an area, on the map, in a range of zooms from 0 to 24, within the limits given |
| Tiles.TilesForBounds | apps/web/src/features/design/offlineBasemap.ts:138-151 | the nested loops build that list |
| Tiles.ValidateOfflineSelection | apps/web/src/features/design/offlineBasemap.ts:153-170 | the earlier checks decide in their order; past them an area is accepted if and only if its list has at most 5000 tiles, and a refusal reports a count between the limit and the list's length |
| Regions.ScanSheet | apps/server/app/adapters/files/importers/excel.py:139-179 | the regions of a sheet are separated, span exactly the rows that hold a value, and each has the tight column box and its first rows, three at most, as header candidates |
| Regions.FindRegions | apps/server/app/adapters/files/importers/excel.py:159-179 | the region loop turns the ascending occupied rows into those regions |
| Regions.RunsAreUnique | apps/server/app/adapters/files/importers/excel.py:162-179 | separated regions over the same rows have the same spans, so the runs are the maximal ones |
| Regions.CloseRegion | apps/server/app/adapters/files/importers/excel.py:167-177 | the box of a run and its header candidates |

## Left out

- Which missing parent is reported first: the code iterates a set, the model the request's list.
- Renaming and status changes of groups through their own entry points: one-field cases of the update.
- Tags and item lifecycle: the same shape as memberships, without a hierarchy.
- Trimming, case folding and text normalisation of names: a name comes with its folded form.
- The contents of documents, Word and CSV imports, field packages and work packages, sources of a camera.
- Typed fields: a patch whose identifiers do not parse stops an approval half way; patches here hold well-typed values.
- Objects a caller keeps after a call: payloads are values, so a later change to a shared dictionary is not seen.
- Revision logs other than DESIGNED, and the timestamps and authors of revisions.
- WriteBackStore.Store.CreatePreview: does not model formats, modes, mappings and which items and files belong to the project; any other warning is one boolean input.
- Evidence of a file taken from an item when neither a version nor an import has any.
- Disk content in write-back: an input, the set of stale files or the source's hash.
- Messages: transport errors never count as conflicts on the desktop, although a message that contains the word would; the batch-level error of the queue model has that as an input.
- The order of events with equal timestamps: any order the database may choose.
- Retry counts and revisions beyond machine width.
- Source registrations, file observations and local imports of the manifest database; the ids of scan and failure jobs are inputs.
- Encryption of the queue and access to it; requests of other users to the server are steps of other clients.
- UUID and time texts: functions with inverse parsers. Values are compared structurally, so numbers that compare equal across types are different keys here.
- Plain JSON values a database may renormalise, such as large floats.
- Malformed snapshots in which a list is replaced by a text or an object are all errors here.
- Concurrent requests in one process: requests are served one after another.
- Floating-point rounding in tile coordinates: exact reals, with the projection any strictly decreasing map onto heights between 0 and 1; the program's own leaves that range by about 6e-12 at its latitude limit of 85.05112878, a hair beyond the true one. Non-finite bounds and non-integer zooms are ruled out by the types.
- Cell values, merged cells and formulas of a worksheet: only whether a cell holds a value.
- HTTP routes, authentication, the user interface, and reports that only filter and sort.
