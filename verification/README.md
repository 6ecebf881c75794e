# Proqi in Dafny

Proqi is a terminal prompt board. This project models the parts of it that carry state, protocol or
arithmetic, and proves what they are for: on every input, in every run, under every interleaving.

Where the program works by changing things step by step, the model does too: classes whose methods update
their fields, and loops with invariants. Such methods are proved against functions or predicates on values, and
the laws are proved of those. Runs are sequences of steps, so the laws about them are statements over all runs.

| file | what it models |
|---|---|
| `AtomicExport.dfy` | replacing a file by atomic exchange while other actors change the destination |
| `SchemaLease.dfy` | opening or migrating the store under shared and exclusive leases, with crashes |
| `RefreshElection.dfy` | the election of one refresh per observed generation |
| `AttachmentNumbering.dfy`, `SessionBoards.dfy` | attachment numbers; the board with its copy, validate and commit of mutations |
| `Reducer.dfy`, `AppStates.dfy` | the reducer as functions on values, and the same as an object that changes |
| `Effects.dfy`, `Handlers.dfy` | what each action leaves behind, and exactly when it is accepted |
| `Durability.dfy`, `Staging.dfy`, `Locks.dfy`, `Cuts.dfy`, `Ordinals.dfy`, `RetainedNumbers.dfy`, `ValidBoards.dfy` | what every run of the reducer keeps, each with the exact condition where the code does not keep it |
| `Undo.dfy` | what undo and redo bring back |
| `OvertakenNumber.dfy`, `LockedRevival.dfy`, `UncheckedRedo.dfy` | runs that show the exceptions |
| `BoardOrder.dfy`, `Positions.dfy` | the order of the board's items: its laws, and the lists whose positions are shifted in place |
| `AttachmentKeys.dfy` | attachment keys, and the matching of old and new ones after a change |
| `Preflights.dfy`, `AttachmentScheduler.dfy` | background checks and submission preflights with one batch in flight |
| `Projection.dfy`, `BoardWording.dfy`, `OffsetMaps.dfy` | folding annotated text, and offsets to the text shown and back |
| `TextLayout.dfy` | wrapping, and bytes, cells and positions |
| `OffsetMapper.dfy` | carrying offsets and annotations through a set of text changes |
| `Reorder.dfy` | moving a selection of items by one place, and undoing it |
| `Identifiers.dfy` | the base32hex identifier codec (section 7 of RFC 4648, UUIDv7 of section 5.7 of RFC 9562) |
| `CivilDate.dfy` | civil dates and file time stamps |
| `RestartCohort.dfy` | the cohort of sessions that an external upgrade waits for |
| `Options.dfy` | optional values |

`dafny verify dfyconfig.toml` checks the whole project.

## What the code does that one might not expect

- An export whose exchange succeeded but whose mode change or directory synchronization failed reports
  `WrittenUnconfirmed` and may leave the replaced file, which it was allowed to remove, at the temporary path.
- An export under `Always` can answer `Exists` although it may overwrite: if the target vanishes before the exchange and
  something else appears before the new file is installed, that is refused rather than overwritten
  (`AtomicExport.Export.Write` says that this is the only way).
- A manual refresh that starts while a submission's batch is checking an attachment neither queues it nor takes that
  batch's answer for its own, so it stays unfinished until some other change queues it again
  (`AttachmentScheduler.RefreshDuringPreflight`; `AttachmentScheduler.AttachmentAccessibility.Complete` says exactly
  when a refresh finishes).
- Outside collapsed ranges the shown text at a projected offset is the canonical text, except at the end of an
  expanded range with a remark on its health: that offset shows the remark's leading space
  (`OffsetMaps.VisibleTextIsPreserved` has the exact condition, `OffsetMaps.RemarkHidesText` an instance).
- A pointer at the start of a collapsed range is taken to its end, unless another fold ends there
  (`OffsetMaps.PointersComeBack`, `OffsetMaps.CollapsedStartJumps`).
- A row that starts inside a remark is taken back to the start of its range, so row starts do not keep order:
  between two bytes shown in full a row start goes back to 1, and behind both to 0
  (`OffsetMaps.RemarksLeadToTheirRange`; `OffsetMaps.StartsKeepOrder` has the exact condition and
  `OffsetMaps.RemarkTurnsStartsBack` the instance).
- The durable sequence shown next to an outstanding one can be the larger of the two: a screenshot that storage
  accepted directly overtakes operations that wait (`Durability.DurableBelowLatest` has the exact condition,
  `OvertakenNumber.DurableIsLarger` a run).
- Moving a selection up and down again restores the order also when everything is selected, and otherwise not
  when the first item is selected (`Reorder.UpThenDownRestores`).
- A thought that a staged removal took off the board while it was locked comes back, with its own text, when a
  creation reuses its identity (`Locks.LockedLiveness` has the exact condition, `LockedRevival.LockedThoughtRevived`
  a run).
- For the same reason a split, or an export with a reference, that reuses the identity of a deleted thought with other
  text cannot be undone (`Undo.ReusedIdentityBlocksUndo` and `Undo.ReusedReferenceBlocksUndo` have the exact
  conditions); and the numbers such a creation brought are retained in the history while no counter covers them
  (`RetainedNumbers.RetainedStayCovered` has the exact condition, `RetainedNumbers.NumbersAreLost` an instance).
- Replaying an editor revision does not validate the board again, so it can leave two live thoughts with one image
  number (`ValidBoards.ValidityIsKept` has the exact condition, `UncheckedRedo.RedoSharesNumber` a run).
- Positions saturate, so a board with an item on every position there is would lose its order by one more item
  (`BoardOrder.FullBoardSaturates`); on every other board the shifts keep it.

## Model

| member | source | states |
|---|---|---|
| AtomicExport.EventsAreTrue | src/adapters/export.rs:143-271 | at every moment of the history of the destination, what the export's change found and left there is what its event says, whatever others did in between |
| AtomicExport.InstallsNeverOverwrite | src/adapters/export.rs:257-271 | wherever an install stands in that history, nothing was at the destination before it and the export's file after it |
| AtomicExport.DisplacedComesBack | src/adapters/export.rs:143-240 | an unauthorized entry that an exchange took was at the destination then, and a later exchange put it back there or it is under the path that the result names |
| AtomicExport.ForeignEntriesAreConserved | src/adapters/export.rs:143-216 | over any log of folder changes, what was taken out of the destination was given back to it, unlinked, or is held under a temporary name, counted per entry |
| AtomicExport.UnlinkedEntriesWereAuthorized | src/adapters/export.rs:95-141 | every foreign entry ever unlinked is a regular file that the request allows to replace, and the confirmed one when there is a confirmation |
| AtomicExport.LeftoversAreReported | src/adapters/export.rs:197-216 | a foreign entry that a finished run leaves at a temporary name is the displaced one named by the result, or an authorized one under `WrittenUnconfirmed` |
| AtomicExport.UnauthorizedEntriesSurvive | src/adapters/export.rs:143-240 | an entry the request does not authorize is never unlinked, and as often as it was taken it was given back, or it is kept and reported |
| AtomicExport.Export.InspectTarget | src/adapters/export.rs:335-347 | the target, if there is one, is a regular file; links, folders and special files are refused by kind |
| AtomicExport.Export.IdenticalFile | src/adapters/export.rs:365-392 | answers with the file exactly if it is the inspected one and has exactly the requested content |
| AtomicExport.Export.Authorize | src/adapters/export.rs:95-141 | an overwrite that the request allows always goes on; `Exists` and `Changed` are answered exactly for targets it does not allow, and the identical file is reported; undisturbed, the verdict is `Ruling` |
| AtomicExport.Export.TemporaryFile | src/adapters/export.rs:394-411 | stages the content under a private name, or leaves nothing of another actor touched |
| AtomicExport.Export.Exchange | src/adapters/export.rs:242-255 | swaps exactly the two entries, or changes nothing |
| AtomicExport.Export.PersistNew | src/adapters/export.rs:257-271 | installs only where nothing is, leaving the staged file at the destination; otherwise reports and leaves only its own files |
| AtomicExport.Export.VerifyDisplaced | src/adapters/export.rs:218-240 | accepts only an authorized regular file, and undisturbed every one; each refusal has its reason |
| AtomicExport.Export.Restore | src/adapters/export.rs:197-216 | exchanges the displaced entry back, or keeps it and reports where; the history stays true; undisturbed, the entry is back at the destination and the export's own file is gone |
| AtomicExport.Export.Replace | src/adapters/export.rs:143-195 | whatever happens in between, log, history and destination agree, and the result matches the log; when nothing disturbs it, it replaces the target, puts anything else it meets back with the refusal for it, and creates the file anew where the target has vanished, unless it was to be a confirmed one |
| AtomicExport.Export.CreateNew | src/adapters/export.rs:67-72 | creates the file where nothing is, undisturbed always; `Exists` only for what appeared there meanwhile |
| AtomicExport.Export.Write | src/adapters/export.rs:50-76 | with interference between any two calls the history replays to the destination, the log is the export's part of it, the folder is what it was but for lawful changes, and each result means what it says; `Exists` is answered only for a target that the request does not allow, or after the destination was empty and something came back; when no call fails and nobody interferes, the answer is the one that request and target call for, success leaves the requested content with the replaced file's permission bits, any other answer leaves the destination alone, and nothing else in the folder changes |
| SchemaLease.InvariantAlongRuns | src/cli/runtime.rs:281-304 | in every state of every run leases exclude each other and every stage is right about the schema |
| SchemaLease.MigrationRunsAlone | src/cli/runtime.rs:347-381 | a migration runs only while no other process holds any lease, and only on an outdated schema |
| SchemaLease.AtMostOneMigration | src/cli/runtime.rs:347-400 | for any processes, interleaving and crashes the schema is migrated at most once |
| SchemaLease.SuccessIsSafeForever | src/cli/runtime.rs:281-304 | a process that returned success holds a shared lease with an open store, and the schema stays current from then on |
| SchemaLease.UnleasedStoreOnlyAfterMigration | src/cli/runtime.rs:383-400 | a store is open without a lease only between a migration and its revalidation |
| SchemaLease.DetourStartsOutdated | src/cli/runtime.rs:281-304 | every process off the ordinary path has found an outdated store under its first shared lease |
| SchemaLease.OutdatedBeforeDetour | src/cli/runtime.rs:281-304 | no process asks for or holds the exclusive lease, or waits for one that does, in a run that starts with a current schema |
| SchemaLease.UndisturbedProcessOpens | src/cli/runtime.rs:281-402 | a process that nobody disturbs and no call fails opens the store after exactly the calls its stage and the schema say, two on a current schema, ten with a migration |
| SchemaLease.RunGoesOnToOpened | src/cli/runtime.rs:281-402 | every run can go on to the open store for a process that is left alone with the leases |
| RefreshElection.OneFetchAtATime | src/application/update.rs:104-164 | two checks are never fetching at once |
| RefreshElection.EveryFetchHasItsOwnElection | src/application/update.rs:104-164 | every fetch has its own generation increment, made by the check that fetches |
| RefreshElection.OneStartupFetchPerGeneration | src/ports/update.rs:118-131 | among startup checks that observed one generation at most one ever fetches |
| RefreshElection.CoalescedMeansAnotherWasElected | src/ports/update.rs:118-131 | a startup check coalesces only if another check, not itself, was elected for the generation it had observed |
| RefreshElection.OnlyWantedChecksRefresh | src/application/update.rs:104-180 | in every run whatever is elected or fetches was asked for by the user, or is the interactive startup of an installed release with updates switched on; exactly the others are answered from the cache, and they never hold the lease |
| RefreshElection.InProgressMeansAnotherHeldIt | src/application/update.rs:119-131 | a check is told that one is in progress only if another check held the lease then |
| RefreshElection.UndisturbedCheckIsAnswered | src/application/update.rs:104-164 | a check that nobody disturbs and no call fails is answered after exactly as many calls as its stage says: a wanted one refreshes with one fetch for the next generation, any other answers from the cache without one |
| AttachmentNumbering.NewNumbersAreFresh | src/domain/attachment_numbering.rs:119-137 | new numbers lie between the old and the new counter and differ; assigned ones stay; everything is assigned afterwards |
| AttachmentNumbering.NewNumbersFollowOn | src/domain/attachment_numbering.rs:119-137 | every number between the old and the new counter is given out, in the order of the annotations |
| AttachmentNumbering.NumbersRunOut | src/domain/attachment_numbering.rs:119-137 | numbering fails exactly when a number would lie above the highest there is |
| AttachmentNumbering.AttachmentCounters.Assign | src/domain/attachment_numbering.rs:119-137 | all waiting occurrences are numbered in order, or on exhaustion neither counters nor annotations change |
| AttachmentNumbering.AttachmentCounters.Observe | src/domain/attachment_numbering.rs:143-152 | accepts exactly assigned annotations and raises the counters to cover them |
| AttachmentNumbering.ObservedDominates | src/domain/attachment_numbering.rs:143-152 | observing never lowers a counter, covers what was seen, and rises no further |
| AttachmentNumbering.ValidateUnique | src/domain/attachment_numbering.rs:155-169 | accepts exactly annotations that are assigned, distinct and not yet taken, and collects them |
| AttachmentNumbering.RenewedAreUnique | src/domain/attachment_numbering.rs:172-178 | copies marked as new and then numbered pass the uniqueness check against everything the counters cover |
| SessionBoards.SessionBoard.ApplyInPlace | src/domain/operations.rs:395-489 | a mutation, batches included, does all its steps or reports the first that fails |
| SessionBoards.SessionBoard.ObserveAttachments | src/domain/operations.rs:341-346 | accepts exactly boards without unassigned attachments and observes all of them |
| SessionBoards.SessionBoard.Validate | src/domain/operations/items.rs:94-119 | accepts exactly boards whose live attachments are assigned and used once |
| SessionBoards.SessionBoard.Apply | src/domain/operations.rs:382-393 | a copy replaces the board only if every step, observation and check succeeded; otherwise nothing changed |
| SessionBoards.OthersAreUntouched | src/domain/operations/mutation.rs:10-213 | a mutation of any nesting leaves text, name, presentation and liveness of every thought alone that it does not address |
| SessionBoards.CheckedIsCovered | src/domain/operations.rs:341-346 | after a commit no counter has fallen, the counters cover every number on the board, and one that has risen stands at such a number |
| BoardOrder.OneOrder | src/domain/operations/items.rs:31-47 | positions spell out at most one order |
| BoardOrder.AddingInserts | src/domain/operations/mutation.rs:10-48 | adding is refused only behind the end and for a live item; otherwise the positions spell the old order with the item inserted |
| BoardOrder.DeletingRemoves | src/domain/operations/mutation.rs:50-76 | deleting takes the item out of the order and remembers its position; a deleted item stays as it is |
| BoardOrder.RestoringInserts | src/domain/operations/mutation.rs:77-95 | restoring is refused only behind the end; otherwise the item is inserted where asked |
| BoardOrder.MovingMoves | src/domain/operations/mutation.rs:121-157 | a move is accepted exactly if the item stands where it says, within the order, and then moves it in the order |
| BoardOrder.FullBoardSaturates | src/domain/operations/mutation.rs:229-245 | with an item on every position there is, one more leaves no order at all |
| BoardOrder.RestoringUndoesDeleting | src/domain/operations/mutation.rs:50-95 | restoring at the recorded position brings every position back |
| BoardOrder.DeletedComeBack | src/application/mutations/bulk.rs:67-104 | deleting a selection from its last item on is accepted, also with exact positions, and leaves the others in order; restoring it from the first on brings everything back |
| BoardOrder.AddedStandTogether | src/application/mutations/bulk.rs:196-246 | copies and transferred items stand together, in order, where they were put |
| BoardOrder.FreshAreAdded | src/domain/operations/mutation.rs:10-48 | a batch of additions is accepted exactly if no item of it is there already or comes twice |
| BoardOrder.AddedGoAway | src/application/mutations/bulk.rs:219-232 | the recorded inverse of a creation, duplication or split, from the last item on, puts every other item back |
| BoardOrder.MovesFollowTheList | src/application/mutations/separator.rs:85-134 | moves of items on positions are accepted exactly when they are on the list, and lead to the same order |
| BoardOrder.MovesComeBack | src/application/mutations/separator.rs:117-125 | the recorded inverse of a move puts every item back on its position |
| BoardOrder.SelectionMovesUp | src/application/mutations/separator.rs:85-134 | after moving a selection up, the positions spell the raised order |
| BoardOrder.ReferenceTakesTheirPlace | src/application/mutations/export.rs:40-67 | an export's sources go and the reference stands where the first of them stood |
| BoardOrder.SourcesTakeTheirPlaces | src/application/mutations/export.rs:60-67 | undone, the reference goes and every source is back where it was |
| Positions.BoardItems.AddOrRestore | src/domain/operations/mutation.rs:10-48 | with both lists shifted in place, the positions on record are those of `Added`, or nothing changed |
| Positions.BoardItems.SetDeletion | src/domain/operations/mutation.rs:50-95 | likewise for deleting and restoring, for thoughts and for separators |
| Positions.BoardItems.SetDeletionExact | src/domain/operations/mutation.rs:97-119 | only if the item is live or deleted, and stands, as expected |
| Positions.BoardItems.MoveItem | src/domain/operations/mutation.rs:121-157 | likewise for moves, with the items between stepping aside |
| Positions.ValidationSeesTheOrder | src/domain/operations/items.rs:86-90 | the sorted live items stand on 0, 1, 2 and so on exactly if the positions spell out some order |
| AppStates.AppState.RecordBoardOperation | src/application/model.rs:350-363 | applies and records an operation, or changes nothing |
| AppStates.AppState.CommitDeferredBoardOperation | src/application/model.rs:378-394 | applies the staged operation and unstages it, or changes nothing |
| AppStates.AppState.ApplyDurableCapture | src/application/model.rs:396-414 | a durable screenshot takes the next sequence without becoming pending, keeps the object valid, is a good step of the numbers, and leaves locked thoughts alone |
| AppStates.AppState.ReducePersistence | src/application/reducer.rs:394-452 | acknowledgement, failure and retry, as `Persistence` of the state before, keep the object valid |
| AppStates.AppState.LockedMutation | src/application/locks.rs:133-151 | finds a locked thought exactly if the mutation, or one inside it, addresses one |
| AppStates.AppState.EnsureActionUnlocked | src/application/locks.rs:6-74 | stops an action exactly if a thought it guards, or that its replay addresses, is locked |
| AppStates.AppState.LockTransition | src/application/locks.rs:76-98 | locks live unlocked thoughts all together or not at all; releases the given ones |
| AppStates.AppState.EditThought | src/application/mutations.rs:145-216 | replaces exact text, numbers new attachments, records a revision and a sequence, or changes nothing |
| AppStates.AppState.NumberEdit | src/application/mutations.rs:165-181 | attachments that the old text did not have get new numbers, others keep theirs |
| AppStates.AppState.HistoryMove | src/application/mutations/history.rs:9-31 | replays one operation or revision under a new sequence, or changes nothing |
| AppStates.AppState.StageSubmissionRemoval | src/application/mutations/bulk.rs:106-149 | stages the removal of locked live thoughts only |
| AppStates.AppState.RequestClipboard | src/application/mutations.rs:218-260 | captures the exact sources of a request, keeping an earlier capture of the same request |
| AppStates.AppState.FinishClipboard | src/application/mutations.rs:262-307 | spends the request, and deletes only as `ClipboardFinished` says |
| AppStates.AppState.Reduce | src/application/reducer.rs:26-90 | one action computes the reducer's outcome, keeps the object valid, moves the numbers by one good step, changes no items while frozen, and leaves locked thoughts alone |
| Effects.MutationsDoAsAsked | src/domain/operations/mutation.rs:10-213 | a mutation is carried out exactly where the board is as it expects, does to its thought what it says, and leaves the others alone |
| Effects.ActionsDoAsAsked | src/application/reducer.rs:122-286 | every action on thoughts is accepted exactly if nothing it names is locked, storage works, its request makes sense, a sequence is left, it is not refused for positions or text ranges, and the board it asks for passes validation; then that is the board: the name, presentation, texts, copies and deletions asked for, and nothing else |
| Effects.ThesePass | src/application/mutations/bulk.rs:67-187 | deleting, naming, presenting and moving pass validation on every valid board |
| Effects.CreationsPass | src/application/mutations/bulk.rs:11-65 | so do new thoughts with renewed attachments under new identities, any number of them, while numbers last |
| Effects.CopiesPass | src/application/mutations/bulk.rs:189-247 | and copies of any selection |
| Effects.RewritesDropRevisions | src/application/mutations/transform.rs:333-345 | an editor forgets what it could redo exactly if an action rewrites its text |
| Handlers.EditsDoAsAsked | src/application/mutations.rs:145-216 | an edit is accepted exactly if its thought is unlocked, storage works, it replaces the exact text, a sequence and numbers are left, and its annotations fit among the other live thoughts; then the text is replaced and the editor holds the revision that leads back |
| Handlers.EditsNumberNewAttachments | src/application/mutations.rs:165-181 | attachments of the old text keep their numbers, any other attachment gets a new one, nothing else changes |
| Handlers.EditsKeepRedo | src/application/model.rs:430-441 | an edit leaves what can be redone on the board up to the first operation that touches its thought, and no more |
| Handlers.LocksAreTakenTogether | src/application/locks.rs:76-98 | a submission locks its thoughts exactly if there is one, all are live and none is locked; otherwise none |
| Handlers.LocksAreReleased | src/application/locks.rs:76-98 | releasing always works and releases exactly the thoughts given |
| Handlers.LockedSelectionsAreStaged | src/application/mutations/bulk.rs:106-149 | a removal is staged exactly for a selection of locked thoughts, while storage works and a sequence is left; the items stay |
| Handlers.StagedRemovalsHappen | src/application/model.rs:365-394 | whatever happens in between, the receipt of a staged removal is accepted exactly when its sequence is the first one pending, and then exactly the staged thoughts are deleted |
| Handlers.ReceiptAccepted | src/application/reducer.rs:394-452 | a receipt is accepted exactly for the first pending sequence, if what is staged under it can be carried out |
| Handlers.FailuresAreShown | src/application/reducer.rs:394-452 | a failure is shown exactly for a pending sequence, the lowest of several |
| Handlers.FailuresAreRetried | src/application/reducer.rs:394-452 | a retry is accepted exactly for the failure shown, unless storage is beyond recovery, and asks for that sequence |
| Handlers.ReceiptsMakeDurable | src/application/reducer.rs:394-452 | while nothing is staged, once storage has confirmed everything pending in order, all is durable, failed sequences included |
| Handlers.ScreenshotsDoAsAsked | src/application/model.rs:396-414 | a durable screenshot is taken over exactly if it comes under the next sequence, nothing is staged and the board with its thought passes validation; it is durable at once |
| Durability.PendingIsSentMinusAcknowledged | src/application/model.rs:282-312 | along every run sequences sent increase, are acknowledged in that order, and pending is exactly what was sent and not acknowledged |
| Durability.ShownDurabilityIsTrue | src/application/model.rs:297-312 | along every run the state shown is durable exactly without pending sequences and then names the highest, pending names the greatest, failed names a pending one |
| Durability.DurableBelowLatest | src/application/model.rs:396-414 | the durable sequence shown is below the outstanding one exactly while the highest sequence is pending |
| Durability.CaptureOvertakes | src/application/model.rs:396-414 | every screenshot accepted while sequences are outstanding becomes durable above all of them |
| OvertakenNumber.DurableIsLarger | src/application/model.rs:396-414 | a run after which 2 is durable and 1 outstanding |
| Durability.GoodSteps | src/application/reducer.rs:394-452 | every step keeps the invariant, and sends the next number, acknowledges the first pending one, or neither |
| Staging.FrozenWhileStagedOrFailed | src/application/reducer.rs:28-31 | while an operation is staged or storage has failed, no action but the staged one's receipt changes items, histories or the highest sequence |
| Staging.StagedItemsStand | src/application/model.rs:365-394 | until its receipt the staged operation stays the only one, under the highest sequence, over unchanged items, in every run |
| Staging.StagedAppliesToItsItems | src/application/model.rs:378-394 | the receipt applies the staged operation to exactly the items it was built against |
| Locks.PlanRespectsLocks | src/application/locks.rs:6-74 | whatever an action plans, it changes only thoughts whose lock it was checked against, or adds new ones |
| Locks.LockedThoughtsAreProtected | src/application/locks.rs:6-151 | no action changes a locked thought, but for the receipt of a staged removal, which takes it off the board and leaves its text |
| Locks.LockedLiveness | src/application/locks.rs:6-151 | a locked thought changes between live and deleted exactly by the accepted receipt of a staged removal that lists it, or, while deleted, by an accepted operation that creates it again |
| Locks.ShotFlips | src/application/model.rs:396-414 | a screenshot changes that exactly by creating the deleted thought again |
| Locks.SubmittedLiveness | src/application/locks.rs:76-98 | in every run from lock to release, a submitted thought is live or not as before exactly if an even number of such steps came |
| LockedRevival.LockedThoughtRevived | src/domain/operations/mutation.rs:28-41 | a run from an empty board in which a locked thought is removed and then created again, with its own text |
| Locks.SubmittedTextStands | src/application/locks.rs:76-98 | in every run from lock to release, the text, name and presentation submitted are those on record |
| Cuts.CutDeletesItsSources | src/application/mutations.rs:262-307 | a completion changes the board only after success, with every source live and as captured and none locked; the request is spent in any case |
| Cuts.CutsOnceAtMost | src/application/mutations.rs:262-270 | however often completions arrive, a request deletes at most once, and never without a request |
| Cuts.CompletionsDeleteExactly | src/application/mutations.rs:262-307 | on a valid board a completion deletes the captured sources, and changes the board at all, exactly if it reports success for a cut, storage works, every source is as captured and unlocked, and a sequence is left; it is an error exactly if only a lock or a sequence stands in the way |
| Cuts.RequestsCaptureSources | src/application/mutations.rs:218-260 | a copy is accepted exactly for a selection, a cut in addition only of unlocked thoughts while storage works; a new request captures the exact texts |
| Cuts.ConfirmedCutDeletes | src/application/mutations.rs:218-307 | a cut whose write is confirmed deletes exactly the selection |
| Cuts.CapturesAreSelections | src/application/mutations.rs:218-260 | in every run each request on record has captured distinct thoughts, at least one |
| Cuts.DeletesExactly | src/application/mutations/bulk.rs:67-104 | a batch of deletions deletes exactly the selected thoughts |
| Ordinals.NewNumbersAreAbove | src/application/mutations.rs:96-134 | a number that any action but undo and redo brings to the board lies above the counters, unless the action was given it |
| Ordinals.CountersCoverThePast | src/domain/operations.rs:324-393 | in every run counters never fall and cover everything any earlier state showed, retained revisions included |
| Ordinals.NumbersAreNeverReused | src/domain/attachment_numbering.rs:119-178 | a number that an action allots was on the board in no earlier state of the run |
| Ordinals.RenewedCreationPasses | src/application/mutations.rs:96-134 | a creation with renewed attachments is accepted on every valid board whose numbers the counters cover |
| ValidBoards.UniqueIsPairwise | src/domain/attachment_numbering.rs:155-169 | the check with one running set accepts exactly boards whose live thoughts share no number, two by two |
| ValidBoards.ValidityIsKept | src/application/mutations/history.rs:116-170 | a valid board stays valid under any action exactly unless it is an accepted editor replay whose annotations do not fit |
| ValidBoards.RunsAreValid | src/domain/operations.rs:382-393 | the board is valid along every run whose editor replays fit |
| ValidBoards.CreationsAlwaysPass | src/application/mutations.rs:96-134 | after any such run a creation with renewed attachments is accepted |
| UncheckedRedo.RedoSharesNumber | src/application/mutations/history.rs:116-170 | a run from a board with one thought and no attachment: edit, undo, a creation that keeps the number, redo; then two live thoughts share it |
| RetainedNumbers.RetainedStayCovered | src/domain/operations.rs:324-393 | a step keeps every number in board history and staged operation covered exactly unless it creates a thought under an identity in use with numbers above the counters |
| RetainedNumbers.RetainedAlwaysCovered | src/domain/operations.rs:324-393 | along every run without such a step the counters cover the board, all revisions, the board history and the staged operation |
| RetainedNumbers.InitialIsCovered | src/domain/operations.rs:294-346 | a session starts with everything covered |
| RetainedNumbers.NumbersAreLost | src/domain/operations/mutation.rs:28-41 | one creation after which the history holds image 1 and the counter still stands at 0 |
| Undo.PlansComeBack | src/domain/operations.rs:209-226 | the inverse recorded with every kind of operation on thoughts works on what the operation made and restores every thought; done again, the operation leads to the same thoughts |
| Undo.UndoRestoresBoard | src/application/mutations/history.rs:33-86 | on a valid board, after any operation on thoughts, undo is let through exactly if it is not refused, sequences last and no addressed thought is locked; then all thoughts are back and new ones are gone |
| Undo.RedoRepeats | src/application/mutations/history.rs:33-86 | redo after undo is let through exactly under the same conditions and leads to the thoughts the operation had made |
| Undo.ReusedIdentityBlocksUndo | src/domain/operations/mutation.rs:10-48 | a split whose new identity was in use can be undone exactly if the thought that came back has the same text |
| Undo.ReusedReferenceBlocksUndo | src/application/mutations/export.rs:40-67 | an export whose reference's identity was in use can be undone exactly if the thought that came back has the reference's text |
| Undo.UndoRestoresEdit | src/application/mutations/history.rs:116-170 | right after an edit, undo succeeds exactly while sequences last and brings back the exact thoughts |
| Undo.CursorsAlwaysFit | src/application/model.rs:350-414 | in every run history cursors stay within their histories |
| AttachmentScheduler.AttachmentAccessibility.Schedule | src/application/attachments.rs:385-429 | sends nothing while a batch is out, else the smallest waiting submission's next keys, else the front of the queue; afterwards nothing waits while nothing is out |
| AttachmentScheduler.AttachmentAccessibility.BeginPreflight | src/application/attachments.rs:239-261 | puts on record the captured keys with the batches and the outcome it returned, and has the outcome at once exactly when there are no keys |
| AttachmentScheduler.AttachmentAccessibility.ApplyResults | src/application/attachments.rs:310-334 | counts exactly the keys not proven available, missing answers included, and files each current answer under its key's present name |
| AttachmentScheduler.AttachmentAccessibility.Complete | src/application/attachments.rs:264-299 | puts on record the answers it was given with the batches and the outcome it returned; a mismatch changes nothing else; a match files exactly the answers, settles the submission, finishes a manual refresh exactly if a background batch leaves nothing pending, and sends the next batch |
| AttachmentScheduler.AttachmentAccessibility.EnqueueThoughtBack | src/application/attachments.rs:454-468 | adds exactly the wanted keys behind the queue, without duplicates |
| AttachmentScheduler.AttachmentAccessibility.EnqueueThoughtFront | src/application/attachments.rs:442-452 | moves or adds exactly the wanted keys to the front, in order, without duplicates |
| AttachmentScheduler.AttachmentAccessibility.EnqueueBoard | src/application/attachments.rs:431-440 | the wanted keys of the board are queued behind the queue, the focused thought's first, then in board order |
| AttachmentScheduler.AttachmentAccessibility.Start | src/application/attachments.rs:129-140 | knows the board's keys, queues those without a result, the focused thought's first, and sends the first of them |
| AttachmentScheduler.AttachmentAccessibility.PrioritizeFocus | src/application/attachments.rs:173-176 | the focused thought's wanted keys move to the front of the queue, from which the next batch is sent |
| AttachmentScheduler.AttachmentAccessibility.RefreshAll | src/application/attachments.rs:179-211 | after a refresh every key of the board waits or is being checked for the new generation, queued focused first; results stay until they are replaced; one asked for by the user waits for all keys and ends at once if there are none |
| AttachmentScheduler.AttachmentAccessibility.Reconcile | src/application/attachments.rs:143-170 | matches the old and new keys itself; results follow the names; a mere renaming keeps the queue and the manual refresh under the new names, any other change cares for every key of the changed thoughts |
| AttachmentKeys.MatchingKeyPairs | src/application/attachments/keys.rs:265-305 | pairs old and new keys of the same attachment one to one, and leaves no two that could still be paired |
| AttachmentKeys.Migrate | src/application/attachments/keys.rs:161-190 | the renaming of all changed thoughts is one to one within each thought, keeps names that stayed, and is complete exactly if nothing is left on either side |
| Preflights.PreflightIsExact | src/application/attachments.rs:239-429 | in any series of calls, with the answers given to them and the batches and outcomes they returned, a submission begun once has sent an initial part of its keys in order in batches of at most 32; it reports once, after all keys were sent and answered, the number not proven available |
| AttachmentScheduler.AttachmentAccessibility.PreflightsAreExact | src/application/attachments.rs:239-429 | the same of the calls on record in every reachable state; and a submission that has not reported has a batch out |
| Preflights.AnswerKeepsLedger | src/application/attachments.rs:367-383 | an answer keeps every submission's account consistent with the state |
| AttachmentScheduler.FrontedKeys | src/application/attachments.rs:442-452 | fronting keys keeps a queue distinct and adds just those keys |
| AttachmentScheduler.RemappedQueue | src/application/attachments/keys.rs:192-213 | under the renaming of a migration the queue stays distinct and within the keys of the board |
| AttachmentScheduler.RemappedKeepsPlaces | src/application/attachments/keys.rs:192-213 | keys that the board still has keep their places in the queue |
| AttachmentScheduler.FrontedStandFirst | src/application/attachments.rs:442-452 | fronted keys stand first in their order, the rest of the queue behind them in its order |
| AttachmentScheduler.BackedStandLast | src/application/attachments.rs:454-468 | backed keys stand behind the queue in their order, those it does not have |
| AttachmentScheduler.OrderFollowsBoard | src/application/attachments.rs:431-440 | behind the focused thought the keys come in the order of the board |
| AttachmentScheduler.MigratedCarries | src/application/attachments/keys.rs:161-190 | a renamed key has the result of its old name, a key of an unchanged thought its own, and no other key has one |
| AttachmentScheduler.NamesFollow | src/application/attachments/keys.rs:192-237 | an answer to the batch in flight reaches the present name of its key, however often it was renamed |
| AttachmentScheduler.RefreshDuringPreflight | src/application/attachments.rs:179-211 | a manual refresh of a board whose attachments are all being checked for a submission is unfinished after the answer, with nothing waiting and nothing out |
| Projection.ProjectionBuilder.PushAnnotation | src/ui/annotations.rs:235-261 | a valid annotation is refused only for a missing number; then the text up to its end is shown and its fold added |
| Projection.ProjectWithHealth | src/ui/annotations.rs:201-226 | valid annotations are refused exactly when a collapsed attachment has no number; otherwise every substitution becomes a fold in order, and the result shows the whole text |
| Projection.FoldsAreWanted | src/ui/annotations.rs:201-226 | every annotation but a style has one fold, in order, collapsed exactly unless expanded, with the health of its attachment |
| BoardWording.WordingIsSound | src/ui/annotations.rs:359-444 | labels are missing exactly for unnumbered attachments and never empty; remarks are empty exactly when available and start with a space |
| BoardWording.LabelsShowNumbers | src/ui/annotations.rs:359-390 | the label of a numbered attachment reads back as its number |
| BoardWording.LabelsShowKinds | src/ui/annotations.rs:359-390 | and tells images from files |
| BoardWording.PasteLabelsShowCounts | src/ui/annotations.rs:359-390 | the label of a large paste reads back as its lines and characters |
| BoardWording.GroupsOfThree | src/ui/annotations.rs:431-444 | grouped numbers have a comma before every third digit from the right, and nowhere else |
| OffsetMaps.ProjectByte | src/ui/projection.rs:306-328 | the loop computes `Project` |
| OffsetMaps.UnprojectByte | src/ui/projection.rs:330-348 | the loop computes `Unproject` |
| OffsetMaps.UnprojectBoundary | src/ui/projection.rs:350-373 | the loop computes `Boundary` |
| OffsetMaps.MapsKeepOrder | src/ui/projection.rs:306-373 | projection, pointers and row ends keep order and stay inside their texts |
| OffsetMaps.StartsKeepOrder | src/ui/projection.rs:350-373 | two row starts keep order exactly unless the first lies in text shown in full and the second in the remark behind it |
| OffsetMaps.RemarksLeadToTheirRange | src/ui/projection.rs:330-373 | every shown offset in a remark goes to its range: a row start to the range's start, a row end and a pointer to its end |
| OffsetMaps.LabelsLeadToTheirRange | src/ui/projection.rs:306-373 | text inside a collapsed range projects behind its label, and every offset inside a label goes back to the range: a row start to its start, a row end and a pointer to its end |
| OffsetMaps.RemarkTurnsStartsBack | src/ui/projection.rs:350-373 | a presentation in which the row start 1 goes to 1 and the row start 2 to 0 |
| OffsetMaps.VisibleTextIsPreserved | src/ui/projection.rs:306-328 | outside collapsed ranges the text shown is the canonical text, exactly unless a remark begins there |
| OffsetMaps.RowEdgesComeBack | src/ui/projection.rs:350-373 | a row edge inverts projection exactly outside collapsed ranges and, for starts, not at a remark |
| OffsetMaps.PointersComeBack | src/ui/projection.rs:330-348 | a pointer inverts projection exactly outside collapsed ranges and not at a collapsed start where no fold ends |
| OffsetMaps.NothingLeadsInside | src/ui/projection.rs:330-373 | no shown offset leads inside a collapsed range, and going there and back settles |
| OffsetMaps.RemarkHidesText | src/ui/annotations.rs:284-315 | a presentation in which the text at a projected offset is not the canonical text |
| OffsetMaps.CollapsedStartJumps | src/ui/projection.rs:330-348 | a presentation in which a pointer at a range's start goes to its end |
| TextLayout.LogicalLines | src/ports/text_layout.rs:369-396 | lines in order without overlap, each closed by one separator, with a carriage return before a line feed in the separator |
| TextLayout.LinesAreUnique | src/ports/text_layout.rs:369-396 | a text has only one such split |
| TextLayout.SegmentEnd | src/ports/text_layout.rs:316-332 | the row takes all that fits, or ends behind the last blank before the first cluster that does not fit, or else right before that |
| TextLayout.RowFits | src/ports/text_layout.rs:316-332 | a row fits the width or is a single cluster |
| TextLayout.TabReachesNextStop | src/ports/text_layout.rs:11-19 | behind a tab the column is the next multiple of the tab width |
| TextLayout.WrapRows | src/ports/text_layout.rs:202-240 | rows follow each other through all lines, with an empty row for an empty line and behind a full last row |
| TextLayout.RowsCoverLines | src/ports/text_layout.rs:202-240 | every place of every line is on exactly one row, of that line; rows show no separator; every line has a row; rows fit |
| TextLayout.WrappedRowIndex | src/ports/text_layout.rs:264-272 | for every byte, the first row that holds it, and a row of the line that has it |
| TextLayout.WrappedRowIndexWithAffinity | src/ports/text_layout.rs:274-289 | where two rows meet the affinity decides; the line is the byte's line |
| TextLayout.RowOnPositionLine | src/ports/text_layout.rs:264-314 | for every text, width and byte, row lookup and position name the same line |
| TextLayout.ByteAtCell | src/ports/text_layout.rs:242-253 | the cluster that covers the cell, or the end of the row |
| TextLayout.CellColumnAtByte | src/ports/text_layout.rs:255-262 | the column reached at a place |
| TextLayout.CellsLeadBack | src/ports/text_layout.rs:242-262 | byte to cell to byte is the identity exactly at clusters that take cells and at the row's end |
| TextLayout.PositionForByte | src/ports/text_layout.rs:300-314 | the line that has the byte, and the clusters that begin before it |
| TextLayout.ByteForPosition | src/ports/text_layout.rs:291-298 | the byte of a position, cut down to the lines and clusters there are |
| TextLayout.PositionsLeadBack | src/ports/text_layout.rs:291-314 | byte to position to byte is the identity in a line's text, and leads to its end from a separator |
| TextLayout.PlacesLeadBack | src/ports/text_layout.rs:291-314 | position to byte to position is the identity up to clamping |
| OffsetMapper.Mapper.Map | src/application/text_reflow.rs:156-183 | for queries that do not decrease, the streaming mapper answers like a fresh one; `InsideAnswersAnEnd` and `OutsideChangesOnlyShifts` say what that is |
| OffsetMapper.InsideAnswersAnEnd | src/application/text_reflow.rs:156-183 | inside replaced text and at an insertion `Before` answers the start of the new text and `After` its end |
| OffsetMapper.AnswersEncloseReplacement | src/application/text_reflow.rs:156-183 | the two answers inside a change enclose the replacement and nothing else, right between the texts that were before and behind the change |
| OffsetMapper.OutsideChangesOnlyShifts | src/application/text_reflow.rs:156-183 | outside every change the answer is the offset plus the length changes before it |
| OffsetMapper.AnswersAreMonotone | src/application/text_reflow.rs:156-183 | answers respect the order of offsets for equal affinity |
| OffsetMapper.BeforeIsNotBehindAfter | src/application/text_reflow.rs:156-183 | at one offset the affinity Before never answers behind After |
| OffsetMapper.TextIsFoundAgain | src/ports/editor/change.rs:303-348 | a byte outside every change is found again where the mapper says |
| OffsetMapper.UntouchedRangeKeepsItsText | src/application/text_reflow.rs:82-137 | a range that no change touches keeps its text, whatever is inserted at its edges |
| OffsetMapper.ReflowAnnotations | src/application/text_reflow.rs:82-137 | one mapper for all annotations gives what carrying each on its own would, or the same error |
| OffsetMapper.CarriedAreRight | src/application/text_reflow.rs:82-137 | the result has exactly the annotations that stay, in order, each with its own text, a large paste as long as it is still large |
| OffsetMapper.UntouchedAreCarried | src/application/text_reflow.rs:82-137 | annotations that no change touches are all carried |
| Reorder.SelectedMoveSteps | src/application/reorder.rs:14-67 | accepts exactly valid selections; the steps find each item where they say and yield the raised or lowered order |
| Reorder.UpStepsRaise | src/application/reorder.rs:14-67 | the upward steps move every run by one place |
| Reorder.DownStepsLower | src/application/reorder.rs:14-67 | the downward steps do so from the other end |
| Reorder.RaisedMovesByOne | src/application/reorder.rs:14-67 | upward, every selected item of a run that is not at the top moves by exactly one place, and a run at the top stays |
| Reorder.LoweredMovesByOne | src/application/reorder.rs:14-67 | downward, every selected item of a run that is not at the bottom moves by exactly one place, and a run at the bottom stays |
| Reorder.RaisedKeepsRelativeOrder | src/application/reorder.rs:14-67 | upward, selected items keep their order, and so do unselected ones |
| Reorder.LoweredKeepsRelativeOrder | src/application/reorder.rs:14-67 | and so they do downward |
| Reorder.RaisedPermutes | src/application/reorder.rs:14-67 | the raised order is a permutation |
| Reorder.LoweredPermutes | src/application/reorder.rs:14-67 | and so is the lowered one |
| Reorder.UpThenDownRestores | src/application/reorder.rs:14-67 | up then down restores the order exactly when the first item is unselected, or all are selected, or there is none |
| Reorder.UndoRestores | src/application/mutations/separator.rs:117-125 | the recorded inverse restores the order the steps started from |
| Identifiers.Encode | src/domain/identifiers.rs:164-188 | twenty-six digits that spell the number of the bytes; the buffer never leaves sixteen bits |
| Identifiers.Decode | src/domain/identifiers.rs:190-226 | accepts exactly the encodings of identifiers and returns the identifier; each error has its condition |
| Identifiers.PayloadIsBase32Hex | src/domain/identifiers.rs:164-188 | a payload encodes an identifier exactly if it has twenty-six characters of the literal alphabet, the one for each base-32 digit of its bits |
| Identifiers.EncodeThenDecode | src/domain/identifiers.rs:164-226 | decoding an encoding gives the bytes back, for all values |
| Identifiers.DecodeThenEncode | src/domain/identifiers.rs:164-226 | an accepted payload is the encoding of its result |
| Identifiers.EncodingIsOneToOne | src/domain/identifiers.rs:164-226 | one payload per identifier and one identifier per payload |
| Identifiers.EncodingPreservesOrder | src/domain/identifiers.rs:164-188 | payloads sort like the identifiers they stand for |
| Identifiers.Format | src/domain/identifiers.rs:94-104 | the text is the prefix and the payload of the bytes |
| Identifiers.Parse | src/domain/identifiers.rs:106-117 | accepts exactly the formatted texts of version 7 identifiers with this prefix |
| Identifiers.KindsNeverMix | src/domain/identifiers.rs:106-117 | no text of one kind has the prefix of another |
| CivilDate.CivilCountsBack | src/domain/export.rs:216-232 | every day number gives a valid date whose independently counted number it is |
| CivilDate.DatesConvertBack | src/domain/export.rs:216-232 | every valid date is the date of its number |
| CivilDate.SuccessiveDays | src/domain/export.rs:216-232 | successive numbers give successive dates |
| CivilDate.FieldsRebuildSeconds | src/domain/export.rs:202-214 | the fields are in range and rebuild the floored seconds, also before 1970 |
| CivilDate.TimestampReadsBack | src/domain/export.rs:202-214 | the text tells the time to the second, for every time stamp, negative and long years included |
| RestartCohort.ResumeOne | src/domain/update.rs:308-334 | a resume is accepted exactly for an unfinished member, keeps the cohort's entries, and completes it exactly at the last one |
| RestartCohort.MembersResumeInAnyOrder | src/domain/update.rs:308-363 | resuming the members in any order always succeeds and completes at the last one |
| RestartCohort.OnlyMembersResume | src/domain/update.rs:308-363 | whatever is accepted was a list of distinct members; unknown and repeated sessions are rejected |

## Left out

- Rendering, layout chrome, key routing, overlays, command line parsing, diagnostics, SQLite and serialization.
- The external-adoption path of store opening (src/cli/runtime.rs:306-345) and the restart coordinator: their
  admission and quiescence steps are calls into other processes.
- Focus, interaction mode and insertion index of the application state: navigation that no law here needs.
- SessionBoards.SessionBoard.ApplyInPlace: leaves out ownership, names, text ranges and positions. In the reducer a
  flag chosen by the environment stands for their checks and may refuse any board change, so the laws hold however
  they decide. Positions have their own model in `Positions.dfy`, with the laws in `BoardOrder.dfy`, text ranges in
  `Projection.dfy`.
- SessionBoards.SessionBoard.Validate: checks attachments only, for the same reason; `Positions.ValidationSeesTheOrder`
  has the check of positions.
- SessionBoards.OthersAreUntouched: says nothing of positions, which do shift; `BoardOrder.dfy` says how.
- Locks.PlanRespectsLocks: the neighbours that a moved selection passes are an input of the action, guarded like the
  selection itself; `Reorder.SelectedMoveSteps` says which they are.
- AppStates.AppState.HistoryMove: that board and editor history wait for each other is part of the same flag; the
  dependency only refuses.
- Texts that split, extract, merge and reflow produce: actions carry them, because the text rules are not modelled.
- Undo.UndoRestoresBoard: thoughts made by a split or a file reference must have new identities, as generated ones do;
  `Undo.ReusedIdentityBlocksUndo` and `Undo.ReusedReferenceBlocksUndo` have the other case. Moves and separators
  change no thought; `BoardOrder.MovesComeBack` and `BoardOrder.AddedGoAway` have their undo.
- Undo.PlansComeBack: excludes moves and separators likewise.
- Loading a session's histories from storage: runs start from a validated board with empty histories.
- AttachmentScheduler.AttachmentAccessibility.Start: requires an empty queue, as the scheduler is started only once,
  when it is new.
- Refresh counts and the inactivity timer of the scheduler; epochs do not wrap around.
- Styles of shown text (`PresentedStyle`); a reference label is only required to start with `@`.
- TextLayout.PositionForByte: a text is given as grapheme clusters, so Unicode segmentation and width tables are
  taken as they are; a cluster's prefix counts as one cluster, which is what they say.
- Machine word overflow of byte offsets and cell counts: lengths are far below it.
- AtomicExport.Export.Write: takes temporary names as private, keeping a temporary file as infallible, as on Unix, and
  the umask as empty; a second copy of the permission bits is on the log only, since the file may be anywhere by then;
  the folder check before it and the listing of folders are left out.
- Resetting a corrupt update cache, which restarts its generations.
- Reading UUID versions beyond version 7, SHA-256 and Unicode tables: foreign libraries.
- `sanitize_file_stem` and other small validators: they would only add easy members.
