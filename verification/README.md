# Trakn workout core in Dafny

This project models the core of Trakn, a workout planner. Users pick a workout type
(hypertrophy, strength or conditioning), fill in a parameters form and get an
AI-generated workout back. They can revise the whole workout, one exercise or one
interval, edit it by hand, and save it. Saved workouts live in a remote table and a
local browser store. Writes made while the remote table is out of reach go into a sync
queue, which is replayed later.

The model covers these parts:

- **Schemas** (`Enums`, `InputSchema`, `OutputSchema`, `RevisionSchema`). These are the
  shared request, output and revision schemas, as datatypes plus validity predicates.
- **Local store** (`LocalDb`). This is the browser database: tables keyed by id, the
  sync queue listed in timestamp order, and workout exercises listed in position order.
- **Offline sync** (`OfflineSync`). The coordinator queues writes and replays them with
  a retry budget. It is driven by the online and offline events, a 30-second timer and
  a forced sync.
- **Workout service** (`WorkoutFlow`). This covers the generation flow, the three kinds
  of revision, saving, and deleting and updating saved workouts, each with its offline
  fallback.
- **Components** (`WorkoutEditor`, `WorkoutDetail`, `ParamsForm`, `RevisionInput`,
  `Display`). These are the user-interface components' logic: line-by-line editing of
  the warm-up and cool-down lists, manual edits, pending edits on the detail page, the
  parameters form's controls and validators, the revision text box, and the display
  helpers.
- **API side** (`PromptLoader`, `GeneratorChain`, `ApiErrors`, `Auth`). This covers
  loading YAML prompts and rewriting `$name` into `{name}`, the generator chain's prompt
  cache, the prompt input it builds and its output schema choice, the error-to-response
  mapping, and bearer-token authentication.

Asynchronous steps are modelled as atomic transitions on immutable records. Everything
that cannot be seen is a parameter, so every call's result is an input to the
transition. This covers:

- the remote database (one outcome per request);
- the AI service (an `ApiResult`);
- the file system (a `read` function);
- the identity provider (a `verifyToken` function);
- clocks and UUIDs (plain values).

Both the shared and the vercel prompt loader are modelled, as two deployments of one
`Convert`. The model follows the code wherever the code and its documentation differ.

- The documentation says a queued operation is dropped after five failed retries. In
  the code the retry count is never written back, so the operation is never dropped.
  This is the first row under Findings.
- The generator chain imports `loadSystemPrompt('fitness_trainer')` and
  `loadUserPrompt(...)` with the signatures of `api/_lib/prompt-loader.ts`. Its own
  deployment's loader exports `loadSystemPrompt()` and `loadWorkoutPrompt(type)`
  instead. The chain's prompt reads are therefore a `load` parameter, and the paths are
  modelled for both loaders. `VercelSystemPromptIsFitnessTrainer` shows that the two
  loaders agree on the system prompt's path.
- Several components carry textually identical copies of the same helper:
  `getDifficultyLabel` and `formatWorkoutType` in three components, and the duration
  formatter in two cards. `Display` defines each helper once, and each row below cites
  one copy.

## Model

| member | source | states |
|---|---|---|
| Enums.EquipmentAccessDisjoint | packages/shared/src/models/common/equipment.schema.ts:3-10 | No equipment value belongs to both the gym and the conditioning enumeration. |
| Enums.ParseWorkoutType | packages/shared/src/models/workout-input/workout-input.schema.ts:6 | Exactly the three type literals parse, and a parsed type is written back as the same literal. |
| Enums.ParseTypeName | packages/shared/src/models/workout-input/workout-input.schema.ts:6 | Writing a type out and parsing it gives the type back, so the discriminator is unambiguous. |
| InputSchema.EquipmentDeterminesFamily | packages/shared/src/models/workout-input/workout-input.schema.ts:8-18 | In a valid input the equipment value alone tells a conditioning request from a gym request, in both directions. |
| OutputSchema.UnionIsDiscriminated | packages/shared/src/models/workout-output/workout-output.schema.ts:6-10 | The output union accepts a workout exactly when one member schema does, and only the member its `workout_type` names can. |
| OutputSchema.WarmupCooldownUnconstrained | packages/shared/src/models/workout-output/hypertrophy-output.schema.ts:11-13 | Warm-up and cool-down lists carry no constraint, so replacing them keeps a valid workout valid. |
| RevisionSchema.RevisionTypesIndependent | packages/shared/src/models/workout-revision/workout-revision-input.schema.ts:5-9 | The revision schemas accept any valid workout with any valid input and text; nothing ties the workout's type to the input's type. |
| LocalDb.AddToSyncQueue | apps/web/src/app/core/db/indexed-db.service.ts:141-143 | `put` adds the operation under its id and overwrites only that entry. Other entries and tables are unchanged, and keying by id is kept. |
| LocalDb.RemoveFromSyncQueue | apps/web/src/app/core/db/indexed-db.service.ts:149-151 | Deleting removes exactly that id. An absent id changes nothing, and other tables are unchanged. |
| LocalDb.ClearSyncQueue | apps/web/src/app/core/db/indexed-db.service.ts:153-155 | The queue is emptied and no other table changes. |
| LocalDb.GetSyncQueue | apps/web/src/app/core/db/indexed-db.service.ts:145-147 | Lists every queued operation exactly once, as stored, in non-decreasing timestamp order. |
| LocalDb.ListingSize | apps/web/src/app/core/db/indexed-db.service.ts:145-147 | A queue listing has exactly as many entries as the queue has operations. |
| LocalDb.ListBy | apps/web/src/app/core/db/indexed-db.service.ts:145-147 | The index ordering behind `orderBy` and `sortBy`: every key once, no duplicates, in non-decreasing order of the indexed field. |
| LocalDb.SaveWorkout | apps/web/src/app/core/db/indexed-db.service.ts:81-83 | `put` of a workout row under its id; other rows and tables are unchanged. |
| LocalDb.DeleteWorkout | apps/web/src/app/core/db/indexed-db.service.ts:85-87 | Deletes exactly that id; an absent id changes nothing. |
| LocalDb.GetWorkoutById | apps/web/src/app/core/db/indexed-db.service.ts:77-79 | Returns the stored row exactly when the id is stored. |
| LocalDb.SaveThenGet | apps/web/src/app/core/db/indexed-db.service.ts:77-87 | Reading a saved row returns it, reading a deleted row returns nothing, and other ids read as before. |
| LocalDb.GetWorkouts | apps/web/src/app/core/db/indexed-db.service.ts:73-75 | Returns exactly the stored rows of that user, each once when rows are keyed by id. |
| LocalDb.GetWorkoutExercises | apps/web/src/app/core/db/indexed-db.service.ts:90-92 | Returns exactly the stored rows of that workout, each once, in non-decreasing `position` order. |
| LocalDb.SaveWorkoutExercise | apps/web/src/app/core/db/indexed-db.service.ts:94-96 | `put` of a workout-exercise row under its id; other rows and tables are unchanged. |
| LocalDb.DeleteWorkoutExercise | apps/web/src/app/core/db/indexed-db.service.ts:98-100 | Deletes exactly that id; an absent id changes nothing. |
| LocalDb.PutRecord | apps/web/src/app/core/db/indexed-db.service.ts:64-66 | The `save…` operations of the other tables `put` by id into one table, and leave every other table, the workout-exercise store included, alone. |
| LocalDb.DeleteRecord | apps/web/src/app/core/db/indexed-db.service.ts:68-70 | The `delete…` operations of the other tables remove that id from one table, keep every other record of it with its value, and leave the other tables alone. |
| LocalDb.PutThenDeleteRecord | apps/web/src/app/core/db/indexed-db.service.ts:64-70 | A put record reads back; deleting it removes it; and putting then deleting a new id restores the store exactly. |
| LocalDb.ClearAllData | apps/web/src/app/core/db/indexed-db.service.ts:188-191 | After recreating the database every table is empty. |
| OfflineSync.Dispatch | apps/web/src/app/core/services/offline-sync.service.ts:130-144 | A create inserts the payload, an update writes it to the row with the payload's id, a delete removes that row; always on the operation's table. |
| OfflineSync.AfterAttempt | apps/web/src/app/core/services/offline-sync.service.ts:95-113 | A replay removes its operation exactly when it resolved or the retry budget is spent. A kept operation differs from the old one at most in its retry count. |
| OfflineSync.AsWrittenNeverDrops | apps/web/src/app/core/services/offline-sync.service.ts:104-112 | As written, an operation below the budget survives any number of rejected passes unchanged. |
| OfflineSync.WriteBackCountsRetries | apps/web/src/app/core/services/offline-sync.service.ts:104-112 | With the count written back, n rejected passes add n retries, and the pass that exceeds the budget drops the operation. |
| OfflineSync.WriteBackDropsAfterSixFailures | apps/web/src/app/core/services/offline-sync.service.ts:107-112 | With the count written back, a fresh operation is dropped exactly from its sixth rejected pass on. |
| OfflineSync.Settle | apps/web/src/app/core/services/offline-sync.service.ts:96-112 | After one replay, the store holds for that id what `AfterAttempt` leaves, and every other lookup is unchanged. |
| OfflineSync.DrainStore | apps/web/src/app/core/services/offline-sync.service.ts:95-114 | After a pass, each snapshot operation's entry is its own `AfterAttempt` result, and operations outside the snapshot are untouched. |
| OfflineSync.DrainPass | apps/web/src/app/core/services/offline-sync.service.ts:92-114 | A pass sends one request per operation, in order, and counts a success per resolved replay. The failure count is exactly the number of rejections plus the number of rejected operations whose retry count, once raised, passes five; so it is one per rejection while every operation is below the retry budget. |
| OfflineSync.PassStore | apps/web/src/app/core/services/offline-sync.service.ts:95-114 | A pass only removes operations or rewrites them under their ids. As written, whatever stays is unchanged. |
| OfflineSync.Initial | apps/web/src/app/core/services/offline-sync.service.ts:11-20 | The service starts with the browser's connectivity, nothing syncing and no sync recorded. |
| OfflineSync.ProcessQueue | apps/web/src/app/core/services/offline-sync.service.ts:75-128 | Returns at once while syncing or offline. An empty queue only clears the flags. Otherwise the queue is drained, and the status records the remaining count, the successes, the exact failure count of the pass (each rejection, plus one more for each rejection that spends the retry budget) and the time. |
| OfflineSync.QueueOperation | apps/web/src/app/core/services/offline-sync.service.ts:50-73 | Stores a zero-retry operation under a fresh id and refreshes the pending count. It starts a drain exactly when online and idle. |
| OfflineSync.ForceSyncNow | apps/web/src/app/core/services/offline-sync.service.ts:146-152 | Fails with 'Cannot sync while offline' exactly when offline; otherwise it is a drain. |
| OfflineSync.GoOnline | apps/web/src/app/core/services/offline-sync.service.ts:31-34 | The online event sets the flag and drains; it leaves a running pass alone. |
| OfflineSync.GoOffline | apps/web/src/app/core/services/offline-sync.service.ts:36-38 | The offline event changes only the flag. |
| OfflineSync.PeriodicTick | apps/web/src/app/core/services/offline-sync.service.ts:41-48 | The timer does nothing while offline or syncing. |
| OfflineSync.TickIsProcessQueue | apps/web/src/app/core/services/offline-sync.service.ts:44-45 | The timer's guard repeats `processQueue`'s, so a tick is exactly a drain attempt. |
| OfflineSync.TransitionsKeepSettled | apps/web/src/app/core/services/offline-sync.service.ts:124-127 | Every transition ends with no pass running and the queue keyed by id. |
| OfflineSync.AllResolvedEmptiesQueue | apps/web/src/app/core/services/offline-sync.service.ts:95-123 | A pass whose every replay resolved leaves the queue empty and records no failure. |
| OfflineSync.DrainAppliesAfterAttempt | apps/web/src/app/core/services/offline-sync.service.ts:95-113 | The drain gives each snapshot operation exactly its `AfterAttempt` result. |
| OfflineSync.RejectedFreshOperation | apps/web/src/app/core/services/offline-sync.service.ts:104-105 | As written, a rejected fresh operation stays queued with zero retries; with write-back it carries one. |
| WorkoutFlow.MessageOr | apps/web/src/app/core/services/workout.service.ts:169-170 | An `Error`'s own message is shown; any other thrown value shows the fallback. |
| WorkoutFlow.SelectWorkoutType | apps/web/src/app/core/services/workout.service.ts:97-104 | Selecting a type moves to the parameters step with that type and no error; nothing else changes. |
| WorkoutFlow.GoBack | apps/web/src/app/core/services/workout.service.ts:109-124 | Parameters go back to type selection and results go back to parameters, each clearing the error; other steps are unchanged. |
| WorkoutFlow.BeginGeneration | apps/web/src/app/core/services/workout.service.ts:140-156 | The generating step records the parameters and clears the error and the saved id. |
| WorkoutFlow.GenerateWorkout | apps/web/src/app/core/services/workout.service.ts:129-178 | A missing profile or type throws before any change. Success shows the workout with its full input. Failure returns to the parameters with the error and re-throws, keeping the shown workout. |
| WorkoutFlow.UpdateWorkout | apps/web/src/app/core/services/workout.service.ts:641-646 | A manual edit replaces only the generated workout. |
| WorkoutFlow.Reset | apps/web/src/app/core/services/workout.service.ts:651-668 | The form returns to its initial state and the saved id is cleared. |
| WorkoutFlow.ReplaceAt | apps/web/src/app/core/services/workout.service.ts:252-253 | Copying the list and assigning one index changes that element only. |
| WorkoutFlow.WithExercise | apps/web/src/app/core/services/workout.service.ts:255-258 | The workout with one exercise replaced keeps its type and all other fields. |
| WorkoutFlow.WithInterval | apps/web/src/app/core/services/workout.service.ts:313-316 | The workout with one interval replaced stays conditioning and keeps all other fields. |
| WorkoutFlow.WithExerciseKeepsValid | apps/web/src/app/core/services/workout.service.ts:252-258 | Replacing an exercise by a valid one keeps a valid workout valid and of the same type. |
| WorkoutFlow.WithIntervalKeepsValid | apps/web/src/app/core/services/workout.service.ts:310-316 | Replacing an interval by a valid one keeps a valid workout valid. |
| WorkoutFlow.FinishRevision | apps/web/src/app/core/services/workout.service.ts:198-213 | A settled revision shows the revised workout, or keeps the old one with the error and re-throws; `isRevising` ends false. |
| WorkoutFlow.ExerciseApplied | apps/web/src/app/core/services/workout.service.ts:241-258 | A successful exercise call yields the workout with that exercise replaced, and a failure passes the thrown value on. |
| WorkoutFlow.IntervalApplied | apps/web/src/app/core/services/workout.service.ts:299-316 | A successful interval call yields the workout with that interval replaced, and a failure passes the thrown value on. |
| WorkoutFlow.ReviseWorkout | apps/web/src/app/core/services/workout.service.ts:183-214 | Without a workout and its input it throws 'No workout to revise' and changes nothing. Otherwise the revised workout replaces the shown one, or the error is set and re-thrown. |
| WorkoutFlow.ReviseExercise | apps/web/src/app/core/services/workout.service.ts:219-272 | Rejects a missing context, then a conditioning workout, then a missing index, in that order and without change. Otherwise only that exercise changes, and both revision flags end cleared. |
| WorkoutFlow.ReviseInterval | apps/web/src/app/core/services/workout.service.ts:277-330 | The same checks for intervals, in the same order (conditioning only). Otherwise only that interval changes, and both flags end cleared. |
| WorkoutFlow.ReviseSavedWorkout | apps/web/src/app/core/services/workout.service.ts:527-547 | Needs a saved row with an input. It returns the revised workout and changes no stored state. |
| WorkoutFlow.ReviseSavedExercise | apps/web/src/app/core/services/workout.service.ts:552-591 | Runs the same checks as `reviseExercise` on the given workout and returns it with only that exercise replaced. |
| WorkoutFlow.ReviseSavedInterval | apps/web/src/app/core/services/workout.service.ts:596-636 | Runs the same checks as `reviseInterval` on the given workout and returns it with only that interval replaced. |
| WorkoutFlow.FallbackOperation | apps/web/src/app/core/services/workout.service.ts:384-391 | An offline fallback queues a zero-retry operation on the `workouts` table targeting the row's id. |
| WorkoutFlow.SaveWorkout | apps/web/src/app/core/services/workout.service.ts:335-397 | Checks for a workout, then a non-empty user id. The row is cached locally whatever the remote insert does. A failed or erroring insert also queues a `create`, and the saved id is set either way. |
| WorkoutFlow.UpdatedRow | apps/web/src/app/core/services/workout.service.ts:516-517 | Only a row with that id gets the new data and update time. |
| WorkoutFlow.RemoveById | apps/web/src/app/core/services/workout.service.ts:481 | The filtered list holds no row with that id and keeps every other row. |
| WorkoutFlow.UpdateById | apps/web/src/app/core/services/workout.service.ts:517 | The mapped list keeps its length, and only rows with that id change. |
| WorkoutFlow.UpdateCachedWorkout | apps/web/src/app/core/services/workout.service.ts:503-506 | The local update changes only the cached row with that id, and changes nothing when there is none. |
| WorkoutFlow.DeleteWorkout | apps/web/src/app/core/services/workout.service.ts:460-487 | The cached row is deleted whatever the remote delete does. A failure also queues a `delete`. The row leaves the list, and the current workout is cleared if it was that row. |
| WorkoutFlow.UpdateSavedWorkout | apps/web/src/app/core/services/workout.service.ts:492-520 | The cached row is updated whatever happens remotely, and a failure also queues an `update`. List and current rows with that id get the new data. |
| WorkoutFlow.FlowTransitionsKeepInvariant | apps/web/src/app/core/services/workout.service.ts:97-124 | Selecting, going back, editing and resetting keep the step consistent with the state and leave nothing in flight. |
| WorkoutFlow.GenerationKeepsInvariant | apps/web/src/app/core/services/workout.service.ts:129-178 | Generation, refused, successful or failed, keeps the flow invariant and leaves nothing in flight. |
| WorkoutFlow.ReviseWorkoutKeepsInvariant | apps/web/src/app/core/services/workout.service.ts:183-214 | A whole-workout revision keeps the flow invariant and ends idle. |
| WorkoutFlow.ReviseExerciseKeepsInvariant | apps/web/src/app/core/services/workout.service.ts:219-272 | An exercise revision keeps the flow invariant and ends idle. |
| WorkoutFlow.ReviseIntervalKeepsInvariant | apps/web/src/app/core/services/workout.service.ts:277-330 | An interval revision keeps the flow invariant and ends idle. |
| WorkoutFlow.SaveKeepsInvariant | apps/web/src/app/core/services/workout.service.ts:335-397 | Saving keeps the flow invariant and ends idle. |
| WorkoutFlow.ListChangesKeepInvariant | apps/web/src/app/core/services/workout.service.ts:460-520 | Deleting and updating saved workouts keep the flow invariant and end idle. |
| WorkoutFlow.GenerationRecordsInput | apps/web/src/app/core/services/workout.service.ts:140-168 | A successful generation records exactly the parameters, the profile and the selected type as the workout's input. |
| WorkoutFlow.FailuresKeepWorkout | apps/web/src/app/core/services/workout.service.ts:169-176 | No failed generation or revision loses the shown workout. |
| WorkoutFlow.RevisionKeepsValid | apps/web/src/app/core/services/workout.service.ts:251-262 | A successful exercise or interval revision of a valid workout leaves a valid workout of the same type. |
| WorkoutFlow.ListUpdatesTouchOnlyThatId | apps/web/src/app/core/services/workout.service.ts:481-517 | After a delete, no listed row has the id and all others stay. After an update, only rows with that id differ, carrying the new data and time. |
| WorkoutFlow.OfflineSaveReplaysInsert | apps/web/src/app/core/services/workout.service.ts:381-392 | An offline save queues an operation that replays as an insert of exactly the cached row. As written, it stays queued however often the replay is rejected. |
| WorkoutFlow.OfflineListChangesReplay | apps/web/src/app/core/services/workout.service.ts:469-514 | An offline delete or update queues an operation that replays as the matching delete or update of that row. |
| WorkoutEditor.WithList | apps/web/src/app/shared/components/workout-editor/workout-editor.component.ts:312 | Spreading the workout with a new warm-up or cool-down list changes that list only. |
| WorkoutEditor.NonBlank | apps/web/src/app/shared/components/workout-editor/workout-editor.component.ts:311 | Filtering keeps only lines whose trimmed text is non-empty, and never adds lines. |
| WorkoutEditor.NonBlankCounts | apps/web/src/app/shared/components/workout-editor/workout-editor.component.ts:311 | The filter keeps each non-blank line as often as it occurs and drops every blank one. |
| WorkoutEditor.NonBlankKeepsNonBlank | apps/web/src/app/shared/components/workout-editor/workout-editor.component.ts:311 | A list without blank lines passes unchanged. |
| WorkoutEditor.NonBlankIdempotent | apps/web/src/app/shared/components/workout-editor/workout-editor.component.ts:311 | Filtering twice is filtering once. |
| WorkoutEditor.NonBlankConcat | apps/web/src/app/shared/components/workout-editor/workout-editor.component.ts:311 | The filter works line by line in order: filtering a concatenation concatenates the filtered parts, so kept lines keep their relative order. |
| WorkoutEditor.AddedItemDropped | apps/web/src/app/shared/components/workout-editor/workout-editor.component.ts:306-311 | An appended empty line never reaches the workout. |
| WorkoutEditor.ApplyEdits | apps/web/src/app/shared/components/workout-editor/workout-editor.component.ts:310-314 | The emitted workout has the filtered list and is otherwise unchanged. It keeps its type and its validity. |
| WorkoutEditor.ToggleEdit | apps/web/src/app/shared/components/workout-editor/workout-editor.component.ts:288-295 | Opening copies the workout's list into the buffer. Closing emits the filtered buffer. The flag flips, and the other list is untouched. |
| WorkoutEditor.SetAt | apps/web/src/app/shared/components/workout-editor/workout-editor.component.ts:297-299 | JavaScript element assignment: a negative index adds no element, an existing index is replaced, and the end index appends. |
| WorkoutEditor.SpliceStart | apps/web/src/app/shared/components/workout-editor/workout-editor.component.ts:302 | `splice` counts a negative start from the end, clamped at zero. |
| WorkoutEditor.Splice1 | apps/web/src/app/shared/components/workout-editor/workout-editor.component.ts:302 | `splice(start, 1)` removes exactly the element at the normalised start, or nothing past the end. |
| WorkoutEditor.SpliceRemovesOne | apps/web/src/app/shared/components/workout-editor/workout-editor.component.ts:302 | The removed element is the only one lost: the rest is kept with its multiplicities. |
| WorkoutEditor.UpdateItem | apps/web/src/app/shared/components/workout-editor/workout-editor.component.ts:297-299 | Updating a line changes only that buffer. |
| WorkoutEditor.RemoveItem | apps/web/src/app/shared/components/workout-editor/workout-editor.component.ts:301-304 | Removing a line splices it out and emits the filtered buffer. |
| WorkoutEditor.AddItem | apps/web/src/app/shared/components/workout-editor/workout-editor.component.ts:306-308 | Adding appends one empty line and changes nothing else. |
| WorkoutEditor.AddThenCloseIgnoresEmptyLine | apps/web/src/app/shared/components/workout-editor/workout-editor.component.ts:288-311 | Adding a line and closing emits what closing directly would. |
| WorkoutEditor.ToggleTwiceWithoutEdits | apps/web/src/app/shared/components/workout-editor/workout-editor.component.ts:288-295 | Opening and closing without edits emits the workout unchanged when no line is blank. |
| WorkoutEditor.OnExerciseChanged | apps/web/src/app/shared/components/workout-editor/workout-editor.component.ts:346-354 | A conditioning workout emits nothing. Otherwise the workout is emitted with that exercise assigned. |
| WorkoutEditor.OnIntervalChanged | apps/web/src/app/shared/components/workout-editor/workout-editor.component.ts:357-365 | Only a conditioning workout emits, with that interval assigned. |
| WorkoutEditor.ManualEditAgreesWithRevision | apps/web/src/app/shared/components/workout-editor/workout-editor.component.ts:346-365 | A manual edit of an existing element gives the same workout as a revision of it, and keeps validity. |
| WorkoutDetail.Displayed | apps/web/src/app/features/workouts/workout-detail.component.ts:114-116 | The page shows the pending edit, else the current row's data, else nothing. |
| WorkoutDetail.StartEditing | apps/web/src/app/features/workouts/workout-detail.component.ts:30 | The Edit button only sets the editing flag. |
| WorkoutDetail.CancelEditing | apps/web/src/app/features/workouts/workout-detail.component.ts:129-133 | Cancelling leaves edit mode and drops the pending edit and the error. |
| WorkoutDetail.OnWorkoutChanged | apps/web/src/app/features/workouts/workout-detail.component.ts:135-137 | An editor change becomes what the page shows. |
| WorkoutDetail.CancelShowsSavedRow | apps/web/src/app/features/workouts/workout-detail.component.ts:114-133 | After cancelling, the page shows exactly the saved row. |
| WorkoutDetail.OnSave | apps/web/src/app/features/workouts/workout-detail.component.ts:139-153 | Nothing happens without a row or a pending edit. Success leaves edit mode, and failure records the message. |
| WorkoutDetail.SaveShowsSavedData | apps/web/src/app/features/workouts/workout-detail.component.ts:139-153 | Saving through the service shows the saved data, leaves edit mode and writes the data to the cached row. |
| WorkoutDetail.RevisionSettled | apps/web/src/app/features/workouts/workout-detail.component.ts:161-166 | A revision result becomes the pending edit; a failure sets the message and keeps the edit. |
| WorkoutDetail.OnWorkoutRevisionRequested | apps/web/src/app/features/workouts/workout-detail.component.ts:155-167 | With nothing shown nothing happens. Otherwise the revised workout becomes the pending edit or the error is shown, and stored state never changes. |
| WorkoutDetail.OnExerciseRevisionRequested | apps/web/src/app/features/workouts/workout-detail.component.ts:169-181 | The service revises that exercise of the shown workout, and the result becomes the pending edit. Missing elements and failures set the error, and stored state never changes. |
| WorkoutDetail.OnIntervalRevisionRequested | apps/web/src/app/features/workouts/workout-detail.component.ts:183-195 | The same for an interval. |
| WorkoutDetail.RevisionsArePendingOnly | apps/web/src/app/features/workouts/workout-detail.component.ts:155-195 | Whatever a revision returns, cancelling shows the saved row again. |
| WorkoutDetail.RevisedExerciseIsSaved | apps/web/src/app/features/workouts/workout-detail.component.ts:139-181 | A revised exercise that is then saved is what the current row holds. |
| ParamsForm.AddControls | apps/web/src/app/features/new-workout/components/workout-params-form.component.ts:315-361 | `addControl` adds new names and keeps an existing control as it is. |
| ParamsForm.SetupForWorkoutType | apps/web/src/app/features/new-workout/components/workout-params-form.component.ts:311-363 | Setup adds the type's controls and keeps every control already present. |
| ParamsForm.SetValue | apps/web/src/app/features/new-workout/components/workout-params-form.component.ts:296-302 | Setting a value changes that control's value only. |
| ParamsForm.ParseFloat | apps/web/src/app/features/new-workout/components/workout-params-form.component.ts:298 | `parseFloat` as the `min`/`max` validators apply it: a number is itself, a digit text reads as its decimal value, a text without a leading literal is NaN, and a value that is neither number nor text is NaN. |
| ParamsForm.Passes | apps/web/src/app/features/new-workout/components/workout-params-form.component.ts:298 | `required` fails exactly on an empty value and `min`/`max` pass on it; on a number or a digit text, `min`/`max` compare its value with the bound. |
| ParamsForm.OnSubmit | apps/web/src/app/features/new-workout/components/workout-params-form.component.ts:365-378 | An invalid form emits nothing. A valid one emits every non-empty raw value, as it is. |
| ParamsForm.SetupIdempotent | apps/web/src/app/features/new-workout/components/workout-params-form.component.ts:311-363 | Setting up the same type twice adds nothing more. |
| ParamsForm.HypertrophyFormShape | apps/web/src/app/features/new-workout/components/workout-params-form.component.ts:296-327 | The hypertrophy form has its six controls with the 45-minute and unticked defaults. |
| ParamsForm.StrengthFormShape | apps/web/src/app/features/new-workout/components/workout-params-form.component.ts:296-347 | The strength form has its six controls with the 45-minute and 75 % defaults. |
| ParamsForm.ConditioningFormShape | apps/web/src/app/features/new-workout/components/workout-params-form.component.ts:296-361 | The conditioning form has its six controls; the goal is optional. |
| ParamsForm.FreshFormInvalid | apps/web/src/app/features/new-workout/components/workout-params-form.component.ts:324-327 | A fresh form cannot be submitted, because the equipment select is required and empty. |
| ParamsForm.DurationRange | apps/web/src/app/features/new-workout/components/workout-params-form.component.ts:297-300 | A duration is accepted exactly from 10 to 180, and a null one never. |
| ParamsForm.DigitTextDurationRange | apps/web/src/app/features/new-workout/components/workout-params-form.component.ts:297-300 | A duration given as a digit text, such as '5', is checked by value too: it is accepted exactly from 10 to 180. |
| ParamsForm.DurationByValue | apps/web/src/app/features/new-workout/components/workout-params-form.component.ts:297-300 | Any non-empty value `parseFloat` reads as a number is a valid duration exactly when that number is from 10 to 180. |
| ParamsForm.ExponentTextRead | apps/web/src/app/features/new-workout/components/workout-params-form.component.ts:298 | A text in exponent notation, digits, `e`, digits, reads as the first number times ten to the second. |
| ParamsForm.ExponentTextDurationRange | apps/web/src/app/features/new-workout/components/workout-params-form.component.ts:297-300 | A duration in exponent notation is checked by the value it denotes: '1e3' is refused and '5e1' accepted. |
| ParamsForm.TextWithoutDigitsPassesBounds | apps/web/src/app/features/new-workout/components/workout-params-form.component.ts:297-300 | A text without digits reads as NaN, so `min` and `max` let it pass. |
| ParamsForm.LoadRange | apps/web/src/app/features/new-workout/components/workout-params-form.component.ts:334-339 | A load is accepted exactly from 1 to 100. |
| ParamsForm.SubmittedDurationInRange | apps/web/src/app/features/new-workout/components/workout-params-form.component.ts:365-378 | A submitted numeric duration is always within 10 to 180. |
| ParamsForm.FilledHypertrophyShape | apps/web/src/app/features/new-workout/components/workout-params-form.component.ts:314-327 | Filling the three selects changes only those controls. |
| ParamsForm.FilledHypertrophySubmits | apps/web/src/app/features/new-workout/components/workout-params-form.component.ts:365-378 | A filled hypertrophy form submits. The empty notes are dropped, while the unticked tempo and the default duration are kept. |
| ParamsForm.FilledHypertrophyValid | apps/web/src/app/features/new-workout/components/workout-params-form.component.ts:314-327 | A hypertrophy form with its selects filled is valid. |
| ParamsForm.ShapedControlValid | apps/web/src/app/features/new-workout/components/workout-params-form.component.ts:314-327 | Each control of such a form passes its validators. |
| ParamsForm.TypeChangeKeepsEarlierControls | apps/web/src/app/features/new-workout/components/workout-params-form.component.ts:305-308 | A type change on a live form keeps the earlier type's controls, because setup only adds. |
| RevisionInput.Expand | apps/web/src/app/features/new-workout/components/revision-input.component.ts:13 | The button opens the box with its text. |
| RevisionInput.Typed | apps/web/src/app/features/new-workout/components/revision-input.component.ts:27 | `maxlength` keeps at most the first 500 characters of the input. |
| RevisionInput.SubmitDisabled | apps/web/src/app/features/new-workout/components/revision-input.component.ts:44 | The Revise button is disabled exactly while loading or while the text is all whitespace. |
| RevisionInput.OnSubmit | apps/web/src/app/features/new-workout/components/revision-input.component.ts:84-89 | Emits the trimmed text exactly when it is not blank, and leaves the box as it is. |
| RevisionInput.OnCancel | apps/web/src/app/features/new-workout/components/revision-input.component.ts:91-94 | Cancelling clears the text and collapses the box. |
| RevisionInput.ResetAfterSuccess | apps/web/src/app/features/new-workout/components/revision-input.component.ts:96-99 | Resetting clears the text and collapses the box. |
| RevisionInput.CancelIsReset | apps/web/src/app/features/new-workout/components/revision-input.component.ts:91-99 | Cancel and reset leave the same, initial box. |
| RevisionInput.EnabledIffEmits | apps/web/src/app/features/new-workout/components/revision-input.component.ts:44 | The Revise button is enabled exactly when a submit emits, and the emitted text re-emits itself. |
| RevisionInput.EmittedTextIsValid | packages/shared/src/models/workout-revision/workout-revision-input.schema.ts:8 | Any emitted text has 1 to 500 characters, as the revision schemas require. |
| RevisionInput.UnicodeSpacesAreBlank | apps/web/src/app/features/new-workout/components/revision-input.component.ts:44-89 | A text of Unicode spaces (no-break, figure, ideographic space, byte-order mark) is blank: the button is disabled and a submit emits nothing. |
| Display.DifficultyLabel | apps/web/src/app/features/new-workout/components/workout-results.component.ts:165-168 | A rating of 1 to 5 gets its own label; every other rating reads 'Unknown'. |
| Display.DifficultyRating | apps/web/src/app/features/workouts/workouts.component.ts:121-124 | A text names a rating exactly when it is one of the five labels. |
| Display.DifficultyLabelRoundTrip | apps/web/src/app/shared/components/workout-editor/workout-editor.component.ts:270-273 | The labels of 1 to 5 name their ratings back; all others are 'Unknown'. |
| Display.ValidWorkoutHasKnownDifficulty | packages/shared/src/models/workout-output/hypertrophy-output.schema.ts:10 | A schema-valid workout always shows a known difficulty. |
| Display.CapitalizedEqualIff | apps/web/src/app/features/new-workout/components/interval-card.component.ts:76-78 | Two texts display alike exactly when they are equal or differ only in the case of their first letter. |
| Display.LowerCaseDisplayDistinct | apps/web/src/app/features/new-workout/components/interval-card.component.ts:76-78 | Distinct texts that start with a lower-case letter, such as the four intensities, keep distinct display texts. |
| Display.WorkoutTypeDisplayNames | apps/web/src/app/features/workouts/workouts.component.ts:117-119 | The types show as 'Hypertrophy', 'Strength' and 'Conditioning', and formatting again changes nothing. |
| Display.FormatDuration | apps/web/src/app/features/new-workout/components/interval-card.component.ts:61-74 | Zero shows 'None' and under a minute shows 'Ns'; otherwise the text starts with the minutes. |
| Display.DurationRoundTrip | apps/web/src/app/features/new-workout/components/exercise-card.component.ts:55-68 | Every non-negative duration's text reads back as that duration, so different durations never look alike. |
| Display.SpaceUnderscores | apps/web/src/app/features/workouts/workouts.component.ts:126-132 | Every underscore becomes a space and nothing else changes. |
| Display.SpaceUnderscoresInvertible | apps/web/src/app/features/workouts/workouts.component.ts:126-128 | A name without spaces is recovered from its display text. |
| Display.FormatModalityTitle | apps/web/src/app/features/new-workout/components/interval-card.component.ts:80-86 | Splitting on '_' and capitalising each piece: the text is the modality with underscores as spaces, with exactly the first character and each character after an underscore upper-cased; it keeps the length and shows no underscore. |
| Display.TypeBadgeClass | apps/web/src/app/features/workouts/workouts.component.ts:134-145 | Unknown types get the grey badge, and only they do. |
| Display.BadgeIffSameType | apps/web/src/app/features/workouts/workouts.component.ts:134-145 | Two type texts get the same badge exactly when they parse to the same type or both fail to parse, so the three types get three distinct badges. |
| Display.WeightCellOf | apps/web/src/app/features/new-workout/components/exercise-card.component.ts:36-40 | A weight shows with its unit, or 'lbs' when the unit is missing or empty; no weight shows a dash. |
| Display.ValidSetShowsKnownUnit | apps/web/src/app/features/new-workout/components/exercise-card.component.ts:36-40 | A schema-valid set shows one of the schema's units. |
| Text.Trim | apps/web/src/app/features/new-workout/components/revision-input.component.ts:85 | `trim` removes only surrounding whitespace: the result is a contiguous piece of the text, with whitespace-only runs cut on both sides, and has no whitespace at either end. |
| Text.TrimEmptyIffBlank | apps/web/src/app/features/new-workout/components/revision-input.component.ts:85-86 | A trimmed text is empty exactly when the text was all whitespace. |
| Text.TrimIdempotent | apps/web/src/app/features/new-workout/components/revision-input.component.ts:85 | Trimming twice is trimming once. |
| Text.Capitalize | apps/web/src/app/features/new-workout/components/interval-card.component.ts:76-78 | The first character becomes its upper case and every other character is kept; the length is kept and the empty string stays empty. |
| Text.CapitalizeIdempotent | apps/web/src/app/features/workouts/workouts.component.ts:117-119 | Capitalising twice is capitalising once. |
| Text.ReplaceChar | apps/web/src/app/features/workouts/workouts.component.ts:126-128 | Every occurrence of the character is replaced and every other character is kept in place. |
| Text.Split | apps/web/src/app/features/new-workout/components/interval-card.component.ts:82-83 | `split` gives one piece more than there are separators, and no piece holds the separator. |
| Text.JoinSplit | apps/web/src/app/features/new-workout/components/interval-card.component.ts:82-85 | Joining the pieces with the same separator gives the text back. |
| Text.ParseNatToString | apps/web/src/app/features/new-workout/components/interval-card.component.ts:67-71 | A number's decimal text reads back as that number. |
| Text.NatToStringInjective | apps/web/src/app/features/new-workout/components/interval-card.component.ts:67-71 | Distinct numbers never render as the same text. |
| Display.CapitalizeAll | apps/web/src/app/features/new-workout/components/interval-card.component.ts:84 | Mapping `capitalize` keeps the word count and capitalises each word in place. |
| PromptLoader.RewriteProperties | api/_lib/prompt-loader.ts:49 | The rewriting leaves no `$name` behind and keeps text without `$` unchanged. |
| PromptLoader.ConvertVars | apps/vercel/src/lib/prompt-loader.ts:43-46 | The same facts, for the rewriting both loaders share. |
| PromptLoader.EscapeBraces | api/_lib/prompt-loader.ts:47 | Escaping never shortens and keeps brace-free text unchanged. |
| PromptLoader.ConvertEscaping | api/_lib/prompt-loader.ts:45-51 | The shared loader's conversion leaves no `$name` and keeps plain text unchanged. |
| PromptLoader.ConvertPlain | apps/vercel/src/lib/prompt-loader.ts:43-46 | The vercel conversion leaves no `$name` and keeps text without `$` unchanged. |
| PromptLoader.FormatConvertEscaping | api/_lib/prompt-loader.ts:40-51 | Interpolating the escaped template gives exactly the text with every `$name` replaced by its value and every brace kept, for all inputs. |
| PromptLoader.FormatConvertPlain | apps/vercel/src/lib/prompt-loader.ts:40-46 | Without braces in the text, the vercel conversion is just as faithful. |
| PromptLoader.PlainRewritingBreaksOnBraces | apps/vercel/src/lib/prompt-loader.ts:43-46 | With a literal brace the vercel template fails to interpolate, while the escaped one keeps the brace. |
| PromptLoader.Convert | api/_lib/prompt-loader.ts:32 | Each deployment's loaded content has no `$name` left. |
| PromptLoader.LoadPrompt | api/_lib/prompt-loader.ts:24-38 | A read failure is re-thrown with the path. Otherwise only the content changes, by the conversion. |
| PromptLoader.SystemPromptPath | api/_lib/prompt-loader.ts:56-59 | System prompts live under `system/` with the prompt suffix. |
| PromptLoader.UserPromptPath | api/_lib/prompt-loader.ts:64-66 | User prompts carry the prompt suffix. |
| PromptLoader.WorkoutPromptPath | apps/vercel/src/lib/prompt-loader.ts:59-61 | Workout prompts are named `<type>_workout` plus the suffix. |
| PromptLoader.UserPromptPathRoundTrip | api/_lib/prompt-loader.ts:64-66 | A user prompt path gives its identifier back. |
| PromptLoader.SystemPromptPaths | api/_lib/prompt-loader.ts:56-66 | A system prompt is the user prompt of its `system/` identifier. |
| PromptLoader.VercelSystemPromptIsFitnessTrainer | apps/vercel/src/lib/prompt-loader.ts:51-54 | The vercel system prompt is the shared loader's `fitness_trainer` system prompt. |
| PromptLoader.WorkoutPromptPathsDistinct | apps/vercel/src/lib/prompt-loader.ts:59-61 | Each type has its own prompt file. |
| PromptLoader.LoadSystemPrompt | api/_lib/prompt-loader.ts:56-59 | Succeeds exactly when the file reads, and returns its converted content. |
| PromptLoader.Missing | api/_lib/prompt-loader.ts:74 | A name is missing exactly when it is declared and the input holds `undefined` under it or, not holding it, does not inherit it from `Object.prototype`. |
| PromptLoader.MissingConcat | api/_lib/prompt-loader.ts:74 | The missing names keep the declaration order. |
| PromptLoader.ValidatePromptVariables | api/_lib/prompt-loader.ts:71-79 | Without a declared list validation passes. Otherwise it passes exactly when no declared name is missing in that sense, and else names the missing ones in order. |
| PromptLoader.SupplyingAVariable | api/_lib/prompt-loader.ts:74 | Supplying a declared name, even as null, removes it from the complaint and leaves the other names as they were. |
| PromptLoader.InheritedNamesNeverMissing | api/_lib/prompt-loader.ts:74 | Declared names the input inherits, such as `toString`, are never missing, so the check passes on an input that does not set them. |
| GeneratorChain.OrDefault | apps/vercel/src/chains/workout-generator.chain.ts:62 | `x \|\| fallback` on text: an empty string takes the fallback. |
| GeneratorChain.OptionalOrDefault | apps/vercel/src/chains/workout-generator.chain.ts:65 | The same for an optional text. |
| GeneratorChain.LoadText | apps/vercel/src/chains/workout-generator.chain.ts:81 | The load text is never empty, and a missing load takes the auto-select text. |
| GeneratorChain.ToPromptInput | apps/vercel/src/chains/workout-generator.chain.ts:56-96 | The prompt input has exactly the eight base keys plus the three keys of the input's type. |
| GeneratorChain.SpreadKeepsFields | apps/vercel/src/chains/workout-generator.chain.ts:56-96 | The spread overrides no field: each base and each type field keeps its own value. |
| GeneratorChain.KeysDisjoint | apps/vercel/src/chains/workout-generator.chain.ts:68-91 | No type key overrides a base key in the spread. |
| GeneratorChain.AgeCarried | apps/vercel/src/chains/workout-generator.chain.ts:58 | The age is passed through as a number. |
| GeneratorChain.DurationCarried | apps/vercel/src/chains/workout-generator.chain.ts:63 | The duration is passed through as a number. |
| GeneratorChain.LimitationsDefaulted | apps/vercel/src/chains/workout-generator.chain.ts:62 | Limitations are passed through unless empty, when 'None reported' is used. The default shows exactly when the input is empty or already 'None reported'. |
| GeneratorChain.NotesDefaulted | apps/vercel/src/chains/workout-generator.chain.ts:65 | Equipment notes are defaulted the same way, to 'None specified'. |
| GeneratorChain.TempoRoundTrip | apps/vercel/src/chains/workout-generator.chain.ts:73 | The tempo text is 'true' exactly when tempo is on, and is always 'true' or 'false'. |
| GeneratorChain.LoadRoundTrip | apps/vercel/src/chains/workout-generator.chain.ts:81 | A given load's text parses back to it, and the default text is not a number. |
| GeneratorChain.NoEmptyText | apps/vercel/src/chains/workout-generator.chain.ts:56-96 | For a valid input no prompt variable is an empty text. |
| GeneratorChain.BaseTextsNonEmpty | apps/vercel/src/chains/workout-generator.chain.ts:57-66 | The base texts are non-empty when the unit and the equipment are. |
| GeneratorChain.TypeTextsNonEmpty | apps/vercel/src/chains/workout-generator.chain.ts:68-91 | The type texts are non-empty when the type's selects are. |
| GeneratorChain.GetOutputSchema | apps/vercel/src/chains/workout-generator.chain.ts:101-112 | Each type literal gets its own schema, and anything else is the 'Unknown workout type' error. |
| GeneratorChain.SchemaMatchesInputType | apps/vercel/src/chains/workout-generator.chain.ts:133-136 | The schema chosen for an input accepts only workouts of that input's type. |
| GeneratorChain.GetSystemPromptAsWritten | apps/vercel/src/chains/workout-generator.chain.ts:21-26 | As written, a missing or empty cached system prompt is read again. |
| GeneratorChain.GetSystemPrompt | apps/vercel/src/chains/workout-generator.chain.ts:21-26 | Corrected: the system prompt is read only when nothing is cached, and the cached text is returned. |
| GeneratorChain.GetWorkoutPrompt | apps/vercel/src/chains/workout-generator.chain.ts:31-37 | A type's prompt is read only when not cached, and other cached types are kept. |
| GeneratorChain.BuildPromptTemplate | apps/vercel/src/chains/workout-generator.chain.ts:42-50 | Under either lookup, building caches both prompts and reads exactly the prompts the lookup does not serve from the cache, system first. As written, an empty cached system prompt is not served; with the corrected lookup, or a non-empty prompt, a read system prompt is served from then on. |
| GeneratorChain.Run | apps/vercel/src/chains/workout-generator.chain.ts:14-50 | Under either lookup, what the cache serves before a sequence of builds it still serves after. |
| GeneratorChain.BuildReadsUncachedOnce | apps/vercel/src/chains/workout-generator.chain.ts:42-50 | Under either lookup, one build reads each prompt at most once and never one the cache serves; the system prompt is read exactly when not served. |
| GeneratorChain.EachPromptReadAtMostOnce | apps/vercel/src/chains/workout-generator.chain.ts:14-50 | Over any sequence of builds each prompt file is read at most once, and never when served at the start: with the corrected lookup always, and as written when the system prompt is not empty. |
| GeneratorChain.EmptySystemPromptReread | apps/vercel/src/chains/workout-generator.chain.ts:22-23 | As written, an empty system prompt is read again on the next call; corrected, it is not. |
| GeneratorChain.EmptySystemPromptReadEveryBuild | apps/vercel/src/chains/workout-generator.chain.ts:21-26 | As written, an empty system prompt is read again on every one of a sequence of builds. |
| GeneratorChain.ClearPromptCache | apps/vercel/src/chains/workout-generator.chain.ts:162-165 | After clearing, nothing is cached. |
| GeneratorChain.ClearedCacheReadsAgain | apps/vercel/src/chains/workout-generator.chain.ts:159-165 | Under either lookup, after clearing, the next build reads both prompts again. |
| ApiErrors.ValidationError | apps/vercel/src/lib/errors.ts:15-20 | Status 400 with code `VALIDATION_ERROR`, keeping the message and details. |
| ApiErrors.AuthenticationError | apps/vercel/src/lib/errors.ts:22-27 | Status 401 with code `AUTHENTICATION_ERROR`; the message defaults to 'Authentication required'. |
| ApiErrors.ForbiddenError | apps/vercel/src/lib/errors.ts:29-34 | Status 403 with code `FORBIDDEN_ERROR`; the message defaults to 'Access denied'. |
| ApiErrors.NotFoundError | apps/vercel/src/lib/errors.ts:36-41 | Status 404 with code `NOT_FOUND_ERROR`; the message defaults to 'Resource not found'. |
| ApiErrors.AIGenerationError | apps/vercel/src/lib/errors.ts:43-48 | Status 502 with code `AI_GENERATION_ERROR`, keeping the message and details. |
| ApiErrors.ErrorName | apps/vercel/src/lib/errors.ts:78-81 | The name, falling back to the constructor's name, then to ''. |
| ApiErrors.IsAIGenerationRelated | apps/vercel/src/lib/errors.ts:82-87 | An error is AI-related exactly when "Anthropic", "LangChain" or "LLM" occurs somewhere in its name, or "Anthropic" somewhere in its message; the test is case-sensitive. |
| ApiErrors.HandleError | apps/vercel/src/lib/errors.ts:50-107 | An API error keeps its status, message and code, with details only outside production and when present. Issues give 400. An AI-related `Error` gives 502 (in both directions), with its message only outside production. Everything else gives 500 'Internal server error'. |
| ApiErrors.ClassStatuses | apps/vercel/src/lib/errors.ts:15-61 | Each error class answers with its own status in every environment. |
| ApiErrors.ProductionHidesDetails | apps/vercel/src/lib/errors.ts:58-94 | In production only a validation failure's issues are sent as details. |
| ApiErrors.AIFailuresAgree | apps/vercel/src/lib/errors.ts:43-98 | A thrown `AIGenerationError` and an SDK error naming Anthropic reach the client with the same status and code. |
| Auth.AuthenticateRequest | apps/vercel/src/lib/auth.ts:11-26 | Succeeds exactly when the header starts with `Bearer ` and the provider accepts the rest. The token is the header without the prefix, and the user is what the provider returned. Failures are 401s with the two distinct messages. |
| Auth.BearerRoundTrip | apps/vercel/src/lib/auth.ts:14-19 | A `Bearer ` header carries its token through exactly. |
| Auth.SchemeIsCaseSensitive | apps/vercel/src/lib/auth.ts:14-16 | A lower-case `bearer`, or a header with no token separator, is refused. |

## Left out

- Session storage of the form state and the component-level navigation are left out. `loadWorkouts` and `loadWorkout` are also left out: they read the remote table and the cache, which are parameters here.
- `indexedDb.updateWorkout`, which the workout service calls, is not defined in `indexed-db.service.ts`. `WorkoutFlow.UpdateCachedWorkout` models it as a patch of the row with that id that does nothing when there is none.
- Local-store calls are taken to succeed. A local write that throws inside a service's fallback is not modelled.
- The drain pass replays against remote outcomes given as parameters. Console logging, `crypto.randomUUID`, `Date.now` and `new Date()` are parameters or left out.
- The reads with other orderings (`getWorkoutSessions` in reverse `started_at` order, `getSessionSets`, `getTrainingPlans`, `getPlanWorkouts`, `getUnsyncedSessions`) and `getExercises`/`getExerciseById` are left out. The rows of those tables are opaque records, and only their `put` and `delete` are modelled.
- `WorkoutEditor.SetAt`: an index beyond the end would create holes in a JavaScript array, which a sequence cannot hold. The model requires the index to be at most the length.
- `PromptLoader.ValidatePromptVariables`: the input is taken to be a plain object whose prototype is `Object.prototype`. An input made with `Object.create(null)`, or one whose prototype chain holds other names, is not modelled.
- `RevisionInput.Typed`: `maxlength` counts UTF-16 code units, while the model counts characters.
- `Text.Capitalize`: `toUpperCase` is modelled on the ASCII letters only. Other letters, such as 'é', stay as they are, and a letter whose upper case is longer ('ß' to 'SS') keeps its length. The workout-type and intensity formatters, `Display.CapitalizeAll` and `Display.FormatModalityTitle` inherit this. `Text.Trim` strips the full set of ECMAScript white-space and line-terminator characters.
- `ParamsForm` models a number value as a real. Angular's `min`/`max` validators read the value with `parseFloat`, and the model does too, with NaN as no value.
- `ParamsForm.ParseFloat`: `'Infinity'` reads as NaN, so it passes `min`/`max` in the model while Angular compares Infinity. Values are exact reals, so a huge or tiny exponent (`'1e400'`) gives a huge or tiny number instead of Infinity or 0, and no rounding occurs. An object or array whose text form starts with a number (`[5]`) is NaN, because objects are opaque. The form's controls hold numbers and select texts, so none of these arise from the template.
- `Display.FormatDuration`: JavaScript number formatting of fractional seconds is left out, because durations are integers. Difficulty ratings are integers too.
- `PromptLoader` checks the f-string interpolation of the converted text against a reference interpolation (`Format`), not against the library's own implementation. YAML parsing and the file system are the `read` parameter.
- `GeneratorChain`: the model call, `WorkoutInputSchema.parse` and the returned `generatedAt` clock in `generateWorkout` are left out. The model covers the prompt building, the cache, the input mapping and the schema choice. The `default:` branch of `toPromptInput` cannot be reached with a typed input.
- `GeneratorChain.BuildPromptTemplate`: the prompt `load` is a total function, so a prompt file that is missing or fails to parse, which throws in the source, is not modelled.
- `GeneratorChain.ToPromptInput`: the user's weight is carried as a real number, and number-to-text formatting is left to the prompt library.
- `ApiErrors`: `details` is kept as an optional text, and a falsy `details` value counts as absent. The `console.error` call and the response object are left out.
- `Auth`: the identity provider's `verifyToken` is a parameter, and its asynchrony is left out.
- `OfflineSync`: `syncStatus` between passes and `isSyncing` during a pass are observable only at transition boundaries.

## Findings

| source | as written | input that shows it | evidently intended | confidence | as-written member | corrected member |
|---|---|---|---|---|---|---|
| apps/web/src/app/core/services/offline-sync.service.ts:100-113 | `operation.retries++` changes only the copy read for this pass and is never stored, so the next pass reads zero retries again. | An operation queued with 0 retries whose replay is rejected on every pass stays queued forever and is counted as failed each time. | Store the incremented count, so an operation is dropped on its sixth rejected pass. | not executed | OfflineSync.AsWrittenNeverDrops | OfflineSync.WriteBackDropsAfterSixFailures |
| apps/vercel/src/chains/workout-generator.chain.ts:21-26 | `if (!systemPromptContent)` treats a cached empty prompt as not cached. | A system prompt file whose content is the empty string is read again on every build. | Read the file only when nothing is cached, as the workout-prompt cache does with `has`. | not executed | GeneratorChain.EmptySystemPromptReread | GeneratorChain.GetSystemPrompt |
