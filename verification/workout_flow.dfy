/** The workout service: the generation flow (type selection, parameters, generation,
    results), revision of the generated or a saved workout by element index, saving with
    an offline fallback, and the saved-workout list updates after delete and update.
    Every remote or AI call is an outcome parameter; each asynchronous method is one
    atomic transition that returns the new service state and what the call throws. */
module WorkoutFlow {
  import opened Wrappers
  import opened Js
  import opened Enums
  import opened OutputSchema
  import opened InputSchema
  import opened LocalDb
  import OfflineSync

  datatype FlowStep = TypeSelection | Params | Generating | Results

  /** `WorkoutFormState`. */
  datatype FormState = FormState(
    step: FlowStep,
    selectedType: Option<WorkoutType>,
    params: Option<map<string, JsValue>>,
    generatedWorkout: Option<WorkoutOutput>,
    originalInput: Option<GenerationInput>,
    error: Option<string>)

  const InitialForm := FormState(TypeSelection, None, None, None, None, None)

  /** The service's state: the form plus the save, revision and list signals, and the
      local store it falls back on. */
  datatype Service = Service(
    form: FormState,
    isSaving: bool,
    isRevising: bool,
    revisingExerciseIndex: Option<int>,
    revisingIntervalIndex: Option<int>,
    savedWorkoutId: Option<string>,
    workouts: seq<WorkoutRow>,
    currentWorkout: Option<WorkoutRow>,
    isLoadingWorkouts: bool,
    isDeleting: bool,
    db: Database)

  /** A thrown value: an `Error` carries a message; anything else does not. */
  datatype Thrown = ErrorValue(message: string) | OtherValue

  /** `err instanceof Error ? err.message : fallback`. */
  function MessageOr(t: Thrown, fallback: string): (r: string)
    ensures t.ErrorValue? ==> r == t.message
    ensures t.OtherValue? ==> r == fallback
  {
    match t
    case ErrorValue(m) => m
    case OtherValue => fallback
  }

  /** How an awaited AI call settled. */
  datatype ApiResult<T> = ApiOk(value: T) | ApiFail(thrown: Thrown)

  /** How a remote table write settled: resolved cleanly, resolved with an `{error}`
      object (which the service re-throws), or rejected. */
  datatype RemoteWrite = WriteOk | WriteErrorResult | WriteRejected

  /** A transition's new state and what the call returns or throws. */
  datatype Outcome<T> = Outcome(state: Service, result: Result<T, Thrown>)

  /** No save, revision or delete is in flight. */
  predicate Idle(s: Service) {
    && !s.isSaving && !s.isRevising && !s.isDeleting
    && s.revisingExerciseIndex.None? && s.revisingIntervalIndex.None?
  }

  /** What the flow keeps true between transitions: a parameters or generating step has
      a type; a results step has a workout and the input it was generated from, of the
      selected type. */
  predicate FlowInvariant(f: FormState) {
    && (f.step == Params || f.step == Generating ==> f.selectedType.Some?)
    && (f.step == Results ==>
          && f.selectedType.Some? && f.generatedWorkout.Some? && f.originalInput.Some?
          && f.originalInput.value.workoutType == f.selectedType.value)
  }

  // ----- flow transitions -----

  /** `selectWorkoutType`. */
  function SelectWorkoutType(s: Service, t: WorkoutType): (r: Service)
    ensures r.form.selectedType == Some(t) && r.form.step == Params && r.form.error.None?
    ensures r.form.(selectedType := s.form.selectedType, step := s.form.step, error := s.form.error) == s.form
    ensures r.(form := s.form) == s
  {
    s.(form := s.form.(selectedType := Some(t), step := Params, error := None))
  }

  /** `goBack`: parameters go back to type selection and results to parameters, clearing
      the error; any other step is left alone. */
  function GoBack(s: Service): (r: Service)
    ensures s.form.step == Params ==> r.form.step == TypeSelection && r.form.error.None?
    ensures s.form.step == Results ==> r.form.step == Params && r.form.error.None?
    ensures s.form.step !in {Params, Results} ==> r == s
    ensures r.form.(step := s.form.step, error := s.form.error) == s.form
    ensures r.(form := s.form) == s
  {
    match s.form.step
    case Params => s.(form := s.form.(step := TypeSelection, error := None))
    case Results => s.(form := s.form.(step := Params, error := None))
    case _ => s
  }

  /** The state while `generateWorkout` awaits the API: step `generating`, the parameters
      recorded, the error and the saved id cleared. */
  function BeginGeneration(s: Service, params: map<string, JsValue>): (r: Service)
    ensures r.form.step == Generating && r.form.params == Some(params) && r.form.error.None?
    ensures r.savedWorkoutId.None?
    ensures r.form.(step := s.form.step, params := s.form.params, error := s.form.error) == s.form
    ensures r.(form := s.form, savedWorkoutId := s.savedWorkoutId) == s
  {
    s.(form := s.form.(step := Generating, params := Some(params), error := None), savedWorkoutId := None)
  }

  /** `generateWorkout`: without a profile or a selected type it throws before touching
      anything; otherwise it records the parameters, and on success moves to the results
      with the generated workout and the full input, on failure back to the parameters
      with the error (re-throwing). */
  function GenerateWorkout(s: Service, params: map<string, JsValue>, profile: Option<UserProfile>,
                           result: ApiResult<WorkoutOutput>): (r: Outcome<()>)
    ensures profile.None? ==>
      r == Outcome(s, Err(ErrorValue("User profile required to generate workout")))
    ensures profile.Some? && s.form.selectedType.None? ==>
      r == Outcome(s, Err(ErrorValue("Workout type not selected")))
    ensures profile.Some? && s.form.selectedType.Some? ==>
      && r.state.form.params == Some(params)
      && r.state.savedWorkoutId.None?
      && r.state.form.selectedType == s.form.selectedType
      && (result.ApiOk? ==>
            && r.result.Ok?
            && r.state.form.step == Results
            && r.state.form.generatedWorkout == Some(result.value)
            && r.state.form.originalInput == Some(GenerationInput(params, s.form.selectedType.value, profile.value))
            && r.state.form.error.None?)
      && (result.ApiFail? ==>
            && r.result == Err(result.thrown)
            && r.state.form.step == Params
            && r.state.form.generatedWorkout == s.form.generatedWorkout
            && r.state.form.originalInput == s.form.originalInput
            && r.state.form.error == Some(MessageOr(result.thrown, "Failed to generate workout")))
    ensures r.state.(form := s.form, savedWorkoutId := s.savedWorkoutId) == s
  {
    if profile.None? then Outcome(s, Err(ErrorValue("User profile required to generate workout")))
    else if s.form.selectedType.None? then Outcome(s, Err(ErrorValue("Workout type not selected")))
    else
      var input := GenerationInput(params, s.form.selectedType.value, profile.value);
      var g := BeginGeneration(s, params);
      match result
      case ApiOk(w) =>
        Outcome(g.(form := g.form.(step := Results, generatedWorkout := Some(w),
                                    originalInput := Some(input), error := None)), Ok(()))
      case ApiFail(t) =>
        Outcome(g.(form := g.form.(step := Params, error := Some(MessageOr(t, "Failed to generate workout")))),
                Err(t))
  }

  /** `updateWorkout`: a manual edit replaces the generated workout. */
  function UpdateWorkout(s: Service, w: WorkoutOutput): (r: Service)
    ensures r.form.generatedWorkout == Some(w)
    ensures r.form.(generatedWorkout := s.form.generatedWorkout) == s.form
    ensures r.(form := s.form) == s
  {
    s.(form := s.form.(generatedWorkout := Some(w)))
  }

  /** `reset`: the form returns to its initial state and the saved id is cleared. */
  function Reset(s: Service): (r: Service)
    ensures r.form == InitialForm && r.savedWorkoutId.None?
    ensures r.(form := s.form, savedWorkoutId := s.savedWorkoutId) == s
  {
    s.(form := InitialForm, savedWorkoutId := None)
  }

  // ----- element replacement -----

  /** `[...xs]` followed by `copy[i] = v` for an index of an existing element. */
  function ReplaceAt<T>(xs: seq<T>, i: int, v: T): (r: seq<T>)
    requires 0 <= i < |xs|
    ensures |r| == |xs| && r[i] == v
    ensures forall j :: 0 <= j < |xs| && j != i ==> r[j] == xs[j]
  {
    xs[i := v]
  }

  /** `exercises[i]` is an existing element: `!exercise` holds exactly off the end. */
  predicate HasExercise(w: WorkoutOutput, i: int) {
    !w.ConditioningOutput? && 0 <= i < |w.exercises|
  }

  predicate HasInterval(w: WorkoutOutput, i: int) {
    w.ConditioningOutput? && 0 <= i < |w.intervals|
  }

  /** `{ ...workout, exercises: updatedExercises }`. */
  function WithExercise(w: WorkoutOutput, i: int, e: Exercise): (r: WorkoutOutput)
    requires HasExercise(w, i)
    ensures !r.ConditioningOutput? && r.exercises == ReplaceAt(w.exercises, i, e)
    ensures r.(exercises := w.exercises) == w
  {
    w.(exercises := ReplaceAt(w.exercises, i, e))
  }

  /** `{ ...workout, intervals: updatedIntervals }`. */
  function WithInterval(w: WorkoutOutput, i: int, iv: Interval): (r: WorkoutOutput)
    requires HasInterval(w, i)
    ensures r.ConditioningOutput? && r.intervals == ReplaceAt(w.intervals, i, iv)
    ensures r.(intervals := w.intervals) == w
  {
    w.(intervals := ReplaceAt(w.intervals, i, iv))
  }

  /** Replacing one exercise by a valid one keeps a valid workout valid, of the same type. */
  lemma WithExerciseKeepsValid(w: WorkoutOutput, i: int, e: Exercise)
    requires HasExercise(w, i) && ValidWorkoutOutput(w) && ValidExercise(e)
    ensures ValidWorkoutOutput(WithExercise(w, i, e))
    ensures WorkoutTypeOf(WithExercise(w, i, e)) == WorkoutTypeOf(w)
  {
    var r := WithExercise(w, i, e);
    assert forall j :: 0 <= j < |r.exercises| ==> ValidExercise(r.exercises[j]) by {
      forall j | 0 <= j < |r.exercises| ensures ValidExercise(r.exercises[j]) {
        if j != i { assert r.exercises[j] == w.exercises[j]; }
      }
    }
  }

  /** Replacing one interval by a valid one keeps a valid conditioning workout valid. */
  lemma WithIntervalKeepsValid(w: WorkoutOutput, i: int, iv: Interval)
    requires HasInterval(w, i) && ValidWorkoutOutput(w) && ValidInterval(iv)
    ensures ValidWorkoutOutput(WithInterval(w, i, iv))
    ensures WorkoutTypeOf(WithInterval(w, i, iv)) == Conditioning
  {
    var r := WithInterval(w, i, iv);
    assert forall j :: 0 <= j < |r.intervals| ==> ValidInterval(r.intervals[j]) by {
      forall j | 0 <= j < |r.intervals| ensures ValidInterval(r.intervals[j]) {
        if j != i { assert r.intervals[j] == w.intervals[j]; }
      }
    }
  }

  // ----- revisions of the generated workout -----

  /** What every revision does once its call settles: a revised workout replaces the
      shown one and clears the error; a failure keeps the shown workout, sets the error
      from the thrown value (or the fallback) and re-throws; `isRevising` ends false. */
  function FinishRevision(s: Service, revised: ApiResult<WorkoutOutput>, fallback: string): (r: Outcome<()>)
    ensures !r.state.isRevising
    ensures revised.ApiOk? ==>
      r.result.Ok? && r.state.form.generatedWorkout == Some(revised.value) && r.state.form.error.None?
    ensures revised.ApiFail? ==>
      && r.result == Err(revised.thrown)
      && r.state.form.generatedWorkout == s.form.generatedWorkout
      && r.state.form.error == Some(MessageOr(revised.thrown, fallback))
    ensures r.state.form.(generatedWorkout := s.form.generatedWorkout, error := s.form.error) == s.form
    ensures r.state.(form := s.form, isRevising := s.isRevising) == s
  {
    match revised
    case ApiOk(w) => Outcome(s.(isRevising := false, form := s.form.(error := None, generatedWorkout := Some(w))), Ok(()))
    case ApiFail(t) => Outcome(s.(isRevising := false, form := s.form.(error := Some(MessageOr(t, fallback)))), Err(t))
  }

  /** The revised workout an exercise call yields: the workout with exercise `i` replaced. */
  function ExerciseApplied(w: WorkoutOutput, i: int, result: ApiResult<Exercise>): (r: ApiResult<WorkoutOutput>)
    requires HasExercise(w, i)
    ensures result.ApiOk? ==> r == ApiOk(WithExercise(w, i, result.value))
    ensures result.ApiFail? ==> r == ApiFail(result.thrown)
  {
    match result
    case ApiOk(e) => ApiOk(WithExercise(w, i, e))
    case ApiFail(t) => ApiFail(t)
  }

  /** The revised workout an interval call yields: the workout with interval `i` replaced. */
  function IntervalApplied(w: WorkoutOutput, i: int, result: ApiResult<Interval>): (r: ApiResult<WorkoutOutput>)
    requires HasInterval(w, i)
    ensures result.ApiOk? ==> r == ApiOk(WithInterval(w, i, result.value))
    ensures result.ApiFail? ==> r == ApiFail(result.thrown)
  {
    match result
    case ApiOk(iv) => ApiOk(WithInterval(w, i, iv))
    case ApiFail(t) => ApiFail(t)
  }

  /** There is a generated workout and the input it came from. */
  predicate HasContext(s: Service) {
    s.form.generatedWorkout.Some? && s.form.originalInput.Some?
  }

  /** `reviseWorkout`: needs a workout and its input; on success the workout is replaced,
      on failure it stays and the error is set; either way `isRevising` ends false. */
  function ReviseWorkout(s: Service, result: ApiResult<WorkoutOutput>): (r: Outcome<()>)
    ensures !HasContext(s) ==> r == Outcome(s, Err(ErrorValue("No workout to revise")))
    ensures HasContext(s) ==>
      && !r.state.isRevising
      && (result.ApiOk? ==> r.result.Ok? && r.state.form.generatedWorkout == Some(result.value)
                             && r.state.form.error.None?)
      && (result.ApiFail? ==>
            r.result == Err(result.thrown)
            && r.state.form.generatedWorkout == s.form.generatedWorkout
            && r.state.form.error == Some(MessageOr(result.thrown, "Failed to revise workout")))
      && r.state.form.(generatedWorkout := s.form.generatedWorkout, error := s.form.error) == s.form
      && r.state.(form := s.form, isRevising := s.isRevising) == s
  {
    if !HasContext(s) then Outcome(s, Err(ErrorValue("No workout to revise")))
    else FinishRevision(s, result, "Failed to revise workout")
  }

  /** `reviseExercise`: rejects a missing context, a conditioning workout and an index with
      no exercise, in that order, without touching anything; otherwise only exercise `i`
      changes on success, nothing changes on failure except the error, and the revision
      flags end cleared. */
  function ReviseExercise(s: Service, i: int, result: ApiResult<Exercise>): (r: Outcome<()>)
    ensures !HasContext(s) ==>
      r == Outcome(s, Err(ErrorValue("No workout context for exercise revision")))
    ensures HasContext(s) && s.form.generatedWorkout.value.ConditioningOutput? ==>
      r == Outcome(s, Err(ErrorValue("Cannot revise exercises on conditioning workouts")))
    ensures HasContext(s) && !s.form.generatedWorkout.value.ConditioningOutput?
            && !HasExercise(s.form.generatedWorkout.value, i) ==>
      r == Outcome(s, Err(ErrorValue("Exercise not found")))
    ensures HasContext(s) && HasExercise(s.form.generatedWorkout.value, i) ==>
      && !r.state.isRevising && r.state.revisingExerciseIndex.None?
      && (result.ApiOk? ==>
            r.result.Ok?
            && r.state.form.generatedWorkout == Some(WithExercise(s.form.generatedWorkout.value, i, result.value))
            && r.state.form.error.None?)
      && (result.ApiFail? ==>
            r.result == Err(result.thrown)
            && r.state.form.generatedWorkout == s.form.generatedWorkout
            && r.state.form.error == Some(MessageOr(result.thrown, "Failed to revise exercise")))
      && r.state.form.(generatedWorkout := s.form.generatedWorkout, error := s.form.error) == s.form
      && r.state.(form := s.form, isRevising := s.isRevising, revisingExerciseIndex := s.revisingExerciseIndex) == s
  {
    if !HasContext(s) then Outcome(s, Err(ErrorValue("No workout context for exercise revision")))
    else
      var w := s.form.generatedWorkout.value;
      if w.ConditioningOutput? then Outcome(s, Err(ErrorValue("Cannot revise exercises on conditioning workouts")))
      else if !HasExercise(w, i) then Outcome(s, Err(ErrorValue("Exercise not found")))
      else FinishRevision(s.(revisingExerciseIndex := None), ExerciseApplied(w, i, result), "Failed to revise exercise")
  }

  /** `reviseInterval`: the same for an interval of a conditioning workout. */
  function ReviseInterval(s: Service, i: int, result: ApiResult<Interval>): (r: Outcome<()>)
    ensures !HasContext(s) ==>
      r == Outcome(s, Err(ErrorValue("No workout context for interval revision")))
    ensures HasContext(s) && !s.form.generatedWorkout.value.ConditioningOutput? ==>
      r == Outcome(s, Err(ErrorValue("Can only revise intervals on conditioning workouts")))
    ensures HasContext(s) && s.form.generatedWorkout.value.ConditioningOutput?
            && !HasInterval(s.form.generatedWorkout.value, i) ==>
      r == Outcome(s, Err(ErrorValue("Interval not found")))
    ensures HasContext(s) && HasInterval(s.form.generatedWorkout.value, i) ==>
      && !r.state.isRevising && r.state.revisingIntervalIndex.None?
      && (result.ApiOk? ==>
            r.result.Ok?
            && r.state.form.generatedWorkout == Some(WithInterval(s.form.generatedWorkout.value, i, result.value))
            && r.state.form.error.None?)
      && (result.ApiFail? ==>
            r.result == Err(result.thrown)
            && r.state.form.generatedWorkout == s.form.generatedWorkout
            && r.state.form.error == Some(MessageOr(result.thrown, "Failed to revise interval")))
      && r.state.form.(generatedWorkout := s.form.generatedWorkout, error := s.form.error) == s.form
      && r.state.(form := s.form, isRevising := s.isRevising, revisingIntervalIndex := s.revisingIntervalIndex) == s
  {
    if !HasContext(s) then Outcome(s, Err(ErrorValue("No workout context for interval revision")))
    else
      var w := s.form.generatedWorkout.value;
      if !w.ConditioningOutput? then Outcome(s, Err(ErrorValue("Can only revise intervals on conditioning workouts")))
      else if !HasInterval(w, i) then Outcome(s, Err(ErrorValue("Interval not found")))
      else FinishRevision(s.(revisingIntervalIndex := None), IntervalApplied(w, i, result), "Failed to revise interval")
  }

  // ----- revisions of a saved workout (returned, not stored) -----

  /** The saved row the `reviseSaved…` methods read their context from has an input. */
  predicate HasSavedContext(s: Service) {
    s.currentWorkout.Some? && s.currentWorkout.value.input.Some?
  }

  /** `reviseSavedWorkout`: returns the revised workout and changes no stored state. */
  function ReviseSavedWorkout(s: Service, result: ApiResult<WorkoutOutput>): (r: Outcome<WorkoutOutput>)
    ensures !HasSavedContext(s) ==>
      r == Outcome(s, Err(ErrorValue("No saved workout context for revision")))
    ensures HasSavedContext(s) ==>
      && r.state == s.(isRevising := false)
      && (result.ApiOk? ==> r.result == Ok(result.value))
      && (result.ApiFail? ==> r.result == Err(result.thrown))
  {
    if !HasSavedContext(s) then Outcome(s, Err(ErrorValue("No saved workout context for revision")))
    else
      match result
      case ApiOk(w) => Outcome(s.(isRevising := false), Ok(w))
      case ApiFail(t) => Outcome(s.(isRevising := false), Err(t))
  }

  /** `reviseSavedExercise`: the same checks as `reviseExercise` against the given
      workout; returns it with only exercise `i` replaced. */
  function ReviseSavedExercise(s: Service, w: WorkoutOutput, i: int, result: ApiResult<Exercise>): (r: Outcome<WorkoutOutput>)
    ensures !HasSavedContext(s) ==>
      r == Outcome(s, Err(ErrorValue("No saved workout context for exercise revision")))
    ensures HasSavedContext(s) && w.ConditioningOutput? ==>
      r == Outcome(s, Err(ErrorValue("Cannot revise exercises on conditioning workouts")))
    ensures HasSavedContext(s) && !w.ConditioningOutput? && !HasExercise(w, i) ==>
      r == Outcome(s, Err(ErrorValue("Exercise not found")))
    ensures HasSavedContext(s) && HasExercise(w, i) ==>
      && r.state == s.(isRevising := false, revisingExerciseIndex := None)
      && (result.ApiOk? ==> r.result == Ok(WithExercise(w, i, result.value)))
      && (result.ApiFail? ==> r.result == Err(result.thrown))
  {
    if !HasSavedContext(s) then Outcome(s, Err(ErrorValue("No saved workout context for exercise revision")))
    else if w.ConditioningOutput? then Outcome(s, Err(ErrorValue("Cannot revise exercises on conditioning workouts")))
    else if !HasExercise(w, i) then Outcome(s, Err(ErrorValue("Exercise not found")))
    else
      var done := s.(isRevising := false, revisingExerciseIndex := None);
      match result
      case ApiOk(e) => Outcome(done, Ok(WithExercise(w, i, e)))
      case ApiFail(t) => Outcome(done, Err(t))
  }

  /** `reviseSavedInterval`. */
  function ReviseSavedInterval(s: Service, w: WorkoutOutput, i: int, result: ApiResult<Interval>): (r: Outcome<WorkoutOutput>)
    ensures !HasSavedContext(s) ==>
      r == Outcome(s, Err(ErrorValue("No saved workout context for interval revision")))
    ensures HasSavedContext(s) && !w.ConditioningOutput? ==>
      r == Outcome(s, Err(ErrorValue("Can only revise intervals on conditioning workouts")))
    ensures HasSavedContext(s) && w.ConditioningOutput? && !HasInterval(w, i) ==>
      r == Outcome(s, Err(ErrorValue("Interval not found")))
    ensures HasSavedContext(s) && HasInterval(w, i) ==>
      && r.state == s.(isRevising := false, revisingIntervalIndex := None)
      && (result.ApiOk? ==> r.result == Ok(WithInterval(w, i, result.value)))
      && (result.ApiFail? ==> r.result == Err(result.thrown))
  {
    if !HasSavedContext(s) then Outcome(s, Err(ErrorValue("No saved workout context for interval revision")))
    else if !w.ConditioningOutput? then Outcome(s, Err(ErrorValue("Can only revise intervals on conditioning workouts")))
    else if !HasInterval(w, i) then Outcome(s, Err(ErrorValue("Interval not found")))
    else
      var done := s.(isRevising := false, revisingIntervalIndex := None);
      match result
      case ApiOk(iv) => Outcome(done, Ok(WithInterval(w, i, iv)))
      case ApiFail(t) => Outcome(done, Err(t))
  }

  // ----- saving, deleting and updating saved workouts -----

  /** The sync operation an offline fallback queues: a fresh id, the `workouts` table,
      the target row's id in its data, and zero retries. */
  function FallbackOperation(opId: string, opType: SyncOpType, rowId: string, payload: SyncPayload, timestamp: int): (r: SyncOperation)
    ensures r.id == opId && r.opType == opType && r.table == "workouts"
    ensures r.data.id == rowId && r.data.payload == payload
    ensures r.timestamp == timestamp && r.retries == 0
  {
    SyncOperation(opId, opType, "workouts", SyncOperationData(rowId, payload), timestamp, 0)
  }

  /** `saveWorkout`: needs a workout, its input and a non-empty user id. The row is cached
      locally whatever the remote insert does; when the insert fails or returns an error
      a `create` operation carrying the row is queued as well. The call never throws past
      these checks. */
  function SaveWorkout(s: Service, userId: Option<string>, workoutId: string, now: string, remote: RemoteWrite,
                       opId: string, timestamp: int): (r: Outcome<()>)
    ensures !HasContext(s) ==>
      r == Outcome(s, Err(ErrorValue("No workout to save")))
    ensures HasContext(s) && (userId.None? || userId.value == "") ==>
      r == Outcome(s, Err(ErrorValue("No authenticated user")))
    ensures HasContext(s) && userId.Some? && userId.value != "" ==>
      var row := WorkoutRow(workoutId, userId.value, TypeName(WorkoutTypeOf(s.form.generatedWorkout.value)),
                            s.form.generatedWorkout.value, s.form.originalInput, now, now);
      && r.result.Ok?
      && r.state.savedWorkoutId == Some(workoutId)
      && !r.state.isSaving && r.state.form.error.None?
      && GetWorkoutById(r.state.db, workoutId) == Some(row)
      && (remote == WriteOk ==> r.state.db.syncQueue == s.db.syncQueue)
      && (remote != WriteOk ==>
            r.state.db.syncQueue == s.db.syncQueue[opId := FallbackOperation(opId, Create, workoutId, RowPayload(row), timestamp)])
      && r.state.(db := s.db, savedWorkoutId := s.savedWorkoutId, isSaving := s.isSaving,
                  form := s.form) == s
  {
    if !HasContext(s) then
      Outcome(s, Err(ErrorValue("No workout to save")))
    else if userId.None? || userId.value == "" then
      Outcome(s, Err(ErrorValue("No authenticated user")))
    else
      var w := s.form.generatedWorkout.value;
      var row := WorkoutRow(workoutId, userId.value, TypeName(WorkoutTypeOf(w)), w, s.form.originalInput, now, now);
      var cached := LocalDb.SaveWorkout(s.db, row);
      var db := if remote == WriteOk then cached
                else AddToSyncQueue(cached, FallbackOperation(opId, Create, row.id, RowPayload(row), timestamp));
      Outcome(s.(form := s.form.(error := None), isSaving := false, db := db, savedWorkoutId := Some(workoutId)), Ok(()))
  }

  /** `{ ...w, data, updated_at: now }` for rows with the given id. */
  function UpdatedRow(w: WorkoutRow, id: string, data: WorkoutOutput, now: string): (r: WorkoutRow)
    ensures w.id == id ==> r == w.(data := data, updatedAt := now)
    ensures w.id != id ==> r == w
  {
    if w.id == id then w.(data := data, updatedAt := now) else w
  }

  /** `list.filter((w) => w.id !== id)`. */
  function RemoveById(ws: seq<WorkoutRow>, id: string): (r: seq<WorkoutRow>)
    ensures forall i :: 0 <= i < |r| ==> r[i].id != id && r[i] in ws
    ensures forall w :: w in ws && w.id != id ==> w in r
    ensures |r| <= |ws|
  {
    if ws == [] then []
    else if ws[0].id == id then RemoveById(ws[1..], id)
    else [ws[0]] + RemoveById(ws[1..], id)
  }

  /** `list.map(...)` with `UpdatedRow`. */
  function UpdateById(ws: seq<WorkoutRow>, id: string, data: WorkoutOutput, now: string): (r: seq<WorkoutRow>)
    ensures |r| == |ws|
    ensures forall i :: 0 <= i < |ws| ==> r[i] == UpdatedRow(ws[i], id, data, now)
  {
    seq(|ws|, i requires 0 <= i < |ws| => UpdatedRow(ws[i], id, data, now))
  }

  /** The local `updateWorkout(id, changes)` the service calls: `IndexedDbService.updateWorkout`
      is not part of this model, so it is taken to behave as a Dexie `update`, changing the
      row with that id and doing nothing when there is none. */
  function UpdateCachedWorkout(db: Database, id: string, data: WorkoutOutput, now: string): (r: Database)
    ensures id in db.workouts ==> r.workouts == db.workouts[id := db.workouts[id].(data := data, updatedAt := now)]
    ensures id !in db.workouts ==> r == db
    ensures r.(workouts := db.workouts) == db
  {
    if id in db.workouts then db.(workouts := db.workouts[id := db.workouts[id].(data := data, updatedAt := now)])
    else db
  }

  /** `deleteWorkout`: the cached row is deleted whatever the remote delete does; when it
      fails a `delete` operation is queued. Afterwards the list has no row with that id
      and the current workout is cleared if it was that row. */
  function DeleteWorkout(s: Service, id: string, remote: RemoteWrite, opId: string, timestamp: int): (r: Service)
    ensures r.workouts == RemoveById(s.workouts, id)
    ensures s.currentWorkout.Some? && s.currentWorkout.value.id == id ==> r.currentWorkout.None?
    ensures !(s.currentWorkout.Some? && s.currentWorkout.value.id == id) ==> r.currentWorkout == s.currentWorkout
    ensures !r.isDeleting
    ensures id !in r.db.workouts
    ensures r.db.(workouts := s.db.workouts, syncQueue := s.db.syncQueue) == s.db
    ensures remote == WriteOk ==> r.db.syncQueue == s.db.syncQueue
    ensures remote != WriteOk ==>
      r.db.syncQueue == s.db.syncQueue[opId := FallbackOperation(opId, Delete, id, NoFields, timestamp)]
    ensures r.(workouts := s.workouts, currentWorkout := s.currentWorkout, isDeleting := s.isDeleting, db := s.db) == s
  {
    var deleted := LocalDb.DeleteWorkout(s.db, id);
    var db := if remote == WriteOk then deleted
              else AddToSyncQueue(deleted, FallbackOperation(opId, Delete, id, NoFields, timestamp));
    var current := if s.currentWorkout.Some? && s.currentWorkout.value.id == id then None else s.currentWorkout;
    s.(db := db, workouts := RemoveById(s.workouts, id), currentWorkout := current, isDeleting := false)
  }

  /** `updateSavedWorkout`: the cached row is updated whatever the remote update does;
      when it fails an `update` operation with the new data is queued. Afterwards exactly
      the rows with that id, in the list and as the current workout, carry the new data. */
  function UpdateSavedWorkout(s: Service, id: string, data: WorkoutOutput, now: string, remote: RemoteWrite,
                              opId: string, timestamp: int): (r: Service)
    ensures r.workouts == UpdateById(s.workouts, id, data, now)
    ensures s.currentWorkout.Some? ==> r.currentWorkout == Some(UpdatedRow(s.currentWorkout.value, id, data, now))
    ensures s.currentWorkout.None? ==> r.currentWorkout.None?
    ensures !r.isSaving && r.form.error.None?
    ensures r.db.(syncQueue := s.db.syncQueue) == UpdateCachedWorkout(s.db, id, data, now)
    ensures remote == WriteOk ==> r.db.syncQueue == s.db.syncQueue
    ensures remote != WriteOk ==>
      r.db.syncQueue == s.db.syncQueue[opId := FallbackOperation(opId, Update, id, WorkoutUpdate(data, now), timestamp)]
    ensures r.form.(error := s.form.error) == s.form
    ensures r.(workouts := s.workouts, currentWorkout := s.currentWorkout, isSaving := s.isSaving,
               form := s.form, db := s.db) == s
  {
    var cached := UpdateCachedWorkout(s.db, id, data, now);
    var db := if remote == WriteOk then cached
              else AddToSyncQueue(cached, FallbackOperation(opId, Update, id, WorkoutUpdate(data, now), timestamp));
    var current := if s.currentWorkout.Some? then Some(UpdatedRow(s.currentWorkout.value, id, data, now)) else None;
    s.(form := s.form.(error := None), isSaving := false, db := db,
       workouts := UpdateById(s.workouts, id, data, now), currentWorkout := current)
  }

  // ----- properties across transitions -----

  /** Selecting a type, going back, editing and resetting keep the flow invariant and
      leave nothing in flight. */
  lemma FlowTransitionsKeepInvariant(s: Service, t: WorkoutType, w: WorkoutOutput)
    requires FlowInvariant(s.form) && Idle(s)
    ensures FlowInvariant(SelectWorkoutType(s, t).form) && Idle(SelectWorkoutType(s, t))
    ensures FlowInvariant(GoBack(s).form) && Idle(GoBack(s))
    ensures FlowInvariant(UpdateWorkout(s, w).form) && Idle(UpdateWorkout(s, w))
    ensures FlowInvariant(Reset(s).form) && Idle(Reset(s))
  {
  }

  /** Generation, whether refused, successful or failed, keeps the flow invariant and
      leaves nothing in flight. */
  lemma GenerationKeepsInvariant(s: Service, params: map<string, JsValue>,
                                 profile: Option<UserProfile>, gen: ApiResult<WorkoutOutput>)
    requires FlowInvariant(s.form) && Idle(s)
    ensures FlowInvariant(GenerateWorkout(s, params, profile, gen).state.form)
    ensures Idle(GenerateWorkout(s, params, profile, gen).state)
  {
  }

  /** A whole-workout revision keeps the flow invariant and ends with nothing in flight. */
  lemma ReviseWorkoutKeepsInvariant(s: Service, gen: ApiResult<WorkoutOutput>)
    requires FlowInvariant(s.form) && Idle(s)
    ensures FlowInvariant(ReviseWorkout(s, gen).state.form) && Idle(ReviseWorkout(s, gen).state)
  {
  }

  /** An exercise revision keeps the flow invariant and ends with nothing in flight. */
  lemma ReviseExerciseKeepsInvariant(s: Service, i: int, ex: ApiResult<Exercise>)
    requires FlowInvariant(s.form) && Idle(s)
    ensures FlowInvariant(ReviseExercise(s, i, ex).state.form) && Idle(ReviseExercise(s, i, ex).state)
  {
  }

  /** An interval revision keeps the flow invariant and ends with nothing in flight. */
  lemma ReviseIntervalKeepsInvariant(s: Service, i: int, iv: ApiResult<Interval>)
    requires FlowInvariant(s.form) && Idle(s)
    ensures FlowInvariant(ReviseInterval(s, i, iv).state.form) && Idle(ReviseInterval(s, i, iv).state)
  {
  }

  /** Saving keeps the flow invariant and ends with nothing in flight. */
  lemma SaveKeepsInvariant(s: Service, userId: Option<string>, id: string, now: string,
                           remote: RemoteWrite, opId: string, ts: int)
    requires FlowInvariant(s.form) && Idle(s)
    ensures FlowInvariant(SaveWorkout(s, userId, id, now, remote, opId, ts).state.form)
    ensures Idle(SaveWorkout(s, userId, id, now, remote, opId, ts).state)
  {
  }

  /** Deleting and updating a saved workout keep the flow invariant and end with nothing
      in flight. */
  lemma ListChangesKeepInvariant(s: Service, w: WorkoutOutput, id: string, now: string,
                                 remote: RemoteWrite, opId: string, ts: int)
    requires FlowInvariant(s.form) && Idle(s)
    ensures FlowInvariant(DeleteWorkout(s, id, remote, opId, ts).form) && Idle(DeleteWorkout(s, id, remote, opId, ts))
    ensures FlowInvariant(UpdateSavedWorkout(s, id, w, now, remote, opId, ts).form)
    ensures Idle(UpdateSavedWorkout(s, id, w, now, remote, opId, ts))
  {
  }

  /** The results step only ever shows a workout generated for the selected type's
      input: a successful generation records exactly that input. */
  lemma GenerationRecordsInput(s: Service, params: map<string, JsValue>, p: UserProfile, w: WorkoutOutput)
    requires s.form.selectedType.Some?
    ensures var r := GenerateWorkout(s, params, Some(p), ApiOk(w)).state;
      && r.form.step == Results
      && r.form.originalInput.value.params == params
      && r.form.originalInput.value.user == p
      && r.form.originalInput.value.workoutType == s.form.selectedType.value
  {
  }

  /** A failed generation, revision or save never loses the workout being shown. */
  lemma FailuresKeepWorkout(s: Service, params: map<string, JsValue>, p: UserProfile, t: Thrown, i: int)
    ensures GenerateWorkout(s, params, Some(p), ApiFail(t)).state.form.generatedWorkout == s.form.generatedWorkout
    ensures ReviseWorkout(s, ApiFail(t)).state.form.generatedWorkout == s.form.generatedWorkout
    ensures ReviseExercise(s, i, ApiFail(t)).state.form.generatedWorkout == s.form.generatedWorkout
    ensures ReviseInterval(s, i, ApiFail(t)).state.form.generatedWorkout == s.form.generatedWorkout
  {
  }

  /** A successful exercise or interval revision of a valid workout with a valid element
      leaves a valid workout of the same type. */
  lemma RevisionKeepsValid(s: Service, i: int, e: Exercise, iv: Interval)
    requires HasContext(s)
    requires ValidWorkoutOutput(s.form.generatedWorkout.value)
    ensures HasExercise(s.form.generatedWorkout.value, i) && ValidExercise(e) ==>
      var w := ReviseExercise(s, i, ApiOk(e)).state.form.generatedWorkout.value;
      ValidWorkoutOutput(w) && WorkoutTypeOf(w) == WorkoutTypeOf(s.form.generatedWorkout.value)
    ensures HasInterval(s.form.generatedWorkout.value, i) && ValidInterval(iv) ==>
      ValidWorkoutOutput(ReviseInterval(s, i, ApiOk(iv)).state.form.generatedWorkout.value)
  {
    var w := s.form.generatedWorkout.value;
    if HasExercise(w, i) && ValidExercise(e) { WithExerciseKeepsValid(w, i, e); }
    if HasInterval(w, i) && ValidInterval(iv) { WithIntervalKeepsValid(w, i, iv); }
  }

  /** After a delete no row in the list has that id, and every other row is kept; after
      an update the list has the same length and only rows with that id differ. */
  lemma ListUpdatesTouchOnlyThatId(s: Service, id: string, data: WorkoutOutput, now: string,
                                   remote: RemoteWrite, opId: string, ts: int)
    ensures var r := DeleteWorkout(s, id, remote, opId, ts);
      && (forall j :: 0 <= j < |r.workouts| ==> r.workouts[j].id != id)
      && (forall w :: w in s.workouts && w.id != id ==> w in r.workouts)
    ensures var r := UpdateSavedWorkout(s, id, data, now, remote, opId, ts);
      && |r.workouts| == |s.workouts|
      && (forall j :: 0 <= j < |s.workouts| && s.workouts[j].id != id ==> r.workouts[j] == s.workouts[j])
      && (forall j :: 0 <= j < |s.workouts| && s.workouts[j].id == id ==>
            r.workouts[j].data == data && r.workouts[j].updatedAt == now)
  {
  }

  /** A save that falls back offline queues an insert of exactly the cached row; replayed,
      it becomes that insert, and as written it is never dropped however often the
      replay is rejected. */
  lemma OfflineSaveReplaysInsert(s: Service, userId: string, id: string, now: string,
                                 remote: RemoteWrite, opId: string, ts: int, n: nat)
    requires HasContext(s) && userId != "" && remote != WriteOk
    ensures var r := SaveWorkout(s, Some(userId), id, now, remote, opId, ts).state;
      && opId in r.db.syncQueue
      && GetWorkoutById(r.db, id).Some?
      && OfflineSync.Dispatch(r.db.syncQueue[opId])
           == OfflineSync.Insert("workouts", SyncOperationData(id, RowPayload(GetWorkoutById(r.db, id).value)))
      && OfflineSync.Fate(OfflineSync.AsWritten, r.db.syncQueue[opId], OfflineSync.Rejections(n))
           == Some(r.db.syncQueue[opId])
  {
    var r := SaveWorkout(s, Some(userId), id, now, remote, opId, ts).state;
    OfflineSync.AsWrittenNeverDrops(r.db.syncQueue[opId], n);
  }

  /** An offline delete or update queues an operation on that row's id that replays as the
      matching delete or update request. */
  lemma OfflineListChangesReplay(s: Service, id: string, data: WorkoutOutput, now: string,
                                 remote: RemoteWrite, opId: string, ts: int)
    requires remote != WriteOk
    ensures var q := DeleteWorkout(s, id, remote, opId, ts).db.syncQueue;
      opId in q && OfflineSync.Dispatch(q[opId]) == OfflineSync.DeleteById("workouts", id)
    ensures var q := UpdateSavedWorkout(s, id, data, now, remote, opId, ts).db.syncQueue;
      opId in q && OfflineSync.Dispatch(q[opId]) == OfflineSync.UpdateById("workouts", id, SyncOperationData(id, WorkoutUpdate(data, now)))
  {
  }
}
