/** The workout-output schemas: an exercise set, an exercise, an interval, and the three
    workout variants discriminated by `workout_type`. A zod object schema becomes a
    datatype plus a validity predicate for the refinements the datatype cannot carry
    (positivity, ranges, enumeration membership, non-empty arrays). */
module OutputSchema {
  import opened Wrappers
  import opened Enums

  datatype ExerciseSet = ExerciseSet(
    reps: int,
    restDurationSeconds: int,
    suggestedWeight: Option<real>,
    weightUnit: Option<string>)

  datatype Exercise = Exercise(
    exerciseName: string,
    sets: seq<ExerciseSet>,
    notes: Option<string>)

  datatype Interval = Interval(
    intervalNumber: int,
    workDurationSeconds: int,
    restDurationSeconds: int,
    intensity: string,
    modality: string,
    notes: Option<string>)

  /** The discriminated union of the three workout outputs. Fields with the same name
      are shared between variants; only the gym variants carry `exercises` and only the
      conditioning variant carries `intervals`. */
  datatype WorkoutOutput =
    | HypertrophyOutput(
        targetMuscleGroup: string,
        totalDurationMinutes: int,
        difficultyRating: int,
        warmup: seq<string>,
        exercises: seq<Exercise>,
        cooldown: seq<string>,
        generalNotes: string,
        weightProgressionPattern: string,
        estimatedVolume: Option<string>,
        conflictingParameters: Option<string>)
    | StrengthOutput(
        targetMuscleGroup: string,
        totalDurationMinutes: int,
        difficultyRating: int,
        warmup: seq<string>,
        exercises: seq<Exercise>,
        cooldown: seq<string>,
        generalNotes: string,
        weightProgressionPattern: string,
        estimatedIntensity: Option<string>,
        conflictingParameters: Option<string>)
    | ConditioningOutput(
        cardioModality: string,
        totalDurationMinutes: int,
        difficultyRating: int,
        warmup: seq<string>,
        intervals: seq<Interval>,
        cooldown: seq<string>,
        generalNotes: string,
        estimatedCalories: Option<int>,
        conflictingParameters: Option<string>)

  /** The value of the `workout_type` discriminator. */
  function WorkoutTypeOf(w: WorkoutOutput): WorkoutType {
    match w
    case HypertrophyOutput(_, _, _, _, _, _, _, _, _, _) => Hypertrophy
    case StrengthOutput(_, _, _, _, _, _, _, _, _, _) => Strength
    case ConditioningOutput(_, _, _, _, _, _, _, _, _) => Conditioning
  }

  /** `ExerciseSetSchema`. */
  predicate ValidExerciseSet(s: ExerciseSet) {
    && s.reps > 0
    && s.restDurationSeconds >= 0
    && (s.suggestedWeight.Some? ==> s.suggestedWeight.value >= 0.0)
    && (s.weightUnit.Some? ==> s.weightUnit.value in WeightUnits)
  }

  /** `ExerciseSchema`: any name, at least one set, each set valid. */
  predicate ValidExercise(e: Exercise) {
    && |e.sets| >= 1
    && forall i :: 0 <= i < |e.sets| ==> ValidExerciseSet(e.sets[i])
  }

  /** `IntervalSchema`. */
  predicate ValidInterval(iv: Interval) {
    && iv.intervalNumber > 0
    && iv.workDurationSeconds > 0
    && iv.restDurationSeconds >= 0
    && iv.intensity in IntensityLevels
    && iv.modality in CardioModalities
  }

  predicate AllValidExercises(es: seq<Exercise>) {
    forall i :: 0 <= i < |es| ==> ValidExercise(es[i])
  }

  predicate AllValidIntervals(ivs: seq<Interval>) {
    forall i :: 0 <= i < |ivs| ==> ValidInterval(ivs[i])
  }

  /** The three object schemas `getOutputSchema` chooses between. */
  datatype OutputSchemaKind = HypertrophyOutputSchema | StrengthOutputSchema | ConditioningOutputSchema

  /** Whether one of the three object schemas accepts a value: the `workout_type`
      literal must be the schema's own, and every field refinement must hold. */
  predicate Accepts(schema: OutputSchemaKind, w: WorkoutOutput) {
    match schema
    case HypertrophyOutputSchema =>
      && w.HypertrophyOutput?
      && w.targetMuscleGroup in TargetMuscleGroups
      && w.totalDurationMinutes > 0
      && 1 <= w.difficultyRating <= 5
      && |w.exercises| >= 1 && AllValidExercises(w.exercises)
      && w.weightProgressionPattern in WeightProgressionPatterns
    case StrengthOutputSchema =>
      && w.StrengthOutput?
      && w.targetMuscleGroup in TargetMuscleGroups
      && w.totalDurationMinutes > 0
      && 1 <= w.difficultyRating <= 5
      && |w.exercises| >= 1 && AllValidExercises(w.exercises)
      && w.weightProgressionPattern in WeightProgressionPatterns
    case ConditioningOutputSchema =>
      && w.ConditioningOutput?
      && w.cardioModality in CardioModalities
      && w.totalDurationMinutes > 0
      && 1 <= w.difficultyRating <= 5
      && |w.intervals| >= 1 && AllValidIntervals(w.intervals)
      && (w.estimatedCalories.Some? ==> w.estimatedCalories.value > 0)
  }

  /** The object schema registered for a workout type in the union. */
  function SchemaFor(t: WorkoutType): OutputSchemaKind {
    match t
    case Hypertrophy => HypertrophyOutputSchema
    case Strength => StrengthOutputSchema
    case Conditioning => ConditioningOutputSchema
  }

  /** `WorkoutOutputSchema`: valid under the variant its `workout_type` selects. */
  predicate ValidWorkoutOutput(w: WorkoutOutput) {
    Accepts(SchemaFor(WorkoutTypeOf(w)), w)
  }

  /** A discriminated union accepts a value exactly when one of its member schemas does,
      and that member is always the one its discriminator names. */
  lemma UnionIsDiscriminated(w: WorkoutOutput, k: OutputSchemaKind)
    ensures Accepts(k, w) ==> k == SchemaFor(WorkoutTypeOf(w))
    ensures ValidWorkoutOutput(w) <==>
      (Accepts(HypertrophyOutputSchema, w) || Accepts(StrengthOutputSchema, w)
       || Accepts(ConditioningOutputSchema, w))
  {
  }

  /** Warm-up and cool-down lists carry no constraint: replacing them keeps a workout valid. */
  lemma WarmupCooldownUnconstrained(w: WorkoutOutput, warm: seq<string>, cool: seq<string>)
    requires ValidWorkoutOutput(w)
    ensures ValidWorkoutOutput(w.(warmup := warm, cooldown := cool))
  {
  }
}
