/** The three revision-request schemas: a whole workout, one exercise, one interval. */
module RevisionSchema {
  import opened OutputSchema
  import opened InputSchema

  datatype WorkoutRevisionInput = WorkoutRevisionInput(
    workout: WorkoutOutput,
    originalInput: WorkoutInput,
    revisionText: string)

  datatype ExerciseRevisionInput = ExerciseRevisionInput(
    exercise: Exercise,
    workoutContext: WorkoutOutput,
    originalInput: WorkoutInput,
    revisionText: string)

  datatype IntervalRevisionInput = IntervalRevisionInput(
    interval: Interval,
    workoutContext: WorkoutOutput,
    originalInput: WorkoutInput,
    revisionText: string)

  const MaxRevisionTextLength := 500

  /** `z.string().min(1).max(500)`. */
  predicate ValidRevisionText(t: string) {
    1 <= |t| <= MaxRevisionTextLength
  }

  predicate ValidWorkoutRevisionInput(r: WorkoutRevisionInput) {
    ValidWorkoutOutput(r.workout) && ValidWorkoutInput(r.originalInput)
    && ValidRevisionText(r.revisionText)
  }

  predicate ValidExerciseRevisionInput(r: ExerciseRevisionInput) {
    ValidExercise(r.exercise) && ValidWorkoutOutput(r.workoutContext)
    && ValidWorkoutInput(r.originalInput) && ValidRevisionText(r.revisionText)
  }

  predicate ValidIntervalRevisionInput(r: IntervalRevisionInput) {
    ValidInterval(r.interval) && ValidWorkoutOutput(r.workoutContext)
    && ValidWorkoutInput(r.originalInput) && ValidRevisionText(r.revisionText)
  }

  /** No field ties the workout's type to the original input's type: any valid workout,
      any valid input and any valid text form a valid whole-workout request, and an
      exercise or interval request accepts a context of any variant. */
  lemma RevisionTypesIndependent(w: WorkoutOutput, i: WorkoutInput, e: Exercise, iv: Interval, t: string)
    requires ValidWorkoutOutput(w) && ValidWorkoutInput(i) && ValidRevisionText(t)
    ensures ValidWorkoutRevisionInput(WorkoutRevisionInput(w, i, t))
    ensures ValidExercise(e) ==> ValidExerciseRevisionInput(ExerciseRevisionInput(e, w, i, t))
    ensures ValidInterval(iv) ==> ValidIntervalRevisionInput(IntervalRevisionInput(iv, w, i, t))
  {
  }
}
