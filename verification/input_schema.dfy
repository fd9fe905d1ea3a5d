/** The workout-input schemas: the user profile, the base input, the two equipment
    shapes, and the three input variants discriminated by `workout_type`. */
module InputSchema {
  import opened Wrappers
  import opened Enums

  /** `UserProfileSchema`; the weight is a JavaScript number and is kept as a real. */
  datatype UserProfile = UserProfile(
    userAge: int,
    userWeight: real,
    userWeightUnit: string,
    userFitnessLevel: int,
    userPhysicalLimitations: string)

  /** The input union. Every variant carries the profile fields (grouped here as
      `profile`), the base `workout_duration` and an equipment shape. */
  datatype WorkoutInput =
    | HypertrophyInput(
        profile: UserProfile,
        workoutDuration: int,
        equipmentAccess: string,
        equipmentNotes: Option<string>,
        targetMuscleGroup: string,
        tempoFocus: bool,
        weightProgressionPattern: string)
    | StrengthInput(
        profile: UserProfile,
        workoutDuration: int,
        equipmentAccess: string,
        equipmentNotes: Option<string>,
        targetMuscleGroup: string,
        loadPercentage: Option<int>,
        weightProgressionPattern: string)
    | ConditioningInput(
        profile: UserProfile,
        workoutDuration: int,
        equipmentAccess: string,
        equipmentNotes: Option<string>,
        intervalStructure: string,
        cardioModality: string,
        distanceTimeGoal: Option<string>)

  function InputTypeOf(i: WorkoutInput): WorkoutType {
    match i
    case HypertrophyInput(_, _, _, _, _, _, _) => Hypertrophy
    case StrengthInput(_, _, _, _, _, _, _) => Strength
    case ConditioningInput(_, _, _, _, _, _, _) => Conditioning
  }

  /** `UserProfileSchema`: the limitations text is required but may be empty. */
  predicate ValidUserProfile(p: UserProfile) {
    && p.userAge > 0
    && p.userWeight > 0.0
    && p.userWeightUnit in WeightUnits
    && 1 <= p.userFitnessLevel <= 5
  }

  /** `BaseWorkoutInputSchema`: the profile plus a positive duration. */
  predicate ValidBaseInput(i: WorkoutInput) {
    ValidUserProfile(i.profile) && i.workoutDuration > 0
  }

  /** `WorkoutInputSchema`: valid under the variant its `workout_type` selects. */
  predicate ValidWorkoutInput(i: WorkoutInput) {
    && ValidBaseInput(i)
    && match i
       case HypertrophyInput(_, _, access, _, group, _, pattern) =>
         access in GymEquipmentAccess && group in TargetMuscleGroups
         && pattern in WeightProgressionPatterns
       case StrengthInput(_, _, access, _, group, load, pattern) =>
         access in GymEquipmentAccess && group in TargetMuscleGroups
         && pattern in WeightProgressionPatterns
         && (load.Some? ==> 1 <= load.value <= 100)
       case ConditioningInput(_, _, access, _, structure, modality, _) =>
         access in ConditioningEquipmentAccess && structure in IntervalStructures
         && modality in CardioModalities
  }

  /** In a valid input the equipment value alone tells a conditioning request from a
      gym request, because the two equipment enumerations are disjoint. */
  lemma EquipmentDeterminesFamily(i: WorkoutInput)
    requires ValidWorkoutInput(i)
    ensures i.equipmentAccess in GymEquipmentAccess <==> !i.ConditioningInput?
    ensures i.equipmentAccess in ConditioningEquipmentAccess <==> i.ConditioningInput?
  {
    EquipmentAccessDisjoint(i.equipmentAccess);
  }
}
