/** The string enumerations of the shared zod schemas (weight units, equipment access,
    muscle groups, progression patterns, interval structures, cardio modalities,
    intensity levels) and the workout-type discriminator. */
module Enums {
  import opened Wrappers

  const WeightUnits: seq<string> := ["lbs", "kg"]

  const GymEquipmentAccess: seq<string> := ["full_gym", "limited_equipment", "bodyweight_only"]

  const ConditioningEquipmentAccess: seq<string> :=
    ["cardio_machines", "outdoor_space", "minimal_space", "pool_access"]

  const WeightProgressionPatterns: seq<string> :=
    ["pyramid", "reverse_pyramid", "straight_sets", "wave_loading"]

  const TargetMuscleGroups: seq<string> :=
    ["chest", "back", "shoulders", "arms", "legs", "core",
     "full_body", "upper_body", "lower_body", "push", "pull"]

  const IntervalStructures: seq<string> := ["hiit", "steady_state", "mixed", "tabata", "emom"]

  const CardioModalities: seq<string> :=
    ["running", "cycling", "rowing", "swimming", "jump_rope",
     "assault_bike", "elliptical", "stair_climber", "mixed"]

  const IntensityLevels: seq<string> := ["low", "moderate", "high", "max"]

  predicate NoDuplicates(xs: seq<string>) {
    forall i, j :: 0 <= i < j < |xs| ==> xs[i] != xs[j]
  }

  /** The two equipment-access enumerations share no value, so an equipment string
      determines whether it belongs to a gym workout or a conditioning workout. */
  lemma EquipmentAccessDisjoint(s: string)
    ensures !(s in GymEquipmentAccess && s in ConditioningEquipmentAccess)
  {
  }

  /** `WorkoutTypeSchema`: the discriminator shared by the input and output unions. */
  datatype WorkoutType = Hypertrophy | Strength | Conditioning

  /** The literal a workout type is written as. */
  function TypeName(t: WorkoutType): string {
    match t
    case Hypertrophy => "hypertrophy"
    case Strength => "strength"
    case Conditioning => "conditioning"
  }

  /** Parsing a `workout_type` string: exactly the three literals are accepted. */
  function ParseWorkoutType(s: string): (r: Option<WorkoutType>)
    ensures r.Some? <==> s in ["hypertrophy", "strength", "conditioning"]
    ensures r.Some? ==> TypeName(r.value) == s
  {
    if s == "hypertrophy" then Some(Hypertrophy)
    else if s == "strength" then Some(Strength)
    else if s == "conditioning" then Some(Conditioning)
    else None
  }

  /** The type names round-trip through parsing, so the discriminator is unambiguous. */
  lemma ParseTypeName(t: WorkoutType)
    ensures ParseWorkoutType(TypeName(t)) == Some(t)
  {
  }
}
