/** The workout generator chain of `apps/vercel`: the prompt input built from a validated
    workout input, the output schema chosen by the workout type, and the memoisation of
    the prompt files. The model call itself is outside the model. */
module GeneratorChain {
  import opened Wrappers
  import opened Text
  import opened Enums
  import opened InputSchema
  import opened OutputSchema

  // ----- the prompt input -----

  /** A value of the prompt input record: a string or a JavaScript number. */
  datatype PromptValue = Text(s: string) | Number(n: real)

  /** `value || fallback` for a string: the empty string is falsy. */
  function OrDefault(s: string, fallback: string): (r: string)
    ensures s != "" ==> r == s
    ensures s == "" ==> r == fallback
  {
    if s == "" then fallback else s
  }

  /** `value || fallback` for an optional string. */
  function OptionalOrDefault(o: Option<string>, fallback: string): (r: string)
    ensures o.Some? && o.value != "" ==> r == o.value
    ensures o.None? || o.value == "" ==> r == fallback
  {
    if o.Some? then OrDefault(o.value, fallback) else fallback
  }

  const NoLimitations := "None reported"
  const NotSpecified := "None specified"
  const AutoLoad := "Auto-select based on fitness level"

  /** The eight keys every prompt input has. */
  const BaseKeys: set<string> := {"user_age", "user_weight", "user_weight_unit", "user_fitness_level",
    "user_physical_limitations", "workout_duration", "equipment_access", "equipment_notes"}

  /** The keys each workout type adds. */
  function TypeKeys(t: WorkoutType): set<string> {
    match t
    case Hypertrophy => {"target_muscle_group", "tempo_focus", "weight_progression_pattern"}
    case Strength => {"target_muscle_group", "load_percentage", "weight_progression_pattern"}
    case Conditioning => {"interval_structure", "cardio_modality", "distance_time_goal"}
  }

  /** The `base` record: the profile, the duration and the equipment, with the two
      optional texts defaulted. */
  function BaseInput(i: WorkoutInput): (r: map<string, PromptValue>)
  {
    map[
      "user_age" := Number(i.profile.userAge as real),
      "user_weight" := Number(i.profile.userWeight),
      "user_weight_unit" := Text(i.profile.userWeightUnit),
      "user_fitness_level" := Number(i.profile.userFitnessLevel as real),
      "user_physical_limitations" := Text(OrDefault(i.profile.userPhysicalLimitations, NoLimitations)),
      "workout_duration" := Number(i.workoutDuration as real),
      "equipment_access" := Text(i.equipmentAccess),
      "equipment_notes" := Text(OptionalOrDefault(i.equipmentNotes, NotSpecified))]
  }

  /** `String(n)` for the load percentage. */
  function LoadText(load: Option<int>): (r: string)
    ensures r != ""
    ensures load.None? ==> r == AutoLoad
  {
    if load.None? then AutoLoad else IntToString(load.value)
  }

  /** The fields each workout type adds. */
  function TypeInput(i: WorkoutInput): (r: map<string, PromptValue>)
  {
    match i
    case HypertrophyInput(_, _, _, _, group, tempo, pattern) => map[
      "target_muscle_group" := Text(group),
      "tempo_focus" := Text(if tempo then "true" else "false"),
      "weight_progression_pattern" := Text(pattern)]
    case StrengthInput(_, _, _, _, group, load, pattern) => map[
      "target_muscle_group" := Text(group),
      "load_percentage" := Text(LoadText(load)),
      "weight_progression_pattern" := Text(pattern)]
    case ConditioningInput(_, _, _, _, structure, modality, goal) => map[
      "interval_structure" := Text(structure),
      "cardio_modality" := Text(modality),
      "distance_time_goal" := Text(OptionalOrDefault(goal, NotSpecified))]
  }

  /** `toPromptInput`: the base record spread under the type's own fields. Every type
      carries the eight base keys and its own three: a conditioning input has no
      muscle-group, tempo, load or progression key, and a gym input no interval key. */
  function ToPromptInput(i: WorkoutInput): (r: map<string, PromptValue>)
    ensures r.Keys == BaseKeys + TypeKeys(InputTypeOf(i))
  {
    BaseInput(i) + TypeInput(i)
  }

  /** The spread overrides no base field: each keeps the value the base record gave it,
      and each type field keeps its own. */
  lemma {:induction false} SpreadKeepsFields(i: WorkoutInput)
    ensures forall k :: k in BaseKeys ==> ToPromptInput(i)[k] == BaseInput(i)[k]
    ensures forall k :: k in TypeKeys(InputTypeOf(i)) ==> ToPromptInput(i)[k] == TypeInput(i)[k]
  {
    KeysDisjoint(InputTypeOf(i));
  }

  /** The base keys and the keys of every type are disjoint, so no type field hides a
      base field, and the three types share no key beyond the ones they have in common
      by name. */
  lemma KeysDisjoint(t: WorkoutType)
    ensures BaseKeys !! TypeKeys(t)
  {
  }

  /** The age reaches the prompt as given, as a number. */
  lemma AgeCarried(i: WorkoutInput)
    ensures ToPromptInput(i)["user_age"] == Number(i.profile.userAge as real)
  {
    assert "user_age" !in TypeInput(i);
  }

  /** The duration reaches the prompt as given, as a number. */
  lemma DurationCarried(i: WorkoutInput)
    ensures ToPromptInput(i)["workout_duration"] == Number(i.workoutDuration as real)
  {
    assert "workout_duration" !in TypeInput(i);
  }

  /** The limitations reach the prompt as given, except that an empty text is replaced
      by 'None reported'. */
  lemma LimitationsDefaulted(i: WorkoutInput)
    ensures var r := ToPromptInput(i)["user_physical_limitations"];
      && r.Text?
      && (i.profile.userPhysicalLimitations != "" ==> r.s == i.profile.userPhysicalLimitations)
      && (r.s == NoLimitations <==> i.profile.userPhysicalLimitations in ["", NoLimitations])
  {
    assert "user_physical_limitations" !in TypeInput(i);
  }

  /** The equipment notes reach the prompt as given, except that absent or empty notes
      are replaced by 'None specified'. */
  lemma NotesDefaulted(i: WorkoutInput)
    ensures var r := ToPromptInput(i)["equipment_notes"];
      && r.Text?
      && (i.equipmentNotes.Some? && i.equipmentNotes.value != "" ==> r.s == i.equipmentNotes.value)
      && (r.s == NotSpecified <==> i.equipmentNotes.None? || i.equipmentNotes.value in ["", NotSpecified])
  {
    assert "equipment_notes" !in TypeInput(i);
  }

  /** The tempo flag survives as text: `'true'` exactly when tempo focus was asked for. */
  lemma TempoRoundTrip(i: WorkoutInput)
    requires i.HypertrophyInput?
    ensures ToPromptInput(i)["tempo_focus"] == Text("true") <==> i.tempoFocus
    ensures ToPromptInput(i)["tempo_focus"] in [Text("true"), Text("false")]
  {
    assert ToPromptInput(i)["tempo_focus"] == TypeInput(i)["tempo_focus"];
  }

  /** A given load percentage reads back as the same number; an absent one becomes the
      instruction text, which no load can be mistaken for. */
  lemma LoadRoundTrip(load: Option<int>)
    ensures load.Some? && load.value >= 0 ==>
      AllDigits(LoadText(load)) && ParseNat(LoadText(load)) == load.value
    ensures load.None? ==> !AllDigits(LoadText(load))
  {
    if load.Some? && load.value >= 0 {
      ParseNatToString(load.value);
    }
    if load.None? {
      assert !IsDigit(AutoLoad[0]);
    }
  }

  /** Every text value of a prompt input record is non-empty. */
  predicate TextsNonEmpty(m: map<string, PromptValue>) {
    forall k :: k in m && m[k].Text? ==> m[k].s != ""
  }

  /** For a valid input every text in the prompt input is non-empty: the enumerated
      fields are never empty and the optional ones are defaulted. */
  lemma NoEmptyText(i: WorkoutInput)
    requires ValidWorkoutInput(i)
    ensures TextsNonEmpty(ToPromptInput(i))
  {
    EnumValuesNonEmpty();
    BaseTextsNonEmpty(i);
    TypeTextsNonEmpty(i);
    forall k | k in ToPromptInput(i) && ToPromptInput(i)[k].Text?
      ensures ToPromptInput(i)[k].s != ""
    {
      if k in TypeInput(i) {
        assert ToPromptInput(i)[k] == TypeInput(i)[k];
      } else {
        assert ToPromptInput(i)[k] == BaseInput(i)[k];
      }
    }
  }

  lemma BaseTextsNonEmpty(i: WorkoutInput)
    requires i.profile.userWeightUnit != "" && i.equipmentAccess != ""
    ensures TextsNonEmpty(BaseInput(i))
  {
  }

  lemma TypeTextsNonEmpty(i: WorkoutInput)
    requires i.HypertrophyInput? || i.StrengthInput? ==>
      i.targetMuscleGroup != "" && i.weightProgressionPattern != ""
    requires i.ConditioningInput? ==> i.intervalStructure != "" && i.cardioModality != ""
    ensures TextsNonEmpty(TypeInput(i))
  {
  }

  lemma EnumValuesNonEmpty()
    ensures "" !in WeightUnits && "" !in GymEquipmentAccess && "" !in ConditioningEquipmentAccess
    ensures "" !in WeightProgressionPatterns && "" !in TargetMuscleGroups
    ensures "" !in IntervalStructures && "" !in CardioModalities
  {
  }

  // ----- the output schema -----

  /** `getOutputSchema`: each workout type selects its own output schema; any other
      string throws. */
  function GetOutputSchema(workoutType: string): (r: Result<OutputSchemaKind, string>)
    ensures r.Ok? <==> ParseWorkoutType(workoutType).Some?
    ensures r.Ok? ==> r.value == SchemaFor(ParseWorkoutType(workoutType).value)
    ensures r.Err? ==> r.error == "Unknown workout type: " + workoutType
  {
    match ParseWorkoutType(workoutType)
    case Some(t) => Ok(SchemaFor(t))
    case None => Err("Unknown workout type: " + workoutType)
  }

  /** The schema chosen for an input's type accepts only outputs of that same type. */
  lemma SchemaMatchesInputType(i: WorkoutInput, w: WorkoutOutput)
    ensures GetOutputSchema(TypeName(InputTypeOf(i))).Ok?
    ensures Accepts(GetOutputSchema(TypeName(InputTypeOf(i))).value, w) ==> WorkoutTypeOf(w) == InputTypeOf(i)
  {
    ParseTypeName(InputTypeOf(i));
    UnionIsDiscriminated(w, SchemaFor(InputTypeOf(i)));
    assert SchemaFor(InputTypeOf(i)) == SchemaFor(WorkoutTypeOf(w)) ==> InputTypeOf(i) == WorkoutTypeOf(w);
  }

  // ----- prompt memoisation -----

  /** The two prompt files the chain reads: the system prompt and a type's prompt. */
  datatype PromptKey = SystemKey | WorkoutKey(t: WorkoutType)

  /** `systemPromptContent` and `workoutPromptCache`. */
  datatype PromptCache = PromptCache(system: Option<string>, workout: map<WorkoutType, string>)

  const EmptyCache := PromptCache(None, map[])

  predicate Cached(c: PromptCache, k: PromptKey) {
    match k
    case SystemKey => c.system.Some?
    case WorkoutKey(t) => t in c.workout
  }

  /** A lookup: the cache afterwards, the content returned and the files read. */
  datatype Lookup = Lookup(cache: PromptCache, content: string, loaded: seq<PromptKey>)

  /** `getSystemPrompt` as written: `if (!systemPromptContent)` also re-reads a cached
      empty prompt, since the empty string is falsy. */
  function GetSystemPromptAsWritten(c: PromptCache, load: PromptKey -> string): (r: Lookup)
    ensures r.cache.workout == c.workout
    ensures c.system.Some? && c.system.value != "" ==> r == Lookup(c, c.system.value, [])
    ensures c.system.None? || c.system.value == "" ==>
      r == Lookup(c.(system := Some(load(SystemKey))), load(SystemKey), [SystemKey])
  {
    if c.system.None? || c.system.value == "" then
      Lookup(c.(system := Some(load(SystemKey))), load(SystemKey), [SystemKey])
    else Lookup(c, c.system.value, [])
  }

  /** `getSystemPrompt` as intended: read once, then serve from the cache, whatever the
      content. */
  function GetSystemPrompt(c: PromptCache, load: PromptKey -> string): (r: Lookup)
    ensures r.cache.workout == c.workout && Cached(r.cache, SystemKey)
    ensures r.loaded == if Cached(c, SystemKey) then [] else [SystemKey]
    ensures r.content == r.cache.system.value
    ensures c.system.Some? ==> r.content == c.system.value
  {
    if c.system.None? then
      Lookup(c.(system := Some(load(SystemKey))), load(SystemKey), [SystemKey])
    else Lookup(c, c.system.value, [])
  }

  /** `getWorkoutPromptContent`: the map's `has` test caches every content, empty or not. */
  function GetWorkoutPrompt(c: PromptCache, t: WorkoutType, load: PromptKey -> string): (r: Lookup)
    ensures r.cache.system == c.system && Cached(r.cache, WorkoutKey(t))
    ensures r.cache.workout.Keys == c.workout.Keys + {t}
    ensures forall u :: u in c.workout ==> r.cache.workout[u] == c.workout[u]
    ensures r.loaded == if Cached(c, WorkoutKey(t)) then [] else [WorkoutKey(t)]
    ensures r.content == r.cache.workout[t]
  {
    if t in c.workout then Lookup(c, c.workout[t], [])
    else
      var content := load(WorkoutKey(t));
      Lookup(c.(workout := c.workout[t := content]), content, [WorkoutKey(t)])
  }

  /** The two contents `buildPromptTemplate` puts into the chat template. */
  datatype Template = Template(system: string, user: string)

  /** Which system prompt lookup a build uses: `getSystemPrompt` as written, or as
      intended. */
  datatype SystemLookup = AsWrittenLookup | IntendedLookup

  function LookupSystem(policy: SystemLookup, c: PromptCache, load: PromptKey -> string): Lookup {
    match policy
    case AsWrittenLookup => GetSystemPromptAsWritten(c, load)
    case IntendedLookup => GetSystemPrompt(c, load)
  }

  /** A file the lookup serves from the cache without reading it. As written, a cached
      empty system prompt is not served: it is read again. */
  predicate Served(policy: SystemLookup, c: PromptCache, k: PromptKey) {
    match k
    case SystemKey => c.system.Some? && (policy == IntendedLookup || c.system.value != "")
    case WorkoutKey(t) => t in c.workout
  }

  /** `buildPromptTemplate`: the template holds the cached system prompt and the type's
      cached prompt, and the files read are the ones the cache did not serve. */
  function BuildPromptTemplate(policy: SystemLookup, c: PromptCache, t: WorkoutType, load: PromptKey -> string)
    : (r: (PromptCache, Template, seq<PromptKey>))
    ensures Cached(r.0, SystemKey) && Cached(r.0, WorkoutKey(t))
    ensures r.1 == Template(r.0.system.value, r.0.workout[t])
    ensures forall k :: Served(policy, c, k) ==> Served(policy, r.0, k)
    ensures !Served(policy, c, SystemKey) ==> r.0.system == Some(load(SystemKey))
    ensures policy == IntendedLookup || load(SystemKey) != "" ==> Served(policy, r.0, SystemKey)
    ensures r.2 == (if Served(policy, c, SystemKey) then [] else [SystemKey])
                 + (if Served(policy, c, WorkoutKey(t)) then [] else [WorkoutKey(t)])
  {
    var s := LookupSystem(policy, c, load);
    var u := GetWorkoutPrompt(s.cache, t, load);
    (u.cache, Template(s.content, u.content), s.loaded + u.loaded)
  }

  /** Building templates for a series of requests. */
  function Run(policy: SystemLookup, c: PromptCache, ts: seq<WorkoutType>, load: PromptKey -> string)
    : (r: (PromptCache, seq<PromptKey>))
    ensures forall k :: Served(policy, c, k) ==> Served(policy, r.0, k)
    decreases |ts|
  {
    if ts == [] then (c, [])
    else
      var (c1, _, loaded) := BuildPromptTemplate(policy, c, ts[0], load);
      var (c2, more) := Run(policy, c1, ts[1..], load);
      (c2, loaded + more)
  }

  function Occurrences(ks: seq<PromptKey>, k: PromptKey): nat {
    if ks == [] then 0 else (if ks[0] == k then 1 else 0) + Occurrences(ks[1..], k)
  }

  lemma {:induction false} OccurrencesConcat(a: seq<PromptKey>, b: seq<PromptKey>, k: PromptKey)
    ensures Occurrences(a + b, k) == Occurrences(a, k) + Occurrences(b, k)
  {
    if a != [] {
      assert a + b != [] && (a + b)[0] == a[0];
      assert (a + b)[1..] == a[1..] + b;
      OccurrencesConcat(a[1..], b, k);
    } else {
      assert a + b == b;
    }
  }

  /** One template build reads a file at most once, and only one the cache did not
      serve. */
  lemma BuildReadsUncachedOnce(policy: SystemLookup, c: PromptCache, t: WorkoutType, load: PromptKey -> string, k: PromptKey)
    ensures Occurrences(BuildPromptTemplate(policy, c, t, load).2, k) <= if Served(policy, c, k) then 0 else 1
    ensures k == SystemKey ==>
      Occurrences(BuildPromptTemplate(policy, c, t, load).2, k) == if Served(policy, c, k) then 0 else 1
  {
    var a: seq<PromptKey> := if Served(policy, c, SystemKey) then [] else [SystemKey];
    var b: seq<PromptKey> := if Served(policy, c, WorkoutKey(t)) then [] else [WorkoutKey(t)];
    OccurrencesConcat(a, b, k);
    assert a != [] ==> a[1..] == [];
    assert b != [] ==> b[1..] == [];
  }

  /** Each prompt file is read at most once, and not at all when already served from the
      cache, however many templates are built: always with the intended lookup, and as
      written only when the system prompt is not empty. */
  lemma {:induction false} EachPromptReadAtMostOnce(policy: SystemLookup, c: PromptCache, ts: seq<WorkoutType>,
                                                    load: PromptKey -> string, k: PromptKey)
    requires policy == IntendedLookup || load(SystemKey) != ""
    ensures Occurrences(Run(policy, c, ts, load).1, k) <= if Served(policy, c, k) then 0 else 1
    decreases |ts|
  {
    if ts != [] {
      var (c1, tmpl, loaded) := BuildPromptTemplate(policy, c, ts[0], load);
      EachPromptReadAtMostOnce(policy, c1, ts[1..], load, k);
      OccurrencesConcat(loaded, Run(policy, c1, ts[1..], load).1, k);
      BuildReadsUncachedOnce(policy, c, ts[0], load, k);
      assert Occurrences(loaded, k) > 0 ==> !Served(policy, c, k) && Served(policy, c1, k);
    }
  }

  /** As written, an empty system prompt is read on every build. */
  lemma {:induction false} EmptySystemPromptReadEveryBuild(c: PromptCache, ts: seq<WorkoutType>,
                                                           load: PromptKey -> string)
    requires load(SystemKey) == "" && !Served(AsWrittenLookup, c, SystemKey)
    ensures Occurrences(Run(AsWrittenLookup, c, ts, load).1, SystemKey) == |ts|
    decreases |ts|
  {
    if ts != [] {
      var (c1, tmpl, loaded) := BuildPromptTemplate(AsWrittenLookup, c, ts[0], load);
      EmptySystemPromptReadEveryBuild(c1, ts[1..], load);
      OccurrencesConcat(loaded, Run(AsWrittenLookup, c1, ts[1..], load).1, SystemKey);
      BuildReadsUncachedOnce(AsWrittenLookup, c, ts[0], load, SystemKey);
    }
  }

  /** The system prompt of an empty file is read again on every request as written,
      against once as intended. */
  lemma EmptySystemPromptReread(load: PromptKey -> string)
    requires load(SystemKey) == ""
    ensures var first := GetSystemPromptAsWritten(EmptyCache, load);
      GetSystemPromptAsWritten(first.cache, load).loaded == [SystemKey]
    ensures var first := GetSystemPrompt(EmptyCache, load);
      GetSystemPrompt(first.cache, load).loaded == []
  {
  }

  /** `clearPromptCache`: both caches emptied, so every file is read again. */
  function ClearPromptCache(c: PromptCache): (r: PromptCache)
    ensures forall k :: !Cached(r, k)
  {
    EmptyCache
  }

  /** After `clearPromptCache` the next template build reads both files again. */
  lemma ClearedCacheReadsAgain(policy: SystemLookup, c: PromptCache, t: WorkoutType, load: PromptKey -> string)
    ensures BuildPromptTemplate(policy, ClearPromptCache(c), t, load).2 == [SystemKey, WorkoutKey(t)]
  {
    assert !Served(policy, ClearPromptCache(c), SystemKey) && !Served(policy, ClearPromptCache(c), WorkoutKey(t));
  }
}
