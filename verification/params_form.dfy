/** The parameters form of the new-workout flow: the base controls, the controls each
    workout type adds, Angular's `required`/`min`/`max` validators, and the submit that
    emits the raw value with empty optional fields removed. */
module ParamsForm {
  import opened Wrappers
  import opened Js
  import opened Enums
  import opened Text

  /** `Validators.required`, `Validators.min(bound)` and `Validators.max(bound)`. */
  datatype Validator = Required | Min(bound: real) | Max(bound: real)

  /** A form control: its current value and its validators. */
  datatype Control = Control(value: JsValue, validators: seq<Validator>)

  /** A form group, keyed by control name. */
  type Form = map<string, Control>

  /** The number of decimal digits at the start of `s`. */
  function DigitRun(s: string): (n: nat)
    ensures n <= |s| && AllDigits(s[..n])
    ensures n < |s| ==> !IsDigit(s[n])
  {
    if s != [] && IsDigit(s[0]) then
      var n := 1 + DigitRun(s[1..]);
      assert s[..n] == [s[0]] + s[1..][..n - 1];
      n
    else 0
  }

  /** `parseFloat` of a control value, with NaN as `None`. A number is itself. A text is
      read after its leading whitespace as an optional sign and an unsigned decimal
      literal, ignoring whatever follows. Every other value reads as a text without
      digits, so it is NaN. */
  function ParseFloat(x: JsValue): (r: Option<real>)
    ensures x.Num? ==> r == Some(x.n)
    ensures !x.Num? && !x.Str? ==> r.None?
    ensures x.Str? && AllDigits(x.s) && x.s != [] ==> r == Some(ParseNat(x.s) as real)
  {
    match x
    case Num(n) => Some(n)
    case Str(s) =>
      var body := s[LeadingSpace(s)..];
      var negative := body != [] && body[0] == '-';
      var unsigned := if body != [] && (body[0] == '-' || body[0] == '+') then body[1..] else body;
      var m := UnsignedDecimal(unsigned);
      assert AllDigits(s) && s != [] ==> LeadingSpace(s) == 0 && unsigned == s;
      if m.None? then None else Some(if negative then -m.value else m.value)
    case _ => None
  }

  /** The unsigned decimal literal at the start of `t`: a run of digits, an optional
      point and fraction, and an optional exponent. Without a digit before or after the
      point it is NaN. */
  function UnsignedDecimal(t: string): (r: Option<real>)
    ensures AllDigits(t) && t != [] ==> r == Some(ParseNat(t) as real)
    ensures t == [] || !(IsDigit(t[0]) || t[0] == '.') ==> r.None?
  {
    var n := DigitRun(t);
    if n < |t| && t[n] == '.' then PointLiteral(t[..n], t[n + 1..])
    else if n == 0 then None
    else
      assert AllDigits(t) && t != [] ==> n == |t| && t[..n] == t && t[n..] == [];
      Some(Scale(ParseNat(t[..n]) as real, Exponent(t[n..])))
  }

  /** The rest of a literal after its point: the digits before the point, a fraction and
      an optional exponent. */
  function PointLiteral(whole: string, afterPoint: string): (r: Option<real>)
    requires AllDigits(whole)
    ensures r.None? <==> whole == [] && (afterPoint == [] || !IsDigit(afterPoint[0]))
  {
    var k := DigitRun(afterPoint);
    if whole == [] && k == 0 then None
    else
      var fraction := afterPoint[..k];
      var magnitude := ParseNat(whole) as real + ParseNat(fraction) as real / Pow10(k) as real;
      Some(Scale(magnitude, Exponent(afterPoint[k..])))
  }

  /** The power of ten an exponent part `e±digits` (or `E`) at the start of `t` gives; an
      incomplete one, such as a bare `e`, is not part of the literal and gives 0. */
  function Exponent(t: string): (e: int)
    ensures t == [] || (t[0] != 'e' && t[0] != 'E') ==> e == 0
    ensures |t| > 1 && (t[0] == 'e' || t[0] == 'E') && AllDigits(t[1..]) ==> e == ParseNat(t[1..])
  {
    if t == [] || (t[0] != 'e' && t[0] != 'E') then 0
    else
      var rest := t[1..];
      var negative := rest != [] && rest[0] == '-';
      var ds := if rest != [] && (rest[0] == '-' || rest[0] == '+') then rest[1..] else rest;
      var k: int := ParseNat(ds[..DigitRun(ds)]);
      assert AllDigits(rest) && rest != [] ==> ds == rest && DigitRun(ds) == |ds| && ds[..|ds|] == ds;
      if negative then -k else k
  }

  /** `m × 10^e`. */
  function Scale(m: real, e: int): (r: real)
    ensures e == 0 ==> r == m
    ensures e >= 0 ==> r == m * Pow10(e) as real
  {
    if e >= 0 then m * Pow10(e) as real else m / Pow10(-e) as real
  }

  function Pow10(k: nat): (p: nat)
    ensures p >= 1
  {
    if k == 0 then 1 else 10 * Pow10(k - 1)
  }

  /** Angular's validators: `required` fails on an empty value (so `false` and `0`
      pass); `min` and `max` pass on an empty value and on one `parseFloat` reads as NaN,
      and otherwise compare what `parseFloat` reads. */
  function Passes(v: Validator, x: JsValue): (r: bool)
    ensures IsEmptyValue(x) ==> (r <==> !v.Required?)
    ensures x.Num? && v.Min? ==> (r <==> x.n >= v.bound)
    ensures x.Num? && v.Max? ==> (r <==> x.n <= v.bound)
    ensures x.Str? && x.s != [] && AllDigits(x.s) && v.Min? ==> (r <==> ParseNat(x.s) as real >= v.bound)
    ensures x.Str? && x.s != [] && AllDigits(x.s) && v.Max? ==> (r <==> ParseNat(x.s) as real <= v.bound)
  {
    match v
    case Required => !IsEmptyValue(x)
    case Min(m) => IsEmptyValue(x) || ParseFloat(x).None? || ParseFloat(x).value >= m
    case Max(m) => IsEmptyValue(x) || ParseFloat(x).None? || ParseFloat(x).value <= m
  }

  predicate ControlValid(c: Control) {
    forall i :: 0 <= i < |c.validators| ==> Passes(c.validators[i], c.value)
  }

  /** `paramsForm.valid`: every control passes every one of its validators. */
  predicate FormValid(f: Form) {
    forall k :: k in f ==> ControlValid(f[k])
  }

  const DurationValidators := [Required, Min(10.0), Max(180.0)]
  const LoadValidators := [Required, Min(1.0), Max(100.0)]

  /** A required text or select control, initially empty. */
  const RequiredText := Control(Str(""), [Required])

  /** An optional text control, initially empty. */
  const OptionalText := Control(Str(""), [])

  /** The two controls every form starts with: a 45-minute duration and empty notes. */
  const BaseForm: Form := map[
    "workout_duration" := Control(Num(45.0), DurationValidators),
    "equipment_notes" := OptionalText]

  /** The controls `setupFormForWorkoutType` adds for each type. */
  function TypeControls(t: WorkoutType): Form {
    match t
    case Hypertrophy => map[
      "target_muscle_group" := RequiredText,
      "tempo_focus" := Control(Bool(false), []),
      "weight_progression_pattern" := RequiredText,
      "equipment_access" := RequiredText]
    case Strength => map[
      "target_muscle_group" := RequiredText,
      "load_percentage" := Control(Num(75.0), LoadValidators),
      "weight_progression_pattern" := RequiredText,
      "equipment_access" := RequiredText]
    case Conditioning => map[
      "interval_structure" := RequiredText,
      "cardio_modality" := RequiredText,
      "distance_time_goal" := OptionalText,
      "equipment_access" := RequiredText]
  }

  /** A sequence of `addControl` calls with distinct names: `addControl` leaves a control
      that already exists in place, so existing controls always win. */
  function AddControls(f: Form, added: Form): (r: Form)
    ensures r.Keys == f.Keys + added.Keys
    ensures forall k :: k in f ==> r[k] == f[k]
    ensures forall k :: k in added && k !in f ==> r[k] == added[k]
  {
    map k | k in f.Keys + added.Keys :: if k in f then f[k] else added[k]
  }

  /** `setupFormForWorkoutType` on the current form. */
  function SetupForWorkoutType(f: Form, t: WorkoutType): (r: Form)
    ensures r.Keys == f.Keys + TypeControls(t).Keys
    ensures forall k :: k in f ==> r[k] == f[k]
  {
    AddControls(f, TypeControls(t))
  }

  /** The form a freshly created component shows for type `t`. */
  function FreshForm(t: WorkoutType): Form {
    SetupForWorkoutType(BaseForm, t)
  }

  /** The user setting a control's value; a name with no control changes nothing. */
  function SetValue(f: Form, name: string, v: JsValue): (r: Form)
    ensures r.Keys == f.Keys
    ensures name in f ==> r[name] == f[name].(value := v)
    ensures forall k :: k in f && k != name ==> r[k] == f[k]
  {
    if name in f then f[name := f[name].(value := v)] else f
  }

  /** `onSubmit`: an invalid form emits nothing; a valid one emits its raw value without
      the controls whose value is `''`, `null` or `undefined`. */
  function OnSubmit(f: Form): (r: Option<map<string, JsValue>>)
    ensures r.Some? <==> FormValid(f)
    ensures r.Some? ==> forall k :: k in r.value <==> k in f && !IsEmptyValue(f[k].value)
    ensures r.Some? ==> forall k :: k in r.value ==> r.value[k] == f[k].value
  {
    if FormValid(f) then Some(map k | k in f && !IsEmptyValue(f[k].value) :: f[k].value)
    else None
  }

  /** Setting up the same type twice adds nothing the first setup did not. */
  lemma SetupIdempotent(f: Form, t: WorkoutType)
    ensures SetupForWorkoutType(SetupForWorkoutType(f, t), t) == SetupForWorkoutType(f, t)
  {
  }

  /** The controls of a fresh hypertrophy form, and their defaults. */
  lemma HypertrophyFormShape()
    ensures FreshForm(Hypertrophy).Keys ==
      {"workout_duration", "equipment_notes", "target_muscle_group", "tempo_focus",
       "weight_progression_pattern", "equipment_access"}
    ensures FreshForm(Hypertrophy)["workout_duration"] == Control(Num(45.0), DurationValidators)
    ensures FreshForm(Hypertrophy)["tempo_focus"] == Control(Bool(false), [])
  {
  }

  /** The controls of a fresh strength form, and their defaults. */
  lemma StrengthFormShape()
    ensures FreshForm(Strength).Keys ==
      {"workout_duration", "equipment_notes", "target_muscle_group", "load_percentage",
       "weight_progression_pattern", "equipment_access"}
    ensures FreshForm(Strength)["workout_duration"] == Control(Num(45.0), DurationValidators)
    ensures FreshForm(Strength)["load_percentage"] == Control(Num(75.0), LoadValidators)
  {
  }

  /** The controls of a fresh conditioning form, and their defaults. */
  lemma ConditioningFormShape()
    ensures FreshForm(Conditioning).Keys ==
      {"workout_duration", "equipment_notes", "interval_structure", "cardio_modality",
       "distance_time_goal", "equipment_access"}
    ensures FreshForm(Conditioning)["workout_duration"] == Control(Num(45.0), DurationValidators)
    ensures FreshForm(Conditioning)["distance_time_goal"] == OptionalText
  {
  }

  /** A fresh form cannot be submitted: the equipment select is required and empty. */
  lemma FreshFormInvalid(t: WorkoutType)
    ensures OnSubmit(FreshForm(t)).None?
  {
    var c := FreshForm(t)["equipment_access"];
    assert c == RequiredText;
    assert !Passes(c.validators[0], c.value);
  }

  /** A number in the duration control is accepted exactly from 10 to 180 minutes, and
      an empty duration is refused. */
  lemma DurationRange(x: real)
    ensures ControlValid(Control(Num(x), DurationValidators)) <==> 10.0 <= x <= 180.0
    ensures !ControlValid(Control(Null, DurationValidators))
  {
    var c := Control(Num(x), DurationValidators);
    if ControlValid(c) {
      assert Passes(c.validators[1], c.value);
      assert Passes(c.validators[2], c.value);
    }
    assert !Passes(Control(Null, DurationValidators).validators[0], Null);
  }

  /** A duration held as a text of digits is checked by its value, because `min` and `max`
      read it with `parseFloat`: "5" is refused and "60" accepted. */
  lemma DigitTextDurationRange(s: string)
    requires s != [] && AllDigits(s)
    ensures ControlValid(Control(Str(s), DurationValidators)) <==> 10 <= ParseNat(s) <= 180
  {
    assert ParseFloat(Str(s)) == Some(ParseNat(s) as real);
    DurationByValue(Str(s));
  }

  /** A text without a digit is NaN to `parseFloat`, so it passes `min` and `max` whatever
      the bounds; only `required` can refuse it. */
  lemma TextWithoutDigitsPassesBounds(s: string, m: real)
    requires forall i :: 0 <= i < |s| ==> !IsDigit(s[i])
    ensures ParseFloat(Str(s)).None?
    ensures Passes(Min(m), Str(s)) && Passes(Max(m), Str(s))
  {
    var body := s[LeadingSpace(s)..];
    var digits := if body != [] && (body[0] == '-' || body[0] == '+') then body[1..] else body;
    assert digits == s[|s| - |digits|..];
    assert DigitRun(digits) == 0 by {
      if digits != [] { assert digits[0] == s[|s| - |digits|]; }
    }
    if digits != [] && digits[0] == '.' {
      var rest := digits[1..];
      assert DigitRun(rest) == 0 by {
        if rest != [] { assert rest[0] == s[|s| - |rest|]; }
      }
    }
  }

  /** A text in exponent notation is read with its exponent: digits `a`, an `e` and digits
      `b` read as `a` scaled by `10^b`. */
  lemma ExponentTextRead(a: string, b: string)
    requires a != [] && AllDigits(a) && b != [] && AllDigits(b)
    ensures ParseFloat(Str(a + "e" + b)) == Some(Scale(ParseNat(a) as real, ParseNat(b)))
  {
    var s := a + "e" + b;
    assert s[0] == a[0];
    assert LeadingSpace(s) == 0;
    assert s[0..] == s;
    ExponentLiteral(a, b);
  }

  /** The unsigned literal `a e b` is `a` scaled by `b`. */
  lemma ExponentLiteral(a: string, b: string)
    requires a != [] && AllDigits(a) && b != [] && AllDigits(b)
    ensures UnsignedDecimal(a + "e" + b) == Some(Scale(ParseNat(a) as real, ParseNat(b)))
  {
    var t := a + "e" + b;
    var n := |a|;
    assert t[..n] == a && t[n] == 'e';
    DigitRunOfDigits(t, n);
    assert Exponent(t[n..]) == ParseNat(b) by {
      assert t[n..] == "e" + b && t[n..][1..] == b;
    }
  }

  /** `DigitRun` stops exactly at the first non-digit. */
  lemma {:induction false} DigitRunOfDigits(s: string, n: nat)
    requires n < |s| && AllDigits(s[..n]) && !IsDigit(s[n])
    ensures DigitRun(s) == n
    decreases n
  {
    if n > 0 {
      assert s[1..][..n - 1] == s[..n][1..];
      DigitRunOfDigits(s[1..], n - 1);
    }
  }

  /** A duration in exponent notation is checked by the value it denotes, so "1e3" (a
      thousand) is refused and "5e1" (fifty) accepted. */
  lemma ExponentTextDurationRange(a: string, b: string)
    requires a != [] && AllDigits(a) && b != [] && AllDigits(b)
    ensures ControlValid(Control(Str(a + "e" + b), DurationValidators))
      <==> 10.0 <= Scale(ParseNat(a) as real, ParseNat(b)) <= 180.0
  {
    ExponentTextRead(a, b);
    DurationByValue(Str(a + "e" + b));
  }

  /** A non-empty value `parseFloat` reads as a number is a valid duration exactly when
      that number is from 10 to 180. */
  lemma DurationByValue(x: JsValue)
    requires !IsEmptyValue(x) && ParseFloat(x).Some?
    ensures ControlValid(Control(x, DurationValidators)) <==> 10.0 <= ParseFloat(x).value <= 180.0
  {
    var v := ParseFloat(x).value;
    var c := Control(x, DurationValidators);
    assert Passes(Required, x);
    assert Passes(Min(10.0), x) <==> 10.0 <= v;
    assert Passes(Max(180.0), x) <==> v <= 180.0;
    if ControlValid(c) {
      assert Passes(c.validators[1], x) && Passes(c.validators[2], x);
    }
    if 10.0 <= v <= 180.0 {
      forall i | 0 <= i < |c.validators| ensures Passes(c.validators[i], x) {
      }
    }
  }

  /** A number in the load control is accepted exactly from 1 to 100 percent. */
  lemma LoadRange(x: real)
    ensures ControlValid(Control(Num(x), LoadValidators)) <==> 1.0 <= x <= 100.0
  {
    var c := Control(Num(x), LoadValidators);
    if ControlValid(c) {
      assert Passes(c.validators[1], c.value);
      assert Passes(c.validators[2], c.value);
    }
  }

  /** Whatever the user does to the values, a submitted numeric duration is within the
      form's range, and it is always among the emitted parameters. */
  lemma SubmittedDurationInRange(f: Form)
    requires "workout_duration" in f && f["workout_duration"].validators == DurationValidators
    requires OnSubmit(f).Some?
    ensures "workout_duration" in OnSubmit(f).value
    ensures f["workout_duration"].value.Num? ==> 10.0 <= f["workout_duration"].value.n <= 180.0
  {
    var c := f["workout_duration"];
    assert ControlValid(c);
    assert Passes(c.validators[0], c.value);
    assert Passes(c.validators[1], c.value);
    assert Passes(c.validators[2], c.value);
  }

  /** The hypertrophy form with its three selects filled in. */
  function FilledHypertrophy(group: string, pattern: string, access: string): Form {
    SetValue(SetValue(SetValue(FreshForm(Hypertrophy),
      "target_muscle_group", Str(group)), "weight_progression_pattern", Str(pattern)),
      "equipment_access", Str(access))
  }

  /** The controls of the filled form: only the three selects changed. */
  lemma FilledHypertrophyShape(group: string, pattern: string, access: string)
    ensures var f := FilledHypertrophy(group, pattern, access);
      && f.Keys == {"workout_duration", "equipment_notes", "target_muscle_group", "tempo_focus",
                    "weight_progression_pattern", "equipment_access"}
      && f["workout_duration"] == Control(Num(45.0), DurationValidators)
      && f["tempo_focus"] == Control(Bool(false), [])
      && f["equipment_notes"] == OptionalText
      && f["target_muscle_group"] == Control(Str(group), [Required])
      && f["weight_progression_pattern"] == Control(Str(pattern), [Required])
      && f["equipment_access"] == Control(Str(access), [Required])
  {
    HypertrophyFormShape();
  }

  /** A hypertrophy form with its three selects filled can be submitted; the unticked
      tempo box is emitted as `false`, the default duration as 45, the selects as
      chosen, and the empty notes are dropped. */
  lemma FilledHypertrophySubmits(group: string, pattern: string, access: string)
    requires group != "" && pattern != "" && access != ""
    ensures var r := OnSubmit(FilledHypertrophy(group, pattern, access));
      && r.Some?
      && r.value.Keys <= FilledHypertrophy(group, pattern, access).Keys
      && "equipment_notes" !in r.value
      && "tempo_focus" in r.value && r.value["tempo_focus"] == Bool(false)
      && "workout_duration" in r.value && r.value["workout_duration"] == Num(45.0)
      && "equipment_access" in r.value && r.value["equipment_access"] == Str(access)
  {
    FilledHypertrophyShape(group, pattern, access);
    FilledHypertrophyValid(group, pattern, access);
  }

  lemma FilledHypertrophyValid(group: string, pattern: string, access: string)
    requires group != "" && pattern != "" && access != ""
    ensures FormValid(FilledHypertrophy(group, pattern, access))
  {
    FilledHypertrophyShape(group, pattern, access);
    var f := FilledHypertrophy(group, pattern, access);
    forall k | k in f ensures ControlValid(f[k]) {
      ShapedControlValid(f, k, group, pattern, access);
    }
  }

  /** One control of a form shaped like the filled hypertrophy form is valid. */
  lemma ShapedControlValid(f: Form, k: string, group: string, pattern: string, access: string)
    requires group != "" && pattern != "" && access != ""
    requires f.Keys == {"workout_duration", "equipment_notes", "target_muscle_group", "tempo_focus",
                        "weight_progression_pattern", "equipment_access"}
    requires f["workout_duration"] == Control(Num(45.0), DurationValidators)
    requires f["tempo_focus"] == Control(Bool(false), [])
    requires f["equipment_notes"] == OptionalText
    requires f["target_muscle_group"] == Control(Str(group), [Required])
    requires f["weight_progression_pattern"] == Control(Str(pattern), [Required])
    requires f["equipment_access"] == Control(Str(access), [Required])
    requires k in f
    ensures ControlValid(f[k])
  {
    assert ControlValid(Control(Num(45.0), DurationValidators));
  }

  /** Changing the type on a live form keeps the earlier type's controls: setup only
      ever adds. */
  lemma TypeChangeKeepsEarlierControls(f: Form, t: WorkoutType, u: WorkoutType)
    ensures SetupForWorkoutType(f, t).Keys <= SetupForWorkoutType(SetupForWorkoutType(f, t), u).Keys
    ensures TypeControls(t).Keys <= SetupForWorkoutType(SetupForWorkoutType(f, t), u).Keys
  {
  }
}
