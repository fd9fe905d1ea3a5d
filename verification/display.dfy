/** The display helpers of the workout cards and lists: the difficulty text, the
    capitalised type and intensity, the duration text, the snake_case formatters, the
    type badge and the weight cell. The same helper is written out in several components
    (the difficulty text and the type capitalisation in the editor, the results view
    and the workout list; the duration in the interval and the exercise card); the
    copies are textually identical, so each is defined once here. */
module Display {
  import opened Wrappers
  import opened Text
  import opened Enums
  import opened OutputSchema

  // ----- difficulty -----

  /** `['', 'Very Easy', 'Easy', 'Moderate', 'Hard', 'Very Hard']`. */
  const DifficultyLabels: seq<string> := ["", "Very Easy", "Easy", "Moderate", "Hard", "Very Hard"]

  const UnknownLabel := "Unknown"

  /** `labels[rating] || 'Unknown'`: an index off the table reads `undefined` and index 0
      reads `''`, both falsy. */
  function DifficultyLabel(rating: int): (r: string)
    ensures 1 <= rating <= 5 <==> r != UnknownLabel
    ensures r != ""
  {
    if 0 <= rating < |DifficultyLabels| && DifficultyLabels[rating] != "" then DifficultyLabels[rating]
    else UnknownLabel
  }

  /** The rating a text names, if any: the inverse of `DifficultyLabel` on 1..5. */
  function DifficultyRating(text: string): (r: Option<int>)
    ensures r.Some? ==> 1 <= r.value <= 5 && DifficultyLabels[r.value] == text
    ensures r.None? ==> forall k :: 1 <= k <= 5 ==> DifficultyLabels[k] != text
  {
    if text == "Very Easy" then Some(1)
    else if text == "Easy" then Some(2)
    else if text == "Moderate" then Some(3)
    else if text == "Hard" then Some(4)
    else if text == "Very Hard" then Some(5)
    else None
  }

  /** Each rating 1..5 has its own text, which names it back; every other rating reads
      'Unknown'. */
  lemma DifficultyLabelRoundTrip(rating: int, text: string)
    ensures 1 <= rating <= 5 ==> DifficultyRating(DifficultyLabel(rating)) == Some(rating)
    ensures DifficultyRating(text) == Some(rating) ==> DifficultyLabel(rating) == text
    ensures !(1 <= rating <= 5) ==> DifficultyLabel(rating) == UnknownLabel
  {
  }

  /** A schema-valid workout always shows a known difficulty. */
  lemma ValidWorkoutHasKnownDifficulty(w: WorkoutOutput)
    requires ValidWorkoutOutput(w)
    ensures DifficultyLabel(w.difficultyRating) != UnknownLabel
    ensures DifficultyRating(DifficultyLabel(w.difficultyRating)) == Some(w.difficultyRating)
  {
    DifficultyLabelRoundTrip(w.difficultyRating, "");
  }

  // ----- capitalisation -----

  // The workout-type and intensity formatters are `Text.Capitalize`.

  /** The three workout types display as 'Hypertrophy', 'Strength' and 'Conditioning',
      and formatting again changes nothing. */
  lemma WorkoutTypeDisplayNames(t: WorkoutType)
    ensures Capitalize(TypeName(t))
      == match t
         case Hypertrophy => "Hypertrophy"
         case Strength => "Strength"
         case Conditioning => "Conditioning"
    ensures Capitalize(Capitalize(TypeName(t))) == Capitalize(TypeName(t))
  {
    CapitalizeIdempotent(TypeName(t));
  }

  /** Two texts display alike exactly when they are equal or differ only in the case of
      their first letter. */
  lemma CapitalizedEqualIff(a: string, b: string)
    ensures Capitalize(a) == Capitalize(b) <==>
      a == b || (a != [] && b != [] && a[1..] == b[1..] && UpperChar(a[0]) == UpperChar(b[0]))
  {
  }

  /** Distinct lower-case texts keep distinct display texts; the four intensities are
      such texts. */
  lemma LowerCaseDisplayDistinct(a: string, b: string)
    requires a != b && a != [] && b != [] && IsLower(a[0]) && IsLower(b[0])
    ensures Capitalize(a) != Capitalize(b)
  {
  }

  // ----- durations -----

  /** `formatDuration` / `formatRestDuration`: 'None' for zero, 'Ns' under a minute, then
      whole minutes as 'Mm' and anything else as 'Mm Ss'. A negative count falls in the
      'Ns' branch with its minus sign. */
  function FormatDuration(seconds: int): (r: string)
    ensures seconds == 0 ==> r == "None"
    ensures seconds < 60 && seconds != 0 ==> r == IntToString(seconds) + "s"
    ensures seconds >= 60 ==> StartsWith(r, NatToString(seconds / 60) + "m")
  {
    if seconds == 0 then "None"
    else if seconds < 60 then IntToString(seconds) + "s"
    else
      var minutes := seconds / 60;
      var rest := seconds % 60;
      if rest == 0 then NatToString(minutes) + "m"
      else NatToString(minutes) + "m " + NatToString(rest) + "s"
  }

  /** Reads a duration text back: 'None', 'Ns', 'Mm' or 'Mm Ss' with decimal digits. */
  function ParseDuration(t: string): (r: Option<nat>)
    ensures t == "None" ==> r == Some(0)
  {
    if t == "None" then Some(0)
    else if |t| >= 2 && t[|t| - 1] == 'm' && AllDigits(t[..|t| - 1]) then Some(60 * ParseNat(t[..|t| - 1]))
    else if |t| >= 2 && t[|t| - 1] == 's' then ParseSecondsText(t[..|t| - 1])
    else None
  }

  /** A duration text before its final 's': 'N' or 'Mm S'. */
  function ParseSecondsText(body: string): (r: Option<nat>)
  {
    var k := IndexOf(body, ' ');
    if k == |body| then
      if AllDigits(body) then Some(ParseNat(body)) else None
    else if k >= 2 && body[k - 1] == 'm' && AllDigits(body[..k - 1]) && AllDigits(body[k + 1..]) then
      Some(60 * ParseNat(body[..k - 1]) + ParseNat(body[k + 1..]))
    else None
  }

  /** The first space of `a + " " + b` when `a` has none. */
  lemma IndexOfSpace(a: string, b: string)
    requires ' ' !in a
    ensures IndexOf(a + " " + b, ' ') == |a|
  {
    var s := a + " " + b;
    assert s[|a|] == ' ';
    assert forall k :: 0 <= k < |a| ==> s[k] != ' ' by {
      forall k | 0 <= k < |a| ensures s[k] != ' ' { assert s[k] == a[k]; assert a[k] in a; }
    }
  }

  /** A digit string holds no space. */
  lemma NoSpaceInDigits(d: string)
    requires AllDigits(d)
    ensures IndexOf(d, ' ') == |d|
  {
    assert forall k :: 0 <= k < |d| ==> d[k] != ' ' by {
      forall k | 0 <= k < |d| ensures d[k] != ' ' { assert IsDigit(d[k]); }
    }
  }

  /** A seconds-only text reads back. */
  lemma SecondsRoundTrip(seconds: nat)
    requires 0 < seconds < 60
    ensures ParseDuration(FormatDuration(seconds)) == Some(seconds)
  {
    var d := NatToString(seconds);
    var t := d + "s";
    assert FormatDuration(seconds) == t;
    assert t[..|t| - 1] == d;
    assert IsDigit(t[|t| - 2]);
    NoSpaceInDigits(d);
    ParseNatToString(seconds);
  }

  /** A whole-minutes text reads back. */
  lemma MinutesRoundTrip(seconds: nat)
    requires seconds >= 60 && seconds % 60 == 0
    ensures ParseDuration(FormatDuration(seconds)) == Some(seconds)
  {
    var m := NatToString(seconds / 60);
    ParseNatToString(seconds / 60);
    var t := m + "m";
    assert FormatDuration(seconds) == t;
    assert t[..|t| - 1] == m;
  }

  /** The text 'Mm S' reads back as M minutes and S seconds. */
  lemma ParseMinutesSeconds(minutes: nat, seconds: nat)
    ensures ParseSecondsText(NatToString(minutes) + "m " + NatToString(seconds)) == Some(60 * minutes + seconds)
  {
    ParseNatToString(minutes);
    ParseNatToString(seconds);
    ParseDigitsText(NatToString(minutes), NatToString(seconds), minutes, seconds);
  }

  /** 'Mm S' with digit runs M and S of values `a` and `b` reads back as `60 * a + b`. */
  lemma ParseDigitsText(m: string, sec: string, a: nat, b: nat)
    requires m != [] && AllDigits(m) && AllDigits(sec)
    requires ParseNat(m) == a && ParseNat(sec) == b
    ensures ParseSecondsText(m + "m " + sec) == Some(60 * a + b)
  {
    SplitAtSpace(m, sec);
    ParseSplit(m + "m " + sec, |m| + 1, m, sec, a, b);
  }

  /** The seconds reader on a text whose first space follows 'm' at `k`. */
  lemma ParseSplit(body: string, k: nat, m: string, sec: string, a: nat, b: nat)
    requires 2 <= k < |body| && IndexOf(body, ' ') == k && body[k - 1] == 'm'
    requires body[..k - 1] == m && body[k + 1..] == sec
    requires AllDigits(m) && AllDigits(sec) && ParseNat(m) == a && ParseNat(sec) == b
    ensures ParseSecondsText(body) == Some(60 * a + b)
  {
  }

  /** Where 'Mm S' splits, for digit runs M and S. */
  lemma SplitAtSpace(m: string, sec: string)
    requires m != [] && AllDigits(m) && AllDigits(sec)
    ensures var body := m + "m " + sec;
      && IndexOf(body, ' ') == |m| + 1 && body[|m|] == 'm'
      && body[..|m|] == m && body[|m| + 2..] == sec
  {
    var mm := m + "m";
    var body := mm + " " + sec;
    assert body == m + "m " + sec;
    assert ' ' !in mm by {
      forall i | 0 <= i < |mm| ensures mm[i] != ' ' {
        if i < |m| { assert mm[i] == m[i]; assert IsDigit(m[i]); }
      }
    }
    IndexOfSpace(mm, sec);
    assert body[..|m|] == m;
    assert body[|m| + 2..] == sec;
  }

  /** A text ending in 's' is read by the seconds reader. */
  lemma ParseSecondsSuffix(body: string)
    requires body != []
    ensures ParseDuration(body + "s") == ParseSecondsText(body)
  {
    var t := body + "s";
    assert t[|t| - 1] == 's';
    assert t[..|t| - 1] == body;
    assert t != "None" by { assert t[|t| - 1] != "None"[3]; }
  }

  /** A minutes-and-seconds text reads back. */
  lemma MinutesSecondsRoundTrip(seconds: nat)
    requires seconds >= 60 && seconds % 60 != 0
    ensures ParseDuration(FormatDuration(seconds)) == Some(seconds)
  {
    var body := NatToString(seconds / 60) + "m " + NatToString(seconds % 60);
    assert FormatDuration(seconds) == body + "s";
    ParseSecondsSuffix(body);
    ParseMinutesSeconds(seconds / 60, seconds % 60);
  }

  /** Every non-negative duration's text reads back as that duration: the text loses
      nothing, and different durations never look alike. */
  lemma DurationRoundTrip(seconds: nat)
    ensures ParseDuration(FormatDuration(seconds)) == Some(seconds)
  {
    if seconds == 0 {
    } else if seconds < 60 {
      SecondsRoundTrip(seconds);
    } else if seconds % 60 == 0 {
      MinutesRoundTrip(seconds);
    } else {
      MinutesSecondsRoundTrip(seconds);
    }
  }

  // ----- snake_case -----

  /** `s.replace(/_/g, ' ')`: the muscle-group and the list view's modality formatter. */
  function SpaceUnderscores(s: string): (r: string)
    ensures |r| == |s| && '_' !in r
    ensures forall i :: 0 <= i < |s| && s[i] != '_' ==> r[i] == s[i]
    ensures forall i :: 0 <= i < |s| && s[i] == '_' ==> r[i] == ' '
  {
    ReplaceChar(s, '_', ' ')
  }

  /** A name without spaces comes back from its display text by turning spaces back into
      underscores. */
  lemma SpaceUnderscoresInvertible(s: string)
    requires ' ' !in s
    ensures ReplaceChar(SpaceUnderscores(s), ' ', '_') == s
  {
    var r := ReplaceChar(SpaceUnderscores(s), ' ', '_');
    forall i | 0 <= i < |s| ensures r[i] == s[i] {
      assert s[i] in s;
    }
  }

  /** `.map((word) => capitalize(word))`. */
  function CapitalizeAll(words: seq<string>): (r: seq<string>)
    ensures |r| == |words|
    ensures forall k :: 0 <= k < |words| ==> r[k] == Capitalize(words[k])
  {
    if words == [] then [] else [Capitalize(words[0])] + CapitalizeAll(words[1..])
  }

  /** The interval card's `formatModality`: split on '_', capitalise each word, join with
      a space. */
  function FormatModalityTitle(modality: string): (r: string)
    ensures |r| == |modality|
    ensures forall i :: 0 <= i < |r| ==>
      r[i] == (if i == 0 || modality[i - 1] == '_' then UpperChar(SpaceUnderscores(modality)[i])
               else SpaceUnderscores(modality)[i])
    ensures SameUpToUpper(r, SpaceUnderscores(modality))
    ensures '_' !in r
  {
    TitleAgreesWithSpaced(modality);
    Join(CapitalizeAll(Split(modality, '_')), ' ')
  }

  /** `a` is `b` with some characters upper-cased and no other change. */
  predicate SameUpToUpper(a: string, b: string) {
    |a| == |b| && forall i :: 0 <= i < |b| ==> a[i] == b[i] || a[i] == UpperChar(b[i])
  }

  lemma SameUpToUpperConcat(a1: string, b1: string, a2: string, b2: string)
    requires SameUpToUpper(a1, b1) && SameUpToUpper(a2, b2)
    ensures SameUpToUpper(a1 + a2, b1 + b2)
  {
    forall i | 0 <= i < |b1 + b2|
      ensures (a1 + a2)[i] == (b1 + b2)[i] || (a1 + a2)[i] == UpperChar((b1 + b2)[i])
    {
      if i >= |b1| { assert (a1 + a2)[i] == a2[i - |b1|] && (b1 + b2)[i] == b2[i - |b1|]; }
    }
  }

  /** Joining capitalised words with `sep` is joining the words with `sep` and
      upper-casing the first character and each one that follows a separator of the
      words joined with `mark`, when no word holds `mark` and `sep` has no upper case. */
  lemma {:induction false} JoinCapitalized(words: seq<string>, sep: char, mark: char)
    requires forall k :: 0 <= k < |words| ==> mark !in words[k]
    requires !IsLower(sep)
    ensures var c, p, u := Join(CapitalizeAll(words), sep), Join(words, sep), Join(words, mark);
      && |c| == |u| && |p| == |u|
      && forall i :: 0 <= i < |u| ==> c[i] == (if i == 0 || u[i - 1] == mark then UpperChar(p[i]) else p[i])
  {
    if |words| == 1 {
      assert CapitalizeAll(words) == [Capitalize(words[0])];
    } else if |words| > 1 {
      var w := words[0];
      var cs := CapitalizeAll(words);
      assert cs[1..] == CapitalizeAll(words[1..]);
      JoinCapitalized(words[1..], sep, mark);
      var c, p, u := Join(cs, sep), Join(words, sep), Join(words, mark);
      var c', p', u' := Join(cs[1..], sep), Join(words[1..], sep), Join(words[1..], mark);
      assert c == Capitalize(w) + [sep] + c' && p == w + [sep] + p' && u == w + [mark] + u';
      forall i | 0 <= i < |u|
        ensures c[i] == (if i == 0 || u[i - 1] == mark then UpperChar(p[i]) else p[i])
      {
        if i < |w| {
          if i > 0 { assert u[i - 1] == w[i - 1] && w[i - 1] in w; }
        } else if i == |w| {
          if i > 0 { assert u[i - 1] == w[i - 1] && w[i - 1] in w; }
        } else {
          assert c[i] == c'[i - |w| - 1] && p[i] == p'[i - |w| - 1];
          if i - |w| - 1 > 0 { assert u[i - 1] == u'[i - |w| - 2]; } else { assert u[i - 1] == mark; }
        }
      }
    }
  }

  /** Joining with a new separator is joining with the old one and then replacing it,
      when no word holds the old separator. */
  lemma {:induction false} JoinReplaceSeparator(words: seq<string>)
    requires forall k :: 0 <= k < |words| ==> '_' !in words[k]
    ensures Join(words, ' ') == ReplaceChar(Join(words, '_'), '_', ' ')
  {
    if words == [] {
    } else if |words| == 1 {
      var w := words[0];
      assert forall i :: 0 <= i < |w| ==> w[i] != '_' by {
        forall i | 0 <= i < |w| ensures w[i] != '_' { assert w[i] in w; }
      }
    } else {
      JoinReplaceSeparator(words[1..]);
      var w := words[0];
      var rest := Join(words[1..], '_');
      var u := Join(words, '_');
      assert u == w + "_" + rest;
      var r := ReplaceChar(u, '_', ' ');
      var j := Join(words, ' ');
      assert j == w + " " + ReplaceChar(rest, '_', ' ');
      forall i | 0 <= i < |j| ensures j[i] == r[i] {
        if i < |w| { assert w[i] in w; assert j[i] == w[i] && u[i] == w[i]; }
        else if i == |w| {
        } else {
          assert j[i] == ReplaceChar(rest, '_', ' ')[i - |w| - 1];
          assert u[i] == rest[i - |w| - 1];
        }
      }
    }
  }

  /** The two modality formatters agree but for case: the card's title-cased text is the
      list view's plain text with the first letter and each letter after an underscore
      upper-cased, so neither shows an underscore and both keep the length. */
  lemma TitleAgreesWithSpaced(modality: string)
    ensures var r, p := Join(CapitalizeAll(Split(modality, '_')), ' '), SpaceUnderscores(modality);
      && |r| == |modality|
      && (forall i :: 0 <= i < |r| ==>
            r[i] == (if i == 0 || modality[i - 1] == '_' then UpperChar(p[i]) else p[i]))
      && SameUpToUpper(r, p) && '_' !in r
  {
    var words := Split(modality, '_');
    JoinCapitalized(words, ' ', '_');
    JoinReplaceSeparator(words);
    JoinSplit(modality, '_');
    var r := Join(CapitalizeAll(words), ' ');
    var p := SpaceUnderscores(modality);
    forall i | 0 <= i < |r| ensures r[i] != '_' {
      assert p[i] in p;
    }
  }

  // ----- badges and cells -----

  const HypertrophyBadge := "bg-purple-100 text-purple-800"
  const StrengthBadge := "bg-red-100 text-red-800"
  const ConditioningBadge := "bg-green-100 text-green-800"
  const OtherBadge := "bg-gray-100 text-gray-800"

  /** `getTypeBadgeClass` on the row's `workout_type` text. */
  function TypeBadgeClass(workoutType: string): (r: string)
    ensures ParseWorkoutType(workoutType).None? <==> r == OtherBadge
  {
    match ParseWorkoutType(workoutType)
    case Some(Hypertrophy) => HypertrophyBadge
    case Some(Strength) => StrengthBadge
    case Some(Conditioning) => ConditioningBadge
    case None => OtherBadge
  }

  /** Two type texts get the same badge exactly when they parse to the same type, or
      both fail to parse: the three types get three different badges, none of them the
      fallback. */
  lemma BadgeIffSameType(a: string, b: string)
    ensures TypeBadgeClass(a) == TypeBadgeClass(b) <==> ParseWorkoutType(a) == ParseWorkoutType(b)
  {
  }

  /** The weight column of a set row. */
  datatype WeightCell = Weight(amount: real, unit: string) | Dash

  /** A suggested weight shows with its unit, `'lbs'` when the unit is missing or empty;
      no suggested weight shows a dash. */
  function WeightCellOf(s: ExerciseSet): (r: WeightCell)
    ensures s.suggestedWeight.None? <==> r.Dash?
    ensures r.Weight? ==> r.amount == s.suggestedWeight.value
    ensures r.Weight? && (s.weightUnit.None? || s.weightUnit == Some("")) ==> r.unit == "lbs"
    ensures r.Weight? && s.weightUnit.Some? && s.weightUnit.value != "" ==> r.unit == s.weightUnit.value
  {
    match s.suggestedWeight
    case None => Dash
    case Some(w) => Weight(w, if s.weightUnit.Some? && s.weightUnit.value != "" then s.weightUnit.value else "lbs")
  }

  /** A schema-valid set always shows one of the two schema units. */
  lemma ValidSetShowsKnownUnit(s: ExerciseSet)
    requires ValidExerciseSet(s) && s.suggestedWeight.Some?
    ensures WeightCellOf(s).unit in WeightUnits
  {
  }
}
