/** The prompt loaders of the two API deployments: the `$name` to `{name}` rewriting of
    prompt text (with and without escaping literal braces first), the check that every
    declared prompt variable is supplied, and the prompt file paths. Reading and parsing
    the YAML file is a parameter. */
module PromptLoader {
  import opened Wrappers
  import opened Text
  import opened Js
  import opened Enums

  // ----- identifiers -----

  /** `[a-zA-Z_]`. */
  predicate IsIdentStart(c: char) {
    'a' <= c <= 'z' || 'A' <= c <= 'Z' || c == '_'
  }

  /** `[a-zA-Z0-9_]`. */
  predicate IsIdentChar(c: char) {
    IsIdentStart(c) || '0' <= c <= '9'
  }

  /** The length of the longest prefix of identifier characters: the regular expression's
      greedy `[a-zA-Z0-9_]*`. */
  function IdentRun(s: string): (n: nat)
    ensures n <= |s|
    ensures forall i :: 0 <= i < n ==> IsIdentChar(s[i])
    ensures n < |s| ==> !IsIdentChar(s[n])
  {
    if s == [] || !IsIdentChar(s[0]) then 0 else 1 + IdentRun(s[1..])
  }

  predicate IsIdent(name: string) {
    forall i :: 0 <= i < |name| ==> IsIdentChar(name[i])
  }

  /** At position 0, `\$([a-zA-Z_][a-zA-Z0-9_]*)` matches: a `$` and an identifier start. */
  predicate VarAtStart(s: string) {
    |s| > 1 && s[0] == '$' && IsIdentStart(s[1])
  }

  /** The length of the identifier the match captures. */
  function VarLength(s: string): (n: nat)
    requires VarAtStart(s)
    ensures 1 <= n <= |s| - 1
  {
    IdentRun(s[1..])
  }

  /** The output has no `$` directly followed by an identifier start: nothing is left for
      the rewriting to match. */
  predicate NoVariableLeft(r: string) {
    forall i :: 0 <= i < |r| - 1 && r[i] == '$' ==> !IsIdentStart(r[i + 1])
  }

  predicate HasNo(s: string, c: char) {
    forall i :: 0 <= i < |s| ==> s[i] != c
  }

  lemma HasNoTail(s: string, c: char)
    requires s != []
    ensures HasNo(s, c) ==> HasNo(s[1..], c) && s[0] != c
    ensures [s[0]] + s[1..] == s
  {
    if HasNo(s, c) {
      forall i | 0 <= i < |s[1..]| ensures s[1..][i] != c { assert s[1..][i] == s[i + 1]; }
    }
  }

  lemma NoVariableLeftConcat(a: string, b: string)
    requires NoVariableLeft(a) && NoVariableLeft(b)
    requires a != [] && a[|a| - 1] == '$' && b != [] ==> !IsIdentStart(b[0])
    ensures NoVariableLeft(a + b)
  {
    var r := a + b;
    forall i | 0 <= i < |r| - 1 && r[i] == '$' ensures !IsIdentStart(r[i + 1]) {
      if i < |a| - 1 {
        assert r[i] == a[i] && r[i + 1] == a[i + 1];
      } else if i == |a| - 1 {
        assert r[i + 1] == b[0];
      } else {
        assert r[i] == b[i - |a|] && r[i + 1] == b[i - |a| + 1];
      }
    }
  }

  // ----- the rewriting -----

  /** `content.replace(/\$([a-zA-Z_][a-zA-Z0-9_]*)/g, '{$1}')`: scanning left to right,
      each `$` followed by an identifier start, together with the longest identifier after
      it, becomes that identifier in braces; every other character is kept. */
  function Rewrite(s: string): string
    decreases |s|
  {
    if s == [] then []
    else if VarAtStart(s) then
      var n := VarLength(s);
      "{" + s[1..1 + n] + "}" + Rewrite(s[1 + n..])
    else [s[0]] + Rewrite(s[1..])
  }

  /** The rewriting leaves no match behind, keeps whether the text starts with an
      identifier character, and leaves text without `$` unchanged. */
  lemma {:induction false} RewriteProperties(s: string)
    ensures NoVariableLeft(Rewrite(s))
    ensures s != [] ==> Rewrite(s) != [] && (IsIdentStart(Rewrite(s)[0]) <==> IsIdentStart(s[0]))
    ensures HasNo(s, '$') ==> Rewrite(s) == s
    decreases |s|
  {
    if s == [] {
    } else if VarAtStart(s) {
      var n := VarLength(s);
      var name := s[1..1 + n];
      var rest := Rewrite(s[1 + n..]);
      RewriteProperties(s[1 + n..]);
      var head := "{" + name + "}";
      assert HasNo(head, '$') by {
        forall i | 0 <= i < |head| ensures head[i] != '$' {
          if 0 < i < |head| - 1 { assert head[i] == s[1..][i - 1]; }
        }
      }
      NoVariableLeftConcat(head, rest);
      assert Rewrite(s) == head + rest;
    } else {
      var rest := Rewrite(s[1..]);
      RewriteProperties(s[1..]);
      assert s[0] == '$' && rest != [] ==> !IsIdentStart(rest[0]);
      NoVariableLeftConcat([s[0]], rest);
      HasNoTail(s, '$');
      assert Rewrite(s) == [s[0]] + rest;
    }
  }

  /** The rewriting of both deployments. */
  function ConvertVars(s: string): (r: string)
    ensures NoVariableLeft(r)
    ensures s != [] ==> r != [] && (IsIdentStart(r[0]) <==> IsIdentStart(s[0]))
    ensures HasNo(s, '$') ==> r == s
  {
    RewriteProperties(s);
    Rewrite(s)
  }

  /** The escaping of `api/_lib`: every `{` becomes `{{` and every `}` becomes `}}`. */
  function EscapeBraces(s: string): (r: string)
    ensures |r| >= |s|
    ensures s != [] ==> r[0] == s[0]
    ensures HasNo(s, '{') && HasNo(s, '}') ==> r == s
  {
    if s == [] then []
    else
      HasNoTail(s, '{');
      HasNoTail(s, '}');
      EscapeChar(s[0]) + EscapeBraces(s[1..])
  }

  function EscapeChar(c: char): (r: string)
    ensures |r| >= 1 && r[0] == c
  {
    if c == '{' then "{{" else if c == '}' then "}}" else [c]
  }

  /** `convertVariableSyntax` of `api/_lib/prompt-loader.ts`: escape, then rewrite. */
  function ConvertEscaping(s: string): (r: string)
    ensures NoVariableLeft(r)
    ensures HasNo(s, '{') && HasNo(s, '}') && HasNo(s, '$') ==> r == s
  {
    ConvertVars(EscapeBraces(s))
  }

  /** `convertVariableSyntax` of `apps/vercel/src/lib/prompt-loader.ts`: rewrite only. */
  function ConvertPlain(s: string): (r: string)
    ensures NoVariableLeft(r)
    ensures HasNo(s, '$') ==> r == s
  {
    ConvertVars(s)
  }

  // ----- what the rewriting is for -----

  /** The prompt author's meaning: every `$name` (longest identifier) replaced by the value
      `env` gives it, every other character kept. */
  function Substitute(s: string, env: string -> string): string
    decreases |s|
  {
    if s == [] then []
    else if VarAtStart(s) then
      var n := VarLength(s);
      env(s[1..1 + n]) + Substitute(s[1 + n..], env)
    else [s[0]] + Substitute(s[1..], env)
  }

  function Prepend(prefix: string, r: Option<string>): (o: Option<string>)
    ensures o.Some? <==> r.Some?
  {
    if r.Some? then Some(prefix + r.value) else None
  }

  /** The f-string interpolation the converted text is handed to: `{{` and `}}` stand for
      literal braces, `{name}` (up to the next `}`) for a variable's value, and a lone `}`
      or an unclosed `{` is an error. */
  function Format(t: string, env: string -> string): Option<string>
    decreases |t|
  {
    if t == [] then Some([])
    else if |t| > 1 && t[0] == '{' && t[1] == '{' then Prepend("{", Format(t[2..], env))
    else if |t| > 1 && t[0] == '}' && t[1] == '}' then Prepend("}", Format(t[2..], env))
    else if t[0] == '{' then
      var j := IndexOf(t[1..], '}');
      if j == |t| - 1 then None
      else Prepend(env(t[1..1 + j]), Format(t[2 + j..], env))
    else if t[0] == '}' then None
    else Prepend([t[0]], Format(t[1..], env))
  }

  /** Escaping distributes over concatenation. */
  lemma {:induction false} EscapeConcat(a: string, b: string)
    ensures EscapeBraces(a + b) == EscapeBraces(a) + EscapeBraces(b)
    decreases |a|
  {
    if a == [] {
      assert a + b == b;
    } else {
      var ab := a + b;
      assert ab != [] && ab[0] == a[0];
      assert ab[1..] == a[1..] + b;
      EscapeConcat(a[1..], b);
      assert EscapeBraces(ab) == EscapeChar(a[0]) + EscapeBraces(a[1..] + b);
      assert EscapeBraces(a) == EscapeChar(a[0]) + EscapeBraces(a[1..]);
    }
  }

  /** A character that cannot start a match is copied. */
  lemma ConvertCopy(c: char, u: string)
    requires c != '$' || u == [] || !IsIdentStart(u[0])
    ensures Rewrite([c] + u) == [c] + Rewrite(u)
  {
    var e := [c] + u;
    assert e[0] == c && e[1..] == u;
    assert !VarAtStart(e) by { if |e| > 1 { assert e[1] == u[0]; } }
  }

  /** A `$` before the longest identifier is a match. */
  lemma ConvertMatch(name: string, u: string)
    requires name != [] && IsIdentStart(name[0])
    requires IsIdent(name)
    requires u != [] ==> !IsIdentChar(u[0])
    ensures Rewrite("$" + name + u) == "{" + name + "}" + Rewrite(u)
  {
    var e := "$" + name + u;
    assert VarAtStart(e) by { assert e[1] == name[0]; }
    assert VarLength(e) == |name| by {
      assert e[1..] == name + u;
      IdentRunPrefix(name, u);
    }
    assert e[1..1 + |name|] == name && e[1 + |name|..] == u;
  }

  /** The identifier of a match is followed by a character that does not extend it. */
  lemma VarSplit(s: string)
    requires VarAtStart(s)
    ensures var n := VarLength(s);
      && HasNo(s[1..1 + n], '{') && HasNo(s[1..1 + n], '}')
      && IsIdent(s[1..1 + n])
      && (1 + n < |s| ==> !IsIdentChar(s[1 + n]))
      && s == "$" + s[1..1 + n] + s[1 + n..]
  {
    var n := VarLength(s);
    var name := s[1..1 + n];
    forall i | 0 <= i < n ensures IsIdentChar(name[i]) {
      assert name[i] == s[1..][i];
    }
    assert 1 + n < |s| ==> s[1 + n] == s[1..][n];
  }

  /** Rewriting a match inside escaped text: the escaped identifier is the identifier
      itself, and the escaped remainder cannot extend it. */
  lemma ConvertEscapedVar(s: string)
    requires VarAtStart(s)
    ensures var n := VarLength(s);
      Rewrite(EscapeBraces(s)) == "{" + s[1..1 + n] + "}" + Rewrite(EscapeBraces(s[1 + n..]))
  {
    var n := VarLength(s);
    var name, rest := s[1..1 + n], s[1 + n..];
    VarSplit(s);
    EscapeConcat("$" + name, rest);
    EscapeConcat("$", name);
    assert EscapeBraces("$") == "$";
    var er := EscapeBraces(rest);
    assert EscapeBraces(s) == "$" + name + er;
    assert er != [] ==> er[0] == rest[0];
    ConvertMatch(name, er);
  }

  /** The greedy identifier run over an identifier followed by a non-identifier character. */
  lemma IdentRunPrefix(name: string, tail: string)
    requires IsIdent(name)
    requires tail != [] ==> !IsIdentChar(tail[0])
    ensures IdentRun(name + tail) == |name|
    decreases |name|
  {
    if name == [] {
      assert name + tail == tail;
    } else {
      assert (name + tail)[1..] == name[1..] + tail;
      IdentRunPrefix(name[1..], tail);
    }
  }

  /** The escaped text of a non-matching start: its first character, or that character
      doubled when it is a brace, before the escaped remainder. */
  lemma ConvertEscapedChar(s: string)
    requires s != [] && !VarAtStart(s)
    ensures Rewrite(EscapeBraces(s)) == EscapeChar(s[0]) + Rewrite(EscapeBraces(s[1..]))
  {
    var er := EscapeBraces(s[1..]);
    assert EscapeBraces(s) == EscapeChar(s[0]) + er;
    if s[0] == '{' || s[0] == '}' {
      ConvertBraces(s[0], er);
    } else {
      assert EscapeChar(s[0]) == [s[0]];
      assert er != [] ==> er[0] == s[1..][0] == s[1];
      ConvertCopy(s[0], er);
    }
  }

  /** A doubled brace is copied. */
  lemma ConvertBraces(c: char, u: string)
    requires c == '{' || c == '}'
    ensures Rewrite(EscapeChar(c) + u) == EscapeChar(c) + Rewrite(u)
  {
    assert EscapeChar(c) + u == [c] + ([c] + u);
    ConvertCopy(c, [c] + u);
    ConvertCopy(c, u);
  }

  /** Interpolating a character that is not a brace copies it. */
  lemma FormatCopy(c: char, u: string, env: string -> string)
    requires c != '{' && c != '}'
    ensures Format([c] + u, env) == Prepend([c], Format(u, env))
  {
    assert ([c] + u)[1..] == u;
  }

  /** Interpolating a doubled brace gives one brace. */
  lemma FormatBrace(c: char, u: string, env: string -> string)
    requires c == '{' || c == '}'
    ensures Format([c, c] + u, env) == Prepend([c], Format(u, env))
  {
    assert ([c, c] + u)[2..] == u;
  }

  /** Interpolating `{name}` gives the variable's value. */
  lemma FormatVariable(name: string, u: string, env: string -> string)
    requires name != [] && name[0] != '{'
    requires HasNo(name, '}')
    ensures Format("{" + name + "}" + u, env) == Prepend(env(name), Format(u, env))
  {
    var t := "{" + name + "}" + u;
    var n := |name|;
    assert t[1] == name[0];
    assert t[1..] == name + "}" + u;
    assert IndexOf(t[1..], '}') == n by {
      forall k | 0 <= k < n ensures t[1..][k] != '}' { assert t[1..][k] == name[k]; }
      IndexOfFirst(t[1..], '}', n);
    }
    assert t[1..1 + n] == name;
    assert t[2 + n..] == u;
  }

  /** Escaping then rewriting produces exactly the template whose interpolation is the
      author's substitution: literal braces survive as themselves, and every `$name`
      becomes the value of `name`. */
  lemma {:induction false} FormatConvertEscaping(s: string, env: string -> string)
    ensures Format(ConvertEscaping(s), env) == Some(Substitute(s, env))
    decreases |s|
  {
    if s == [] {
    } else if VarAtStart(s) {
      var n := VarLength(s);
      var name := s[1..1 + n];
      VarSplit(s);
      ConvertEscapedVar(s);
      FormatConvertEscaping(s[1 + n..], env);
      assert name[0] == s[1];
      FormatVariable(name, Rewrite(EscapeBraces(s[1 + n..])), env);
    } else {
      ConvertEscapedChar(s);
      FormatConvertEscaping(s[1..], env);
      var rest := Rewrite(EscapeBraces(s[1..]));
      if s[0] == '{' || s[0] == '}' {
        assert EscapeChar(s[0]) + rest == [s[0], s[0]] + rest;
        FormatBrace(s[0], rest, env);
      } else {
        FormatCopy(s[0], rest, env);
      }
    }
  }

  lemma IndexOfFirst(s: string, c: char, n: nat)
    requires n < |s| && s[n] == c
    requires forall k :: 0 <= k < n ==> s[k] != c
    ensures IndexOf(s, c) == n
  {
  }

  /** Without braces in the text the plain rewriting is as good as the escaping one. */
  lemma FormatConvertPlain(s: string, env: string -> string)
    requires HasNo(s, '{') && HasNo(s, '}')
    ensures Format(ConvertPlain(s), env) == Some(Substitute(s, env))
  {
    FormatConvertEscaping(s, env);
  }

  /** With braces the plain rewriting hands literal braces to the interpolation: a lone
      `}` (as in a JSON example) makes the template unusable, while the escaping variant
      keeps it as text. */
  lemma PlainRewritingBreaksOnBraces(env: string -> string)
    ensures Format(ConvertPlain("}"), env).None?
    ensures Format(ConvertEscaping("}"), env) == Some("}")
  {
    FormatConvertEscaping("}", env);
    assert !VarAtStart("}");
    assert ConvertPlain("}") == "}";
  }

  // ----- loading -----

  /** The two deployments: `api/_lib` escapes braces, `apps/vercel` does not. */
  datatype Deployment = ApiLib | VercelApp

  function Convert(d: Deployment, s: string): (r: string)
    ensures NoVariableLeft(r)
  {
    match d
    case ApiLib => ConvertEscaping(s)
    case VercelApp => ConvertPlain(s)
  }

  /** A parsed prompt file. */
  datatype PromptConfig = PromptConfig(
    name: string,
    description: string,
    version: string,
    variables: Option<seq<string>>,
    content: string)

  /** `loadPrompt`: the file system is the parameter `read`, giving the parsed file at a
      relative path or the text of the error reading or parsing it threw. A failure is
      re-thrown with the path; on success only the content changes, by the rewriting. */
  function LoadPrompt(d: Deployment, relativePath: string, read: string -> Result<PromptConfig, string>): (r: Result<PromptConfig, string>)
    ensures read(relativePath).Err? ==>
      r == Err("Failed to load prompt from " + relativePath + ": " + read(relativePath).error)
    ensures read(relativePath).Ok? ==>
      r.Ok? && r.value.content == Convert(d, read(relativePath).value.content)
      && r.value.(content := read(relativePath).value.content) == read(relativePath).value
  {
    match read(relativePath)
    case Err(e) => Err("Failed to load prompt from " + relativePath + ": " + e)
    case Ok(c) => Ok(c.(content := Convert(d, c.content)))
  }

  const PromptSuffix := ".prompt.yml"

  /** `loadSystemPrompt(identifier)` of `api/_lib`. */
  function SystemPromptPath(id: string): (p: string)
    ensures StartsWith(p, "system/") && EndsWith(p, PromptSuffix)
  {
    "system/" + id + PromptSuffix
  }

  /** `loadUserPrompt(identifier)` of `api/_lib`. */
  function UserPromptPath(id: string): (p: string)
    ensures EndsWith(p, PromptSuffix)
  {
    id + PromptSuffix
  }

  /** `loadWorkoutPrompt(workoutType)` of `apps/vercel`. */
  function WorkoutPromptPath(t: WorkoutType): (p: string)
    ensures EndsWith(p, "_workout" + PromptSuffix)
  {
    TypeName(t) + "_workout" + PromptSuffix
  }

  /** The single system prompt of `apps/vercel`. */
  const VercelSystemPromptPath := "system/fitness_trainer.prompt.yml"

  /** The identifier a prompt path names, if it is a prompt path. */
  function PromptId(p: string): (r: Option<string>)
    ensures r.Some? ==> r.value + PromptSuffix == p
  {
    if EndsWith(p, PromptSuffix) then Some(p[..|p| - |PromptSuffix|]) else None
  }

  /** A user prompt path gives back its identifier. */
  lemma UserPromptPathRoundTrip(id: string)
    ensures PromptId(UserPromptPath(id)) == Some(id)
  {
    var p := UserPromptPath(id);
    assert p[..|p| - |PromptSuffix|] == id;
  }

  /** A system prompt is the user prompt of its `system/` identifier. */
  lemma SystemPromptPaths(id: string)
    ensures SystemPromptPath(id) == UserPromptPath("system/" + id)
  {
  }

  /** The single system prompt of `apps/vercel` is the `fitness_trainer` system prompt of
      `api/_lib`. */
  lemma VercelSystemPromptIsFitnessTrainer()
    ensures VercelSystemPromptPath == SystemPromptPath("fitness_trainer")
  {
  }

  /** Each workout type has its own prompt file. */
  lemma WorkoutPromptPathsDistinct(t: WorkoutType, u: WorkoutType)
    ensures WorkoutPromptPath(t) == WorkoutPromptPath(u) ==> t == u
  {
    assert |WorkoutPromptPath(t)| == |TypeName(t)| + 19;
    assert |WorkoutPromptPath(u)| == |TypeName(u)| + 19;
  }

  /** `loadSystemPrompt`: the rewritten content of the system prompt file. */
  function LoadSystemPrompt(d: Deployment, id: string, read: string -> Result<PromptConfig, string>): (r: Result<string, string>)
    ensures r.Ok? <==> read(SystemPromptPath(id)).Ok?
    ensures r.Ok? ==> r.value == Convert(d, read(SystemPromptPath(id)).value.content)
  {
    var c :- LoadPrompt(d, SystemPromptPath(id), read);
    Ok(c.content)
  }

  // ----- variable check -----

  /** The properties every plain object inherits from `Object.prototype`. None of them is
      `undefined`, so `in` finds each of them on an input that does not shadow it. */
  const InheritedNames: set<string> := {"constructor", "hasOwnProperty", "isPrototypeOf",
    "propertyIsEnumerable", "toLocaleString", "toString", "valueOf", "__proto__",
    "__defineGetter__", "__defineSetter__", "__lookupGetter__", "__lookupSetter__"}

  /** `!(v in input) || input[v] === undefined` on a plain object whose own properties are
      `input`: an own property is absent only when it holds `undefined`, an inherited one
      never, and any other name always. */
  predicate Absent(input: map<string, JsValue>, v: string) {
    if v in input then input[v] == Undefined else v !in InheritedNames
  }

  /** The declared variables the input does not supply, in declaration order. */
  function Missing(vars: seq<string>, input: map<string, JsValue>): (m: seq<string>)
    ensures |m| <= |vars|
    ensures forall v :: v in m <==> v in vars && Absent(input, v)
  {
    if vars == [] then []
    else
      assert vars == [vars[0]] + vars[1..];
      (if Absent(input, vars[0]) then [vars[0]] else []) + Missing(vars[1..], input)
  }

  /** Filtering keeps the declaration order: the missing names of a longer declaration
      list are those of its parts, one after the other. */
  lemma {:induction false} MissingConcat(a: seq<string>, b: seq<string>, input: map<string, JsValue>)
    ensures Missing(a + b, input) == Missing(a, input) + Missing(b, input)
  {
    if a == [] {
      assert a + b == b;
    } else {
      MissingConcat(a[1..], b, input);
      assert (a + b)[0] == a[0] && (a + b)[1..] == a[1..] + b;
      var head: seq<string> := if Absent(input, a[0]) then [a[0]] else [];
      calc {
        Missing(a + b, input);
        head + Missing(a[1..] + b, input);
        head + (Missing(a[1..], input) + Missing(b, input));
        (head + Missing(a[1..], input)) + Missing(b, input);
      }
    }
  }

  /** `parts.join(sep)` for a separator string. */
  function JoinWith(parts: seq<string>, sep: string): string {
    if parts == [] then ""
    else if |parts| == 1 then parts[0]
    else parts[0] + sep + JoinWith(parts[1..], sep)
  }

  /** `validatePromptVariables`: nothing to check without a declared list; otherwise it
      throws exactly when a declared variable is absent or undefined, naming every such
      variable in declaration order. */
  function ValidatePromptVariables(variables: Option<seq<string>>, input: map<string, JsValue>): (r: Result<(), string>)
    ensures variables.None? ==> r.Ok?
    ensures variables.Some? ==> (r.Ok? <==> forall v :: v in variables.value ==> !Absent(input, v))
    ensures r.Err? ==>
      r.error == "Missing required prompt variables: " + JoinWith(Missing(variables.value, input), ", ")
  {
    if variables.None? then Ok(())
    else
      var missing := Missing(variables.value, input);
      if |missing| > 0 then
        assert missing[0] in variables.value && Absent(input, missing[0]);
        Err("Missing required prompt variables: " + JoinWith(missing, ", "))
      else
        assert missing == [];
        Ok(())
  }

  /** A declared variable named like an inherited property, such as `toString`, is
      found by `in` even on an empty input, so it never counts as missing unless the input
      sets it to `undefined`. */
  lemma InheritedNamesNeverMissing(vars: seq<string>, input: map<string, JsValue>)
    requires forall k :: 0 <= k < |vars| ==> vars[k] in InheritedNames && vars[k] !in input
    ensures Missing(vars, input) == []
    ensures ValidatePromptVariables(Some(vars), input).Ok?
  {
  }

  /** Supplying a declared variable, even as `null`, removes it from the complaint;
      supplying it as `undefined` does not. */
  lemma SupplyingAVariable(vars: seq<string>, input: map<string, JsValue>, v: string, x: JsValue)
    ensures v !in Missing(vars, input[v := x]) <==> x != Undefined || v !in vars
    ensures forall w :: w != v ==> (w in Missing(vars, input[v := x]) <==> w in Missing(vars, input))
  {
  }
}
