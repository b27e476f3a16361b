/**
 * The template engine (`TemplateEngine`): `{{key}}` placeholder substitution,
 * template loading from a directory tree, and the e-mail (layout around content)
 * and SMS renderings.
 *
 * `Regex.Replace(result, "{{key}}", value, RegexOptions.IgnoreCase)` is
 * modelled by `ReplacePlaceholder`: a left-to-right scan that replaces every
 * non-overlapping occurrence of `{{key}}`, compared ignoring ASCII case, by the
 * value taken literally. For a key made of letters, digits and `_` (not only
 * digits) that is exactly what the regex matches.
 *
 * The reference meaning of a rendering is given on templates cut into pieces:
 * literal text without `{` and placeholders `{{key}}`. `Expand` replaces each
 * placeholder by the value of the first variable whose key equals its key
 * ignoring case and keeps the others; `RenderExpands` proves the engine
 * computes exactly that.
 */
module Templates {
  import opened Wrappers
  import opened Text

  /** A `Dictionary<string, string>`, in its enumeration order. */
  type Variables = seq<(string, string)>

  /** What the engine throws. */
  datatype TemplateError =
    | ArgumentNull(paramName: string)     // ArgumentNullException(nameof(paramName))
    | TemplateNotFound(message: string)   // FileNotFoundException($"Template not found: {path}")

  // ---------------------------------------------------------------- one placeholder

  /** The text `{{key}}`, which is also the regex pattern built for `key`. */
  function Placeholder(key: string): string {
    "{{" + key + "}}"
  }

  /** `s` starts with `pat`, compared ignoring case. */
  predicate MatchesAt(s: string, pat: string) {
    |pat| <= |s| && EqualsIgnoreCase(s[..|pat|], pat)
  }

  /** `Regex.Replace(s, "{{key}}", value, RegexOptions.IgnoreCase)`. */
  function ReplacePlaceholder(s: string, key: string, value: string): string
    decreases |s|
  {
    if s == [] then []
    else if MatchesAt(s, Placeholder(key)) then value + ReplacePlaceholder(s[|Placeholder(key)|..], key, value)
    else [s[0]] + ReplacePlaceholder(s[1..], key, value)
  }

  /** The `foreach` of `Render`: each variable, in order, replaced in the result of the previous ones. */
  function ApplyAll(template: string, vars: Variables): string
    decreases |vars|
  {
    if vars == [] then template
    else
      var (key, value) := vars[|vars| - 1];
      ReplacePlaceholder(ApplyAll(template, vars[..|vars| - 1]), key, value)
  }

  // ---------------------------------------------------------------- Render

  /** `Render(template, variables)`; `""` stands for both a null and an empty template. */
  function Rendered(template: string, variables: Option<Variables>): (r: Result<string, TemplateError>)
    ensures r.Err? <==> template == "" || variables.None?
  {
    if template == "" then Err(ArgumentNull("template"))
    else if variables.None? then Err(ArgumentNull("variables"))
    else Ok(ApplyAll(template, variables.value))
  }

  /** `Render`: check the arguments, then replace the variables one after the other. */
  method Render(template: string, variables: Option<Variables>) returns (r: Result<string, TemplateError>)
    ensures r == Rendered(template, variables)
    ensures template != "" && variables == Some([]) ==> r == Ok(template)
  {
    if template == "" {
      return Err(ArgumentNull("template"));
    }
    if variables.None? {
      return Err(ArgumentNull("variables"));
    }
    var vars := variables.value;
    var result := template;
    var i := 0;
    while i < |vars|
      invariant 0 <= i <= |vars|
      invariant result == ApplyAll(template, vars[..i])
    {
      var (key, value) := vars[i];
      assert vars[..i + 1][..i] == vars[..i];
      result := ReplacePlaceholder(result, key, value);
      i := i + 1;
    }
    assert vars[..i] == vars;
    r := Ok(result);
  }

  // ---------------------------------------------------------------- the reference meaning

  /** A part of a template: literal text, or a placeholder `{{key}}`. */
  datatype Piece = Literal(text: string) | Hole(key: string)

  function PieceText(p: Piece): string {
    match p
    case Literal(t) => t
    case Hole(k) => Placeholder(k)
  }

  /** The template text the pieces spell. */
  function Join(ps: seq<Piece>): string
    decreases |ps|
  {
    if ps == [] then [] else PieceText(ps[0]) + Join(ps[1..])
  }

  predicate NoOpenBrace(s: string) {
    forall i :: 0 <= i < |s| ==> s[i] != '{'
  }

  predicate IsKeyChar(c: char) {
    'a' <= c <= 'z' || 'A' <= c <= 'Z' || '0' <= c <= '9' || c == '_'
  }

  /**
   * A key the regex reads literally: letters, digits and `_`, not only digits
   * (`{{12}}` would read as a `{12}` quantifier).
   */
  predicate IsPlainKey(k: string) {
    |k| > 0 && (forall i :: 0 <= i < |k| ==> IsKeyChar(k[i])) && !AllDigits(k)
  }

  predicate WellFormedPiece(p: Piece) {
    match p
    case Literal(t) => NoOpenBrace(t)
    case Hole(k) => IsPlainKey(k)
  }

  predicate WellFormed(ps: seq<Piece>) {
    forall i :: 0 <= i < |ps| ==> WellFormedPiece(ps[i])
  }

  /** Plain keys, and values that the regex inserts as they are and that open no new placeholder. */
  predicate SafeVariables(vars: Variables) {
    forall i :: 0 <= i < |vars| ==> IsPlainKey(vars[i].0) && NoOpenBrace(vars[i].1) && '$' !in vars[i].1
  }

  /** The value of the first variable whose key equals `key` ignoring case. */
  function Lookup(vars: Variables, key: string): (r: Option<string>)
    ensures r.None? <==> forall i :: 0 <= i < |vars| ==> !EqualsIgnoreCase(key, vars[i].0)
    ensures r.Some? ==>
      exists i :: 0 <= i < |vars| && EqualsIgnoreCase(key, vars[i].0) && r.value == vars[i].1
        && forall j :: 0 <= j < i ==> !EqualsIgnoreCase(key, vars[j].0)
    decreases |vars|
  {
    if vars == [] then None
    else
      var pre := vars[..|vars| - 1];
      match Lookup(pre, key)
      case Some(v) =>
        assert forall i :: 0 <= i < |pre| ==> pre[i] == vars[i];
        Some(v)
      case None =>
        assert forall i :: 0 <= i < |pre| ==> pre[i] == vars[i];
        if EqualsIgnoreCase(key, vars[|vars| - 1].0) then Some(vars[|vars| - 1].1) else None
  }

  function ResolvePiece(p: Piece, vars: Variables): Piece {
    match p
    case Literal(_) => p
    case Hole(k) =>
      match Lookup(vars, k)
      case Some(v) => Literal(v)
      case None => p
  }

  function Resolve(ps: seq<Piece>, vars: Variables): seq<Piece> {
    seq(|ps|, i requires 0 <= i < |ps| => ResolvePiece(ps[i], vars))
  }

  /** The reference rendering: every placeholder with a matching variable replaced by its value. */
  function Expand(ps: seq<Piece>, vars: Variables): string {
    Join(Resolve(ps, vars))
  }

  /** The placeholders that one `Regex.Replace` call for `key` fills. */
  function FillPiece(p: Piece, key: string, value: string): Piece {
    match p
    case Literal(_) => p
    case Hole(k) => if EqualsIgnoreCase(k, key) then Literal(value) else p
  }

  function FillHoles(ps: seq<Piece>, key: string, value: string): seq<Piece> {
    seq(|ps|, i requires 0 <= i < |ps| => FillPiece(ps[i], key, value))
  }

  // ---------------------------------------------------------------- the substitution theorem

  /** Text without `{` passes through one replacement unchanged. */
  lemma {:induction false} SkipPlain(t: string, rest: string, key: string, value: string)
    requires NoOpenBrace(t)
    ensures ReplacePlaceholder(t + rest, key, value) == t + ReplacePlaceholder(rest, key, value)
    decreases |t|
  {
    if t != [] {
      var s := t + rest;
      assert s[0] == t[0] != '{';
      assert !MatchesAt(s, Placeholder(key)) by {
        if |Placeholder(key)| <= |s| {
          assert s[..|Placeholder(key)|][0] == t[0];
        }
      }
      assert s[1..] == t[1..] + rest;
      SkipPlain(t[1..], rest, key, value);
    } else {
      assert t + rest == rest;
    }
  }

  /** `{{hole}}` matches the pattern for `key` when the two keys are equal ignoring case. */
  lemma HoleMatches(hole: string, rest: string, key: string)
    requires EqualsIgnoreCase(hole, key)
    ensures MatchesAt(Placeholder(hole) + rest, Placeholder(key))
    ensures (Placeholder(hole) + rest)[|Placeholder(key)|..] == rest
  {
    var s := Placeholder(hole) + rest;
    var pat := Placeholder(key);
    forall i | 0 <= i < |pat|
      ensures LowerChar(s[..|pat|][i]) == LowerChar(pat[i])
    {
      if 2 <= i < |hole| + 2 {
        assert s[i] == hole[i - 2] && pat[i] == key[i - 2];
      }
    }
  }

  /** `{{hole}}` does not match the pattern for a different plain key. */
  lemma HoleMismatch(hole: string, rest: string, key: string)
    requires IsPlainKey(hole) && IsPlainKey(key) && !EqualsIgnoreCase(hole, key)
    ensures !MatchesAt(Placeholder(hole) + rest, Placeholder(key))
  {
    var s := Placeholder(hole) + rest;
    var pat := Placeholder(key);
    // The first position where the two placeholders can differ in length.
    assert |key| < |hole| ==> s[|key| + 2] == hole[|key|] && pat[|key| + 2] == '}' && IsKeyChar(hole[|key|]);
    assert |hole| < |key| && |hole| + 2 < |s| ==> s[|hole| + 2] == '}' && pat[|hole| + 2] == key[|hole|] && IsKeyChar(key[|hole|]);
    if MatchesAt(s, pat) && |key| == |hole| {
      forall i | 0 <= i < |hole|
        ensures LowerChar(hole[i]) == LowerChar(key[i])
      {
        assert s[..|pat|][i + 2] == hole[i] && pat[i + 2] == key[i];
      }
    }
  }

  /** A placeholder `{{hole}}` followed by `rest`: replaced by `value` when its key is `key` ignoring case, else kept. */
  lemma ReplaceAtHole(hole: string, rest: string, key: string, value: string)
    requires IsPlainKey(hole) && IsPlainKey(key)
    ensures ReplacePlaceholder(Placeholder(hole) + rest, key, value)
         == (if EqualsIgnoreCase(hole, key) then value else Placeholder(hole)) + ReplacePlaceholder(rest, key, value)
  {
    var s := Placeholder(hole) + rest;
    var pat := Placeholder(key);
    if EqualsIgnoreCase(hole, key) {
      HoleMatches(hole, rest, key);
    } else {
      HoleMismatch(hole, rest, key);
      var s1 := s[1..];
      assert s1 == "{" + hole + "}}" + rest;
      assert !MatchesAt(s1, pat) by {
        if |pat| <= |s1| {
          assert s1[..|pat|][1] == hole[0] && pat[1] == '{';
          assert IsKeyChar(hole[0]);
        }
      }
      assert s1[1..] == (hole + "}}") + rest;
      SkipPlain(hole + "}}", rest, key, value);
      assert [s[0]] + ([s1[0]] + ((hole + "}}") + ReplacePlaceholder(rest, key, value)))
          == Placeholder(hole) + ReplacePlaceholder(rest, key, value);
    }
  }

  /** One replacement on well-formed pieces fills exactly the placeholders whose key matches. */
  lemma {:induction false} ReplaceJoin(ps: seq<Piece>, key: string, value: string)
    requires WellFormed(ps) && IsPlainKey(key)
    ensures ReplacePlaceholder(Join(ps), key, value) == Join(FillHoles(ps, key, value))
    decreases |ps|
  {
    var filled := FillHoles(ps, key, value);
    if ps != [] {
      assert WellFormedPiece(ps[0]);
      assert WellFormed(ps[1..]) by {
        forall i | 0 <= i < |ps[1..]| ensures WellFormedPiece(ps[1..][i]) {
          assert ps[1..][i] == ps[i + 1];
        }
      }
      ReplaceJoin(ps[1..], key, value);
      assert filled[1..] == FillHoles(ps[1..], key, value);
      assert Join(filled) == PieceText(filled[0]) + Join(filled[1..]);
      match ps[0]
      case Literal(t) =>
        SkipPlain(t, Join(ps[1..]), key, value);
      case Hole(k) =>
        ReplaceAtHole(k, Join(ps[1..]), key, value);
    } else {
      assert filled == [];
    }
  }

  /** Resolving placeholders with safe variables leaves the pieces well-formed. */
  lemma ResolveWellFormed(ps: seq<Piece>, vars: Variables)
    requires WellFormed(ps) && SafeVariables(vars)
    ensures WellFormed(Resolve(ps, vars))
  {
    forall i | 0 <= i < |ps|
      ensures WellFormedPiece(Resolve(ps, vars)[i])
    {
      assert WellFormedPiece(ps[i]);
      if ps[i].Hole? && Lookup(vars, ps[i].key).Some? {
        var j :| 0 <= j < |vars| && Lookup(vars, ps[i].key).value == vars[j].1;
      }
    }
  }

  /**
   * The engine's meaning: on a well-formed template and safe variables,
   * `Render` yields the reference expansion — each placeholder replaced by the
   * value of the first variable whose key equals it ignoring case, the
   * placeholders with no such variable left as they are.
   */
  lemma {:induction false} RenderExpands(ps: seq<Piece>, vars: Variables)
    requires WellFormed(ps) && SafeVariables(vars)
    ensures ApplyAll(Join(ps), vars) == Expand(ps, vars)
    decreases |vars|
  {
    if vars == [] {
      assert Resolve(ps, vars) == ps;
    } else {
      var pre := vars[..|vars| - 1];
      var (key, value) := vars[|vars| - 1];
      assert SafeVariables(pre) by {
        forall i | 0 <= i < |pre| ensures pre[i] == vars[i] { }
      }
      assert IsPlainKey(key);
      RenderExpands(ps, pre);
      ResolveWellFormed(ps, pre);
      ReplaceJoin(Resolve(ps, pre), key, value);
      forall i | 0 <= i < |ps|
        ensures FillHoles(Resolve(ps, pre), key, value)[i] == Resolve(ps, vars)[i]
      {
      }
      assert FillHoles(Resolve(ps, pre), key, value) == Resolve(ps, vars);
    }
  }

  /** A template without any `{` comes out of every rendering unchanged. */
  lemma {:induction false} NoPlaceholderUnchanged(template: string, vars: Variables)
    requires NoOpenBrace(template)
    ensures ApplyAll(template, vars) == template
    decreases |vars|
  {
    if vars != [] {
      var (key, value) := vars[|vars| - 1];
      NoPlaceholderUnchanged(template, vars[..|vars| - 1]);
      SkipPlain(template, [], key, value);
      assert template + [] == template;
    }
  }

  /** `Render` on a non-empty template spelled by well-formed pieces returns their expansion. */
  lemma RenderedIsExpansion(ps: seq<Piece>, vars: Variables, template: string, expected: string)
    requires WellFormed(ps) && SafeVariables(vars)
    requires Join(ps) == template && template != ""
    requires Expand(ps, vars) == expected
    ensures Rendered(template, Some(vars)) == Ok(expected)
  {
    RenderExpands(ps, vars);
  }

  /** `Render_WithCaseInsensitiveVariables`: `{{CODE}}` is filled by the variable `code`. */
  lemma CaseInsensitiveExample()
    ensures Rendered("Code: {{CODE}}", Some([("code", "789")])) == Ok("Code: 789")
  {
    var ps := [Literal("Code: "), Hole("CODE")];
    var vars := [("code", "789")];
    assert !IsDigit("CODE"[0]) && !IsDigit("code"[0]);
    assert WellFormed(ps) && SafeVariables(vars);
    assert Join(ps) == "Code: {{CODE}}";
    assert Lookup(vars, "CODE") == Some("789");
    assert Resolve(ps, vars) == [Literal("Code: "), Literal("789")];
    assert Expand(ps, vars) == "Code: 789";
    RenderedIsExpansion(ps, vars, "Code: {{CODE}}", "Code: 789");
  }

  /** The text of four pieces, written out. */
  lemma JoinOfFour(a: Piece, b: Piece, c: Piece, d: Piece)
    ensures Join([a, b, c, d]) == PieceText(a) + PieceText(b) + PieceText(c) + PieceText(d)
  {
    assert [a, b, c, d][1..] == [b, c, d];
    JoinOfThree(b, c, d);
  }

  /** `Render_WithMultipleVariables`: every variable fills its own placeholder. */
  lemma MultipleVariablesExample()
    ensures Rendered("Hello {{name}}, your code is {{code}}", Some([("name", "Jane"), ("code", "123456")]))
         == Ok("Hello Jane, your code is 123456")
  {
    MultipleVariablesTemplate();
    MultipleVariablesText();
    MultipleVariablesResolve();
    MultipleVariablesJoin();
    RenderedIsExpansion([Literal("Hello "), Hole("name"), Literal(", your code is "), Hole("code")],
                        [("name", "Jane"), ("code", "123456")],
                        "Hello {{name}}, your code is {{code}}", "Hello Jane, your code is 123456");
  }

  lemma MultipleVariablesTemplate()
    ensures WellFormed([Literal("Hello "), Hole("name"), Literal(", your code is "), Hole("code")])
    ensures SafeVariables([("name", "Jane"), ("code", "123456")])
  {
    var ps := [Literal("Hello "), Hole("name"), Literal(", your code is "), Hole("code")];
    assert IsPlainKey("name") && IsPlainKey("code") by {
      assert !IsDigit("name"[0]) && !IsDigit("code"[0]);
    }
    assert WellFormedPiece(ps[0]) && WellFormedPiece(ps[2]);
  }

  lemma MultipleVariablesText()
    ensures Join([Literal("Hello "), Hole("name"), Literal(", your code is "), Hole("code")])
         == "Hello {{name}}, your code is {{code}}"
  {
    JoinOfFour(Literal("Hello "), Hole("name"), Literal(", your code is "), Hole("code"));
  }

  lemma MultipleVariablesResolve()
    ensures Resolve([Literal("Hello "), Hole("name"), Literal(", your code is "), Hole("code")],
                    [("name", "Jane"), ("code", "123456")])
         == [Literal("Hello "), Literal("Jane"), Literal(", your code is "), Literal("123456")]
  {
    var vars := [("name", "Jane"), ("code", "123456")];
    LookupIsFirst(vars, "name", 0);
    assert !EqualsIgnoreCase("code", "name") by {
      assert LowerChar("code"[0]) != LowerChar("name"[0]);
    }
    LookupIsFirst(vars, "code", 1);
  }

  lemma MultipleVariablesJoin()
    ensures Join([Literal("Hello "), Literal("Jane"), Literal(", your code is "), Literal("123456")])
         == "Hello Jane, your code is 123456"
  {
    JoinOfFour(Literal("Hello "), Literal("Jane"), Literal(", your code is "), Literal("123456"));
  }

  /** A template that is one placeholder is replaced by the value when the keys match ignoring case, else kept. */
  lemma LonePlaceholder(k: string, key: string, value: string)
    requires IsPlainKey(k) && IsPlainKey(key)
    ensures ReplacePlaceholder(Placeholder(k), key, value) == if EqualsIgnoreCase(k, key) then value else Placeholder(k)
  {
    var ps := [Hole(k)];
    assert Join(ps) == Placeholder(k) by {
      assert ps[1..] == [];
    }
    ReplaceJoin(ps, key, value);
    var filled := FillHoles(ps, key, value);
    assert filled[1..] == [];
    assert Join(filled) == PieceText(filled[0]);
  }

  /**
   * A value is not inserted once and for all: a value that spells a
   * placeholder is filled again by a later variable, so the result depends on
   * the enumeration order of the variables.
   */
  lemma ValueIsSubstitutedAgain()
    ensures Rendered("{{a}}", Some([("a", "{{b}}"), ("b", "x")])) == Ok("x")
    ensures Rendered("{{a}}", Some([("b", "x"), ("a", "{{b}}")])) == Ok("{{b}}")
  {
    assert IsPlainKey("a") by { assert !IsDigit("a"[0]); }
    assert IsPlainKey("b") by { assert !IsDigit("b"[0]); }
    assert EqualsIgnoreCase("a", "a") && EqualsIgnoreCase("b", "b");
    assert !EqualsIgnoreCase("a", "b") && !EqualsIgnoreCase("b", "a") by {
      assert LowerChar('a') != LowerChar('b');
    }
    LonePlaceholder("a", "a", "{{b}}");
    LonePlaceholder("b", "b", "x");
    LonePlaceholder("a", "b", "x");
    assert Placeholder("a") == "{{a}}" && Placeholder("b") == "{{b}}";
    var first: Variables := [("a", "{{b}}"), ("b", "x")];
    assert first[..1][..0] == [];
    assert ApplyAll("{{a}}", first[..1]) == "{{b}}";
    var second: Variables := [("b", "x"), ("a", "{{b}}")];
    assert second[..1][..0] == [];
    assert ApplyAll("{{a}}", second[..1]) == "{{a}}";
  }

  /** A placeholder no variable names stays in the output as it was written. */
  lemma UnmatchedPlaceholderKept()
    ensures Rendered("Hi {{name}}", Some([("code", "1")])) == Ok("Hi {{name}}")
  {
    var ps := [Literal("Hi "), Hole("name")];
    var vars := [("code", "1")];
    assert !IsDigit("name"[0]) && !IsDigit("code"[0]);
    assert WellFormed(ps) && SafeVariables(vars);
    assert Join(ps) == "Hi {{name}}";
    assert !EqualsIgnoreCase("name", "code") by {
      assert LowerChar("name"[0]) != LowerChar("code"[0]);
    }
    assert Resolve(ps, vars) == ps;
    RenderedIsExpansion(ps, vars, "Hi {{name}}", "Hi {{name}}");
  }

  // ---------------------------------------------------------------- LoadTemplateAsync

  /** The template directory: its base path and the files under it, by full path. */
  datatype TemplateStore = TemplateStore(basePath: string, files: map<string, string>)

  /** `templateType.ToLower() == "email" ? ".html" : ".txt"`. */
  function Extension(templateType: string): (ext: string)
    ensures ext == ".html" || ext == ".txt"
  {
    if ToLower(templateType) == "email" then ".html" else ".txt"
  }

  /** Only the type `email`, in any case, selects HTML templates. */
  lemma ExtensionChoice(templateType: string)
    ensures Extension(templateType) == ".html" <==> EqualsIgnoreCase(templateType, "email")
  {
    if EqualsIgnoreCase(templateType, "email") {
      assert ToLower(templateType) == ToLower("email");
    }
  }

  /** `Path.Combine(a, b)` with `/` as the separator: a rooted `b` replaces `a`. */
  function Combine(a: string, b: string): (p: string)
    ensures b != [] && b[0] != '/' && a != [] && a[|a| - 1] != '/' ==> p == a + "/" + b
    ensures b != [] && b[0] != '/' && a != [] && a[|a| - 1] == '/' ==> p == a + b
    ensures b != [] && b[0] == '/' ==> p == b
    ensures b == [] ==> p == a
    ensures a == [] ==> p == b
  {
    if b == [] then a
    else if b[0] == '/' then b
    else if a == [] then b
    else if a[|a| - 1] == '/' then a + b
    else a + "/" + b
  }

  /** `Path.Combine(basePath, templateType, $"{templateName}{extension}")`. */
  function TemplatePath(basePath: string, templateType: string, templateName: string): string {
    Combine(Combine(basePath, templateType), templateName + Extension(templateType))
  }

  function NotFoundMessage(path: string): string {
    "Template not found: " + path
  }

  /** `LoadTemplateAsync(templateName, templateType)`; `""` stands for a null or empty argument. */
  function LoadTemplate(store: TemplateStore, templateName: string, templateType: string): (r: Result<string, TemplateError>)
    ensures templateName == "" ==> r == Err(ArgumentNull("templateName"))
    ensures templateName != "" && templateType == "" ==> r == Err(ArgumentNull("templateType"))
    ensures templateName != "" && templateType != "" ==>
      var path := TemplatePath(store.basePath, templateType, templateName);
      && (r.Ok? <==> path in store.files)
      && (r.Ok? ==> r.value == store.files[path])
      && (r.Err? ==> r.error == TemplateNotFound(NotFoundMessage(path)))
  {
    if templateName == "" then Err(ArgumentNull("templateName"))
    else if templateType == "" then Err(ArgumentNull("templateType"))
    else
      var path := TemplatePath(store.basePath, templateType, templateName);
      if path in store.files then Ok(store.files[path]) else Err(TemplateNotFound(NotFoundMessage(path)))
  }

  /** A template written to `<base>/<type>/<name><ext>` is what loading `name` of `type` reads back. */
  lemma WrittenTemplateLoads(store: TemplateStore, templateName: string, templateType: string, content: string)
    requires templateName != "" && templateType != ""
    ensures var path := TemplatePath(store.basePath, templateType, templateName);
            LoadTemplate(store.(files := store.files[path := content]), templateName, templateType) == Ok(content)
  {
  }

  /** `LoadTemplateAsync_WithEmailTemplate`: `test` of type `email` is read from `<base>/email/test.html`. */
  lemma EmailTemplatePathExample()
    ensures TemplatePath("/templates", "email", "test") == "/templates/email/test.html"
    ensures TemplatePath("/templates", "sms", "test") == "/templates/sms/test.txt"
  {
    assert ToLower("email") == "email";
    assert ToLower("sms") != "email";
  }

  // ---------------------------------------------------------------- RenderEmailTemplateAsync / RenderSmsTemplateAsync

  const EmailLayoutTemplate: string := "layout"
  const ContentKey: string := "content"

  /** `new Dictionary<string, string>(variables) { [key] = value }`: replace the entry for `key` in place, or append it. */
  function WithEntry(vars: Variables, key: string, value: string): (r: Variables)
    ensures (key, value) in r
    ensures forall i :: 0 <= i < |r| && r[i].0 == key ==> r[i].1 == value
    ensures (exists i :: 0 <= i < |vars| && vars[i].0 == key) ==> |r| == |vars|
    ensures (forall i :: 0 <= i < |vars| ==> vars[i].0 != key) ==> r == vars + [(key, value)]
    ensures forall i :: 0 <= i < |vars| && vars[i].0 != key ==> r[i] == vars[i]
    ensures forall i :: 0 <= i < |r| ==> r[i] == (key, value) || (i < |vars| && r[i] == vars[i])
  {
    if exists i :: 0 <= i < |vars| && vars[i].0 == key then
      var r := seq(|vars|, i requires 0 <= i < |vars| => if vars[i].0 == key then (key, value) else vars[i]);
      ghost var j :| 0 <= j < |vars| && vars[j].0 == key;
      assert r[j] == (key, value);
      r
    else
      vars + [(key, value)]
  }

  /**
   * When the only key that equals `content` ignoring case is `content` itself,
   * the layout's `{{content}}` receives the rendered content and every other
   * placeholder sees the caller's variables.
   */
  lemma ContentEntryLookup(vars: Variables, body: string, key: string)
    requires ContentKeyExact(vars)
    ensures EqualsIgnoreCase(key, ContentKey) ==> Lookup(WithEntry(vars, ContentKey, body), key) == Some(body)
    ensures !EqualsIgnoreCase(key, ContentKey) ==> Lookup(WithEntry(vars, ContentKey, body), key) == Lookup(vars, key)
  {
    var r := WithEntry(vars, ContentKey, body);
    if EqualsIgnoreCase(key, ContentKey) {
      assert (ContentKey, body) in r;
      var res := Lookup(r, key);
      var i :| 0 <= i < |r| && EqualsIgnoreCase(key, r[i].0) && res.value == r[i].1;
      assert EqualsIgnoreCase(r[i].0, ContentKey) by {
        forall k | 0 <= k < |key| ensures LowerChar(r[i].0[k]) == LowerChar(ContentKey[k]) {
          assert LowerChar(key[k]) == LowerChar(r[i].0[k]);
        }
      }
    } else {
      forall i | 0 <= i < |vars|
        ensures EqualsIgnoreCase(key, r[i].0) <==> EqualsIgnoreCase(key, vars[i].0)
        ensures EqualsIgnoreCase(key, r[i].0) ==> r[i] == vars[i]
      {
        if vars[i].0 == ContentKey {
          assert r[i].0 == ContentKey;
        }
      }
      LookupAgrees(vars, r, key);
    }
  }

  /** `Lookup` returns the value of the first variable whose key matches, and no other. */
  lemma LookupIsFirst(vars: Variables, key: string, i: int)
    requires 0 <= i < |vars| && EqualsIgnoreCase(key, vars[i].0)
    requires forall j :: 0 <= j < i ==> !EqualsIgnoreCase(key, vars[j].0)
    ensures Lookup(vars, key) == Some(vars[i].1)
  {
    var r := Lookup(vars, key);
    var k :| 0 <= k < |vars| && EqualsIgnoreCase(key, vars[k].0) && r.value == vars[k].1
      && forall j :: 0 <= j < k ==> !EqualsIgnoreCase(key, vars[j].0);
  }

  /** Two variable lists that agree on every entry matching `key` give the same lookup. */
  lemma LookupAgrees(a: Variables, b: Variables, key: string)
    requires |a| <= |b|
    requires forall i :: 0 <= i < |a| ==> (EqualsIgnoreCase(key, b[i].0) <==> EqualsIgnoreCase(key, a[i].0))
    requires forall i :: 0 <= i < |a| && EqualsIgnoreCase(key, a[i].0) ==> b[i] == a[i]
    requires forall i :: |a| <= i < |b| ==> !EqualsIgnoreCase(key, b[i].0)
    ensures Lookup(a, key) == Lookup(b, key)
  {
    if Lookup(a, key).Some? {
      var i :| 0 <= i < |a| && EqualsIgnoreCase(key, a[i].0) && Lookup(a, key).value == a[i].1
        && forall j :: 0 <= j < i ==> !EqualsIgnoreCase(key, a[j].0);
      LookupIsFirst(b, key, i);
    }
  }

  /** `RenderEmailTemplateAsync(templateName, variables)`: the layout, then the content, both of type `email`. */
  function EmailRendered(store: TemplateStore, templateName: string, variables: Option<Variables>): (r: Result<string, TemplateError>)
  {
    match LoadTemplate(store, EmailLayoutTemplate, "email")
    case Err(e) => Err(e)
    case Ok(layout) =>
      match LoadTemplate(store, templateName, "email")
      case Err(e) => Err(e)
      case Ok(content) =>
        match Rendered(content, variables)
        case Err(e) => Err(e)
        case Ok(body) => Rendered(layout, Some(WithEntry(variables.value, ContentKey, body)))
  }

  /** `RenderEmailTemplateAsync`: render the content, then render the layout with `content` set to it. */
  method RenderEmailTemplate(store: TemplateStore, templateName: string, variables: Option<Variables>)
    returns (r: Result<string, TemplateError>)
    ensures r == EmailRendered(store, templateName, variables)
  {
    var layout := LoadTemplate(store, EmailLayoutTemplate, "email");
    if layout.Err? {
      return Err(layout.error);
    }
    var content := LoadTemplate(store, templateName, "email");
    if content.Err? {
      return Err(content.error);
    }
    var body := Render(content.value, variables);
    if body.Err? {
      return Err(body.error);
    }
    var layoutVariables := WithEntry(variables.value, ContentKey, body.value);
    r := Render(layout.value, Some(layoutVariables));
  }

  /** `RenderSmsTemplateAsync(templateName, variables)`: one template of type `sms`. */
  function SmsRendered(store: TemplateStore, templateName: string, variables: Option<Variables>): (r: Result<string, TemplateError>)
  {
    match LoadTemplate(store, templateName, "sms")
    case Err(e) => Err(e)
    case Ok(template) => Rendered(template, variables)
  }

  method RenderSmsTemplate(store: TemplateStore, templateName: string, variables: Option<Variables>)
    returns (r: Result<string, TemplateError>)
    ensures r == SmsRendered(store, templateName, variables)
  {
    var template := LoadTemplate(store, templateName, "sms");
    if template.Err? {
      return Err(template.error);
    }
    r := Render(template.value, variables);
  }

  /** The layout is loaded before anything else: without it every e-mail fails the same way, whatever its name. */
  lemma MissingLayoutFailsFirst(store: TemplateStore, templateName: string, variables: Option<Variables>)
    requires TemplatePath(store.basePath, "email", EmailLayoutTemplate) !in store.files
    ensures EmailRendered(store, templateName, variables)
         == Err(TemplateNotFound(NotFoundMessage(TemplatePath(store.basePath, "email", EmailLayoutTemplate))))
  {
  }

  /** Pieces made of literal text only, without `{` or `$`. */
  predicate PlainLiterals(ps: seq<Piece>) {
    forall i :: 0 <= i < |ps| ==> ps[i].Literal? && NoOpenBrace(ps[i].text) && '$' !in ps[i].text
  }

  /** The text of plain literals has neither `{` nor `$`. */
  lemma {:induction false} PlainLiteralsText(ps: seq<Piece>)
    requires PlainLiterals(ps)
    ensures NoOpenBrace(Join(ps)) && '$' !in Join(ps)
    decreases |ps|
  {
    if ps != [] {
      assert PlainLiterals(ps[1..]) by {
        forall i | 0 <= i < |ps[1..]| ensures ps[1..][i] == ps[i + 1] { }
      }
      PlainLiteralsText(ps[1..]);
      var t := ps[0].text;
      assert Join(ps) == t + Join(ps[1..]);
      forall i | 0 <= i < |Join(ps)| ensures Join(ps)[i] != '{' && Join(ps)[i] != '$' {
        if i < |t| {
          assert Join(ps)[i] == t[i];
        } else {
          assert Join(ps)[i] == Join(ps[1..])[i - |t|];
        }
      }
    }
  }

  /** Every placeholder of `ps` is named by some variable. */
  predicate AllHolesFilled(ps: seq<Piece>, vars: Variables) {
    forall i :: 0 <= i < |ps| && ps[i].Hole? ==> Lookup(vars, ps[i].key).Some?
  }

  /** The only variable key equal to `content` ignoring case, if any, is `content` itself. */
  predicate ContentKeyExact(vars: Variables) {
    forall i :: 0 <= i < |vars| && EqualsIgnoreCase(vars[i].0, ContentKey) ==> vars[i].0 == ContentKey
  }

  /** A content template whose placeholders are all filled by safe variables expands to plain text. */
  lemma ExpandedContentIsPlain(content: seq<Piece>, vars: Variables)
    requires WellFormed(content) && SafeVariables(vars)
    requires forall i :: 0 <= i < |content| && content[i].Literal? ==> '$' !in content[i].text
    requires AllHolesFilled(content, vars)
    ensures NoOpenBrace(Expand(content, vars)) && '$' !in Expand(content, vars)
  {
    var resolved := Resolve(content, vars);
    assert PlainLiterals(resolved) by {
      forall i | 0 <= i < |resolved|
        ensures resolved[i].Literal? && NoOpenBrace(resolved[i].text) && '$' !in resolved[i].text
      {
        assert WellFormedPiece(content[i]);
        if content[i].Hole? {
          var j :| 0 <= j < |vars| && Lookup(vars, content[i].key).value == vars[j].1;
        }
      }
    }
    PlainLiteralsText(resolved);
  }

  /** Adding `content` bound to plain text keeps the variables safe. */
  lemma ContentEntryIsSafe(vars: Variables, body: string)
    requires SafeVariables(vars) && NoOpenBrace(body) && '$' !in body
    ensures SafeVariables(WithEntry(vars, ContentKey, body))
  {
    var layoutVars := WithEntry(vars, ContentKey, body);
    assert IsPlainKey(ContentKey) by {
      assert !IsDigit(ContentKey[0]);
    }
    forall i | 0 <= i < |layoutVars|
      ensures IsPlainKey(layoutVars[i].0) && NoOpenBrace(layoutVars[i].1) && '$' !in layoutVars[i].1
    {
    }
  }

  /**
   * The e-mail is the layout expanded with the caller's variables plus
   * `content`, bound to the content template expanded with the caller's
   * variables; the rendered content is inserted as it is.
   */
  lemma EmailWrapsContent(store: TemplateStore, templateName: string, layout: seq<Piece>, content: seq<Piece>, vars: Variables)
    requires templateName != ""
    requires TemplatePath(store.basePath, "email", EmailLayoutTemplate) in store.files
    requires store.files[TemplatePath(store.basePath, "email", EmailLayoutTemplate)] == Join(layout) != ""
    requires TemplatePath(store.basePath, "email", templateName) in store.files
    requires store.files[TemplatePath(store.basePath, "email", templateName)] == Join(content) != ""
    requires WellFormed(layout) && WellFormed(content) && SafeVariables(vars)
    requires forall i :: 0 <= i < |content| && content[i].Literal? ==> '$' !in content[i].text
    requires AllHolesFilled(content, vars)
    ensures EmailRendered(store, templateName, Some(vars))
         == Ok(Expand(layout, WithEntry(vars, ContentKey, Expand(content, vars))))
  {
    RenderExpands(content, vars);
    var body := Expand(content, vars);
    ExpandedContentIsPlain(content, vars);
    ContentEntryIsSafe(vars, body);
    RenderExpands(layout, WithEntry(vars, ContentKey, body));
  }

  /** The text of three pieces, written out. */
  lemma JoinOfThree(a: Piece, b: Piece, c: Piece)
    ensures Join([a, b, c]) == PieceText(a) + PieceText(b) + PieceText(c)
  {
    assert [a, b, c][1..] == [b, c];
    assert [b, c][1..] == [c];
    assert Join([c]) == PieceText(c) + Join([]) == PieceText(c);
    assert Join([b, c]) == PieceText(b) + PieceText(c);
  }

  /** Text that the engine copies through untouched and may use as a replacement as it is. */
  predicate PlainText(s: string) {
    NoOpenBrace(s) && '$' !in s
  }

  /** `before{{code}}after` with `code` bound to `v` is `before`, `v`, `after`. */
  lemma CodeTemplateExpansion(before: string, after: string, v: string)
    requires PlainText(before) && PlainText(after) && PlainText(v)
    ensures var ps := [Literal(before), Hole("code"), Literal(after)];
            && WellFormed(ps) && SafeVariables([("code", v)]) && AllHolesFilled(ps, [("code", v)])
            && Join(ps) == before + Placeholder("code") + after
            && Expand(ps, [("code", v)]) == before + v + after
  {
    var ps := [Literal(before), Hole("code"), Literal(after)];
    var vars := [("code", v)];
    assert IsPlainKey("code") by {
      assert !IsDigit("code"[0]);
    }
    LookupIsFirst(vars, "code", 0);
    JoinOfThree(ps[0], ps[1], ps[2]);
    assert Resolve(ps, vars) == [Literal(before), Literal(v), Literal(after)];
    JoinOfThree(Literal(before), Literal(v), Literal(after));
  }

  /** The layout `header{{content}}footer`, expanded with `content` bound to `body` after a `code` variable. */
  lemma LayoutExpansion(header: string, footer: string, code: string, body: string)
    requires PlainText(header) && PlainText(footer)
    ensures var ps := [Literal(header), Hole(ContentKey), Literal(footer)];
            && WellFormed(ps)
            && Join(ps) == header + Placeholder(ContentKey) + footer
            && Expand(ps, [("code", code), (ContentKey, body)]) == header + body + footer
  {
    var ps := [Literal(header), Hole(ContentKey), Literal(footer)];
    var vars := [("code", code), (ContentKey, body)];
    assert IsPlainKey(ContentKey) by {
      assert !IsDigit(ContentKey[0]);
    }
    JoinOfThree(ps[0], ps[1], ps[2]);
    assert !EqualsIgnoreCase(ContentKey, "code");
    LookupIsFirst(vars, ContentKey, 1);
    assert Resolve(ps, vars) == [Literal(header), Literal(body), Literal(footer)];
    JoinOfThree(Literal(header), Literal(body), Literal(footer));
  }

  /**
   * `RenderEmailTemplateAsync_WithLayoutAndContent`: a layout `header{{content}}footer`
   * around the content `before{{code}}after` gives `header`, `before`, the code,
   * `after`, `footer`.
   */
  lemma LayoutAroundContent(store: TemplateStore, templateName: string,
                            header: string, footer: string, before: string, after: string, code: string)
    requires templateName != ""
    requires PlainText(header) && PlainText(footer) && PlainText(before) && PlainText(after) && PlainText(code)
    requires TemplatePath(store.basePath, "email", EmailLayoutTemplate) in store.files
    requires store.files[TemplatePath(store.basePath, "email", EmailLayoutTemplate)] == header + Placeholder(ContentKey) + footer
    requires TemplatePath(store.basePath, "email", templateName) in store.files
    requires store.files[TemplatePath(store.basePath, "email", templateName)] == before + Placeholder("code") + after
    ensures EmailRendered(store, templateName, Some([("code", code)])) == Ok(header + (before + code + after) + footer)
  {
    var vars := [("code", code)];
    var body := before + code + after;
    CodeTemplateExpansion(before, after, code);
    LayoutExpansion(header, footer, code, body);
    EmailWrapsContent(store, templateName, [Literal(header), Hole(ContentKey), Literal(footer)],
                      [Literal(before), Hole("code"), Literal(after)], vars);
    assert WithEntry(vars, ContentKey, body) == [("code", code), (ContentKey, body)];
  }

  /** `RenderSmsTemplateAsync_RendersCorrectly`: the SMS template `before{{code}}after` gives `before`, the code, `after`. */
  lemma SmsCodeMessage(store: TemplateStore, templateName: string, before: string, after: string, code: string)
    requires templateName != ""
    requires PlainText(before) && PlainText(after) && PlainText(code)
    requires TemplatePath(store.basePath, "sms", templateName) in store.files
    requires store.files[TemplatePath(store.basePath, "sms", templateName)] == before + Placeholder("code") + after
    ensures SmsRendered(store, templateName, Some([("code", code)])) == Ok(before + code + after)
  {
    CodeTemplateExpansion(before, after, code);
    RenderExpands([Literal(before), Hole("code"), Literal(after)], [("code", code)]);
  }

  /**
   * The `content` entry is set with the exact key: a caller variable `Content`
   * comes first in the layout variables and so still fills the layout's
   * `{{content}}`.
   */
  lemma CallerContentKeyWins(x: string, body: string)
    ensures Lookup(WithEntry([("Content", x)], ContentKey, body), ContentKey) == Some(x)
  {
    var vars := [("Content", x)];
    assert vars[0].0 != ContentKey;
    var layoutVars := WithEntry(vars, ContentKey, body);
    assert layoutVars[0] == ("Content", x);
    assert EqualsIgnoreCase(ContentKey, "Content");
    LookupIsFirst(layoutVars, ContentKey, 0);
  }
}
