/**
 * `lib/templates.js`: announcement templates under `./reply-templates`, the choice of template
 * for a deployment, placeholder substitution and template validation.
 *
 * Template files are an oracle from template name to `Absent`, `Unparsable` or the parsed value.
 */
module Templates {
  import opened Wrappers
  import opened Json
  import opened Text
  import MM = ManifestManager

  // ---------- Substitution ----------

  /** `s.replace(new RegExp(pattern, 'g'), rep)` for a pattern read literally: every occurrence, left to right. */
  function ReplaceAll(s: string, pattern: string, rep: string): string
    requires |pattern| > 0
    decreases |s|
  {
    if |s| < |pattern| then s
    else if s[..|pattern|] == pattern then rep + ReplaceAll(s[|pattern|..], pattern, rep)
    else [s[0]] + ReplaceAll(s[1..], pattern, rep)
  }

  /** A text without the pattern is left as it is. */
  lemma {:induction false} ReplaceAllAbsent(s: string, pattern: string, rep: string)
    requires |pattern| > 0 && !Contains(s, pattern)
    ensures ReplaceAll(s, pattern, rep) == s
    decreases |s|
  {
    if |s| >= |pattern| {
      assert !StartsWith(s, pattern);
      ReplaceAllAbsent(s[1..], pattern, rep);
    }
  }

  /** Text before the first `{` is copied as it is. */
  lemma {:induction false} ReplaceAllPlainPrefix(a: string, s: string, pattern: string, rep: string)
    requires |pattern| > 0 && pattern[0] == '{'
    requires '{' !in a
    ensures ReplaceAll(a + s, pattern, rep) == a + ReplaceAll(s, pattern, rep)
    decreases |a|
  {
    if |a| > 0 {
      assert (a + s)[0] == a[0];
      ReplaceAllPlainPrefix(a[1..], s, pattern, rep);
      assert (a + s)[1..] == a[1..] + s;
    } else {
      assert a + s == s;
    }
  }

  /** Every occurrence is replaced: text made of brace-free segments separated by the placeholder gets the replacement in each gap. */
  lemma {:induction false} ReplaceAllEveryOccurrence(parts: seq<string>, pattern: string, rep: string)
    requires |pattern| > 0 && pattern[0] == '{'
    requires forall i :: 0 <= i < |parts| ==> '{' !in parts[i]
    ensures ReplaceAll(Join(parts, pattern), pattern, rep) == Join(parts, rep)
    decreases |parts|
  {
    if |parts| == 1 {
      ReplaceAllPlainPrefix(parts[0], "", pattern, rep);
      assert parts[0] + "" == parts[0];
    } else if |parts| > 1 {
      var rest := Join(parts[1..], pattern);
      ReplaceAllEveryOccurrence(parts[1..], pattern, rep);
      assert Join(parts, pattern) == parts[0] + (pattern + rest);
      ReplaceAllPlainPrefix(parts[0], pattern + rest, pattern, rep);
      assert (pattern + rest)[..|pattern|] == pattern;
      assert (pattern + rest)[|pattern|..] == rest;
      assert Join(parts, rep) == parts[0] + (rep + Join(parts[1..], rep));
    }
  }

  /**
   * `String(v)`: an array is its elements joined by commas (a `null` element giving the empty
   * text), any other object `[object Object]`.
   */
  function JsString(v: Json): string
    decreases v, 0
  {
    match v
    case JNull => "null"
    case JStr(s) => s
    case JNum(n) => IntText(n)
    case JBool(b) => if b then "true" else "false"
    case JArr(items) => Join(seq(|items|, i requires 0 <= i < |items| => ElementText(items[i])), ",")
    case JObj(_) => "[object Object]"
  }

  /** An array element as `join` writes it: `null` as the empty text. */
  function ElementText(v: Json): string
    decreases v, 1
  {
    if v == JNull then "" else JsString(v)
  }

  /** `value || ''` as the replacement text: falsy values give the empty text, others `String(value)`. */
  function Replacement(v: Json): (r: string)
    ensures !Truthy(v) ==> r == ""
    ensures v.JStr? ==> r == v.s
    ensures Truthy(v) ==> r == JsString(v)
  {
    if !Truthy(v) then "" else JsString(v)
  }

  /** An array value is written as its elements joined by commas. */
  lemma ArrayReplacement()
    ensures Replacement(JArr([JNum(1), JNum(2)])) == "1,2"
  {
    var items := [JNum(1), JNum(2)];
    assert IntText(1) == [DigitChar(1)] == "1";
    assert IntText(2) == [DigitChar(2)] == "2";
    var texts := seq(|items|, i requires 0 <= i < |items| => ElementText(items[i]));
    assert texts == ["1", "2"];
    assert Join(texts, ",") == "1" + "," + Join(["2"], ",");
  }

  /** The placeholder `{key}`. */
  function Placeholder(key: string): (p: string)
    ensures |p| > 0 && p[0] == '{'
  {
    "{" + key + "}"
  }

  /** The text after substituting each variable in turn. */
  function Rendered(text: string, variables: seq<(string, Json)>): string
    decreases |variables|
  {
    if |variables| == 0 then text
    else
      var last := variables[|variables| - 1];
      ReplaceAll(Rendered(text, variables[..|variables| - 1]), Placeholder(last.0), Replacement(last.1))
  }

  /** `renderTemplate(template, variables)`, given `template.template`. */
  method RenderTemplate(text: string, variables: seq<(string, Json)>) returns (rendered: string)
    ensures rendered == Rendered(text, variables)
  {
    rendered := text;
    var i := 0;
    while i < |variables|
      invariant 0 <= i <= |variables|
      invariant rendered == Rendered(text, variables[..i])
    {
      assert variables[..i + 1][..i] == variables[..i];
      rendered := ReplaceAll(rendered, Placeholder(variables[i].0), Replacement(variables[i].1));
      i := i + 1;
    }
    assert variables[..i] == variables;
  }

  /** A text holding no placeholder of any variable is returned unchanged. */
  lemma {:induction false} RenderedWithoutPlaceholders(text: string, variables: seq<(string, Json)>)
    requires forall i :: 0 <= i < |variables| ==> !Contains(text, Placeholder(variables[i].0))
    ensures Rendered(text, variables) == text
    decreases |variables|
  {
    if |variables| > 0 {
      var last := variables[|variables| - 1];
      RenderedWithoutPlaceholders(text, variables[..|variables| - 1]);
      ReplaceAllAbsent(text, Placeholder(last.0), Replacement(last.1));
    }
  }

  /** One variable: each of its placeholders in brace-free text is replaced by its value, a falsy value by nothing. */
  lemma RenderOneVariable(parts: seq<string>, key: string, value: Json)
    requires forall i :: 0 <= i < |parts| ==> '{' !in parts[i]
    ensures Rendered(Join(parts, Placeholder(key)), [(key, value)]) == Join(parts, Replacement(value))
    ensures !Truthy(value) ==> Rendered(Join(parts, Placeholder(key)), [(key, value)]) == Join(parts, "")
  {
    assert [(key, value)][..0] == [];
    ReplaceAllEveryOccurrence(parts, Placeholder(key), Replacement(value));
  }

  // ---------- Loading and choosing ----------

  const TemplatesDir := "./reply-templates"

  /**
   * The failure messages of reading and of parsing a template file, as fixed stand-ins: the
   * runtime's messages also name the file (`, open '<path>'`) and the position of the bad token.
   */
  const ReadError := "ENOENT: no such file or directory"
  const ParseError := "Unexpected token in JSON"

  /** `loadTemplate(name)`: the parsed file, or "Template '<name>' not found: <cause>". */
  function LoadTemplate(name: string, file: MM.Stored<Json>): (r: Result<Json>)
    ensures r.Ok? <==> file.Parsed?
    ensures file.Parsed? ==> r.value == file.value
    ensures file.Absent? ==> r.error == "Template '" + name + "' not found: " + ReadError
    ensures file.Unparsable? ==> r.error == "Template '" + name + "' not found: " + ParseError
  {
    match file
    case Parsed(v) => Ok(v)
    case Absent => Err("Template '" + name + "' not found: " + ReadError)
    case Unparsable => Err("Template '" + name + "' not found: " + ParseError)
  }

  const NoFailureTemplateError := "No template available for failed deployments"

  /** The template a deployment announcement uses: 'no-changes' first, then 'success'; none for a failure. */
  function TemplateName(deployment: Json): (r: Result<string>)
    ensures FieldSet(deployment, "isNoChanges") ==> r == Ok("no-changes")
    ensures !FieldSet(deployment, "isNoChanges") && FieldSet(deployment, "success") ==> r == Ok("success")
    ensures !FieldSet(deployment, "isNoChanges") && !FieldSet(deployment, "success")
      ==> r == Err(NoFailureTemplateError)
  {
    if FieldSet(deployment, "isNoChanges") then Ok("no-changes")
    else if FieldSet(deployment, "success") then Ok("success")
    else Err(NoFailureTemplateError)
  }

  /** `getTemplateForDeployment(deploymentData)` */
  function GetTemplateForDeployment(deployment: Json, files: string -> MM.Stored<Json>): (r: Result<Json>)
    ensures TemplateName(deployment).Err? ==> r == Err(NoFailureTemplateError)
    ensures TemplateName(deployment).Ok? ==>
      r == LoadTemplate(TemplateName(deployment).value, files(TemplateName(deployment).value))
  {
    match TemplateName(deployment)
    case Err(e) => Err(e)
    case Ok(name) => LoadTemplate(name, files(name))
  }

  /** A deployment that made no changes is announced with 'no-changes' even when it also reports success. */
  lemma NoChangesWinsOverSuccess(deployment: Json, files: string -> MM.Stored<Json>)
    requires FieldSet(deployment, "isNoChanges") && FieldSet(deployment, "success")
    ensures GetTemplateForDeployment(deployment, files) == LoadTemplate("no-changes", files("no-changes"))
  {
  }

  // ---------- Validation ----------

  const RequiredFields: seq<string> := ["name", "description", "template"]

  /** The first of `fields` whose value is missing or falsy. */
  function FirstMissing(template: Json, fields: seq<string>): (r: Option<string>)
    ensures r.Some? ==> r.value in fields && !FieldSet(template, r.value)
    ensures r.None? <==> forall i :: 0 <= i < |fields| ==> FieldSet(template, fields[i])
    ensures r.Some? ==> exists i :: (0 <= i < |fields| && fields[i] == r.value
      && forall j :: 0 <= j < i ==> FieldSet(template, fields[j]))
    decreases |fields|
  {
    if |fields| == 0 then None
    else if !FieldSet(template, fields[0]) then Some(fields[0])
    else FirstMissing(template, fields[1..])
  }

  /** The error `template[field]` throws when the template itself is `null`. */
  const NullTemplateError := "Cannot read properties of null (reading 'name')"

  /** The error naming a missing required field. */
  function MissingFieldError(field: string): string {
    "Template missing required field: " + field
  }

  /** `validateTemplate(template)`: `true`, or the error naming the first missing required field. */
  function ValidateTemplate(template: Json): (r: Result<bool>)
    ensures template == JNull ==> r == Err(NullTemplateError)
    ensures template != JNull ==> (r == Ok(true) <==>
      FieldSet(template, "name") && FieldSet(template, "description") && FieldSet(template, "template"))
    ensures template != JNull && r.Err? ==>
      exists f :: (f in RequiredFields && !FieldSet(template, f) && r.error == MissingFieldError(f))
    ensures template != JNull && !FieldSet(template, "name") ==> r == Err(MissingFieldError("name"))
    ensures template != JNull && FieldSet(template, "name") && !FieldSet(template, "description") ==>
      r == Err(MissingFieldError("description"))
    ensures (template != JNull && FieldSet(template, "name") && FieldSet(template, "description")
      && !FieldSet(template, "template")) ==> r == Err(MissingFieldError("template"))
  {
    if template == JNull then Err(NullTemplateError)
    else
      var missing := FirstMissing(template, RequiredFields);
      RequiredInOrder(template);
      if missing.None? then Ok(true) else Err(MissingFieldError(missing.value))
  }

  /** The required fields are checked in the order name, description, template. */
  lemma RequiredInOrder(template: Json)
    ensures FirstMissing(template, RequiredFields)
      == if !FieldSet(template, "name") then Some("name")
         else if !FieldSet(template, "description") then Some("description")
         else if !FieldSet(template, "template") then Some("template")
         else None
  {
    var fields := RequiredFields;
    assert fields[1..] == ["description", "template"];
    assert fields[1..][1..] == ["template"];
    assert fields[1..][1..][1..] == [];
  }
}
