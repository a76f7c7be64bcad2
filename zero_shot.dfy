/**
 * Zero-shot tasks: each builds a prompt from a template and keyword inputs and
 * parses the model's reply (one label, several labels, an answer, or extracted
 * fields); the prompter composes create, ask and parse at a fixed temperature.
 */
module ZeroShot {
  import opened Wrappers
  import opened Text
  import opened Dicts
  import opened Json
  import opened PromptTemplates
  import opened ZeroShotDefaults
  import opened ZeroShotTemplates

  /** The context a question is asked with when the caller gives none (or an empty one). */
  const NoContext: string := "No additional context provided."

  const ClassifyTemperature: real := 0.1
  const AnswerTemperature: real := 0.4
  const ExtractTemperature: real := 0.0

  // ---------------------------------------------------------------------------
  // Tasks
  // ---------------------------------------------------------------------------

  datatype Task =
    | Classification(labels: seq<string>, template: string, multiLabel: bool)
    | QuestionAnswering(template: string)
    | Extraction(schema: ValidDict<string>, outputFormat: string, template: string)

  /** `prompt_template or PromptTemplate(default)`: a template object is always truthy, so only `None` selects the default. */
  function TemplateOr(template: Option<string>, fallback: string): string {
    if template.Some? then template.value else fallback
  }

  function NewClassification(labels: seq<string>, template: Option<string> := None, multiLabel: bool := false): Task {
    Classification(labels, TemplateOr(template, DefaultClassificationTemplate), multiLabel)
  }

  function NewQuestionAnswering(template: Option<string> := None): Task {
    QuestionAnswering(TemplateOr(template, DefaultQuestionAnsweringTemplate))
  }

  function NewExtraction(schema: ValidDict<string>, outputFormat: string := "json", template: Option<string> := None): Task {
    Extraction(schema, outputFormat, TemplateOr(template, DefaultExtractionTemplate))
  }

  /**
   * Why a task fails: the keyword inputs do not fit `create_prompt`'s parameters
   * (`TypeError`), the template cannot be formatted, or a decoded JSON value
   * that is not an object has no `.items()` (`AttributeError`).
   */
  datatype TaskError = ArgumentError | TemplateError(cause: FormatError) | NotAnObject

  /** Keyword inputs: each value is a text or `None`. */
  type Kwargs = map<string, Option<string>>

  /** The keyword inputs bind to a signature with these parameters, of which `required` has no default. */
  predicate Binds(kwargs: Kwargs, params: set<string>, required: string) {
    kwargs.Keys <= params && required in kwargs
  }

  function FromFormat(r: Result<string, FormatError>): Result<string, TaskError> {
    if r.Ok? then Ok(r.value) else Err(TemplateError(r.error))
  }

  /** The schema as one `- field: description` line per field, in schema order. */
  function SchemaDescription(schema: ValidDict<string>): string {
    Join("\n", seq(|schema.keys|, i requires 0 <= i < |schema.keys| => "- " + schema.keys[i] + ": " + schema.entries[schema.keys[i]]))
  }

  /** The values a classification prompt is formatted with. */
  function ClassificationValues(labels: seq<string>, text: string, labelType: string): map<string, string> {
    map["text" := text, "labels" := Join(", ", labels), "label_type" := labelType]
  }

  function QuestionValues(question: string, context: string): map<string, string> {
    map["question" := question, "context" := context]
  }

  function ExtractionValues(schema: ValidDict<string>, outputFormat: string, text: string): map<string, string> {
    map["text" := text, "schema_desc" := SchemaDescription(schema), "output_format" := outputFormat]
  }

  /** `context or "No additional context provided."` */
  function ContextOr(context: Option<string>): string {
    if context.Some? && context.value != "" then context.value else NoContext
  }

  /** The parameters of the task's `create_prompt`. */
  function Params(task: Task): set<string> {
    match task
    case Classification(_, _, _) => {"text", "label_type"}
    case QuestionAnswering(_) => {"question", "context"}
    case Extraction(_, _, _) => {"text"}
  }

  /** The parameter of the task's `create_prompt` that has no default. */
  function Required(task: Task): string {
    if task.QuestionAnswering? then "question" else "text"
  }

  /** `task.create_prompt(**kwargs)`. */
  function CreatePrompt(task: Task, kwargs: Kwargs): Result<string, TaskError> {
    if !Binds(kwargs, Params(task), Required(task)) then Err(ArgumentError)
    else
      match task
      case Classification(labels, template, _) =>
        var labelType := if "label_type" in kwargs then Show(kwargs["label_type"]) else "categories";
        FromFormat(Format(template, ClassificationValues(labels, Show(kwargs["text"]), labelType)))
      case QuestionAnswering(template) =>
        var context := if "context" in kwargs then kwargs["context"] else None;
        FromFormat(Format(template, QuestionValues(Show(kwargs["question"]), ContextOr(context))))
      case Extraction(schema, outputFormat, template) =>
        FromFormat(Format(template, ExtractionValues(schema, outputFormat, Show(kwargs["text"]))))
  }

  // ---------------------------------------------------------------------------
  // Classification replies
  // ---------------------------------------------------------------------------

  /** The first label, from index `from` on, whose lower-case form occurs in `text`. */
  function MatchFrom(labels: seq<string>, text: string, from: nat): (r: Option<nat>)
    requires from <= |labels|
    ensures r.Some? ==> from <= r.value < |labels| && Contains(text, Lower(labels[r.value]))
    ensures forall j :: from <= j < |labels| && (r.None? || j < r.value) ==> !Contains(text, Lower(labels[j]))
    decreases |labels| - from
  {
    if from == |labels| then None
    else if Contains(text, Lower(labels[from])) then Some(from)
    else MatchFrom(labels, text, from + 1)
  }

  /**
   * The single-label reading of a reply: the first declared label whose lower-case
   * form occurs in the lower-cased, stripped reply; otherwise the stripped reply.
   */
  function SingleLabel(labels: seq<string>, response: string): string {
    var r := Strip(response);
    var m := MatchFrom(labels, Lower(r), 0);
    if m.Some? then labels[m.value] else r
  }

  /** The search loop of `parse_response` for one label, with its early return. */
  method ParseSingleLabel(labels: seq<string>, response: string) returns (chosen: string)
    ensures chosen == SingleLabel(labels, response)
    ensures chosen in labels || chosen == Strip(response)
    ensures (exists k :: 0 <= k < |labels| && chosen == labels[k]
               && Contains(Lower(Strip(response)), Lower(labels[k]))
               && forall j :: 0 <= j < k ==> !Contains(Lower(Strip(response)), Lower(labels[j])))
            || (chosen == Strip(response)
               && forall j :: 0 <= j < |labels| ==> !Contains(Lower(Strip(response)), Lower(labels[j])))
  {
    var r := Strip(response);
    var lowered := Lower(r);
    var i := 0;
    while i < |labels|
      invariant 0 <= i <= |labels|
      invariant forall j :: 0 <= j < i ==> !Contains(lowered, Lower(labels[j]))
    {
      if Contains(lowered, Lower(labels[i])) {
        MatchFromFirst(labels, lowered, i);
        chosen := labels[i];
        assert 0 <= i < |labels| && chosen == labels[i];
        return;
      }
      i := i + 1;
    }
    assert MatchFrom(labels, lowered, 0).None?;
    chosen := r;
  }

  /** The first label that occurs is the one `MatchFrom` finds. */
  lemma MatchFromFirst(labels: seq<string>, text: string, i: nat)
    requires i < |labels| && Contains(text, Lower(labels[i]))
    requires forall j :: 0 <= j < i ==> !Contains(text, Lower(labels[j]))
    ensures MatchFrom(labels, text, 0) == Some(i)
  {
  }

  /** The tokens that are declared labels, in token order with repeats kept. */
  function KeepDeclared(tokens: seq<string>, labels: seq<string>): (r: seq<string>)
    ensures forall x :: x in r ==> x in labels
    ensures forall x :: x in labels ==> multiset(r)[x] == multiset(tokens)[x]
    ensures Subsequence(r, tokens)
  {
    if tokens == [] then []
    else
      assert tokens == [tokens[0]] + tokens[1..];
      if tokens[0] in labels then [tokens[0]] + KeepDeclared(tokens[1..], labels)
      else KeepDeclared(tokens[1..], labels)
  }

  /** The string elements of a decoded JSON list, in list order. */
  function Texts(items: seq<Json>): seq<string> {
    if items == [] then []
    else if items[0].JStr? then [items[0].s] + Texts(items[1..])
    else Texts(items[1..])
  }

  /** The string elements of a decoded JSON list that are declared labels, in list order. */
  function JsonLabels(items: seq<Json>, labels: seq<string>): (r: seq<string>)
    ensures forall x :: x in r ==> x in labels
    ensures forall x :: x in labels ==> multiset(r)[x] == multiset(items)[JStr(x)]
    ensures Subsequence(r, Texts(items))
  {
    if items == [] then []
    else
      assert items == [items[0]] + items[1..];
      if items[0].JStr? && items[0].s in labels then [items[0].s] + JsonLabels(items[1..], labels)
      else JsonLabels(items[1..], labels)
  }

  function StripAll(parts: seq<string>): (r: seq<string>)
    ensures |r| == |parts| && forall k :: 0 <= k < |parts| ==> r[k] == Strip(parts[k])
  {
    seq(|parts|, k requires 0 <= k < |parts| => Strip(parts[k]))
  }

  /**
   * The multi-label reading of a reply: a decoded JSON list keeps its declared
   * string elements; otherwise the stripped comma-separated tokens that are
   * declared labels. Either way every result is a declared label.
   */
  function MultiLabel(labels: seq<string>, response: string, loads: Loads): (r: seq<string>)
    ensures forall x :: x in r ==> x in labels
  {
    var s := Strip(response);
    var decoded := loads(s);
    if decoded.Some? && decoded.value.JArr? then JsonLabels(decoded.value.items, labels)
    else KeepDeclared(StripAll(Split(s, ',')), labels)
  }

  /** When the stripped reply decodes to a JSON list, the result is its declared string elements, in list order. */
  lemma MultiLabelJsonList(labels: seq<string>, response: string, loads: Loads, items: seq<Json>)
    requires loads(Strip(response)) == Some(JArr(items))
    ensures var r := MultiLabel(labels, response, loads);
            Subsequence(r, Texts(items))
            && forall x :: x in labels ==> multiset(r)[x] == multiset(items)[JStr(x)]
  {
  }

  /** When the reply does not decode to a JSON list, the result is the declared tokens of its comma split, in order. */
  lemma MultiLabelCommaFallback(labels: seq<string>, response: string, loads: Loads)
    requires !(loads(Strip(response)).Some? && loads(Strip(response)).value.JArr?)
    ensures var tokens := StripAll(Split(Strip(response), ','));
            var r := MultiLabel(labels, response, loads);
            Subsequence(r, tokens)
            && forall x :: x in labels ==> multiset(r)[x] == multiset(tokens)[x]
  {
  }

  // ---------------------------------------------------------------------------
  // Extraction replies
  // ---------------------------------------------------------------------------

  /** The six places a field's value may follow, tried in this order. */
  function SearchPatterns(field: string): seq<string> {
    var low := Lower(field);
    [field + ":", low + ":", "\"" + field + "\":", "\"" + low + "\":", "'" + field + "':", "'" + low + "':"]
  }

  /** A value the line scan can keep: non-empty, on one line, with no surrounding whitespace. */
  predicate CleanValue(s: string) {
    s != [] && '\n' !in s && !IsSpace(s[0]) && !IsSpace(s[|s| - 1])
  }

  /** The stripped rest of the line after the first occurrence of `pattern`, when it occurs. */
  function LineAfter(response: string, pattern: string): (r: Option<string>)
    ensures r.Some? <==> Contains(response, pattern)
    ensures r.Some? ==> r.value == [] || CleanValue(r.value)
  {
    var found := Find(response, pattern, 0);
    if found.None? then None
    else
      var start := found.value + |pattern|;
      var nl := Find(response, "\n", start);
      var end := if nl.Some? then nl.value else |response|;
      var line := response[start..end];
      assert '\n' !in line by {
        forall k | 0 <= k < |line| ensures line[k] != '\n' {
          assert !OccursAt(response, "\n", start + k);
          assert response[start + k..start + k + 1] == [line[k]];
        }
      }
      StripInside(line, '\n');
      Some(Strip(line))
  }

  /** The first of `candidates` to which `value` gives a non-empty text, and that text. */
  function FirstNonEmpty(candidates: seq<string>, value: string -> Option<string>): (r: Option<string>)
    ensures r.Some? ==> r.value != [] && exists k :: 0 <= k < |candidates| && value(candidates[k]) == r
  {
    if candidates == [] then None
    else
      var v := value(candidates[0]);
      if !Blank(v) then v
      else
        var r := FirstNonEmpty(candidates[1..], value);
        assert r.Some? ==> exists k :: 0 <= k < |candidates| && value(candidates[k]) == r by {
          if r.Some? {
            var k :| 0 <= k < |candidates[1..]| && value(candidates[1..][k]) == r;
            assert candidates[k + 1] == candidates[1..][k];
          }
        }
        r
  }

  /** No text, or an empty one. */
  predicate Blank(v: Option<string>) {
    v.None? || v.value == ""
  }

  /** `value` gives a non-empty text for `c`. */
  predicate Gives(value: string -> Option<string>, c: string) {
    !Blank(value(c))
  }

  /** Nothing is found exactly when no candidate gives a non-empty text. */
  lemma {:induction false} FirstNonEmptyNone(candidates: seq<string>, value: string -> Option<string>)
    ensures FirstNonEmpty(candidates, value).None? <==> forall k :: 0 <= k < |candidates| ==> !Gives(value, candidates[k])
  {
    if candidates != [] {
      FirstNonEmptyNone(candidates[1..], value);
      assert forall k :: 1 <= k < |candidates| ==> candidates[k] == candidates[1..][k - 1];
    }
  }

  /** What is found is the text of the first candidate that gives one. */
  lemma {:induction false} FirstNonEmptyAt(candidates: seq<string>, value: string -> Option<string>, k: nat)
    requires k < |candidates| && Gives(value, candidates[k])
    requires forall j :: 0 <= j < k ==> !Gives(value, candidates[j])
    ensures FirstNonEmpty(candidates, value) == value(candidates[k])
  {
    if k > 0 {
      assert candidates[1..][k - 1] == candidates[k];
      forall j | 0 <= j < k - 1 ensures !Gives(value, candidates[1..][j]) {
        assert candidates[1..][j] == candidates[j + 1];
      }
      FirstNonEmptyAt(candidates[1..], value, k - 1);
    }
  }

  /** The value given by the first pattern that gives a non-empty one. */
  function FirstValue(patterns: seq<string>, response: string): Option<string> {
    FirstNonEmpty(patterns, p => LineAfter(response, p))
  }

  /** The value found is stripped, non-empty and on one line. */
  lemma FirstValueClean(patterns: seq<string>, response: string)
    ensures FirstValue(patterns, response).Some? ==> CleanValue(FirstValue(patterns, response).value)
  {
    var r := FirstValue(patterns, response);
    if r.Some? {
      var k :| 0 <= k < |patterns| && LineAfter(response, patterns[k]) == r;
    }
  }

  /** With no pattern giving a non-empty value there is no value, and the other way round. */
  lemma FirstValueNone(patterns: seq<string>, response: string)
    ensures FirstValue(patterns, response).None? <==>
            forall k :: 0 <= k < |patterns| ==> Blank(LineAfter(response, patterns[k]))
  {
    var value := p => LineAfter(response, p);
    FirstNonEmptyNone(patterns, value);
    assert forall k :: 0 <= k < |patterns| ==> value(patterns[k]) == LineAfter(response, patterns[k]);
  }

  /** The value is the line after the first pattern that gives a non-empty one. */
  lemma FirstValueAt(patterns: seq<string>, response: string, k: nat)
    requires k < |patterns| && !Blank(LineAfter(response, patterns[k]))
    requires forall j :: 0 <= j < k ==> Blank(LineAfter(response, patterns[j]))
    ensures FirstValue(patterns, response) == LineAfter(response, patterns[k])
  {
    var value := p => LineAfter(response, p);
    assert Gives(value, patterns[k]) by {
      assert value(patterns[k]) == LineAfter(response, patterns[k]);
    }
    forall j | 0 <= j < k ensures !Gives(value, patterns[j]) {
      assert value(patterns[j]) == LineAfter(response, patterns[j]);
    }
    FirstNonEmptyAt(patterns, value, k);
  }

  /** The value the line scan finds for a field. */
  function FieldValue(field: string, response: string): Option<string> {
    FirstValue(SearchPatterns(field), response)
  }

  /** The test that `value` gives a text for a field. */
  function Found(value: string -> Option<string>): string -> bool {
    f => value(f).Some?
  }

  /** The entries `f: v` for the fields that `value` gives a text, in field order. */
  function Collect(fields: seq<string>, value: string -> Option<string>): (r: Dict<string>)
    ensures Subsequence(r.keys, fields)
    ensures forall f :: f in r.keys <==> f in fields && value(f).Some?
    ensures forall f :: f in r.entries <==> f in fields && value(f).Some?
    ensures forall f :: f in r.entries ==> Some(r.entries[f]) == value(f)
    ensures Distinct(fields) ==> r.Valid()
  {
    var kept := Filter(fields, Found(value));
    assert forall i :: 0 <= i < |kept| ==> kept[i] in kept;
    Dict(kept, map f | f in fields && value(f).Some? :: value(f).value)
  }

  /** Collecting one more, new field appends that field when it has a value. */
  lemma CollectSnoc(fields: seq<string>, i: nat, value: string -> Option<string>)
    requires i < |fields| && fields[i] !in fields[..i]
    ensures Collect(fields[..i + 1], value)
            == if value(fields[i]).Some? then Collect(fields[..i], value).Put(fields[i], value(fields[i]).value)
               else Collect(fields[..i], value)
  {
    assert fields[..i + 1] == fields[..i] + [fields[i]];
    FilterSnoc(fields[..i], fields[i], Found(value));
  }

  /** The line-scan result: every schema field that has a value, and nothing else, in schema order. */
  function LineScan(fields: seq<string>, response: string): (r: Dict<string>)
    ensures Subsequence(r.keys, fields)
    ensures forall f :: f in r.entries <==> f in fields && FieldValue(f, response).Some?
    ensures forall f :: f in r.entries ==> Some(r.entries[f]) == FieldValue(f, response)
  {
    Collect(fields, f => FieldValue(f, response))
  }

  /** The inner loop of the fallback scan: try the patterns in order and stop at the first that gives a non-empty value. */
  method ScanField(field: string, response: string) returns (value: Option<string>)
    ensures value == FieldValue(field, response)
  {
    var patterns := SearchPatterns(field);
    value := ScanPatterns(patterns, response);
  }

  /** Try the patterns in order; stop at the first that gives a non-empty value. */
  method ScanPatterns(patterns: seq<string>, response: string) returns (value: Option<string>)
    ensures value == FirstValue(patterns, response)
  {
    var j := 0;
    while j < |patterns|
      invariant 0 <= j <= |patterns|
      invariant FirstValue(patterns, response) == FirstValue(patterns[j..], response)
    {
      assert patterns[j..][1..] == patterns[j + 1..];
      var line := LineAfter(response, patterns[j]);
      if !Blank(line) {
        return line;
      }
      j := j + 1;
    }
    value := None;
  }

  /** The outer loop of the fallback scan: fill the result field by field, in schema order. */
  method ScanLines(schema: ValidDict<string>, response: string) returns (result: Dict<string>)
    ensures result == LineScan(schema.keys, response)
  {
    var fields := schema.keys;
    ghost var valueOf := f => FieldValue(f, response);
    result := Empty();
    var i := 0;
    while i < |fields|
      invariant 0 <= i <= |fields|
      invariant result == Collect(fields[..i], valueOf)
    {
      var field := fields[i];
      var value := ScanField(field, response);
      assert value == valueOf(field);
      assert field !in fields[..i] by {
        assert forall j :: 0 <= j < i ==> fields[..i][j] == fields[j];
      }
      CollectSnoc(fields, i, valueOf);
      if value.Some? {
        result := result.Put(field, value.value);
      }
      i := i + 1;
    }
    assert fields[..|fields|] == fields;
  }

  /** Each extracted text value as a JSON string. */
  function AsJson(d: Dict<string>): (r: Dict<Json>)
    ensures r.keys == d.keys && r.entries.Keys == d.entries.Keys
    ensures forall k :: k in d.entries ==> r.entries[k] == JStr(d.entries[k])
  {
    Dict(d.keys, map k | k in d.entries :: JStr(d.entries[k]))
  }

  /** `output_format.lower() == "json"` and both a `{` and a `}` occur: the JSON path is tried. */
  predicate TriesJson(outputFormat: string, response: string) {
    Lower(outputFormat) == "json" && '{' in response && '}' in response
  }

  /** `response[first '{' : last '}' + 1]`, empty when the last `}` precedes the first `{`. */
  function BraceSpan(response: string): string
    requires '{' in response && '}' in response
  {
    var start := FirstIndex(response, '{');
    var last := FindLast(response, '}').value;
    if start <= last then response[start..last + 1] else ""
  }

  /**
   * The extraction reading of a reply: a decoded JSON object restricted to the
   * schema's fields, or the line scan when the JSON path is not taken or does
   * not decode; a decoded value that is not an object fails.
   */
  function ParseExtraction(schema: ValidDict<string>, outputFormat: string, response: string, loads: Loads): (r: Result<Dict<Json>, TaskError>)
    ensures r.Ok? ==> forall k :: k in r.value.entries ==> k in schema.entries
    ensures r.Ok? ==> forall k :: k in r.value.keys ==> k in schema.entries
    ensures r.Err? ==> r.error == NotAnObject
    ensures r.Err? <==> TriesJson(outputFormat, response) && loads(BraceSpan(response)).Some? && !loads(BraceSpan(response)).value.JObj?
  {
    var fallback := AsJson(LineScan(schema.keys, response));
    if TriesJson(outputFormat, response) then
      match loads(BraceSpan(response))
      case Some(JObj(fields)) => Ok(fields.Restrict(k => k in schema.entries))
      case Some(_) => Err(NotAnObject)
      case None => Ok(fallback)
    else Ok(fallback)
  }

  /** Without the JSON path the result is the line scan. */
  lemma ExtractionWithoutJson(schema: ValidDict<string>, outputFormat: string, response: string, loads: Loads)
    requires !TriesJson(outputFormat, response)
    ensures ParseExtraction(schema, outputFormat, response, loads) == Ok(AsJson(LineScan(schema.keys, response)))
    ensures forall f :: f in schema.entries ==>
              (f in ParseExtraction(schema, outputFormat, response, loads).value.entries <==> FieldValue(f, response).Some?)
    ensures Subsequence(ParseExtraction(schema, outputFormat, response, loads).value.keys, schema.keys)
  {
  }

  /** On the JSON path a decoded object keeps its schema fields, with their decoded values, in decoded order. */
  lemma ExtractionFromJson(schema: ValidDict<string>, outputFormat: string, response: string, loads: Loads, fields: Dict<Json>)
    requires TriesJson(outputFormat, response) && loads(BraceSpan(response)) == Some(JObj(fields))
    ensures var r := ParseExtraction(schema, outputFormat, response, loads);
            && r.Ok?
            && Subsequence(r.value.keys, fields.keys)
            && (forall k :: k in r.value.keys <==> k in fields.keys && k in schema.entries)
            && (forall k :: k in r.value.entries <==> k in fields.entries && k in schema.entries)
            && (forall k :: k in r.value.entries ==> r.value.entries[k] == fields.entries[k])
  {
  }

  /** On the JSON path a span that does not decode falls back to the line scan, as `except json.JSONDecodeError: pass` does. */
  lemma ExtractionDecodeFails(schema: ValidDict<string>, outputFormat: string, response: string, loads: Loads)
    requires TriesJson(outputFormat, response) && loads(BraceSpan(response)).None?
    ensures ParseExtraction(schema, outputFormat, response, loads) == Ok(AsJson(LineScan(schema.keys, response)))
    ensures forall f :: f in schema.entries ==>
              (f in ParseExtraction(schema, outputFormat, response, loads).value.entries <==> FieldValue(f, response).Some?)
    ensures Subsequence(ParseExtraction(schema, outputFormat, response, loads).value.keys, schema.keys)
  {
  }

  /** Extraction fails exactly when the JSON path decodes a value that is not an object. */
  lemma ExtractionFailsExactly(schema: ValidDict<string>, outputFormat: string, response: string, loads: Loads)
    ensures ParseExtraction(schema, outputFormat, response, loads).Err? <==>
            TriesJson(outputFormat, response) && loads(BraceSpan(response)).Some? && !loads(BraceSpan(response)).value.JObj?
  {
  }

  // ---------------------------------------------------------------------------
  // Parsing and the prompter
  // ---------------------------------------------------------------------------

  datatype Output = Label(chosen: string) | Labels(labels: seq<string>) | Answer(text: string) | Extracted(fields: Dict<Json>)

  /** `task.parse_response(response)`. */
  function ParseResponse(task: Task, response: string, loads: Loads): Result<Output, TaskError> {
    match task
    case Classification(labels, _, multiLabel) =>
      if multiLabel then Ok(Labels(MultiLabel(labels, response, loads))) else Ok(Label(SingleLabel(labels, response)))
    case QuestionAnswering(_) => Ok(Answer(Strip(response)))
    case Extraction(schema, outputFormat, _) =>
      var r := ParseExtraction(schema, outputFormat, response, loads);
      if r.Ok? then Ok(Extracted(r.value)) else Err(r.error)
  }

  /** Parsing an answer again changes nothing. */
  lemma AnswerParseIdempotent(template: string, response: string, loads: Loads)
    ensures var r := ParseResponse(QuestionAnswering(template), response, loads);
            r.Ok? && ParseResponse(QuestionAnswering(template), r.value.text, loads) == r
  {
    var task := QuestionAnswering(template);
    var once := Strip(response);
    assert ParseResponse(task, response, loads) == Ok(Answer(once));
    assert ParseResponse(task, once, loads) == Ok(Answer(Strip(once)));
    StripIdempotent(response);
  }

  /** A model provider: one with `get_response(prompt, model, temperature)`, or one with only `complete(prompt, temperature)`. */
  datatype Provider =
    | Responder(getResponse: (string, Option<string>, real) -> string)
    | Completer(complete: (string, real) -> string)

  function Ask(provider: Provider, prompt: string, model: Option<string>, temperature: real): string {
    match provider
    case Responder(getResponse) => getResponse(prompt, model, temperature)
    case Completer(complete) => complete(prompt, temperature)
  }

  /** `ZeroShotPrompter.run`: create the prompt, ask the provider once, parse its reply. */
  function Run(provider: Provider, task: Task, kwargs: Kwargs, model: Option<string>, temperature: real, loads: Loads): Result<Output, TaskError> {
    var prompt := CreatePrompt(task, kwargs);
    if prompt.Err? then Err(prompt.error)
    else ParseResponse(task, Ask(provider, prompt.value, model, temperature), loads)
  }

  function Classify(provider: Provider, text: string, labels: seq<string>, labelType: string := "categories",
                    model: Option<string> := None, multiLabel: bool := false, template: Option<string> := None,
                    loads: Loads): Result<Output, TaskError>
  {
    Run(provider, NewClassification(labels, template, multiLabel),
        map["text" := Some(text), "label_type" := Some(labelType)], model, ClassifyTemperature, loads)
  }

  function AnswerQuestion(provider: Provider, question: string, context: Option<string> := None,
                          model: Option<string> := None, template: Option<string> := None,
                          loads: Loads): Result<Output, TaskError>
  {
    Run(provider, NewQuestionAnswering(template),
        map["question" := Some(question), "context" := context], model, AnswerTemperature, loads)
  }

  function ExtractInfo(provider: Provider, text: string, schema: ValidDict<string>, model: Option<string> := None,
                       outputFormat: string := "json", template: Option<string> := None,
                       loads: Loads): Result<Output, TaskError>
  {
    Run(provider, NewExtraction(schema, outputFormat, template),
        map["text" := Some(text)], model, ExtractTemperature, loads)
  }

  // ---------------------------------------------------------------------------
  // The default prompts, written out
  // ---------------------------------------------------------------------------

  function ClassificationPrompt(text: string, labels: seq<string>, labelType: string): string {
    ClassifyLead + labelType + ClassifyAfterType + text + ClassifyAfterText + Join(", ", labels) + ClassifyTail
  }

  function QuestionPrompt(question: string, context: string): string {
    QuestionLead + context + QuestionAfterContext + question + QuestionTail
  }

  function ExtractionPrompt(text: string, schema: ValidDict<string>, outputFormat: string): string {
    ExtractLead + text + ExtractAfterText + SchemaDescription(schema) + ExtractAfterSchema + outputFormat + ExtractTail
  }

  lemma ClassificationTemplateFormats(labels: seq<string>, text: string, labelType: string)
    ensures Format(DefaultClassificationTemplate, ClassificationValues(labels, text, labelType))
            == Ok(ClassificationPrompt(text, labels, labelType))
  {
    ClassificationTemplateFills(ClassificationValues(labels, text, labelType));
  }

  lemma QuestionTemplateFormats(question: string, context: string)
    ensures Format(DefaultQuestionAnsweringTemplate, QuestionValues(question, context))
            == Ok(QuestionPrompt(question, context))
  {
    QuestionTemplateFills(QuestionValues(question, context));
  }

  lemma ExtractionTemplateFormats(text: string, schema: ValidDict<string>, outputFormat: string)
    ensures Format(DefaultExtractionTemplate, ExtractionValues(schema, outputFormat, text))
            == Ok(ExtractionPrompt(text, schema, outputFormat))
  {
    ExtractionTemplateFills(ExtractionValues(schema, outputFormat, text));
  }

  /**
   * `classify` with the default template sends the written-out classification
   * prompt, labels joined by ", " in declared order, at temperature 0.1, and
   * reads the reply as one label or as a list of declared labels.
   */
  lemma ClassifyDefault(provider: Provider, text: string, labels: seq<string>, labelType: string,
                        model: Option<string>, multiLabel: bool, loads: Loads)
    ensures var reply := Ask(provider, ClassificationPrompt(text, labels, labelType), model, ClassifyTemperature);
            Classify(provider, text, labels, labelType, model, multiLabel, None, loads)
            == if multiLabel then Ok(Labels(MultiLabel(labels, reply, loads))) else Ok(Label(SingleLabel(labels, reply)))
  {
    var task := NewClassification(labels, None, multiLabel);
    var kwargs := map["text" := Some(text), "label_type" := Some(labelType)];
    assert CreatePrompt(task, kwargs) == Ok(ClassificationPrompt(text, labels, labelType)) by {
      assert Binds(kwargs, {"text", "label_type"}, "text");
      assert Show(kwargs["text"]) == text && Show(kwargs["label_type"]) == labelType;
      ClassificationTemplateFormats(labels, text, labelType);
    }
  }

  /** `answer_question` with the default template asks at temperature 0.4, with the stand-in context when none is given, and strips the reply. */
  lemma AnswerQuestionDefault(provider: Provider, question: string, context: Option<string>, model: Option<string>, loads: Loads)
    ensures var reply := Ask(provider, QuestionPrompt(question, ContextOr(context)), model, AnswerTemperature);
            AnswerQuestion(provider, question, context, model, None, loads) == Ok(Answer(Strip(reply)))
  {
    var task := NewQuestionAnswering(None);
    var kwargs := map["question" := Some(question), "context" := context];
    assert CreatePrompt(task, kwargs) == Ok(QuestionPrompt(question, ContextOr(context))) by {
      assert Binds(kwargs, {"question", "context"}, "question");
      assert Show(kwargs["question"]) == question && kwargs["context"] == context;
      QuestionTemplateFormats(question, ContextOr(context));
    }
  }

  /** `extract_info` with the default template asks at temperature 0.0 and parses the reply against the schema. */
  lemma ExtractInfoDefault(provider: Provider, text: string, schema: ValidDict<string>, model: Option<string>,
                           outputFormat: string, loads: Loads)
    ensures var reply := Ask(provider, ExtractionPrompt(text, schema, outputFormat), model, ExtractTemperature);
            var parsed := ParseExtraction(schema, outputFormat, reply, loads);
            ExtractInfo(provider, text, schema, model, outputFormat, None, loads)
            == if parsed.Ok? then Ok(Extracted(parsed.value)) else Err(parsed.error)
  {
    var task := NewExtraction(schema, outputFormat, None);
    var kwargs := map["text" := Some(text)];
    assert CreatePrompt(task, kwargs) == Ok(ExtractionPrompt(text, schema, outputFormat)) by {
      assert Binds(kwargs, {"text"}, "text");
      assert Show(kwargs["text"]) == text;
      ExtractionTemplateFormats(text, schema, outputFormat);
    }
  }

  /** A custom classification template naming a field other than `text`, `labels` and `label_type` fails, whatever the provider. */
  lemma ClassifyUnknownField(provider: Provider, text: string, labels: seq<string>, labelType: string,
                             model: Option<string>, multiLabel: bool, template: string, name: string, loads: Loads)
    requires name in Referenced(template) && name !in {"text", "labels", "label_type"}
    ensures Classify(provider, text, labels, labelType, model, multiLabel, Some(template), loads).Err?
  {
    MissingReferencedFails(template, ClassificationValues(labels, text, labelType), name);
  }

  /**
   * For every task, `run` fails with the argument error exactly when the keyword
   * inputs do not bind to that task's `create_prompt`, and then whatever the provider.
   */
  lemma RunUnboundArguments(provider: Provider, task: Task, kwargs: Kwargs, model: Option<string>, temperature: real, loads: Loads)
    ensures Run(provider, task, kwargs, model, temperature, loads) == Err(ArgumentError)
            <==> !Binds(kwargs, Params(task), Required(task))
  {
    if Binds(kwargs, Params(task), Required(task)) {
      var prompt := CreatePrompt(task, kwargs);
      assert prompt.Err? ==> prompt.error.TemplateError?;
      if prompt.Ok? {
        var reply := Ask(provider, prompt.value, model, temperature);
        var parsed := ParseResponse(task, reply, loads);
        assert parsed.Err? ==> parsed.error == NotAnObject;
      }
    }
  }

  /** A provider with only `complete` never sees the model. */
  lemma CompleterIgnoresModel(complete: (string, real) -> string, task: Task, kwargs: Kwargs,
                              m1: Option<string>, m2: Option<string>, temperature: real, loads: Loads)
    ensures Run(Completer(complete), task, kwargs, m1, temperature, loads)
            == Run(Completer(complete), task, kwargs, m2, temperature, loads)
  {
  }
}
