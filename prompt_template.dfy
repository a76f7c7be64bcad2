/**
 * `PromptTemplate.format(**kwargs)`, that is Python's `str.format` with keyword
 * arguments only, scanned left to right: `{{` and `}}` stand for a literal brace,
 * `{name}` is replaced by the value supplied for `name`; the first problem met
 * stops the scan with the exception Python raises there.
 */
module PromptTemplates {
  import opened Wrappers
  import opened Text

  /** `KeyError(name)`, `IndexError` (a positional field with no positional
      arguments) and `ValueError` (a lone or unclosed brace). */
  datatype FormatError = MissingKey(name: string) | MissingIndex | Malformed

  predicate IsBrace(c: char) { c == '{' || c == '}' }

  /** A text holding no brace: `format` copies it as it is. */
  predicate Plain(s: string) {
    '{' !in s && '}' !in s
  }

  /** The end of a field name that starts at `i`: the next brace, or the end of the text. */
  function NameEnd(t: string, i: nat): (j: nat)
    requires i <= |t|
    ensures i <= j <= |t| && (j < |t| ==> IsBrace(t[j])) && Plain(t[i..j])
    decreases |t| - i
  {
    if i == |t| || IsBrace(t[i]) then i else NameEnd(t, i + 1)
  }

  /** A field name that Python reads as a positional index: empty or all digits. */
  predicate IsPositional(name: string) {
    name == [] || IsDigits(name)
  }

  /** Put `prefix` in front of a successful result. */
  function Prepend(prefix: string, r: Result<string, FormatError>): Result<string, FormatError> {
    if r.Ok? then Ok(prefix + r.value) else r
  }

  /** `template.format(**values)`. */
  function Format(t: string, values: map<string, string>): Result<string, FormatError>
    decreases |t|
  {
    if t == [] then Ok([])
    else if t[0] == '{' && |t| > 1 && t[1] == '{' then Prepend("{", Format(t[2..], values))
    else if t[0] == '{' then
      var j := NameEnd(t, 1);
      if j == |t| || t[j] == '{' then Err(Malformed)
      else if IsPositional(t[1..j]) then Err(MissingIndex)
      else if t[1..j] !in values then Err(MissingKey(t[1..j]))
      else Prepend(values[t[1..j]], Format(t[j + 1..], values))
    else if t[0] == '}' && |t| > 1 && t[1] == '}' then Prepend("}", Format(t[2..], values))
    else if t[0] == '}' then Err(Malformed)
    else Prepend([t[0]], Format(t[1..], values))
  }

  /** The keyword fields the scan reaches, in any order: those before the first malformed brace. */
  function Referenced(t: string): set<string>
    decreases |t|
  {
    if t == [] then {}
    else if t[0] == '{' && |t| > 1 && t[1] == '{' then Referenced(t[2..])
    else if t[0] == '{' then
      var j := NameEnd(t, 1);
      if j == |t| || t[j] == '{' || IsPositional(t[1..j]) then {}
      else {t[1..j]} + Referenced(t[j + 1..])
    else if t[0] == '}' && |t| > 1 && t[1] == '}' then Referenced(t[2..])
    else if t[0] == '}' then {}
    else Referenced(t[1..])
  }

  /** Values not referenced by the template do not matter: two value maps that agree on the referenced names give the same result. */
  lemma {:induction false} FormatOnlyReadsReferenced(t: string, v1: map<string, string>, v2: map<string, string>)
    requires forall n :: n in Referenced(t) ==> (n in v1 <==> n in v2)
    requires forall n :: n in Referenced(t) && n in v1 ==> v1[n] == v2[n]
    ensures Format(t, v1) == Format(t, v2)
    decreases |t|
  {
    if t == [] {
    } else if t[0] == '{' && |t| > 1 && t[1] == '{' {
      FormatOnlyReadsReferenced(t[2..], v1, v2);
    } else if t[0] == '{' {
      var j := NameEnd(t, 1);
      if !(j == |t| || t[j] == '{' || IsPositional(t[1..j])) {
        assert t[1..j] in Referenced(t);
        FormatOnlyReadsReferenced(t[j + 1..], v1, v2);
      }
    } else if t[0] == '}' && |t| > 1 && t[1] == '}' {
      FormatOnlyReadsReferenced(t[2..], v1, v2);
    } else if t[0] != '}' {
      FormatOnlyReadsReferenced(t[1..], v1, v2);
    }
  }

  /** A referenced name that is not supplied makes `format` fail. */
  lemma {:induction false} MissingReferencedFails(t: string, values: map<string, string>, n: string)
    requires n in Referenced(t) && n !in values
    ensures Format(t, values).Err?
    decreases |t|
  {
    if t[0] == '{' && |t| > 1 && t[1] == '{' {
      MissingReferencedFails(t[2..], values, n);
    } else if t[0] == '{' {
      var j := NameEnd(t, 1);
      if t[1..j] != n && t[1..j] in values {
        MissingReferencedFails(t[j + 1..], values, n);
      }
    } else if t[0] == '}' && |t| > 1 && t[1] == '}' {
      MissingReferencedFails(t[2..], values, n);
    } else if t[0] != '}' {
      MissingReferencedFails(t[1..], values, n);
    }
  }

  /** A `KeyError` names a referenced field that was not supplied. */
  lemma {:induction false} KeyErrorIsReferenced(t: string, values: map<string, string>)
    requires Format(t, values).Err? && Format(t, values).error.MissingKey?
    ensures Format(t, values).error.name in Referenced(t)
    ensures Format(t, values).error.name !in values
    decreases |t|
  {
    if t[0] == '{' && |t| > 1 && t[1] == '{' {
      KeyErrorIsReferenced(t[2..], values);
    } else if t[0] == '{' {
      var j := NameEnd(t, 1);
      if !(j == |t| || t[j] == '{' || IsPositional(t[1..j])) && t[1..j] in values {
        KeyErrorIsReferenced(t[j + 1..], values);
      }
    } else if t[0] == '}' && |t| > 1 && t[1] == '}' {
      KeyErrorIsReferenced(t[2..], values);
    } else if t[0] != '}' {
      KeyErrorIsReferenced(t[1..], values);
    }
  }

  /** A text without braces is copied unchanged, whatever the values. */
  lemma {:induction false} FormatPlain(t: string, values: map<string, string>)
    requires Plain(t)
    ensures Format(t, values) == Ok(t)
    decreases |t|
  {
    if t != [] {
      assert !IsBrace(t[0]);
      assert t == [t[0]] + t[1..];
      FormatPlain(t[1..], values);
      assert [t[0]] + t[1..] == t;
    }
  }

  /** A brace-free lead is copied in front of whatever the rest formats to. */
  lemma {:induction false} FormatPlainThen(lead: string, rest: string, values: map<string, string>)
    requires Plain(lead)
    ensures Format(lead + rest, values) == Prepend(lead, Format(rest, values))
    decreases |lead|
  {
    if lead != [] {
      assert lead == [lead[0]] + lead[1..];
      assert lead + rest == [lead[0]] + (lead[1..] + rest);
      FormatPlainThen(lead[1..], rest, values);
      FormatOrdinaryChar(lead[0], lead[1..] + rest, values);
      var r := Format(rest, values);
      if r.Ok? {
        assert [lead[0]] + (lead[1..] + r.value) == lead + r.value;
      }
    } else {
      assert lead + rest == rest;
      var r := Format(rest, values);
      if r.Ok? {
        assert lead + r.value == r.value;
      }
    }
  }

  /** A character other than a brace is copied. */
  lemma FormatOrdinaryChar(c: char, rest: string, values: map<string, string>)
    requires !IsBrace(c)
    ensures Format([c] + rest, values) == Prepend([c], Format(rest, values))
  {
    assert ([c] + rest)[1..] == rest;
  }

  /** A keyword field at the front is replaced by its value, or fails with `KeyError`. */
  lemma FormatFieldThen(name: string, rest: string, values: map<string, string>)
    requires Plain(name) && !IsPositional(name)
    ensures Format("{" + name + "}" + rest, values)
            == if name in values then Prepend(values[name], Format(rest, values)) else Err(MissingKey(name))
  {
    var t := "{" + name + "}" + rest;
    assert t[1..1 + |name|] == name;
    assert t[1 + |name|] == '}';
    NameEndAt(t, 1, 1 + |name|);
    assert t[2 + |name|..] == rest;
  }

  /** The field name ends at the first brace. */
  lemma {:induction false} NameEndAt(t: string, i: nat, k: nat)
    requires i <= k < |t| && Plain(t[i..k]) && IsBrace(t[k])
    ensures NameEnd(t, i) == k
    decreases k - i
  {
    if i < k {
      assert t[i] == t[i..k][0];
      assert t[i + 1..k] == t[i..k][1..];
      NameEndAt(t, i + 1, k);
    }
  }
  /** The template text of a field. */
  function Placeholder(name: string): string {
    "{" + name + "}"
  }

  /** Brace-free text followed by a supplied field formats to the text and the field's value, then the rest. */
  lemma FormatLeadField(lead: string, name: string, rest: string, values: map<string, string>)
    requires Plain(lead) && Plain(name) && !IsPositional(name) && name in values
    ensures Format(lead + Placeholder(name) + rest, values) == Prepend(lead + values[name], Format(rest, values))
  {
    assert lead + Placeholder(name) + rest == lead + ("{" + name + "}" + rest);
    FormatPlainThen(lead, "{" + name + "}" + rest, values);
    FormatFieldThen(name, rest, values);
    var r := Format(rest, values);
    if r.Ok? {
      assert lead + (values[name] + r.value) == lead + values[name] + r.value;
    }
  }

  /** A field name that `str.format` looks up by keyword, and that the values supply. */
  predicate Supplied(name: string, values: map<string, string>) {
    Plain(name) && !IsPositional(name) && name in values
  }

  /** A template of brace-free text around two supplied keyword fields formats to the text with both values in place. */
  lemma FormatTwoFields(l1: string, n1: string, l2: string, n2: string, tail: string, values: map<string, string>)
    requires Plain(l1) && Plain(l2) && Plain(tail) && Supplied(n1, values) && Supplied(n2, values)
    ensures Format(l1 + Placeholder(n1) + (l2 + Placeholder(n2) + tail), values)
            == Ok(l1 + values[n1] + l2 + values[n2] + tail)
  {
    var r2 := l2 + Placeholder(n2) + tail;
    var v2 := l2 + values[n2] + tail;
    assert Format(r2, values) == Ok(v2) by {
      FormatPlain(tail, values);
      FormatLeadFieldOk(l2, n2, tail, tail, values);
    }
    assert Format(l1 + Placeholder(n1) + r2, values) == Ok(l1 + values[n1] + v2) by {
      FormatLeadFieldOk(l1, n1, r2, v2, values);
    }
    assert l1 + values[n1] + v2 == l1 + values[n1] + l2 + values[n2] + tail by {
      ConcatAssoc(l1 + values[n1], l2 + values[n2], tail);
      ConcatAssoc(l1 + values[n1], l2, values[n2]);
    }
  }

  /** The same with three supplied keyword fields. */
  lemma FormatThreeFields(l1: string, n1: string, l2: string, n2: string, l3: string, n3: string, tail: string,
                          values: map<string, string>)
    requires Plain(l1) && Plain(l2) && Plain(l3) && Plain(tail)
    requires Supplied(n1, values) && Supplied(n2, values) && Supplied(n3, values)
    ensures Format(l1 + Placeholder(n1) + (l2 + Placeholder(n2) + (l3 + Placeholder(n3) + tail)), values)
            == Ok(l1 + values[n1] + l2 + values[n2] + l3 + values[n3] + tail)
  {
    var r2 := l2 + Placeholder(n2) + (l3 + Placeholder(n3) + tail);
    var v2 := l2 + values[n2] + l3 + values[n3] + tail;
    assert Format(r2, values) == Ok(v2) by {
      FormatTwoFields(l2, n2, l3, n3, tail, values);
    }
    assert Format(l1 + Placeholder(n1) + r2, values) == Ok(l1 + values[n1] + v2) by {
      FormatLeadFieldOk(l1, n1, r2, v2, values);
    }
    assert l1 + values[n1] + v2 == l1 + values[n1] + l2 + values[n2] + l3 + values[n3] + tail by {
      var a := l1 + values[n1];
      ConcatAssoc(a, l2 + values[n2] + l3 + values[n3], tail);
      ConcatAssoc(a, l2 + values[n2] + l3, values[n3]);
      ConcatAssoc(a, l2 + values[n2], l3);
      ConcatAssoc(a, l2, values[n2]);
    }
  }

  lemma ConcatAssoc(a: string, b: string, c: string)
    ensures a + (b + c) == a + b + c
  {
  }

  /** FormatLeadField when the rest formats successfully. */
  lemma FormatLeadFieldOk(lead: string, name: string, rest: string, r: string, values: map<string, string>)
    requires Plain(lead) && Supplied(name, values) && Format(rest, values) == Ok(r)
    ensures Format(lead + Placeholder(name) + rest, values) == Ok(lead + values[name] + r)
  {
    FormatLeadField(lead, name, rest, values);
  }

  /** The fields referenced by brace-free text, a field, then the rest. */
  lemma ReferencedLeadField(lead: string, name: string, rest: string)
    requires Plain(lead) && Plain(name) && !IsPositional(name)
    ensures Referenced(lead + Placeholder(name) + rest) == {name} + Referenced(rest)
  {
    var t := "{" + name + "}" + rest;
    assert lead + Placeholder(name) + rest == lead + t;
    ReferencedPlainThen(lead, t);
    assert t[1..1 + |name|] == name;
    assert t[1 + |name|] == '}';
    NameEndAt(t, 1, 1 + |name|);
    assert t[2 + |name|..] == rest;
  }

  /** Brace-free text references nothing. */
  lemma ReferencedPlain(t: string)
    requires Plain(t)
    ensures Referenced(t) == {}
  {
    ReferencedPlainThen(t, "");
    assert t + "" == t;
  }

  /** A template seen as its pieces: brace-free literal text and keyword fields. */
  datatype Segment = Literal(text: string) | Field(name: string)

  predicate WellFormedSegment(g: Segment) {
    match g
    case Literal(text) => Plain(text)
    case Field(name) => Plain(name) && !IsPositional(name)
  }

  /** The template text of a list of segments. */
  function Unparse(segs: seq<Segment>): string {
    if segs == [] then ""
    else (match segs[0] case Literal(text) => text case Field(name) => "{" + name + "}") + Unparse(segs[1..])
  }

  /** The names of the fields among the segments. */
  function FieldNames(segs: seq<Segment>): set<string> {
    if segs == [] then {}
    else (match segs[0] case Literal(_) => {} case Field(name) => {name}) + FieldNames(segs[1..])
  }

  /** The text obtained by putting each field's value in its place. */
  function Substitute(segs: seq<Segment>, values: map<string, string>): string
    requires FieldNames(segs) <= values.Keys
  {
    if segs == [] then ""
    else (match segs[0] case Literal(text) => text case Field(name) => values[name]) + Substitute(segs[1..], values)
  }

  /** Formatting a well-formed template whose every field is supplied succeeds with each field replaced by its value. */
  lemma {:induction false} FormatSegments(segs: seq<Segment>, values: map<string, string>)
    requires forall k :: 0 <= k < |segs| ==> WellFormedSegment(segs[k])
    requires FieldNames(segs) <= values.Keys
    ensures Format(Unparse(segs), values) == Ok(Substitute(segs, values))
  {
    if segs != [] {
      FormatSegments(segs[1..], values);
      match segs[0]
      case Literal(text) =>
        FormatPlainThen(text, Unparse(segs[1..]), values);
      case Field(name) =>
        FormatFieldThen(name, Unparse(segs[1..]), values);
    }
  }

  /** The fields the scan of a well-formed template reaches are exactly its segments' fields. */
  lemma {:induction false} ReferencedSegments(segs: seq<Segment>)
    requires forall k :: 0 <= k < |segs| ==> WellFormedSegment(segs[k])
    ensures Referenced(Unparse(segs)) == FieldNames(segs)
  {
    if segs != [] {
      ReferencedSegments(segs[1..]);
      var rest := Unparse(segs[1..]);
      match segs[0]
      case Literal(text) =>
        ReferencedPlainThen(text, rest);
      case Field(name) =>
        var t := "{" + name + "}" + rest;
        assert t[1..1 + |name|] == name;
        assert t[1 + |name|] == '}';
        NameEndAt(t, 1, 1 + |name|);
        assert t[2 + |name|..] == rest;
    }
  }

  /** A brace-free lead references nothing. */
  lemma {:induction false} ReferencedPlainThen(lead: string, rest: string)
    requires Plain(lead)
    ensures Referenced(lead + rest) == Referenced(rest)
    decreases |lead|
  {
    if lead != [] {
      assert (lead + rest)[0] == lead[0] && !IsBrace(lead[0]);
      assert lead == [lead[0]] + lead[1..];
      assert (lead + rest)[1..] == lead[1..] + rest;
      ReferencedPlainThen(lead[1..], rest);
    } else {
      assert lead + rest == rest;
    }
  }
}
