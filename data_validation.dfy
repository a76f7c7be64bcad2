/**
 * `validate_metadata`: decode a question's metadata text and clamp its
 * `difficulty` into [0, 10]. Decoding is the foreign `json.loads`, given as a
 * function; a `TypeError` raised by the `in` test or by the lookup on a value
 * that is not a dictionary is caught like a decode error.
 */
module DataValidation {
  import opened Wrappers
  import opened Text
  import opened Dicts
  import opened Json

  const DifficultyKey: string := "difficulty"

  /**
   * Python's `key in v` for a string `key`: a key test on a dictionary, a
   * substring test on a string, an element test on a list, and a `TypeError`
   * (`None`) on anything else.
   */
  function InOperator(key: string, v: Json): (r: Option<bool>)
    ensures r.None? <==> !(v.JObj? || v.JStr? || v.JArr?)
    ensures v.JObj? ==> r == Some(key in v.fields.entries)
  {
    match v
    case JObj(fields) => Some(key in fields.entries)
    case JStr(s) => Some(Contains(s, key))
    case JArr(items) => Some(JStr(key) in items)
    case _ => None
  }

  /** `max(0, min(10, x))`. */
  function Clamp(x: real): (r: real)
    ensures 0.0 <= r <= 10.0
    ensures 0.0 <= x <= 10.0 ==> r == x
    ensures x < 0.0 ==> r == 0.0
    ensures x > 10.0 ==> r == 10.0
  {
    var upper := if x < 10.0 then x else 10.0;
    if upper > 0.0 then upper else 0.0
  }

  /** A difficulty as the validator lets it through: a number in [0, 10]. */
  predicate ValidDifficulty(d: Json) {
    IsNumber(d) && 0.0 <= NumberValue(d) <= 10.0
  }

  /** `g` has the keys of `f`, in the same order, and agrees with it on every key but `difficulty`. */
  predicate SameElsewhere(f: Dict<Json>, g: Dict<Json>) {
    && g.keys == f.keys
    && g.entries.Keys == f.entries.Keys
    && forall k :: k in f.entries && k != DifficultyKey ==> g.entries[k] == f.entries[k]
  }

  /**
   * The checks after decoding. A dictionary without `difficulty` comes back as
   * parsed; with a non-numeric one it is rejected; with a numeric one the value
   * is clamped into [0, 10], other keys untouched, and an in-range value is
   * kept as it is (a `bool` counts as a number). A string or list passes the
   * `in` test and comes back as parsed unless it holds "difficulty", whose
   * lookup then raises; any other value raises at the `in` test.
   */
  function CheckDifficulty(v: Json): (r: Option<Json>)
    ensures v.JObj? && DifficultyKey !in v.fields.entries ==> r == Some(v)
    ensures v.JObj? && DifficultyKey in v.fields.entries && !IsNumber(v.fields.entries[DifficultyKey]) ==> r.None?
    ensures v.JObj? && DifficultyKey in v.fields.entries && IsNumber(v.fields.entries[DifficultyKey]) ==>
              r.Some? && r.value.JObj? && SameElsewhere(v.fields, r.value.fields)
              && DifficultyKey in r.value.fields.entries && ValidDifficulty(r.value.fields.entries[DifficultyKey])
    ensures v.JObj? && DifficultyKey in v.fields.entries && ValidDifficulty(v.fields.entries[DifficultyKey]) ==> r == Some(v)
    ensures v.JObj? && DifficultyKey in v.fields.entries && IsNumber(v.fields.entries[DifficultyKey]) && NumberValue(v.fields.entries[DifficultyKey]) < 0.0 ==>
              r.Some? && r.value.JObj? && DifficultyKey in r.value.fields.entries
              && r.value.fields.entries[DifficultyKey] == JNum(0.0)
    ensures v.JObj? && DifficultyKey in v.fields.entries && IsNumber(v.fields.entries[DifficultyKey]) && NumberValue(v.fields.entries[DifficultyKey]) > 10.0 ==>
              r.Some? && r.value.JObj? && DifficultyKey in r.value.fields.entries
              && r.value.fields.entries[DifficultyKey] == JNum(10.0)
    ensures !v.JObj? ==> (r.Some? <==> InOperator(DifficultyKey, v) == Some(false))
    ensures !v.JObj? && r.Some? ==> r == Some(v)
  {
    match InOperator(DifficultyKey, v)
    case None => None
    case Some(present) =>
      if !present then Some(v)
      else if !v.JObj? then None
      else
        var difficulty := v.fields.entries[DifficultyKey];
        if !IsNumber(difficulty) then None
        else if NumberValue(difficulty) < 0.0 || NumberValue(difficulty) > 10.0 then
          Some(JObj(v.fields.Put(DifficultyKey, JNum(Clamp(NumberValue(difficulty))))))
        else Some(v)
  }

  /**
   * `validate_metadata`: falsy text and text that does not decode give `None`;
   * otherwise the decoded value after `CheckDifficulty`. Whatever comes back
   * is the decoded value with at most its `difficulty` changed, and when the
   * `in` test finds `difficulty` in it, it is a dictionary whose difficulty is
   * a number in [0, 10].
   */
  function ValidateMetadata(metadata: Option<string>, loads: Loads): (r: Option<Json>)
    ensures metadata.None? || metadata == Some("") ==> r.None?
    ensures metadata.Some? && loads(metadata.value).None? ==> r.None?
    ensures r.Some? ==> metadata.Some? && metadata.value != "" && loads(metadata.value).Some?
    ensures r.Some? && r.value.JObj? ==>
              loads(metadata.value).value.JObj? && SameElsewhere(loads(metadata.value).value.fields, r.value.fields)
    ensures r.Some? && !r.value.JObj? ==> r == loads(metadata.value)
    ensures r.Some? ==> InOperator(DifficultyKey, r.value).Some?
    ensures r.Some? && InOperator(DifficultyKey, r.value) == Some(true) ==>
              r.value.JObj? && DifficultyKey in r.value.fields.entries && ValidDifficulty(r.value.fields.entries[DifficultyKey])
  {
    if metadata.None? || metadata.value == "" then None
    else
      match loads(metadata.value)
      case None => None
      case Some(v) => CheckDifficulty(v)
  }
}
