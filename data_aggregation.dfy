/**
 * The weekly aggregations over the `questions` table: questions grouped by
 * their "week-year" key, and the average validated difficulty per week. The
 * query's rows are given in cursor order, each with the ISO week number and
 * year of its timestamp as fields.
 */
module DataAggregation {
  import opened Wrappers
  import opened Text
  import opened Dicts
  import opened Json
  import opened DataValidation

  /** A row of `SELECT id, question, timestamp, model_name, metadata`, with its week and year. */
  datatype QuestionRow = QuestionRow(
    id: int, question: string, timestamp: Option<string>, modelName: string, metadata: Option<string>,
    week: nat, year: nat)

  /** A row of `SELECT timestamp, metadata ... WHERE metadata IS NOT NULL`, with its week and year. */
  datatype MetadataRow = MetadataRow(timestamp: Option<string>, metadata: string, week: nat, year: nat)

  /** `f"{week_number}-{year}"`: splitting it on '-' gives back the two numerals. */
  function WeekKey(week: nat, year: nat): (key: string)
    ensures Split(key, '-') == [NatToString(week), NatToString(year)]
  {
    var w := NatToString(week);
    var y := NatToString(year);
    assert '-' !in w && '-' !in y by {
      NatToStringDigits(week);
      NatToStringDigits(year);
      assert !IsDigit('-');
    }
    SplitAtFirst(w, '-', y);
    SplitWithout(y, '-');
    w + "-" + y
  }

  /** Distinct weeks have distinct keys. */
  lemma WeekKeyInjective(w1: nat, y1: nat, w2: nat, y2: nat)
    requires WeekKey(w1, y1) == WeekKey(w2, y2)
    ensures w1 == w2 && y1 == y2
  {
    assert Split(WeekKey(w1, y1), '-') == Split(WeekKey(w2, y2), '-');
    NatToStringInjective(w1, w2);
    NatToStringInjective(y1, y2);
  }

  function KeyOf(row: QuestionRow): string {
    WeekKey(row.week, row.year)
  }

  // ---------------------------------------------------------------------------
  // get_questions_by_week
  // ---------------------------------------------------------------------------

  /** The rows of week `key`, in cursor order. */
  function OfWeek(rows: seq<QuestionRow>, key: string): (r: seq<QuestionRow>)
    ensures forall x :: x in r <==> x in rows && KeyOf(x) == key
    ensures |r| <= |rows|
  {
    if rows == [] then []
    else
      var last := rows[|rows| - 1];
      assert rows == rows[..|rows| - 1] + [last];
      OfWeek(rows[..|rows| - 1], key) + (if KeyOf(last) == key then [last] else [])
  }

  /** `row` appended to its week's bucket, which starts empty when new. */
  function Filed(d: Dict<seq<QuestionRow>>, row: QuestionRow): Dict<seq<QuestionRow>> {
    var key := KeyOf(row);
    d.Put(key, (if key in d.entries then d.entries[key] else []) + [row])
  }

  /** The buckets after the rows have been filed one by one, new keys in order of first appearance. */
  function Bucketed(rows: seq<QuestionRow>): Dict<seq<QuestionRow>> {
    if rows == [] then Empty() else Filed(Bucketed(rows[..|rows| - 1]), rows[|rows| - 1])
  }

  lemma BucketedStep(rows: seq<QuestionRow>, i: nat)
    requires i < |rows|
    ensures Bucketed(rows[..i + 1]) == Filed(Bucketed(rows[..i]), rows[i])
  {
    assert rows[..i + 1][..i] == rows[..i];
  }

  /** The buckets form a well-formed dictionary. */
  lemma {:induction false} BucketedValid(rows: seq<QuestionRow>)
    ensures Bucketed(rows).Valid()
  {
    if rows != [] {
      BucketedValid(rows[..|rows| - 1]);
    }
  }

  /** The body of the loop: create the row's bucket if its week is new, then append the row to it. */
  method FileRow(byWeek: Dict<seq<QuestionRow>>, row: QuestionRow) returns (byWeek': Dict<seq<QuestionRow>>)
    ensures byWeek' == Filed(byWeek, row)
  {
    var key := WeekKey(row.week, row.year);
    CreateThenAppend(byWeek, key, row);
    byWeek' := byWeek;
    if key !in byWeek'.entries {
      byWeek' := byWeek'.Put(key, []);
    }
    byWeek' := byWeek'.Put(key, byWeek'.entries[key] + [row]);
  }

  /** `get_questions_by_week`: every row filed into its week's bucket, in cursor order. */
  method QuestionsByWeek(rows: seq<QuestionRow>) returns (byWeek: Dict<seq<QuestionRow>>)
    ensures byWeek == Bucketed(rows)
  {
    byWeek := Empty();
    var i := 0;
    while i < |rows|
      invariant 0 <= i <= |rows|
      invariant byWeek == Bucketed(rows[..i])
    {
      BucketedStep(rows, i);
      byWeek := FileRow(byWeek, rows[i]);
      i := i + 1;
    }
    assert rows[..|rows|] == rows;
  }

  /**
   * The buckets are exactly the weeks that occur, and each holds precisely
   * the rows of its week in cursor order; so no bucket is empty and every row
   * is in the bucket of its own week and in no other.
   */
  lemma {:induction false} BucketedByWeek(rows: seq<QuestionRow>)
    ensures forall key :: key in Bucketed(rows).entries <==> OfWeek(rows, key) != []
    ensures forall key :: key in Bucketed(rows).entries ==> Bucketed(rows).entries[key] == OfWeek(rows, key)
  {
    if rows != [] {
      var init := rows[..|rows| - 1];
      var row := rows[|rows| - 1];
      BucketedByWeek(init);
      forall key
        ensures key in Bucketed(rows).entries <==> OfWeek(rows, key) != []
        ensures key in Bucketed(rows).entries ==> Bucketed(rows).entries[key] == OfWeek(rows, key)
      {
        assert OfWeek(rows, key) == OfWeek(init, key) + (if KeyOf(row) == key then [row] else []);
      }
    }
  }

  /** The distinct elements of `ks`, in order of first occurrence. */
  function FirstSeen(ks: seq<string>): (r: seq<string>)
    ensures forall k :: k in r <==> k in ks
    ensures Distinct(r)
  {
    if ks == [] then []
    else
      var seen := FirstSeen(ks[..|ks| - 1]);
      var k := ks[|ks| - 1];
      assert ks == ks[..|ks| - 1] + [k];
      if k in seen then seen else seen + [k]
  }

  /** The week key of each row, in cursor order. */
  function Weeks(rows: seq<QuestionRow>): seq<string> {
    if rows == [] then [] else Weeks(rows[..|rows| - 1]) + [KeyOf(rows[|rows| - 1])]
  }

  /** The buckets come in the order in which their weeks first occur among the rows. */
  lemma {:induction false} BucketedFirstSeen(rows: seq<QuestionRow>)
    ensures Bucketed(rows).keys == FirstSeen(Weeks(rows))
  {
    if rows != [] {
      var init := rows[..|rows| - 1];
      BucketedFirstSeen(init);
      BucketedValid(init);
      var ws := Weeks(rows);
      assert ws[..|ws| - 1] == Weeks(init);
    }
  }

  /** The rows of a bucket all have its key, and a row's own week holds it. */
  lemma BucketMembership(rows: seq<QuestionRow>, i: int, key: string)
    requires 0 <= i < |rows|
    ensures KeyOf(rows[i]) in Bucketed(rows).entries
    ensures rows[i] in Bucketed(rows).entries[KeyOf(rows[i])]
    ensures key in Bucketed(rows).entries && rows[i] in Bucketed(rows).entries[key] ==> key == KeyOf(rows[i])
  {
    BucketedByWeek(rows);
    assert rows[i] in OfWeek(rows, KeyOf(rows[i]));
  }

  /** The sizes of the buckets named by `keys`, added up (a missing one counts as empty). */
  function TotalSize(keys: seq<string>, entries: map<string, seq<QuestionRow>>): nat {
    if keys == [] then 0
    else
      var key := keys[|keys| - 1];
      TotalSize(keys[..|keys| - 1], entries) + (if key in entries then |entries[key]| else 0)
  }

  lemma {:induction false} TotalSizeFrame(keys: seq<string>, entries: map<string, seq<QuestionRow>>, k: string, v: seq<QuestionRow>)
    requires forall i :: 0 <= i < |keys| ==> keys[i] in entries
    requires k !in keys
    ensures TotalSize(keys, entries[k := v]) == TotalSize(keys, entries)
  {
    if keys != [] {
      TotalSizeFrame(keys[..|keys| - 1], entries, k, v);
    }
  }

  lemma {:induction false} TotalSizeUpdate(keys: seq<string>, entries: map<string, seq<QuestionRow>>, k: string, v: seq<QuestionRow>)
    requires forall i :: 0 <= i < |keys| ==> keys[i] in entries
    requires Distinct(keys) && k in keys
    ensures TotalSize(keys, entries[k := v]) + |entries[k]| == TotalSize(keys, entries) + |v|
  {
    var init := keys[..|keys| - 1];
    assert Distinct(init);
    if keys[|keys| - 1] == k {
      assert k !in init;
      TotalSizeFrame(init, entries, k, v);
    } else {
      assert k in init;
      TotalSizeUpdate(init, entries, k, v);
    }
  }

  /** The bucket sizes add up to the number of rows. */
  lemma {:induction false} BucketSizesSum(rows: seq<QuestionRow>)
    ensures TotalSize(Bucketed(rows).keys, Bucketed(rows).entries) == |rows|
  {
    if rows != [] {
      var init := rows[..|rows| - 1];
      var d := Bucketed(init);
      var row := rows[|rows| - 1];
      var key := KeyOf(row);
      BucketSizesSum(init);
      BucketedValid(init);
      var d2 := Bucketed(rows);
      assert d2 == d.Put(key, (if key in d.entries then d.entries[key] else []) + [row]);
      if key in d.entries {
        assert d2.keys == d.keys && d2.entries == d.entries[key := d.entries[key] + [row]];
        TotalSizeUpdate(d.keys, d.entries, key, d.entries[key] + [row]);
      } else {
        assert [] + [row] == [row];
        assert d2.keys == d.keys + [key] && d2.entries == d.entries[key := [row]];
        TotalSizeFrame(d.keys, d.entries, key, [row]);
        assert (d.keys + [key])[..|d.keys|] == d.keys;
        assert TotalSize(d2.keys, d2.entries) == TotalSize(d.keys, d2.entries) + 1;
      }
    }
  }

  // ---------------------------------------------------------------------------
  // get_difficulty_by_week
  // ---------------------------------------------------------------------------

  /**
   * The difficulty a row contributes: present exactly when its validated
   * metadata is a dictionary holding `difficulty`, and then in [0, 10].
   */
  function Difficulty(row: MetadataRow, loads: Loads): (d: Option<real>)
    ensures d.Some? ==> 0.0 <= d.value <= 10.0
    ensures d.Some? <==> var md := ValidateMetadata(Some(row.metadata), loads);
                         md.Some? && md.value.JObj? && DifficultyKey in md.value.fields.entries
  {
    var md := ValidateMetadata(Some(row.metadata), loads);
    if md.Some? && Truthy(md.value) && InOperator(DifficultyKey, md.value) == Some(true) then
      Some(NumberValue(md.value.fields.entries[DifficultyKey]))
    else None
  }

  function RowKey(row: MetadataRow): string {
    WeekKey(row.week, row.year)
  }

  /** The difficulties the rows of week `key` contribute, in cursor order. */
  function ScoresOfWeek(rows: seq<MetadataRow>, key: string, loads: Loads): (r: seq<real>)
    ensures forall i :: 0 <= i < |r| ==> 0.0 <= r[i] <= 10.0
  {
    if rows == [] then []
    else
      var last := rows[|rows| - 1];
      var d := Difficulty(last, loads);
      ScoresOfWeek(rows[..|rows| - 1], key, loads) + (if d.Some? && RowKey(last) == key then [d.value] else [])
  }

  /** `sum(s)`. */
  function Total(s: seq<real>): real {
    if s == [] then 0.0 else Total(s[..|s| - 1]) + s[|s| - 1]
  }

  /**
   * A week's entries of `difficulty_by_week` and `count_by_week`. The two
   * dictionaries are always written together, for the same key and in the
   * same order, so the model keeps them as one dictionary of pairs.
   */
  datatype Week = Week(sum: real, count: nat)

  /** `difficulty` added to week `key`, which starts at zero sum and zero count when new. */
  function Added(t: Dict<Week>, key: string, difficulty: real): Dict<Week> {
    var w := if key in t.entries then t.entries[key] else Week(0.0, 0);
    t.Put(key, Week(w.sum + difficulty, w.count + 1))
  }

  /** One row added to the tally: only a contributing row changes it. */
  function Counted(t: Dict<Week>, row: MetadataRow, loads: Loads): Dict<Week> {
    match Difficulty(row, loads)
    case None => t
    case Some(d) => Added(t, RowKey(row), d)
  }

  /** The tally after the rows have been added one by one. */
  function Tallied(rows: seq<MetadataRow>, loads: Loads): Dict<Week> {
    if rows == [] then Empty() else Counted(Tallied(rows[..|rows| - 1], loads), rows[|rows| - 1], loads)
  }

  lemma TalliedStep(rows: seq<MetadataRow>, i: nat, loads: Loads)
    requires i < |rows|
    ensures Tallied(rows[..i + 1], loads) == Counted(Tallied(rows[..i], loads), rows[i], loads)
  {
    assert rows[..i + 1][..i] == rows[..i];
  }

  /** The tally is a well-formed dictionary. */
  lemma {:induction false} TalliedValid(rows: seq<MetadataRow>, loads: Loads)
    ensures Tallied(rows, loads).Valid()
  {
    if rows != [] {
      TalliedValid(rows[..|rows| - 1], loads);
    }
  }

  /**
   * The tallied weeks are those with a contributing row, each with the sum
   * and the number of its difficulties.
   */
  lemma {:induction false} TalliedByWeek(rows: seq<MetadataRow>, loads: Loads)
    ensures forall key :: key in Tallied(rows, loads).entries <==> ScoresOfWeek(rows, key, loads) != []
    ensures forall key :: key in Tallied(rows, loads).entries ==>
              var s := ScoresOfWeek(rows, key, loads);
              Tallied(rows, loads).entries[key] == Week(Total(s), |s|)
  {
    if rows != [] {
      var init := rows[..|rows| - 1];
      var row := rows[|rows| - 1];
      TalliedByWeek(init, loads);
      forall key
        ensures key in Tallied(rows, loads).entries <==> ScoresOfWeek(rows, key, loads) != []
        ensures key in Tallied(rows, loads).entries ==>
                  var s := ScoresOfWeek(rows, key, loads);
                  Tallied(rows, loads).entries[key] == Week(Total(s), |s|)
      {
        var s := ScoresOfWeek(init, key, loads);
        var d := Difficulty(row, loads);
        if d.Some? && RowKey(row) == key {
          assert ScoresOfWeek(rows, key, loads) == s + [d.value];
          assert (s + [d.value])[..|s|] == s;
        } else {
          assert ScoresOfWeek(rows, key, loads) == s;
        }
      }
    }
  }

  /** The week key of each contributing row, in cursor order. */
  function ContributingWeeks(rows: seq<MetadataRow>, loads: Loads): seq<string> {
    if rows == [] then []
    else
      var last := rows[|rows| - 1];
      ContributingWeeks(rows[..|rows| - 1], loads) + (if Difficulty(last, loads).Some? then [RowKey(last)] else [])
  }

  /** The tallied weeks come in the order in which their first contributing row occurs. */
  lemma {:induction false} TalliedFirstSeen(rows: seq<MetadataRow>, loads: Loads)
    ensures Tallied(rows, loads).keys == FirstSeen(ContributingWeeks(rows, loads))
  {
    if rows != [] {
      var init := rows[..|rows| - 1];
      var last := rows[|rows| - 1];
      TalliedFirstSeen(init, loads);
      TalliedValid(init, loads);
      var ws := ContributingWeeks(rows, loads);
      if Difficulty(last, loads).Some? {
        assert ws == ContributingWeeks(init, loads) + [RowKey(last)];
        assert ws[..|ws| - 1] == ContributingWeeks(init, loads);
      } else {
        assert ws == ContributingWeeks(init, loads);
      }
    }
  }

  /** Every count is at least one: the number of contributing rows of its week. */
  lemma CountsPositive(rows: seq<MetadataRow>, loads: Loads)
    ensures forall key :: key in Tallied(rows, loads).entries ==>
              Tallied(rows, loads).entries[key].count == |ScoresOfWeek(rows, key, loads)| >= 1
  {
    TalliedByWeek(rows, loads);
  }

  /** `round(x, 2)` on an exact value: the nearest multiple of 0.01, a tie going to the even hundredth. */
  function Round2(x: real): (r: real)
    ensures x - 0.005 <= r <= x + 0.005
    ensures 0.0 <= x <= 10.0 ==> 0.0 <= r <= 10.0
  {
    var y := x * 100.0;
    var f := y.Floor;
    var frac := y - f as real;
    var n := if frac < 0.5 then f else if frac > 0.5 then f + 1 else if f % 2 == 0 then f else f + 1;
    n as real / 100.0
  }

  /** A tie between two hundredths is broken towards the even one. */
  lemma Round2TiesToEven(n: int)
    ensures Round2((2 * n) as real / 100.0 + 0.005) == (2 * n) as real / 100.0
    ensures Round2((2 * n + 1) as real / 100.0 + 0.005) == (2 * n + 2) as real / 100.0
  {
    var a := (2 * n) as real / 100.0 + 0.005;
    assert a * 100.0 == (2 * n) as real + 0.5;
    assert (a * 100.0).Floor == 2 * n;
    var b := (2 * n + 1) as real / 100.0 + 0.005;
    assert b * 100.0 == (2 * n + 1) as real + 0.5;
    assert (b * 100.0).Floor == 2 * n + 1;
  }

  /** The average of `count` values in [0, 10] is in [0, 10]. */
  lemma AverageInRange(sum: real, count: nat)
    requires count > 0 && 0.0 <= sum <= 10.0 * count as real
    ensures 0.0 <= sum / count as real <= 10.0
  {
    var c := count as real;
    assert sum / c * c == sum;
  }

  lemma {:induction false} TotalInRange(s: seq<real>)
    requires forall i :: 0 <= i < |s| ==> 0.0 <= s[i] <= 10.0
    ensures 0.0 <= Total(s) <= 10.0 * |s| as real
  {
    if s != [] {
      TotalInRange(s[..|s| - 1]);
    }
  }


  /** A week's mean difficulty rounded to two places. */
  function Mean(week: Week): real
    requires week.count > 0
  {
    Round2(week.sum / week.count as real)
  }

  /** One step of the averaging loop: a week with a positive count gets its mean. */
  function WithMean(avg: Dict<real>, key: string, week: Week): Dict<real> {
    if week.count > 0 then avg.Put(key, Mean(week)) else avg
  }

  /** The averages of the tallied weeks named by `keys`, in that order, skipping a zero count. */
  function Averaged(keys: seq<string>, t: Dict<Week>): Dict<real>
    requires forall i :: 0 <= i < |keys| ==> keys[i] in t.entries
  {
    if keys == [] then Empty()
    else WithMean(Averaged(keys[..|keys| - 1], t), keys[|keys| - 1], t.entries[keys[|keys| - 1]])
  }

  lemma AveragedSnoc(keys: seq<string>, key: string, t: Dict<Week>)
    requires forall i :: 0 <= i < |keys| ==> keys[i] in t.entries
    requires key in t.entries
    ensures Averaged(keys + [key], t) == WithMean(Averaged(keys, t), key, t.entries[key])
  {
    assert (keys + [key])[..|keys|] == keys;
  }

  /** `get_difficulty_by_week` as a value. */
  function WeeklyAverages(rows: seq<MetadataRow>, loads: Loads): Dict<real> {
    var t := Tallied(rows, loads);
    TalliedValid(rows, loads);
    Averaged(t.keys, t)
  }

  /** The validation and the test of the first loop: the difficulty the row contributes, if any. */
  method RowDifficulty(row: MetadataRow, loads: Loads) returns (difficulty: Option<real>)
    ensures difficulty == Difficulty(row, loads)
  {
    var metadata := ValidateMetadata(Some(row.metadata), loads);
    if metadata.Some? && Truthy(metadata.value) && InOperator(DifficultyKey, metadata.value) == Some(true) {
      difficulty := Some(NumberValue(metadata.value.fields.entries[DifficultyKey]));
    } else {
      difficulty := None;
    }
  }

  /** The body of the first loop for a contributing row: create the week at zero if new, then add to both. */
  method AddDifficulty(t: Dict<Week>, key: string, difficulty: real) returns (t': Dict<Week>)
    ensures t' == Added(t, key, difficulty)
  {
    t' := t;
    if key !in t'.entries {
      t' := t'.Put(key, Week(0.0, 0));
    }
    var week := t'.entries[key];
    t' := t'.Put(key, Week(week.sum + difficulty, week.count + 1));
  }

  /** The first loop: the running sum and count of every week with a contributing row. */
  method TallyWeeks(rows: seq<MetadataRow>, loads: Loads) returns (byWeek: Dict<Week>)
    ensures byWeek == Tallied(rows, loads)
  {
    byWeek := Empty();
    var i := 0;
    while i < |rows|
      invariant 0 <= i <= |rows|
      invariant byWeek == Tallied(rows[..i], loads)
    {
      var row := rows[i];
      TalliedStep(rows, i, loads);
      var key := WeekKey(row.week, row.year);
      var difficulty := RowDifficulty(row, loads);
      if difficulty.Some? {
        byWeek := AddDifficulty(byWeek, key, difficulty.value);
      }
      i := i + 1;
    }
    assert rows[..|rows|] == rows;
  }

  /** The second loop: the mean of every week with a positive count, in the order of the weeks. */
  method AverageWeeks(byWeek: Dict<Week>) returns (avg: Dict<real>)
    requires forall i :: 0 <= i < |byWeek.keys| ==> byWeek.keys[i] in byWeek.entries
    ensures avg == Averaged(byWeek.keys, byWeek)
  {
    avg := Empty();
    var j := 0;
    while j < |byWeek.keys|
      invariant 0 <= j <= |byWeek.keys|
      invariant avg == Averaged(byWeek.keys[..j], byWeek)
    {
      var key := byWeek.keys[j];
      AveragedSnoc(byWeek.keys[..j], key, byWeek);
      assert byWeek.keys[..j + 1] == byWeek.keys[..j] + [key];
      var week := byWeek.entries[key];
      if week.count > 0 {
        avg := avg.Put(key, Round2(week.sum / week.count as real));
      }
      j := j + 1;
    }
    assert byWeek.keys[..|byWeek.keys|] == byWeek.keys;
  }

  /**
   * `get_difficulty_by_week`: sum and count the contributing difficulties per
   * week, then average every week with a positive count, rounded to two places.
   */
  method DifficultyByWeek(rows: seq<MetadataRow>, loads: Loads) returns (avg: Dict<real>)
    ensures avg == WeeklyAverages(rows, loads)
  {
    var byWeek := TallyWeeks(rows, loads);
    TalliedValid(rows, loads);
    avg := AverageWeeks(byWeek);
  }

  /** Averaging over distinct tallied keys with positive counts keeps exactly those keys, in order. */
  lemma {:induction false} AveragedKeys(keys: seq<string>, t: Dict<Week>)
    requires forall i :: 0 <= i < |keys| ==> keys[i] in t.entries && t.entries[keys[i]].count > 0
    requires Distinct(keys)
    ensures Averaged(keys, t).keys == keys
    ensures forall k :: k in Averaged(keys, t).entries <==> k in keys
    ensures forall k :: k in Averaged(keys, t).entries ==>
              Averaged(keys, t).entries[k] == Mean(t.entries[k])
  {
    if keys != [] {
      var init := keys[..|keys| - 1];
      var key := keys[|keys| - 1];
      assert keys == init + [key];
      assert Distinct(init) && key !in init;
      AveragedKeys(init, t);
      var before := Averaged(init, t);
      assert key !in before.entries;
      assert Averaged(keys, t) == before.Put(key, Mean(t.entries[key]));
    }
  }

  /**
   * The weeks averaged are exactly those with a contributing row, in order
   * of their first one, and each maps to the mean of its difficulties rounded
   * to two places.
   */
  lemma WeeklyAveragesByWeek(rows: seq<MetadataRow>, loads: Loads)
    ensures WeeklyAverages(rows, loads).keys == Tallied(rows, loads).keys
    ensures forall key :: key in WeeklyAverages(rows, loads).entries <==> ScoresOfWeek(rows, key, loads) != []
    ensures forall key :: key in WeeklyAverages(rows, loads).entries ==>
              var s := ScoresOfWeek(rows, key, loads);
              WeeklyAverages(rows, loads).entries[key] == Round2(Total(s) / |s| as real)
  {
    var t := Tallied(rows, loads);
    TalliedValid(rows, loads);
    CountsPositive(rows, loads);
    TalliedByWeek(rows, loads);
    AveragedKeys(t.keys, t);
  }

  /** Every weekly average lies in [0, 10]. */
  lemma WeeklyAveragesInRange(rows: seq<MetadataRow>, loads: Loads)
    ensures forall key :: key in WeeklyAverages(rows, loads).entries ==> 0.0 <= WeeklyAverages(rows, loads).entries[key] <= 10.0
  {
    WeeklyAveragesByWeek(rows, loads);
    forall key | key in WeeklyAverages(rows, loads).entries
      ensures 0.0 <= WeeklyAverages(rows, loads).entries[key] <= 10.0
    {
      var s := ScoresOfWeek(rows, key, loads);
      TotalInRange(s);
      AverageInRange(Total(s), |s|);
    }
  }
}
