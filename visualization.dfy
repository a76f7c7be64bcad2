/**
 * The series behind the weekly difficulty chart: the week keys of the
 * weekly averages, sorted by the integer tuple read back from each key
 * (its '-'-separated fields, last first, so year before week), and the
 * average of each week alongside.
 */
module Visualization {
  import opened Wrappers
  import opened Text
  import opened Dicts
  import Json
  import DataAggregation

  // ---------------------------------------------------------------------------
  // The sort key
  // ---------------------------------------------------------------------------

  /** `s[::-1]`. */
  function Reversed<T>(s: seq<T>): (r: seq<T>)
    ensures |r| == |s|
    ensures forall i :: 0 <= i < |s| ==> r[i] == s[|s| - 1 - i]
  {
    if s == [] then [] else [s[|s| - 1]] + Reversed(s[..|s| - 1])
  }

  /** `tuple(map(int, parts))`: absent (`ValueError`) when some part is not a numeral. */
  function ParseAll(parts: seq<string>): (r: Option<seq<int>>)
    ensures r.Some? <==> forall i :: 0 <= i < |parts| ==> ParseNat(parts[i]).Some?
    ensures r.Some? ==> |r.value| == |parts|
    ensures r.Some? ==> forall i :: 0 <= i < |parts| ==> r.value[i] == ParseNat(parts[i]).value
  {
    if parts == [] then Some([])
    else
      match ParseNat(parts[0])
      case None => None
      case Some(n) =>
        match ParseAll(parts[1..])
        case None => None
        case Some(rest) => Some([n] + rest)
  }

  /** The key the week keys are sorted by: the fields of `key`, last first, as integers. */
  function SortKey(key: string): Option<seq<int>> {
    ParseAll(Reversed(Split(key, '-')))
  }

  /** Reading a key back inverts its construction: "w-y" gives the tuple (y, w). */
  lemma SortKeyOfWeekKey(week: nat, year: nat)
    ensures SortKey(DataAggregation.WeekKey(week, year)) == Some([year as int, week as int])
  {
    var parts := Split(DataAggregation.WeekKey(week, year), '-');
    assert parts == [NatToString(week), NatToString(year)];
    var reversed := Reversed(parts);
    assert reversed == [NatToString(year), NatToString(week)] by {
      assert reversed[0] == parts[1] && reversed[1] == parts[0];
    }
    ParseNatToString(week);
    ParseNatToString(year);
    var key := ParseAll(reversed);
    assert key.Some? && key.value == [year as int, week as int] by {
      assert key.value[0] == year && key.value[1] == week;
    }
  }

  /** The key of a week key that parses, and `[]` for one that does not (never sorted: see `SortedWeeks`). */
  function Key(key: string): seq<int> {
    var k := SortKey(key);
    if k.Some? then k.value else []
  }

  // ---------------------------------------------------------------------------
  // Tuple order
  // ---------------------------------------------------------------------------

  /** `a < b` on tuples of integers: the first differing field decides, and a proper prefix is smaller. */
  predicate LexLess(a: seq<int>, b: seq<int>) {
    if a == [] then b != []
    else if b == [] then false
    else if a[0] != b[0] then a[0] < b[0]
    else LexLess(a[1..], b[1..])
  }

  /** On pairs, the order is by the first field and then by the second. */
  lemma LexLessPairs(y1: int, w1: int, y2: int, w2: int)
    ensures LexLess([y1, w1], [y2, w2]) <==> y1 < y2 || (y1 == y2 && w1 < w2)
  {
    var a, b := [y1, w1], [y2, w2];
    assert a[0] == y1 && b[0] == y2 && a[1..] == [w1] && b[1..] == [w2];
    assert LexLess([w1], [w2]) <==> w1 < w2 by {
      assert [w1][0] == w1 && [w2][0] == w2 && [w1][1..] == [] && [w2][1..] == [];
      assert !LexLess([], []);
    }
  }

  lemma {:induction false} LexLessIrreflexive(a: seq<int>)
    ensures !LexLess(a, a)
  {
    if a != [] {
      LexLessIrreflexive(a[1..]);
    }
  }

  lemma {:induction false} LexLessAsymmetric(a: seq<int>, b: seq<int>)
    requires LexLess(a, b)
    ensures !LexLess(b, a)
  {
    if a != [] && b != [] && a[0] == b[0] {
      LexLessAsymmetric(a[1..], b[1..]);
    }
  }

  /** `a <= b` and `b <= c` give `a <= c`, with `x <= y` read as `!(y < x)`. */
  lemma {:induction false} LexLeqTransitive(a: seq<int>, b: seq<int>, c: seq<int>)
    requires !LexLess(b, a) && !LexLess(c, b)
    ensures !LexLess(c, a)
  {
    if a != [] && b != [] && c != [] && a[0] == b[0] && b[0] == c[0] {
      LexLeqTransitive(a[1..], b[1..], c[1..]);
    }
  }

  lemma {:induction false} LexTotal(a: seq<int>, b: seq<int>)
    ensures LexLess(a, b) || a == b || LexLess(b, a)
  {
    if a != [] && b != [] && a[0] == b[0] {
      LexTotal(a[1..], b[1..]);
      if a[1..] == b[1..] {
        assert a == [a[0]] + a[1..] && b == [b[0]] + b[1..];
      }
    }
  }

  // ---------------------------------------------------------------------------
  // `sorted(s, key=key)`: a stable sort, ascending
  // ---------------------------------------------------------------------------

  /** Ascending by `key`: no later element is smaller than an earlier one. */
  predicate Ascending<T>(s: seq<T>, key: T -> seq<int>) {
    forall i, j :: 0 <= i < j < |s| ==> !LexLess(key(s[j]), key(s[i]))
  }

  lemma ConsAscending<T>(h: T, t: seq<T>, key: T -> seq<int>)
    requires Ascending(t, key) && (t == [] || !LexLess(key(t[0]), key(h)))
    ensures Ascending([h] + t, key)
  {
    forall i, j | 0 <= i < j < |[h] + t| ensures !LexLess(key(([h] + t)[j]), key(([h] + t)[i])) {
      if i == 0 && j > 1 {
        LexLeqTransitive(key(h), key(t[0]), key(t[j - 1]));
      }
    }
  }

  /** `x` placed into ascending `s` after every element whose key is not greater than its own. */
  function Insert<T>(x: T, s: seq<T>, key: T -> seq<int>): (r: seq<T>)
    requires Ascending(s, key)
    ensures Ascending(r, key)
    ensures |r| == |s| + 1
    ensures r[0] == x || (s != [] && r[0] == s[0])
  {
    if s == [] then [x]
    else if LexLess(key(x), key(s[0])) then
      LexLessAsymmetric(key(x), key(s[0]));
      forall j | 0 < j < |s| ensures !LexLess(key(s[j]), key(x)) {
        LexLeqTransitive(key(x), key(s[0]), key(s[j]));
      }
      [x] + s
    else
      var rest := Insert(x, s[1..], key);
      ConsAscending(s[0], rest, key);
      [s[0]] + rest
  }

  lemma {:induction false} InsertPermutes<T>(x: T, s: seq<T>, key: T -> seq<int>)
    requires Ascending(s, key)
    ensures multiset(Insert(x, s, key)) == multiset(s) + multiset{x}
  {
    if s != [] && !LexLess(key(x), key(s[0])) {
      InsertPermutes(x, s[1..], key);
      assert s == [s[0]] + s[1..];
    }
  }

  /** Insertion sort: each element in turn inserted into the sorted elements before it. */
  function Sort<T>(s: seq<T>, key: T -> seq<int>): (r: seq<T>)
    ensures Ascending(r, key)
    ensures |r| == |s|
  {
    if s == [] then [] else Insert(s[|s| - 1], Sort(s[..|s| - 1], key), key)
  }

  lemma {:induction false} SortPermutes<T>(s: seq<T>, key: T -> seq<int>)
    ensures multiset(Sort(s, key)) == multiset(s)
  {
    if s != [] {
      SortPermutes(s[..|s| - 1], key);
      InsertPermutes(s[|s| - 1], Sort(s[..|s| - 1], key), key);
      assert s == s[..|s| - 1] + [s[|s| - 1]];
    }
  }

  /** The elements whose key is `v`, in order. */
  function WithKey<T>(s: seq<T>, key: T -> seq<int>, v: seq<int>): seq<T> {
    if s == [] then [] else (if key(s[0]) == v then [s[0]] else []) + WithKey(s[1..], key, v)
  }

  lemma {:induction false} WithKeyAppend<T>(a: seq<T>, b: seq<T>, key: T -> seq<int>, v: seq<int>)
    ensures WithKey(a + b, key, v) == WithKey(a, key, v) + WithKey(b, key, v)
  {
    if a == [] {
      assert a + b == b;
    } else {
      WithKeyAppend(a[1..], b, key, v);
      assert (a + b)[1..] == a[1..] + b;
    }
  }

  /** Elements all greater than `x` hold none with `x`'s key. */
  lemma {:induction false} WithKeyAbove<T>(x: T, s: seq<T>, key: T -> seq<int>)
    requires forall j :: 0 <= j < |s| ==> LexLess(key(x), key(s[j]))
    ensures WithKey(s, key, key(x)) == []
  {
    if s != [] {
      LexLessIrreflexive(key(x));
      WithKeyAbove(x, s[1..], key);
    }
  }

  /** An inserted element goes after every element with an equal key. */
  lemma {:induction false} InsertStable<T>(x: T, s: seq<T>, key: T -> seq<int>, v: seq<int>)
    requires Ascending(s, key)
    ensures WithKey(Insert(x, s, key), key, v) == WithKey(s, key, v) + WithKey([x], key, v)
  {
    assert WithKey([x], key, v) == (if key(x) == v then [x] else []) by {
      assert [x][1..] == [];
    }
    if s == [] {
    } else if LexLess(key(x), key(s[0])) {
      forall j | 0 < j < |s| ensures LexLess(key(x), key(s[j])) {
        if !LexLess(key(x), key(s[j])) {
          LexLeqTransitive(key(s[0]), key(s[j]), key(x));
          assert false;
        }
      }
      if key(x) == v {
        WithKeyAbove(x, s, key);
      }
      assert ([x] + s)[1..] == s;
    } else {
      InsertStable(x, s[1..], key, v);
      assert ([s[0]] + Insert(x, s[1..], key))[1..] == Insert(x, s[1..], key);
      assert s == [s[0]] + s[1..];
    }
  }

  /** The sort is stable: elements with equal keys keep their relative order. */
  lemma {:induction false} SortStable<T>(s: seq<T>, key: T -> seq<int>, v: seq<int>)
    ensures WithKey(Sort(s, key), key, v) == WithKey(s, key, v)
  {
    if s != [] {
      var init := s[..|s| - 1];
      SortStable(init, key, v);
      InsertStable(s[|s| - 1], Sort(init, key), key, v);
      WithKeyAppend(init, [s[|s| - 1]], key, v);
      assert s == init + [s[|s| - 1]];
    }
  }

  /** Every key parses. */
  predicate AllParse(keys: seq<string>) {
    forall i :: 0 <= i < |keys| ==> SortKey(keys[i]).Some?
  }

  /**
   * `sorted(keys, key=lambda x: tuple(map(int, x.split('-')[::-1])))`: every
   * key is parsed before any comparison, so one that does not parse makes the
   * whole call fail.
   */
  function SortedWeeks(keys: seq<string>): Option<seq<string>> {
    if AllParse(keys) then Some(Sort(keys, Key)) else None
  }

  /**
   * Sorting fails exactly when some key does not parse; otherwise the result
   * is ascending, a permutation of the keys, and stable.
   */
  lemma SortedWeeksSpec(keys: seq<string>)
    ensures SortedWeeks(keys).None? <==> exists i :: 0 <= i < |keys| && SortKey(keys[i]).None?
    ensures SortedWeeks(keys).Some? ==>
              var r := SortedWeeks(keys).value;
              Ascending(r, Key) && multiset(r) == multiset(keys)
              && forall v :: WithKey(r, Key, v) == WithKey(keys, Key, v)
  {
    SortPermutes(keys, Key);
    forall v ensures WithKey(Sort(keys, Key), Key, v) == WithKey(keys, Key, v) {
      SortStable(keys, Key, v);
    }
  }

  // ---------------------------------------------------------------------------
  // The loop building the chart's series
  // ---------------------------------------------------------------------------

  /** The parallel `weeks` and `difficulties` lists. */
  datatype Series = Series(weeks: seq<string>, difficulties: seq<real>)

  /**
   * The loop of lines 23-26: each week in the given order is appended to
   * `weeks` and its average to `difficulties`.
   */
  method CollectSeries(order: seq<string>, averages: map<string, real>) returns (series: Series)
    requires forall i :: 0 <= i < |order| ==> order[i] in averages
    ensures series.weeks == order
    ensures |series.difficulties| == |order|
    ensures forall i :: 0 <= i < |order| ==> series.difficulties[i] == averages[order[i]]
  {
    var weeks: seq<string> := [];
    var difficulties: seq<real> := [];
    var i := 0;
    while i < |order|
      invariant 0 <= i <= |order|
      invariant weeks == order[..i]
      invariant |difficulties| == i
      invariant forall j :: 0 <= j < i ==> difficulties[j] == averages[order[j]]
    {
      weeks := weeks + [order[i]];
      difficulties := difficulties + [averages[order[i]]];
      i := i + 1;
    }
    assert weeks == order;
    series := Series(weeks, difficulties);
  }

  /**
   * Lines 19-26 of the chart route: sort the keys, then collect the series.
   * `None` is the `ValueError` of a key that does not parse, which the route
   * turns into its error page.
   */
  method WeeklySeries(byWeek: Dict<real>) returns (r: Option<Series>)
    requires byWeek.Valid()
    ensures r.None? <==> SortedWeeks(byWeek.keys).None?
    ensures r.Some? ==> r.value.weeks == SortedWeeks(byWeek.keys).value
    ensures r.Some? ==> |r.value.difficulties| == |r.value.weeks|
    ensures r.Some? ==> forall i :: 0 <= i < |r.value.weeks| ==>
              r.value.weeks[i] in byWeek.entries && r.value.difficulties[i] == byWeek.entries[r.value.weeks[i]]
  {
    var order := SortedWeeks(byWeek.keys);
    if order.None? {
      return None;
    }
    SortedWeeksOfDict(byWeek);
    assert forall i :: 0 <= i < |order.value| ==> order.value[i] in byWeek.entries by {
      forall i | 0 <= i < |order.value| ensures order.value[i] in byWeek.entries {
        assert order.value[i] in order.value;
      }
    }
    var series := CollectSeries(order.value, byWeek.entries);
    r := Some(series);
  }

  /**
   * For a well-formed dictionary the sorted weeks hold every key exactly once
   * and nothing else, in ascending order of their tuples.
   */
  lemma SortedWeeksOfDict(byWeek: Dict<real>)
    requires byWeek.Valid() && SortedWeeks(byWeek.keys).Some?
    ensures var weeks := SortedWeeks(byWeek.keys).value;
            Distinct(weeks)
            && (forall k :: k in weeks <==> k in byWeek.entries)
            && forall i, j :: 0 <= i < j < |weeks| ==> !LexLess(Key(weeks[j]), Key(weeks[i]))
  {
    var weeks := SortedWeeks(byWeek.keys).value;
    SortPermutes(byWeek.keys, Key);
    DistinctMultiplicity(byWeek.keys);
    forall i, j | 0 <= i < j < |weeks| ensures weeks[i] != weeks[j] {
      if weeks[i] == weeks[j] {
        PairMultiplicity(weeks, i, j);
      }
    }
    forall k ensures k in weeks <==> k in byWeek.entries {
      assert k in weeks <==> k in multiset(weeks);
      assert k in byWeek.keys <==> k in multiset(byWeek.keys);
    }
  }

  /** In a list without repeats every element occurs once. */
  lemma {:induction false} DistinctMultiplicity(s: seq<string>)
    requires Distinct(s)
    ensures forall k :: multiset(s)[k] <= 1
  {
    if s != [] {
      var init := s[..|s| - 1];
      assert Distinct(init);
      DistinctMultiplicity(init);
      assert s == init + [s[|s| - 1]];
      assert s[|s| - 1] !in init;
    }
  }

  /** An element found at two positions occurs at least twice. */
  lemma PairMultiplicity(s: seq<string>, i: nat, j: nat)
    requires i < j < |s| && s[i] == s[j]
    ensures multiset(s)[s[i]] >= 2
  {
    assert s == s[..i] + [s[i]] + s[i + 1..j] + [s[j]] + s[j + 1..];
  }

  // ---------------------------------------------------------------------------
  // The weekly averages on the chart
  // ---------------------------------------------------------------------------

  /** Keys built as "w-y" are ordered by year and then by week. */
  lemma WeekKeysOrdered(w1: nat, y1: nat, w2: nat, y2: nat)
    ensures (LexLess(Key(DataAggregation.WeekKey(w1, y1)), Key(DataAggregation.WeekKey(w2, y2))) <==>
             y1 < y2 || (y1 == y2 && w1 < w2))
  {
    SortKeyOfWeekKey(w1, y1);
    SortKeyOfWeekKey(w2, y2);
    LexLessPairs(y1, w1, y2, w2);
  }

  /** Week 9 of a year comes before its week 10, though "10-..." is textually smaller than "9-...". */
  lemma NineBeforeTen(year: nat)
    ensures SortedWeeks([DataAggregation.WeekKey(10, year), DataAggregation.WeekKey(9, year)])
              == Some([DataAggregation.WeekKey(9, year), DataAggregation.WeekKey(10, year)])
  {
    var ten := DataAggregation.WeekKey(10, year);
    var nine := DataAggregation.WeekKey(9, year);
    SortKeyOfWeekKey(10, year);
    SortKeyOfWeekKey(9, year);
    WeekKeysOrdered(9, year, 10, year);
    assert AllParse([ten, nine]);
    assert [ten, nine][..1] == [ten] && [ten][..0] == [];
    assert Sort([ten], Key) == [ten];
    assert LexLess(Key(nine), Key(ten));
    assert Sort([ten, nine], Key) == Insert(nine, [ten], Key) == [nine] + [ten] == [nine, ten];
    assert SortedWeeks([ten, nine]) == Some(Sort([ten, nine], Key));
  }

  /** Every week of the weekly averages is the key of one of the rows. */
  lemma {:induction false} AveragedWeeksAreRowKeys(rows: seq<DataAggregation.MetadataRow>, key: string, loads: Json.Loads)
    requires DataAggregation.ScoresOfWeek(rows, key, loads) != []
    ensures exists i :: 0 <= i < |rows| && DataAggregation.RowKey(rows[i]) == key
  {
    var init := rows[..|rows| - 1];
    if DataAggregation.ScoresOfWeek(init, key, loads) != [] {
      AveragedWeeksAreRowKeys(init, key, loads);
      var i :| 0 <= i < |init| && DataAggregation.RowKey(init[i]) == key;
      assert rows[i] == init[i];
    } else {
      assert DataAggregation.RowKey(rows[|rows| - 1]) == key;
    }
  }

  /**
   * The averages the aggregation produces always chart: all their keys parse,
   * so the weeks come out in ascending (year, week) order.
   */
  lemma AveragesChart(rows: seq<DataAggregation.MetadataRow>, loads: Json.Loads)
    ensures SortedWeeks(DataAggregation.WeeklyAverages(rows, loads).keys).Some?
  {
    var avg := DataAggregation.WeeklyAverages(rows, loads);
    DataAggregation.WeeklyAveragesByWeek(rows, loads);
    DataAggregation.TalliedValid(rows, loads);
    DataAggregation.TalliedByWeek(rows, loads);
    forall i | 0 <= i < |avg.keys| ensures SortKey(avg.keys[i]).Some? {
      var key := avg.keys[i];
      assert key in avg.keys;
      AveragedWeeksAreRowKeys(rows, key, loads);
      var j :| 0 <= j < |rows| && DataAggregation.RowKey(rows[j]) == key;
      SortKeyOfWeekKey(rows[j].week, rows[j].year);
    }
  }
}
