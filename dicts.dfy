/**
 * An insertion-ordered dictionary with string keys, as Python's `dict` and a
 * JavaScript object with identifier keys behave: assigning to a new key appends
 * it, assigning to an existing key keeps its position, deleting removes it.
 */
module Dicts {
  import opened Wrappers

  datatype Dict<V> = Dict(keys: seq<string>, entries: map<string, V>) {

    /** The keys are distinct and are exactly the keys of `entries`. */
    predicate Valid() {
      && Distinct(keys)
      && (forall k :: k in entries ==> k in keys)
      && (forall i :: 0 <= i < |keys| ==> keys[i] in entries)
    }

    /** `d[k] = v`. */
    function Put(k: string, v: V): (d: Dict<V>)
      ensures d.entries == entries[k := v]
      ensures d.keys == if k in entries then keys else keys + [k]
      ensures Valid() ==> d.Valid()
    {
      if k in entries then Dict(keys, entries[k := v]) else Dict(keys + [k], entries[k := v])
    }

    /** `d.get(k)`. */
    function Get(k: string): (r: Option<V>)
      ensures r.Some? <==> k in entries
      ensures r.Some? ==> r.value == entries[k]
    {
      if k in entries then Some(entries[k]) else None
    }

    /** `del d[k]` when `k` is present; no change otherwise. */
    function Remove(k: string): (d: Dict<V>)
      ensures d.entries == entries - {k}
      ensures d.keys == Without(keys, k)
      ensures Valid() ==> d.Valid()
    {
      var rest := Without(keys, k);
      assert forall i :: 0 <= i < |rest| ==> rest[i] in rest;
      Dict(rest, entries - {k})
    }

    /** `{k: v for k, v in d.items() if keep(k)}`: the kept entries, in the same key order. */
    function Restrict(keep: string -> bool): (d: Dict<V>)
      ensures Subsequence(d.keys, keys)
      ensures forall k :: k in d.keys <==> k in keys && keep(k)
      ensures forall k :: k in d.entries <==> k in entries && keep(k)
      ensures forall k :: k in d.entries ==> d.entries[k] == entries[k]
      ensures Valid() ==> d.Valid()
    {
      var kept := Filter(keys, keep);
      assert forall i :: 0 <= i < |kept| ==> kept[i] in kept;
      assert Valid() ==> forall k :: k in keys ==> k in entries;
      Dict(kept, map k | k in entries && keep(k) :: entries[k])
    }
  }

  /** Creating a missing list entry and then appending to it is appending to the entry or to `[]`. */
  lemma CreateThenAppend<T>(d: Dict<seq<T>>, k: string, x: T)
    ensures var d0 := if k !in d.entries then d.Put(k, []) else d;
            d0.Put(k, d0.entries[k] + [x]) == d.Put(k, (if k in d.entries then d.entries[k] else []) + [x])
  {
  }

  /** The empty dictionary. */
  function Empty<V>(): (d: Dict<V>)
    ensures d.Valid() && d.keys == [] && d.entries == map[]
  {
    Dict([], map[])
  }

  /** `s` with every occurrence of `k` removed, the rest in order. */
  function Without(s: seq<string>, k: string): (r: seq<string>)
    ensures forall x :: x in r <==> x in s && x != k
    ensures Distinct(s) ==> Distinct(r)
    ensures Subsequence(r, s)
    ensures k !in s ==> r == s
  {
    if s == [] then []
    else if s[0] == k then Without(s[1..], k)
    else
      var rest := Without(s[1..], k);
      assert Distinct(s) ==> s[0] !in s[1..];
      [s[0]] + rest
  }

  /** The elements of `s` that `keep` accepts, in order. */
  function Filter(s: seq<string>, keep: string -> bool): (r: seq<string>)
    ensures forall x :: x in r <==> x in s && keep(x)
    ensures Subsequence(r, s)
    ensures Distinct(s) ==> Distinct(r)
  {
    if s == [] then []
    else
      var rest := Filter(s[1..], keep);
      assert Distinct(s) ==> s[0] !in s[1..];
      if keep(s[0]) then [s[0]] + rest else rest
  }

  /** Filtering one more element keeps it at the end when it is accepted. */
  lemma {:induction false} FilterSnoc(s: seq<string>, x: string, keep: string -> bool)
    ensures Filter(s + [x], keep) == Filter(s, keep) + (if keep(x) then [x] else [])
  {
    if s == [] {
      assert [x][1..] == [];
    } else {
      assert (s + [x])[1..] == s[1..] + [x];
      FilterSnoc(s[1..], x, keep);
    }
  }

  /** `a` is `b` with some elements left out, order kept. */
  predicate Subsequence<T(==)>(a: seq<T>, b: seq<T>)
    decreases |b|
  {
    a == [] || (b != [] && if a[0] == b[0] then Subsequence(a[1..], b[1..]) else Subsequence(a, b[1..]))
  }

  /** No key occurs twice. */
  predicate Distinct(s: seq<string>) {
    forall i, j :: 0 <= i < j < |s| ==> s[i] != s[j]
  }

  /** A dictionary whose keys and entries agree. */
  type ValidDict<V> = d: Dict<V> | d.Valid() witness Dict([], map[])
}
