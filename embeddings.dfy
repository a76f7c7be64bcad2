/**
 * Similarity search over stored embeddings: the cosine score of two vectors,
 * a stable ranking by descending score, and the top-N selection of
 * `retrieve_n_closest_vectors`. Scores are exact reals; the square root and
 * the embedding model are parameters.
 */
module Embeddings {
  import opened Wrappers

  type Vector = seq<real>

  /** One entry of the vector database: a text chunk and its embedding. */
  datatype Entry = Entry(chunk: string, embedding: Vector)

  /** A chunk with its similarity to the query. */
  datatype Scored = Scored(chunk: string, score: real)

  /** The exception a cosine of a zero-norm vector raises. */
  datatype ArithmeticError = ZeroDivision

  // ---------------------------------------------------------------------------
  // cosine_similarity
  // ---------------------------------------------------------------------------

  /** `sum(x * y for x, y in zip(a, b))`: pairs only the common prefix. */
  function Dot(a: Vector, b: Vector): real
    decreases |a|
  {
    if a == [] || b == [] then 0.0 else a[0] * b[0] + Dot(a[1..], b[1..])
  }

  /** `sum(x ** 2 for x in a)`: over every coordinate. */
  function SumSquares(a: Vector): (r: real)
    ensures r >= 0.0
  {
    if a == [] then 0.0 else a[0] * a[0] + SumSquares(a[1..])
  }

  /**
   * `cosine_similarity`, with `sqrt` standing for `** 0.5`: the dot product
   * over the norms' product, and a division by zero when that product is 0.
   */
  function Cosine(a: Vector, b: Vector, sqrt: real -> real): (r: Result<real, ArithmeticError>)
    ensures r.Err? <==> sqrt(SumSquares(a)) * sqrt(SumSquares(b)) == 0.0
  {
    var denominator := sqrt(SumSquares(a)) * sqrt(SumSquares(b));
    if denominator == 0.0 then Err(ZeroDivision) else Ok(Dot(a, b) / denominator)
  }

  lemma {:induction false} DotSymmetric(a: Vector, b: Vector)
    ensures Dot(a, b) == Dot(b, a)
    decreases |a|
  {
    if a != [] && b != [] {
      DotSymmetric(a[1..], b[1..]);
    }
  }

  /** The score does not depend on the order of its operands. */
  lemma CosineSymmetric(a: Vector, b: Vector, sqrt: real -> real)
    ensures Cosine(a, b, sqrt) == Cosine(b, a, sqrt)
  {
    DotSymmetric(a, b);
    assert sqrt(SumSquares(a)) * sqrt(SumSquares(b)) == sqrt(SumSquares(b)) * sqrt(SumSquares(a));
  }

  /** Coordinates past the shorter operand's length do not enter the dot product. */
  lemma {:induction false} DotOfCommonPrefix(a: Vector, b: Vector)
    ensures var m := if |a| <= |b| then |a| else |b|;
            Dot(a, b) == Dot(a[..m], b[..m])
    decreases |a|
  {
    var m := if |a| <= |b| then |a| else |b|;
    if a != [] && b != [] {
      DotOfCommonPrefix(a[1..], b[1..]);
      assert a[..m][1..] == a[1..][..m - 1];
      assert b[..m][1..] == b[1..][..m - 1];
    }
  }

  /** A vector of zeros, the empty one included, has a zero sum of squares. */
  lemma {:induction false} SumSquaresOfZeros(a: Vector)
    requires forall i :: 0 <= i < |a| ==> a[i] == 0.0
    ensures SumSquares(a) == 0.0
  {
    if a != [] {
      assert forall i :: 0 <= i < |a[1..]| ==> a[1..][i] == a[i + 1];
      SumSquaresOfZeros(a[1..]);
    }
  }

  /** A zero vector, the empty one included, makes the score raise: nothing guards the division. */
  lemma ZeroVectorRaises(a: Vector, b: Vector, sqrt: real -> real)
    requires forall i :: 0 <= i < |a| ==> a[i] == 0.0
    requires sqrt(0.0) == 0.0
    ensures Cosine(a, b, sqrt) == Err(ZeroDivision)
  {
    SumSquaresOfZeros(a);
  }

  // ---------------------------------------------------------------------------
  // Stable ranking by descending score
  // ---------------------------------------------------------------------------

  predicate NonIncreasing(s: seq<Scored>) {
    forall i, j :: 0 <= i < j < |s| ==> s[i].score >= s[j].score
  }

  /** The entries of `s` whose score is `v`, in order. */
  function WithScore(s: seq<Scored>, v: real): seq<Scored> {
    if s == [] then [] else (if s[0].score == v then [s[0]] else []) + WithScore(s[1..], v)
  }

  /** `x` placed before the first entry that does not score higher. */
  function Insert(x: Scored, s: seq<Scored>): (r: seq<Scored>)
    requires NonIncreasing(s)
    ensures NonIncreasing(r)
    ensures |r| == |s| + 1
    ensures r[0] == x || (s != [] && r[0] == s[0])
  {
    if s == [] || s[0].score <= x.score then
      ConsNonIncreasing(x, s);
      [x] + s
    else
      var rest := Insert(x, s[1..]);
      ConsNonIncreasing(s[0], rest);
      [s[0]] + rest
  }

  lemma {:induction false} InsertPermutes(x: Scored, s: seq<Scored>)
    requires NonIncreasing(s)
    ensures multiset(Insert(x, s)) == multiset(s) + multiset{x}
    decreases |s|
  {
    if s != [] && s[0].score > x.score {
      InsertPermutes(x, s[1..]);
      assert s == [s[0]] + s[1..];
    }
  }

  lemma ConsNonIncreasing(h: Scored, t: seq<Scored>)
    requires NonIncreasing(t) && (t == [] || h.score >= t[0].score)
    ensures NonIncreasing([h] + t)
  {
    forall i, j | 0 <= i < j < |[h] + t|
      ensures ([h] + t)[i].score >= ([h] + t)[j].score
    {
      if i == 0 && j > 1 {
        assert t[0].score >= t[j - 1].score;
      }
    }
  }

  /**
   * `list.sort(key=score, reverse=True)`: ordered by non-increasing score and
   * a permutation of the input (stability is `SortDescendingStable`).
   */
  function SortDescending(s: seq<Scored>): (r: seq<Scored>)
    ensures NonIncreasing(r)
    ensures multiset(r) == multiset(s)
    ensures |r| == |s|
  {
    if s == [] then []
    else
      var sortedTail := SortDescending(s[1..]);
      InsertPermutes(s[0], sortedTail);
      assert multiset(s) == multiset(s[1..]) + multiset{s[0]} by {
        assert s == [s[0]] + s[1..];
      }
      Insert(s[0], sortedTail)
  }

  lemma WithScoreCons(h: Scored, t: seq<Scored>, v: real)
    ensures WithScore([h] + t, v) == (if h.score == v then [h] else []) + WithScore(t, v)
  {
    assert ([h] + t)[1..] == t;
  }

  lemma {:induction false} InsertWithScore(x: Scored, s: seq<Scored>, v: real)
    requires NonIncreasing(s)
    ensures WithScore(Insert(x, s), v) == (if x.score == v then [x] else []) + WithScore(s, v)
    decreases |s|
  {
    if s == [] || s[0].score <= x.score {
      WithScoreCons(x, s, v);
    } else {
      var rest := Insert(x, s[1..]);
      InsertWithScore(x, s[1..], v);
      WithScoreCons(s[0], rest, v);
      WithScoreCons(s[0], s[1..], v);
      assert [s[0]] + s[1..] == s;
      if x.score == v {
        assert s[0].score != v;
      }
    }
  }

  /** Entries with equal scores keep their input order: the ranking is stable. */
  lemma {:induction false} SortDescendingStable(s: seq<Scored>, v: real)
    ensures WithScore(SortDescending(s), v) == WithScore(s, v)
    decreases |s|
  {
    if s != [] {
      SortDescendingStable(s[1..], v);
      InsertWithScore(s[0], SortDescending(s[1..]), v);
    }
  }

  // ---------------------------------------------------------------------------
  // Slicing and selection
  // ---------------------------------------------------------------------------

  /** Python's `s[:n]`: a negative `n` counts from the end. */
  function Prefix<T>(s: seq<T>, n: int): (r: seq<T>)
    ensures n >= 0 ==> |r| == (if n <= |s| then n else |s|)
    ensures n < 0 ==> |r| == (if -n <= |s| then |s| + n else 0)
    ensures r == s[..|r|]
  {
    if n >= 0 then (if n <= |s| then s[..n] else s)
    else if -n <= |s| then s[..|s| + n] else []
  }

  /** The (chunk, similarity) pairs of the database in order, or the error the first zero norm raises. */
  function Similarities(query: Vector, db: seq<Entry>, sqrt: real -> real): (r: Result<seq<Scored>, ArithmeticError>)
    ensures r.Ok? <==> forall k :: 0 <= k < |db| ==> Cosine(query, db[k].embedding, sqrt).Ok?
    ensures r.Ok? ==> |r.value| == |db|
                      && forall k :: 0 <= k < |db| ==>
                           r.value[k] == Scored(db[k].chunk, Cosine(query, db[k].embedding, sqrt).value)
    decreases |db|
  {
    if db == [] then Ok([])
    else
      var init := db[..|db| - 1];
      var last := db[|db| - 1];
      assert forall k :: 0 <= k < |init| ==> init[k] == db[k];
      match Similarities(query, init, sqrt)
      case Err(e) => Err(e)
      case Ok(prev) =>
        match Cosine(query, last.embedding, sqrt)
        case Err(e) => Err(e)
        case Ok(score) => Ok(prev + [Scored(last.chunk, score)])
  }

  /** What `retrieve_n_closest_vectors` returns for an embedded query. */
  function TopN(query: Vector, db: seq<Entry>, topN: int, sqrt: real -> real): Result<seq<Scored>, ArithmeticError> {
    match Similarities(query, db, sqrt)
    case Err(e) => Err(e)
    case Ok(similarities) => Ok(Prefix(SortDescending(similarities), topN))
  }

  /**
   * `retrieve_n_closest_vectors`: embed the query once, score every entry in
   * order, sort by descending score and keep the first `topN`.
   */
  method RetrieveNClosestVectors(embed: string -> Vector, query: string, db: seq<Entry>, sqrt: real -> real,
                                 topN: int := 3)
    returns (r: Result<seq<Scored>, ArithmeticError>)
    ensures r == TopN(embed(query), db, topN, sqrt)
  {
    var queryEmbedding := embed(query);
    var similarities: seq<Scored> := [];
    var i := 0;
    while i < |db|
      invariant 0 <= i <= |db|
      invariant Similarities(queryEmbedding, db[..i], sqrt) == Ok(similarities)
    {
      var similarity := Cosine(queryEmbedding, db[i].embedding, sqrt);
      assert db[..i + 1][..i] == db[..i];
      if similarity.Err? {
        RaisesFromPrefix(queryEmbedding, db, i + 1, sqrt);
        var all := Similarities(queryEmbedding, db, sqrt);
        assert all.Err? && all.error == ZeroDivision;
        assert TopN(queryEmbedding, db, topN, sqrt) == Err(all.error);
        return Err(ZeroDivision);
      }
      similarities := similarities + [Scored(db[i].chunk, similarity.value)];
      i := i + 1;
    }
    assert db[..i] == db;
    similarities := SortDescending(similarities);
    return Ok(Prefix(similarities, topN));
  }

  /** An entry whose score raises makes the whole scoring raise. */
  lemma RaisesFromPrefix(query: Vector, db: seq<Entry>, n: nat, sqrt: real -> real)
    requires 0 < n <= |db| && Similarities(query, db[..n], sqrt).Err?
    ensures Similarities(query, db, sqrt).Err?
  {
    var k :| 0 <= k < n && Cosine(query, db[..n][k].embedding, sqrt).Err?;
    assert db[..n][k] == db[k];
  }

  // ---------------------------------------------------------------------------
  // Properties of the selection
  // ---------------------------------------------------------------------------

  /** Exactly `min(topN, |db|)` pairs for a non-negative `topN`. */
  lemma TopNLength(query: Vector, db: seq<Entry>, topN: int, sqrt: real -> real)
    requires topN >= 0 && TopN(query, db, topN, sqrt).Ok?
    ensures |TopN(query, db, topN, sqrt).value| == if topN <= |db| then topN else |db|
  {
  }

  /**
   * The pairs come out by non-increasing score, as a prefix of the full
   * ranking, so no excluded entry scores higher than an included one.
   */
  lemma TopNRanked(query: Vector, db: seq<Entry>, topN: int, sqrt: real -> real)
    requires TopN(query, db, topN, sqrt).Ok?
    ensures var r := TopN(query, db, topN, sqrt).value;
            var ranked := SortDescending(Similarities(query, db, sqrt).value);
            NonIncreasing(r)
            && r == ranked[..|r|]
            && multiset(ranked) == multiset(Similarities(query, db, sqrt).value)
            && (forall i, j :: 0 <= i < |r| <= j < |ranked| ==> ranked[i].score >= ranked[j].score)
  {
  }

  /** Every pair is a database chunk with the score of its own embedding, and no entry is returned twice. */
  lemma TopNFromDatabase(query: Vector, db: seq<Entry>, topN: int, sqrt: real -> real)
    requires TopN(query, db, topN, sqrt).Ok?
    ensures var r := TopN(query, db, topN, sqrt).value;
            var similarities := Similarities(query, db, sqrt).value;
            multiset(r) <= multiset(similarities)
            && forall x :: x in r ==>
                 exists k :: 0 <= k < |db| && x == Scored(db[k].chunk, Cosine(query, db[k].embedding, sqrt).value)
  {
    var r := TopN(query, db, topN, sqrt).value;
    var similarities := Similarities(query, db, sqrt).value;
    var ranked := SortDescending(similarities);
    PrefixSubMultiset(ranked, |r|);
    forall x | x in r
      ensures exists k :: 0 <= k < |db| && x == Scored(db[k].chunk, Cosine(query, db[k].embedding, sqrt).value)
    {
      assert x in multiset(similarities);
      var k :| 0 <= k < |similarities| && similarities[k] == x;
    }
  }

  lemma PrefixSubMultiset<T>(s: seq<T>, n: nat)
    requires n <= |s|
    ensures multiset(s[..n]) <= multiset(s)
  {
    assert s == s[..n] + s[n..];
  }

  lemma {:induction false} WithScorePrefix(s: seq<Scored>, n: nat, v: real)
    requires n <= |s|
    ensures |WithScore(s[..n], v)| <= |WithScore(s, v)|
    ensures WithScore(s[..n], v) == WithScore(s, v)[..|WithScore(s[..n], v)|]
    decreases n
  {
    if n > 0 {
      WithScorePrefix(s[1..], n - 1, v);
      assert s[..n][1..] == s[1..][..n - 1];
    }
  }

  /** Among returned pairs of equal score, the database order is kept. */
  lemma TopNStable(query: Vector, db: seq<Entry>, topN: int, sqrt: real -> real, v: real)
    requires TopN(query, db, topN, sqrt).Ok?
    ensures var r := TopN(query, db, topN, sqrt).value;
            var tied := WithScore(Similarities(query, db, sqrt).value, v);
            |WithScore(r, v)| <= |tied| && WithScore(r, v) == tied[..|WithScore(r, v)|]
  {
    var similarities := Similarities(query, db, sqrt).value;
    var ranked := SortDescending(similarities);
    var r := TopN(query, db, topN, sqrt).value;
    SortDescendingStable(similarities, v);
    WithScorePrefix(ranked, |r|, v);
  }

  /** Nothing is returned from an empty database. */
  lemma TopNEmpty(query: Vector, topN: int, sqrt: real -> real)
    ensures TopN(query, [], topN, sqrt) == Ok([])
  {
  }
}
