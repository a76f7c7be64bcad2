/**
 * The module-global vector database and its `retrieve`: a store that starts
 * empty, is filled by code outside the model (by assigning `db`), and answers
 * top-N similarity queries over its current entries. Its scoring and ranking
 * are those of `Embeddings`, which the source repeats verbatim.
 */
module VectorIndex {
  import opened Wrappers
  import opened Embeddings

  /** `VECTOR_DB`. */
  class VectorStore {
    var db: seq<Entry>

    /** The database starts empty. */
    constructor()
      ensures db == []
    {
      db := [];
    }

    /**
     * `retrieve`: the first `topN` (by default 3) entries by descending
     * similarity to the embedded query, ties in insertion order.
     */
    method Retrieve(embed: string -> Vector, query: string, sqrt: real -> real, topN: int := 3)
      returns (r: Result<seq<Scored>, ArithmeticError>)
      ensures r == TopN(embed(query), db, topN, sqrt)
    {
      r := RetrieveNClosestVectors(embed, query, db, sqrt, topN);
    }
  }

  /** Retrieving before the database is populated yields no pairs. */
  method RetrieveBeforePopulation(embed: string -> Vector, query: string, sqrt: real -> real, topN: int)
    returns (r: Result<seq<Scored>, ArithmeticError>)
    ensures r == Ok([])
  {
    var store := new VectorStore();
    r := store.Retrieve(embed, query, sqrt, topN);
    TopNEmpty(embed(query), topN, sqrt);
  }

  /** With the default `topN`, at most three pairs come back. */
  lemma DefaultTopNAtMostThree(query: Vector, db: seq<Entry>, sqrt: real -> real)
    requires TopN(query, db, 3, sqrt).Ok?
    ensures |TopN(query, db, 3, sqrt).value| <= 3
  {
    TopNLength(query, db, 3, sqrt);
  }
}
