/** The page request `getFacts` sends to the store, and what an answer to it may contain. */
module Query {
  import opened Wrappers
  import opened Facts

  /** The category the filter shows when no single category is chosen. */
  const AllCategories: string := "all"

  /** The page size of a fetch. */
  const PageSize: nat := 50

  /** A select on `facts`: an optional `category` equality, a row limit, ordered by `created_at`. */
  datatype FactsQuery = FactsQuery(category: Option<string>, limit: nat, newestFirst: bool)

  /** Whether a row passes the query's filter. */
  predicate Matches(q: FactsQuery, f: Fact)
  {
    q.category.None? || f.category == q.category.value
  }

  /** What the store promises of a successful answer: at most `limit` rows, all passing the filter. */
  predicate Answers(q: FactsQuery, rows: seq<Fact>)
  {
    |rows| <= q.limit && forall i :: 0 <= i < |rows| ==> Matches(q, rows[i])
  }

  /** The query `getFacts` builds for the current category. */
  function QueryFor(currCat: string): (q: FactsQuery)
    ensures q.limit == PageSize && q.newestFirst
    ensures q.category.None? <==> currCat == AllCategories
    ensures forall f :: Matches(q, f) <==> currCat == AllCategories || f.category == currCat
  {
    if currCat != AllCategories then FactsQuery(Some(currCat), PageSize, true)
    else FactsQuery(None, PageSize, true)
  }

  /** Rows answering the query for a chosen category all belong to it, and there are at most 50. */
  lemma AnswerStaysInCategory(currCat: string, rows: seq<Fact>)
    requires currCat != AllCategories
    requires Answers(QueryFor(currCat), rows)
    ensures |rows| <= 50
    ensures forall i :: 0 <= i < |rows| ==> rows[i].category == currCat
  {
  }
}
