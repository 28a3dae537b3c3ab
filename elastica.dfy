/**
 * The search backend as the scroll adapter sees it. Queries, result sets and the
 * searchable index belong to the Elastica client library; only the parts the
 * adapter reads or writes are modelled, everything else is an opaque value.
 */
module Elastica {
  import opened Wrappers

  /** One ranked hit (identifier, score, source); never inspected by the adapter. */
  type Hit(==)

  /** The aggregations of a response, a PHP array keyed by aggregation name. */
  type Aggregations(==)

  /** The suggester results of a response, a PHP array keyed by suggester name. */
  type Suggests(==)

  /** The maximum relevance score of a response, a float that is only copied. */
  type Score(==)

  /** Everything in a query apart from its `size` parameter. */
  type QueryBody(==)

  /**
   * A structured search request. `size` is the query's `size` parameter as the
   * adapter reads it (`hasParam('size')`, `(int) getParam('size')`).
   */
  datatype Query = Query(size: Option<int>, body: QueryBody)

  /** One backend response. */
  datatype ResultSet = ResultSet(
    hits: seq<Hit>,
    totalHits: int,
    aggregations: Aggregations,
    suggests: Suggests,
    maxScore: Score)

  /**
   * The searchable index, as three calls:
   * `count(q)` and `search(q)` answer a query, and `scrollPage(q, expiry, i)` is
   * the result set that the scroll opened for `q` with lifetime `expiry` holds
   * at its `i`-th page (page 0 is the one `rewind` positions at).
   */
  datatype Searchable = Searchable(
    count: Query -> int,
    search: Query -> ResultSet,
    scrollPage: (Query, string, nat) -> ResultSet)

  /** The adapter's options array; the only key it reads is `expiryTime`. */
  type Options = map<string, string>
}
