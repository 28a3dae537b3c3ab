/**
 * The raw scroll adapter: presents the backend's forward-only scroll cursor as
 * offset/length pagination and keeps the metadata of the last page it fetched.
 */
module RawScrollPaginator {
  import opened Wrappers
  import opened Elastica
  import opened ScrollModel
  import ScrollProperties

  /** The page handed to the caller: the result set itself, hits unchanged. */
  datatype RawPartialResults = RawPartialResults(resultSet: ResultSet)

  class RawScrollPaginatorAdapter {
    const searchable: Searchable
    const query: Query
    const options: Options

    /** The open scroll session; None until the first accepted `getResults`. */
    var scroll: Option<Cursor>
    var totalHits: Option<int>
    var aggregations: Option<Aggregations>
    var suggests: Option<Suggests>
    var maxScore: Option<Score>

    /** The backend calls made so far, in order. */
    ghost var calls: seq<Call>

    /** The fields as a ScrollModel state. */
    function Snapshot(): State
      reads this
    {
      State(scroll, totalHits, aggregations, suggests, maxScore)
    }

    ghost predicate Valid()
      reads this
    {
      Consistent(searchable, query, options, Snapshot())
    }

    /** The adapter starts Unopened with every metadata field unset. */
    constructor (searchable: Searchable, query: Query, options: Options := map[])
      ensures this.searchable == searchable && this.query == query && this.options == options
      ensures Snapshot() == Unopened && calls == []
      ensures Valid()
    {
      this.searchable := searchable;
      this.query := query;
      this.options := options;
      scroll, totalHits, aggregations, suggests, maxScore := None, None, None, None, None;
      calls := [];
    }

    /**
     * Clamps the page length to the size cap, refuses a length below one,
     * then opens the scroll (first call) or advances it one page (later calls),
     * and records the page's metadata.
     */
    method GetElasticaResults(offset: int, itemCountPerPage: int) returns (r: Result<ResultSet, Error>)
      requires Valid()
      modifies this
      ensures Valid()
      ensures var st := Fetch(searchable, query, options, old(Snapshot()), offset, itemCountPerPage);
              r == st.value && Snapshot() == st.state && calls == old(calls) + st.calls
    {
      ScrollProperties.OperationsPreserveConsistent(searchable, query, options, Snapshot(), offset, itemCountPerPage, false);
      var length := itemCountPerPage;
      var size := query.size;
      if size.Some? && size.value < offset + length {
        length := size.value - offset;
      }
      if length < 1 {
        return Failure(InvalidArgument(LengthMessage));
      }
      if scroll.None? {
        var request := query.(size := Some(length));
        var expiryTime := if "expiryTime" in options then options["expiryTime"] else DefaultExpiry;
        scroll := Some(Cursor(request, expiryTime, 0));
        calls := calls + [OpenScroll(request, expiryTime)];
      } else {
        scroll := Some(scroll.value.(position := scroll.value.position + 1));
        calls := calls + [Next];
      }
      var resultSet := searchable.scrollPage(scroll.value.request, scroll.value.expiry, scroll.value.position);
      totalHits := Some(resultSet.totalHits);
      aggregations := Some(resultSet.aggregations);
      suggests := Some(resultSet.suggests);
      maxScore := Some(resultSet.maxScore);
      r := Success(resultSet);
    }

    /** `getResults(offset, length)`: the fetched result set, wrapped. */
    method GetResults(offset: int, length: int) returns (r: Result<RawPartialResults, Error>)
      requires Valid()
      modifies this
      ensures Valid()
      ensures var st := Fetch(searchable, query, options, old(Snapshot()), offset, length);
              && Snapshot() == st.state && calls == old(calls) + st.calls
              && r == match st.value
                      case Success(rs) => Success(RawPartialResults(rs))
                      case Failure(e) => Failure(e)
    {
      var fetched := GetElasticaResults(offset, length);
      match fetched {
        case Success(rs) => r := Success(RawPartialResults(rs));
        case Failure(e) => r := Failure(e);
      }
    }

    /** Counts the stored query if the total is still unset, then applies the size cap unless told not to. */
    method GetTotalHits(genuineTotal: bool := false) returns (n: int)
      requires Valid()
      modifies this`totalHits, this`calls
      ensures Valid()
      ensures var st := AccessTotalHits(searchable, query, old(Snapshot()), genuineTotal);
              n == st.value && Snapshot() == st.state && calls == old(calls) + st.calls
    {
      if totalHits.None? {
        totalHits := Some(searchable.count(query));
        calls := calls + [Count(query)];
      }
      var total := totalHits.value;
      n := if query.size.Some? && !genuineTotal then
             (if total <= query.size.value then total else query.size.value)
           else total;
    }

    method GetAggregations() returns (v: Aggregations)
      requires Valid()
      modifies this`aggregations, this`calls
      ensures Valid()
      ensures var st := AccessAggregations(searchable, query, old(Snapshot()));
              v == st.value && Snapshot() == st.state && calls == old(calls) + st.calls
    {
      if aggregations.None? {
        aggregations := Some(searchable.search(query).aggregations);
        calls := calls + [Search(query)];
      }
      v := aggregations.value;
    }

    method GetSuggests() returns (v: Suggests)
      requires Valid()
      modifies this`suggests, this`calls
      ensures Valid()
      ensures var st := AccessSuggests(searchable, query, old(Snapshot()));
              v == st.value && Snapshot() == st.state && calls == old(calls) + st.calls
    {
      if suggests.None? {
        suggests := Some(searchable.search(query).suggests);
        calls := calls + [Search(query)];
      }
      v := suggests.value;
    }

    method GetMaxScore() returns (v: Score)
      requires Valid()
      modifies this`maxScore, this`calls
      ensures Valid()
      ensures var st := AccessMaxScore(searchable, query, old(Snapshot()));
              v == st.value && Snapshot() == st.state && calls == old(calls) + st.calls
    {
      if maxScore.None? {
        maxScore := Some(searchable.search(query).maxScore);
        calls := calls + [Search(query)];
      }
      v := maxScore.value;
    }

    /** The query given to the constructor; nothing changes. */
    method GetQuery() returns (q: Query)
      ensures q == query
    {
      q := query;
    }
  }
}
