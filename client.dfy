/** A caller paging through a query capped at 15 hits, ten at a time, and what it can rely on. */
module ScrollClient {
  import opened Wrappers
  import opened Elastica
  import opened ScrollModel
  import opened RawScrollPaginator

  method PageThroughCappedQuery(b: Searchable, body: QueryBody)
  {
    var q := Query(Some(15), body);
    var adapter := new RawScrollPaginatorAdapter(b, q, map[]);
    var request := Query(Some(10), body);

    var first := adapter.GetResults(0, 10);
    assert first == Success(RawPartialResults(b.scrollPage(request, "1m", 0)));
    assert adapter.calls == [OpenScroll(request, "1m")];

    // The cap leaves five items, so the request is accepted; the scroll keeps its page size.
    var second := adapter.GetResults(10, 10);
    assert second == Success(RawPartialResults(b.scrollPage(request, "1m", 1)));

    var refused := adapter.GetResults(15, 10);
    assert refused == Failure(InvalidArgument(LengthMessage));
    assert adapter.scroll == Some(Cursor(request, "1m", 1));

    // The metadata is that of the second page, and reading it calls nothing.
    var total := adapter.GetTotalHits(false);
    var genuine := adapter.GetTotalHits(true);
    var aggregations := adapter.GetAggregations();
    assert genuine == b.scrollPage(request, "1m", 1).totalHits;
    assert total <= 15 && total <= genuine;
    assert aggregations == b.scrollPage(request, "1m", 1).aggregations;
    assert adapter.calls == [OpenScroll(request, "1m"), Next];
  }
}
