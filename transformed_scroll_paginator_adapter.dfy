/**
 * The transformed scroll adapter: the raw adapter's fetch path, with each page's
 * hits mapped to model objects by the transformer. The subclass relation is
 * modelled by composition: `inner` is the parent part of the object, and the
 * inherited accessors are those of `inner`.
 */
module TransformedScrollPaginator {
  import opened Wrappers
  import opened Elastica
  import opened ScrollModel
  import opened RawScrollPaginator
  import ScrollProperties

  /** An object the transformer builds from hits. */
  type DomainObject(==)

  /** The page handed to the caller: the result set with its hits as transformed. */
  datatype TransformedPartialResults = TransformedPartialResults(resultSet: ResultSet, items: seq<DomainObject>)

  /** The page a fetch outcome becomes once its hits go through the transformer. */
  function Transformed(transformer: seq<Hit> -> seq<DomainObject>, fetched: Result<ResultSet, Error>): (r: Result<TransformedPartialResults, Error>)
    ensures r.Failure? <==> fetched.Failure?
    ensures fetched.Failure? ==> r.error == fetched.error
    ensures fetched.Success? ==> r.value.resultSet == fetched.value && r.value.items == transformer(fetched.value.hits)
  {
    match fetched
    case Success(rs) => Success(TransformedPartialResults(rs, transformer(rs.hits)))
    case Failure(e) => Failure(e)
  }

  class TransformedScrollPaginatorAdapter {
    const inner: RawScrollPaginatorAdapter
    const transformer: seq<Hit> -> seq<DomainObject>

    ghost predicate Valid()
      reads this, inner
    {
      inner.Valid()
    }

    /** Builds the parent part (Unopened, nothing set), then keeps the transformer. */
    constructor (searchable: Searchable, query: Query, options: Options, transformer: seq<Hit> -> seq<DomainObject>)
      ensures fresh(inner)
      ensures inner.searchable == searchable && inner.query == query && inner.options == options
      ensures inner.Snapshot() == Unopened && inner.calls == []
      ensures this.transformer == transformer
      ensures Valid()
    {
      inner := new RawScrollPaginatorAdapter(searchable, query, options);
      this.transformer := transformer;
    }

    /** The parent's fetch, then the transformer over exactly that page's hits. */
    method GetResults(offset: int, length: int) returns (r: Result<TransformedPartialResults, Error>)
      requires Valid()
      modifies inner
      ensures Valid()
      ensures var st := Fetch(inner.searchable, inner.query, inner.options, old(inner.Snapshot()), offset, length);
              && inner.Snapshot() == st.state && inner.calls == old(inner.calls) + st.calls
              && r == Transformed(transformer, st.value)
    {
      var fetched := inner.GetElasticaResults(offset, length);
      match fetched {
        case Success(rs) => r := Success(TransformedPartialResults(rs, transformer(rs.hits)));
        case Failure(e) => r := Failure(e);
      }
    }
  }

  /**
   * From a fresh adapter, n accepted transformed requests return, in order, the
   * transformer applied to the hits of pages 0 .. n-1 of the one scroll session,
   * each beside the result set it came from.
   */
  lemma TransformedPagesFromUnopened(b: Searchable, q: Query, options: Options,
                                     transformer: seq<Hit> -> seq<DomainObject>, requests: seq<Request>)
    requires |requests| > 0
    requires forall i :: 0 <= i < |requests| ==> Accepted(q.size, requests[i])
    ensures var c := OpenedCursor(q, options, EffectiveLength(q.size, requests[0].offset, requests[0].length));
            var run := Run(b, q, options, Unopened, requests);
            && |run.value| == |requests|
            && forall i :: 0 <= i < |requests| ==>
                 Transformed(transformer, run.value[i])
                 == Success(TransformedPartialResults(b.scrollPage(c.request, c.expiry, i),
                                                      transformer(b.scrollPage(c.request, c.expiry, i).hits)))
  {
    ScrollProperties.RunFromUnopened(b, q, options, requests);
  }
}
