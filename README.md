# Scroll-cursor paginator adapter, modelled in Dafny

This project models the scroll paginator adapters of FOSElasticaBundle:
`RawScrollPaginatorAdapter` and its subclass `TransformedScrollPaginatorAdapter`.
They present Elasticsearch's forward-only scroll cursor through the paginator
adapter contract of offset/length pages, total hits, aggregations, suggests and max score.

The adapter is a small state machine:

- **Unopened.** The `scroll` field is null. The first accepted `getResults(offset, length)`
  clones the query and sets the clone's `size` to the effective page length. It opens a
  scroll with the `expiryTime` option (default `"1m"`) and rewinds to page 0.
- **Open.** Every later accepted call advances the cursor by one page. The offset is not
  used. The length is only checked, so the page size stays the one fixed when the scroll
  was opened.
- **Clamping.** When the query has a `size` cap, the requested length is clipped to
  `size - offset`. A length below one throws InvalidArgument before the backend is
  contacted and before any field is written.
- **Metadata.** Every fetched page overwrites `totalHits`, `aggregations`, `suggests` and
  `maxScore`. While a field is unset, its accessor fills it once:
  `getTotalHits` with a backend `count`, the other three with a backend `search`.
  `getTotalHits` then reports `min(totalHits, size)` unless the genuine total is asked for.

## Layout

- `wrappers.dfy`: `Option`, which stands for PHP's unset fields and null cursor, and
  `Result`, which stands for a thrown exception.
- `elastica.dfy`: the backend, written as values. A `Query` is its `size` parameter plus
  an opaque body. A `ResultSet` holds hits, total, aggregations, suggests and max score.
  `Searchable` is a triple of functions: `count`, `search`, and `scrollPage(request, expiry, i)`,
  the `i`-th page of the scroll opened for `request`.
- `scroll_model.dfy` (`ScrollModel`): the adapter's fields as a `State` datatype. Each
  operation is a function that returns a `Step`: the value returned, the new state and the
  backend calls made (`Count`, `Search`, `OpenScroll`, `Next`). The module also has
  `Consistent`, the state invariant, and `Run`, a sequence of `getResults` calls.
- `scroll_properties.dfy` (`ScrollProperties`): lemmas about single calls and about runs.
- `raw_scroll_paginator_adapter.dfy` (`RawScrollPaginator`): the class with the source's
  fields, written imperatively. Every method except `GetQuery` is proved to equal its
  `ScrollModel` function and to keep `Valid()`; `GetQuery` only reads the stored query.
  A ghost `calls` field logs the backend calls. The PHP default arguments
  (`$options = []`, `$genuineTotal = false`) are Dafny default parameters.
- `transformed_scroll_paginator_adapter.dfy` (`TransformedScrollPaginator`): the subclass.
  Dafny classes cannot extend classes, so the parent part is a fresh `inner`
  `RawScrollPaginatorAdapter`. The inherited accessors are those of `inner`. The
  transformer is a function value on hit sequences.
- `client.dfy`: a caller paging through a query capped at 15 hits, showing what the
  contracts let a caller prove.

## Model

| member | source | states |
|---|---|---|
| RawScrollPaginator.RawScrollPaginatorAdapter.constructor | src/Paginator/RawScrollPaginatorAdapter.php:60-65 | stores searchable, query and options; the cursor is Unopened, every metadata field is unset, no backend call is made |
| RawScrollPaginator.RawScrollPaginatorAdapter.GetElasticaResults | src/Paginator/RawScrollPaginatorAdapter.php:142-176 | returned value, new fields and backend calls are exactly those of `ScrollModel.Fetch` on the old fields; keeps the invariant |
| RawScrollPaginator.RawScrollPaginatorAdapter.GetResults | src/Paginator/RawScrollPaginatorAdapter.php:70-73 | the same state change as the fetch; the page is the fetched result set wrapped unchanged, or the same InvalidArgument |
| RawScrollPaginator.RawScrollPaginatorAdapter.GetTotalHits | src/Paginator/RawScrollPaginatorAdapter.php:78-87 | counts the stored query only when the total is unset, stores the count, reports it through the size-cap rule |
| RawScrollPaginator.RawScrollPaginatorAdapter.GetAggregations | src/Paginator/RawScrollPaginatorAdapter.php:89-96 | searches only when unset, stores the search's aggregations, returns the stored value |
| RawScrollPaginator.RawScrollPaginatorAdapter.GetSuggests | src/Paginator/RawScrollPaginatorAdapter.php:101-108 | searches only when unset, stores the search's suggests, returns the stored value |
| RawScrollPaginator.RawScrollPaginatorAdapter.GetMaxScore | src/Paginator/RawScrollPaginatorAdapter.php:113-120 | searches only when unset, stores the search's max score, returns the stored value |
| RawScrollPaginator.RawScrollPaginatorAdapter.GetQuery | src/Paginator/RawScrollPaginatorAdapter.php:127-130 | returns the constructor's query and changes nothing |
| ScrollModel.Fetch | src/Paginator/RawScrollPaginatorAdapter.php:142-176 | fails exactly when the effective length is below one, and then changes nothing and calls nothing; otherwise makes one backend call, leaves the cursor open and returns the page it is on with the four metadata fields set from it (case by case: FirstFetchOpensScroll, LaterFetchAdvances, RefusedFetchChangesNothing) |
| ScrollModel.Expiry | src/Paginator/RawScrollPaginatorAdapter.php:161 | the `expiryTime` option when present, "1m" otherwise |
| ScrollModel.OpenedCursor | src/Paginator/RawScrollPaginatorAdapter.php:159-163 | the opened session's query is the stored query with only its size replaced by the effective length; it has the configured expiry and is on page 0 |
| ScrollModel.AccessTotalHits | src/Paginator/RawScrollPaginatorAdapter.php:78-87 | only the total field may change; a known total is kept with no call, an unset one becomes the count of the stored query with one Count call; the value is the known total through ReportedTotal (see TotalHitsRule, TotalHitsCountedOnce) |
| ScrollModel.AccessAggregations | src/Paginator/RawScrollPaginatorAdapter.php:89-96 | only the aggregations field may change, to the value returned; a set field is returned with no call, an unset one is filled from one search of the stored query (see AccessorsMemoise) |
| ScrollModel.AccessSuggests | src/Paginator/RawScrollPaginatorAdapter.php:101-108 | only the suggests field may change, to the value returned; a set field is returned with no call, an unset one is filled from one search of the stored query (see AccessorsMemoise) |
| ScrollModel.AccessMaxScore | src/Paginator/RawScrollPaginatorAdapter.php:113-120 | only the max-score field may change, to the value returned; a set field is returned with no call, an unset one is filled from one search of the stored query (see AccessorsMemoise) |
| TransformedScrollPaginator.Transformed | src/Paginator/TransformedScrollPaginatorAdapter.php:31 | a transformed page fails exactly when the fetch does, with the same error; otherwise it holds that result set and the transformer applied to exactly its hits |
| ScrollModel.EffectiveLength | src/Paginator/RawScrollPaginatorAdapter.php:144-151 | the effective length never exceeds the request and never reaches past the cap; it equals the request unless it ends exactly at the cap |
| ScrollModel.ReportedTotal | src/Paginator/RawScrollPaginatorAdapter.php:84-86 | the genuine or uncapped total is the known total; otherwise it is the smaller of the total and the cap |
| ScrollProperties.AcceptedIff | src/Paginator/RawScrollPaginatorAdapter.php:149-155 | a request passes the length check iff its length is at least one and, under a cap, its offset is below the cap |
| ScrollProperties.ClampExamples | src/Paginator/RawScrollPaginatorAdapter.php:145-155 | cap 15: ten items from offset 10 become five; offset 15 throws InvalidArgument |
| ScrollProperties.RefusedFetchChangesNothing | src/Paginator/RawScrollPaginatorAdapter.php:153-155 | a refused request returns InvalidArgument, leaves every field as it was and calls no backend |
| ScrollProperties.FirstFetchOpensScroll | src/Paginator/RawScrollPaginatorAdapter.php:158-163 | on an Unopened cursor: one OpenScroll on the query with only its size set to the effective length, with `expiryTime` or "1m"; the cursor is on page 0 and page 0 is returned |
| ScrollProperties.LaterFetchAdvances | src/Paginator/RawScrollPaginatorAdapter.php:164-168 | on an open cursor: one Next, the same session one page further, and that page returned |
| ScrollProperties.OffsetIgnoredOnceOpen | src/Paginator/RawScrollPaginatorAdapter.php:158-168 | on an open cursor, any two accepted requests give the same page, state and calls, whatever their offsets and lengths |
| ScrollProperties.MetadataMirrorsFetchedPage | src/Paginator/RawScrollPaginatorAdapter.php:168-175 | after an accepted request, total hits, aggregations, suggests and max score are those of the page just returned |
| ScrollProperties.UnopenedConsistent | src/Paginator/RawScrollPaginatorAdapter.php:60-65 | the constructed state satisfies the invariant |
| ScrollProperties.OperationsPreserveConsistent | src/Paginator/RawScrollPaginatorAdapter.php:78-176 | fetch and all four accessors keep the invariant: an open cursor holds the stored query resized to a positive length, the configured expiry, and metadata equal to its current page |
| ScrollProperties.TotalHitsRule | src/Paginator/RawScrollPaginatorAdapter.php:84-86 | with a known total, `getTotalHits` calls nothing, changes nothing, and returns min(total, size) when capped and not genuine, else the total |
| ScrollProperties.TotalHitsCountedOnce | src/Paginator/RawScrollPaginatorAdapter.php:80-82 | with the total unset, the stored query is counted once, the count is memoised, and a second call counts nothing |
| ScrollProperties.AccessorsMemoise | src/Paginator/RawScrollPaginatorAdapter.php:89-120 | each of the three accessors searches the stored query iff its field is unset; a second call returns the same value with no change and no call |
| ScrollProperties.AccessorsAnswerFromCurrentPage | src/Paginator/RawScrollPaginatorAdapter.php:78-120 | once a page has been fetched, all four accessors answer from that page with no backend call and no change |
| ScrollProperties.RunAdvancesByAccepted | src/Paginator/RawScrollPaginatorAdapter.php:149-168 | from an open cursor at page p, refused requests return InvalidArgument, the accepted request at index i returns page p + (accepted requests among the first i+1), and the cursor ends as many pages further on the same session as there were accepted requests |
| ScrollProperties.RunNeverCloses | src/Paginator/RawScrollPaginatorAdapter.php:158-166 | after any sequence of `getResults` calls the cursor is open iff it was open before or some request was accepted; it never returns to null |
| ScrollProperties.RunVisitsNextPages | src/Paginator/RawScrollPaginatorAdapter.php:164-168 | n accepted requests on an open cursor at page p return pages p+1 .. p+n of the same session in order, with one Next each |
| ScrollProperties.RunFromUnopened | src/Paginator/RawScrollPaginatorAdapter.php:157-168 | n accepted requests on a new adapter return pages 0 .. n-1 of one session, opened once and sized by the first request, ending on page n-1 |
| ScrollProperties.RunPreservesConsistent | src/Paginator/RawScrollPaginatorAdapter.php:168-175 | any sequence of `getResults` calls keeps the invariant, so the metadata mirrors the most recently fetched page; the accessors keep it one call at a time (OperationsPreserveConsistent) |
| TransformedScrollPaginator.TransformedScrollPaginatorAdapter.constructor | src/Paginator/TransformedScrollPaginatorAdapter.php:19-24 | the parent part is built as by the raw constructor (Unopened, nothing set), then the transformer is stored |
| TransformedScrollPaginator.TransformedScrollPaginatorAdapter.GetResults | src/Paginator/TransformedScrollPaginatorAdapter.php:29-32 | the same state change and backend calls as the raw fetch, including the same InvalidArgument; the page is the fetched result set with the transformer applied to exactly its hits |
| TransformedScrollPaginator.TransformedPagesFromUnopened | src/Paginator/TransformedScrollPaginatorAdapter.php:31 | n accepted transformed requests on a new adapter return the transformer applied to the hits of pages 0 .. n-1, in order, each beside its result set |

## Left out

- Scroll transport, expiry timing, end-of-scroll and backend errors: these are I/O owned by the backend. The backend is a fixed set of function values, so its data does not change between calls. The expiry appears only as the string passed when the scroll is opened.
- What a scroll page holds past the end of the results is whatever `scrollPage` gives for that index. Elastica's behaviour there is not modelled.
- `maxScore`, aggregations and suggests are opaque values that are only copied. Float arithmetic is not modelled.
- The transformer's semantics, which may drop or expand hits, are not modelled. It is an arbitrary function value. A transformer failure propagating as an exception is not modelled.
- `RawPartialResults` and `TransformedPartialResults` are Elastica/bundle wrapper classes that are not part of this model. They are records of the result set, plus the transformed items for the transformed page.
- Query normalisation (`Query::create`) and every query parameter other than `size` are opaque. A `size` parameter that PHP's `(int)` cast would convert from a non-integer is taken to be an integer already.
- An options entry `expiryTime` holding null, which `??` treats as absent, is not modelled. Option values are strings.
- PHP integer overflow in `$offset + $itemCountPerPage` is not modelled. Integers are unbounded.
- src/Finder/TransformedFinder.php, src/Repository.php and src/Finder/PaginatedFinderInterface.php are not part of this model. They only delegate and construct.
- Inheritance is not modelled as such. The transformed adapter's inherited accessors (`getTotalHits`, `getAggregations`, `getSuggests`, `getMaxScore`, `getQuery`) are called on its `inner` raw adapter.
- The stored query is a value. PHP keeps a reference to the caller's Query object and `getQuery` hands that same object out, so a later `setSize` on it would change both the clamp and the cap used for total hits. The model takes the query to be immutable once the adapter is built.
