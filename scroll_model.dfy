/**
 * The scroll-cursor adapter as a state machine on values. Each public operation
 * is a function from the adapter's state to a Step: the value returned, the new
 * state and the backend calls made. The classes in RawScrollPaginator and
 * TransformedScrollPaginator are proved to behave exactly as these functions.
 */
module ScrollModel {
  import opened Wrappers
  import opened Elastica

  /** The scroll lifetime used when the options give no `expiryTime`. */
  const DefaultExpiry: string := "1m"

  const LengthMessage: string := "$itemCountPerPage must be greater than zero"

  datatype Error = InvalidArgument(message: string)

  /** An open scroll session: the query it was opened with, its lifetime and its current page. */
  datatype Cursor = Cursor(request: Query, expiry: string, position: nat)

  /** A call into the backend. `OpenScroll` stands for createSearch, scroll and rewind together. */
  datatype Call = Count(query: Query) | Search(query: Query) | OpenScroll(request: Query, expiry: string) | Next

  /**
   * The adapter's mutable fields. `None` is a field PHP's `isset` reports unset
   * (for `scroll`: the null cursor, the Unopened state).
   */
  datatype State = State(
    scroll: Option<Cursor>,
    totalHits: Option<int>,
    aggregations: Option<Aggregations>,
    suggests: Option<Suggests>,
    maxScore: Option<Score>)

  /** The outcome of one operation. */
  datatype Step<T> = Step(value: T, state: State, calls: seq<Call>)

  /** A `getResults(offset, length)` request. */
  datatype Request = Request(offset: int, length: int)

  /** The state a freshly constructed adapter is in. */
  const Unopened: State := State(None, None, None, None, None)

  /** The lifetime the scroll is opened with: `options['expiryTime'] ?? '1m'`. */
  function Expiry(options: Options): (e: string)
    ensures "expiryTime" in options ==> e == options["expiryTime"]
    ensures "expiryTime" !in options ==> e == "1m"
  {
    if "expiryTime" in options then options["expiryTime"] else DefaultExpiry
  }

  /**
   * The page length after clamping to the query's size cap: the requested
   * length, unless the page would reach past the cap, in which case exactly
   * the remainder up to the cap.
   */
  function EffectiveLength(size: Option<int>, offset: int, length: int): (n: int)
    ensures n <= length
    ensures size.Some? ==> offset + n <= size.value
    ensures n == length || (size.Some? && offset + n == size.value)
  {
    if size.Some? && size.value < offset + length then size.value - offset else length
  }

  /** Whether a request gets past the length check. */
  predicate Accepted(size: Option<int>, r: Request)
  {
    EffectiveLength(size, r.offset, r.length) >= 1
  }

  /** The result set the backend holds at the cursor's position. */
  function Page(b: Searchable, c: Cursor): ResultSet
  {
    b.scrollPage(c.request, c.expiry, c.position)
  }

  /** The cursor a first, accepted request opens. */
  function OpenedCursor(q: Query, options: Options, n: int): (c: Cursor)
    ensures c.request.size == Some(n) && c.request.(size := q.size) == q
    ensures c.expiry == Expiry(options) && c.position == 0
  {
    Cursor(q.(size := Some(n)), Expiry(options), 0)
  }

  /**
   * `getElasticaResults(offset, length)`: clamp and check the length, open the
   * cursor or advance it by one page, and overwrite the four metadata fields
   * from the page it lands on.
   */
  function Fetch(b: Searchable, q: Query, options: Options, s: State, offset: int, length: int): (st: Step<Result<ResultSet, Error>>)
    ensures st.value.Failure? <==> EffectiveLength(q.size, offset, length) < 1
    ensures st.value.Failure? ==> st.state == s && st.calls == []
    ensures st.value.Success? ==>
              && |st.calls| == 1 && st.state.scroll.Some?
              && st.value.value == Page(b, st.state.scroll.value)
              && st.state.totalHits == Some(st.value.value.totalHits)
              && st.state.aggregations == Some(st.value.value.aggregations)
              && st.state.suggests == Some(st.value.value.suggests)
              && st.state.maxScore == Some(st.value.value.maxScore)
  {
    var n := EffectiveLength(q.size, offset, length);
    if n < 1 then
      Step(Failure(InvalidArgument(LengthMessage)), s, [])
    else
      var c := if s.scroll.None? then OpenedCursor(q, options, n)
               else s.scroll.value.(position := s.scroll.value.position + 1);
      var call := if s.scroll.None? then OpenScroll(c.request, c.expiry) else Next;
      var rs := Page(b, c);
      Step(Success(rs), State(Some(c), Some(rs.totalHits), Some(rs.aggregations), Some(rs.suggests), Some(rs.maxScore)), [call])
  }

  /** The total `getTotalHits` reports for a known total. */
  function ReportedTotal(total: int, size: Option<int>, genuineTotal: bool): (r: int)
    ensures genuineTotal || size.None? ==> r == total
    ensures size.Some? && !genuineTotal ==> r <= total && r <= size.value && (r == total || r == size.value)
  {
    if size.Some? && !genuineTotal then
      if total <= size.value then total else size.value
    else
      total
  }

  /** `getTotalHits(genuineTotal)`: count only while the total is unset, then apply the cap. */
  function AccessTotalHits(b: Searchable, q: Query, s: State, genuineTotal: bool): (st: Step<int>)
    ensures st.state.totalHits.Some? && st.state == s.(totalHits := st.state.totalHits)
    ensures s.totalHits.Some? ==> st.state == s && st.calls == []
    ensures s.totalHits.None? ==> st.state.totalHits == Some(b.count(q)) && st.calls == [Count(q)]
    ensures st.value == ReportedTotal(st.state.totalHits.value, q.size, genuineTotal)
  {
    var total := if s.totalHits.Some? then s.totalHits.value else b.count(q);
    var calls := if s.totalHits.Some? then [] else [Count(q)];
    Step(ReportedTotal(total, q.size, genuineTotal), s.(totalHits := Some(total)), calls)
  }

  /** `getAggregations()`: search only while the field is unset. */
  function AccessAggregations(b: Searchable, q: Query, s: State): (st: Step<Aggregations>)
    ensures st.state == s.(aggregations := Some(st.value))
    ensures s.aggregations.Some? ==> st.value == s.aggregations.value && st.calls == []
    ensures s.aggregations.None? ==> st.value == b.search(q).aggregations && st.calls == [Search(q)]
  {
    if s.aggregations.Some? then Step(s.aggregations.value, s, [])
    else
      var v := b.search(q).aggregations;
      Step(v, s.(aggregations := Some(v)), [Search(q)])
  }

  /** `getSuggests()`: search only while the field is unset. */
  function AccessSuggests(b: Searchable, q: Query, s: State): (st: Step<Suggests>)
    ensures st.state == s.(suggests := Some(st.value))
    ensures s.suggests.Some? ==> st.value == s.suggests.value && st.calls == []
    ensures s.suggests.None? ==> st.value == b.search(q).suggests && st.calls == [Search(q)]
  {
    if s.suggests.Some? then Step(s.suggests.value, s, [])
    else
      var v := b.search(q).suggests;
      Step(v, s.(suggests := Some(v)), [Search(q)])
  }

  /** `getMaxScore()`: search only while the field is unset. */
  function AccessMaxScore(b: Searchable, q: Query, s: State): (st: Step<Score>)
    ensures st.state == s.(maxScore := Some(st.value))
    ensures s.maxScore.Some? ==> st.value == s.maxScore.value && st.calls == []
    ensures s.maxScore.None? ==> st.value == b.search(q).maxScore && st.calls == [Search(q)]
  {
    if s.maxScore.Some? then Step(s.maxScore.value, s, [])
    else
      var v := b.search(q).maxScore;
      Step(v, s.(maxScore := Some(v)), [Search(q)])
  }

  /**
   * The invariant of the adapter's state: an open cursor was opened on the
   * stored query with only its size replaced by a positive page length, with
   * the configured lifetime, and the four metadata fields hold the page the
   * cursor is on.
   */
  ghost predicate Consistent(b: Searchable, q: Query, options: Options, s: State)
  {
    s.scroll.Some? ==>
      var c := s.scroll.value;
      && c.request.size.Some? && c.request.size.value >= 1
      && c.request.(size := q.size) == q
      && c.expiry == Expiry(options)
      && s.totalHits == Some(Page(b, c).totalHits)
      && s.aggregations == Some(Page(b, c).aggregations)
      && s.suggests == Some(Page(b, c).suggests)
      && s.maxScore == Some(Page(b, c).maxScore)
  }

  /** A sequence of `getResults` calls on one adapter, in order. */
  function Run(b: Searchable, q: Query, options: Options, s: State, requests: seq<Request>): Step<seq<Result<ResultSet, Error>>>
    decreases |requests|
  {
    if requests == [] then Step([], s, [])
    else
      var first := Fetch(b, q, options, s, requests[0].offset, requests[0].length);
      var rest := Run(b, q, options, first.state, requests[1..]);
      Step([first.value] + rest.value, rest.state, first.calls + rest.calls)
  }

  /** How many of the requests get past the length check. */
  function AcceptedCount(size: Option<int>, requests: seq<Request>): nat
    decreases |requests|
  {
    if requests == [] then 0
    else (if Accepted(size, requests[0]) then 1 else 0) + AcceptedCount(size, requests[1..])
  }
}
