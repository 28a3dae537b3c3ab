/** What the scroll adapter's state machine guarantees, one call at a time and over many calls. */
module ScrollProperties {
  import opened Wrappers
  import opened Elastica
  import opened ScrollModel

  /** A request is refused exactly when its length is not positive or its offset is already at or past the cap. */
  lemma AcceptedIff(size: Option<int>, offset: int, length: int)
    ensures EffectiveLength(size, offset, length) >= 1 <==> length >= 1 && (size.Some? ==> offset < size.value)
  {
  }

  /** With a cap of 15, ten items from offset 10 become five, and offset 15 is refused. */
  lemma ClampExamples(b: Searchable, q: Query, options: Options, s: State)
    requires q.size == Some(15)
    ensures EffectiveLength(q.size, 10, 10) == 5
    ensures Fetch(b, q, options, s, 15, 10).value == Failure(InvalidArgument(LengthMessage))
  {
  }

  /** A refused request throws before anything else: no field changes and the backend is not contacted. */
  lemma RefusedFetchChangesNothing(b: Searchable, q: Query, options: Options, s: State, offset: int, length: int)
    requires EffectiveLength(q.size, offset, length) < 1
    ensures Fetch(b, q, options, s, offset, length) == Step(Failure(InvalidArgument(LengthMessage)), s, [])
  {
  }

  /**
   * The first accepted request opens the scroll on a copy of the query whose
   * size is the effective length, with the configured lifetime ("1m" when
   * none is configured), and returns page 0.
   */
  lemma FirstFetchOpensScroll(b: Searchable, q: Query, options: Options, s: State, offset: int, length: int)
    requires s.scroll.None?
    requires EffectiveLength(q.size, offset, length) >= 1
    ensures var n := EffectiveLength(q.size, offset, length);
            var st := Fetch(b, q, options, s, offset, length);
            && st.calls == [OpenScroll(q.(size := Some(n)), Expiry(options))]
            && st.state.scroll == Some(Cursor(q.(size := Some(n)), Expiry(options), 0))
            && st.value == Success(b.scrollPage(q.(size := Some(n)), Expiry(options), 0))
    ensures "expiryTime" !in options ==> Expiry(options) == "1m"
    ensures "expiryTime" in options ==> Expiry(options) == options["expiryTime"]
  {
  }

  /** Once open, an accepted request moves the cursor forward by exactly one page and opens nothing. */
  lemma LaterFetchAdvances(b: Searchable, q: Query, options: Options, c: Cursor, s: State, offset: int, length: int)
    requires s.scroll == Some(c)
    requires EffectiveLength(q.size, offset, length) >= 1
    ensures var st := Fetch(b, q, options, s, offset, length);
            && st.calls == [Next]
            && st.state.scroll == Some(Cursor(c.request, c.expiry, c.position + 1))
            && st.value == Success(b.scrollPage(c.request, c.expiry, c.position + 1))
  {
  }

  /** Once open, the requested offset and length play no part beyond the length check. */
  lemma OffsetIgnoredOnceOpen(b: Searchable, q: Query, options: Options, s: State, r1: Request, r2: Request)
    requires s.scroll.Some?
    requires Accepted(q.size, r1) && Accepted(q.size, r2)
    ensures Fetch(b, q, options, s, r1.offset, r1.length) == Fetch(b, q, options, s, r2.offset, r2.length)
  {
  }

  /** After an accepted request the four metadata fields hold the page just returned. */
  lemma MetadataMirrorsFetchedPage(b: Searchable, q: Query, options: Options, s: State, offset: int, length: int)
    requires Fetch(b, q, options, s, offset, length).value.Success?
    ensures var st := Fetch(b, q, options, s, offset, length);
            var rs := st.value.value;
            && st.state.totalHits == Some(rs.totalHits)
            && st.state.aggregations == Some(rs.aggregations)
            && st.state.suggests == Some(rs.suggests)
            && st.state.maxScore == Some(rs.maxScore)
  {
  }

  /** The constructor's state satisfies the invariant. */
  lemma UnopenedConsistent(b: Searchable, q: Query, options: Options)
    ensures Consistent(b, q, options, Unopened)
  {
  }

  /** Every operation keeps the invariant. */
  lemma OperationsPreserveConsistent(b: Searchable, q: Query, options: Options, s: State, offset: int, length: int, genuineTotal: bool)
    requires Consistent(b, q, options, s)
    ensures Consistent(b, q, options, Fetch(b, q, options, s, offset, length).state)
    ensures Consistent(b, q, options, AccessTotalHits(b, q, s, genuineTotal).state)
    ensures Consistent(b, q, options, AccessAggregations(b, q, s).state)
    ensures Consistent(b, q, options, AccessSuggests(b, q, s).state)
    ensures Consistent(b, q, options, AccessMaxScore(b, q, s).state)
  {
  }

  /** The reported total is the smaller of the known total and the cap, unless the genuine total is asked for. */
  lemma TotalHitsRule(b: Searchable, q: Query, s: State, genuineTotal: bool)
    requires s.totalHits.Some?
    ensures var st := AccessTotalHits(b, q, s, genuineTotal);
            && st.calls == [] && st.state == s
            && (q.size.Some? && !genuineTotal ==> st.value == if s.totalHits.value <= q.size.value then s.totalHits.value else q.size.value)
            && (q.size.None? || genuineTotal ==> st.value == s.totalHits.value)
  {
  }

  /**
   * While the total is unset, `getTotalHits` counts the stored query once and
   * keeps the count, so a second call does not count again and reports the
   * same way.
   */
  lemma TotalHitsCountedOnce(b: Searchable, q: Query, s: State, g1: bool, g2: bool)
    requires s.totalHits.None?
    ensures var st := AccessTotalHits(b, q, s, g1);
            && st.calls == [Count(q)]
            && st.state == s.(totalHits := Some(b.count(q)))
            && st.value == ReportedTotal(b.count(q), q.size, g1)
            && AccessTotalHits(b, q, st.state, g2) == Step(ReportedTotal(b.count(q), q.size, g2), st.state, [])
  {
  }

  /**
   * The memoised accessors search the stored query only while their field is
   * unset; a second call returns the same value, changes nothing and calls
   * nothing.
   */
  lemma AccessorsMemoise(b: Searchable, q: Query, s: State)
    ensures var st := AccessAggregations(b, q, s);
            && st.calls == (if s.aggregations.None? then [Search(q)] else [])
            && st.value == (if s.aggregations.None? then b.search(q).aggregations else s.aggregations.value)
            && AccessAggregations(b, q, st.state) == Step(st.value, st.state, [])
    ensures var st := AccessSuggests(b, q, s);
            && st.calls == (if s.suggests.None? then [Search(q)] else [])
            && st.value == (if s.suggests.None? then b.search(q).suggests else s.suggests.value)
            && AccessSuggests(b, q, st.state) == Step(st.value, st.state, [])
    ensures var st := AccessMaxScore(b, q, s);
            && st.calls == (if s.maxScore.None? then [Search(q)] else [])
            && st.value == (if s.maxScore.None? then b.search(q).maxScore else s.maxScore.value)
            && AccessMaxScore(b, q, st.state) == Step(st.value, st.state, [])
  {
  }

  /** Once a page has been fetched, every accessor answers from that page without calling the backend. */
  lemma AccessorsAnswerFromCurrentPage(b: Searchable, q: Query, options: Options, s: State, genuineTotal: bool)
    requires Consistent(b, q, options, s)
    requires s.scroll.Some?
    ensures var rs := Page(b, s.scroll.value);
            && AccessTotalHits(b, q, s, genuineTotal) == Step(ReportedTotal(rs.totalHits, q.size, genuineTotal), s, [])
            && AccessAggregations(b, q, s) == Step(rs.aggregations, s, [])
            && AccessSuggests(b, q, s) == Step(rs.suggests, s, [])
            && AccessMaxScore(b, q, s) == Step(rs.maxScore, s, [])
  {
  }

  /**
   * From an open cursor, every request either is refused and returns
   * InvalidArgument, or moves the cursor one page on; so the cursor ends as
   * many pages further as there were accepted requests, on the same session.
   */
  lemma {:induction false} RunAdvancesByAccepted(b: Searchable, q: Query, options: Options, s: State, c: Cursor, requests: seq<Request>)
    requires s.scroll == Some(c)
    ensures Run(b, q, options, s, requests).state.scroll == Some(Cursor(c.request, c.expiry, c.position + AcceptedCount(q.size, requests)))
    ensures |Run(b, q, options, s, requests).value| == |requests|
    ensures forall i :: 0 <= i < |requests| && !Accepted(q.size, requests[i]) ==>
              Run(b, q, options, s, requests).value[i] == Failure(InvalidArgument(LengthMessage))
    ensures forall i :: 0 <= i < |requests| && Accepted(q.size, requests[i]) ==>
              Run(b, q, options, s, requests).value[i]
              == Success(b.scrollPage(c.request, c.expiry, c.position + AcceptedCount(q.size, requests[..i + 1])))
    decreases |requests|
  {
    if requests != [] {
      var first := Fetch(b, q, options, s, requests[0].offset, requests[0].length);
      var c' := first.state.scroll.value;
      RunAdvancesByAccepted(b, q, options, first.state, c', requests[1..]);
      var run := Run(b, q, options, s, requests);
      var rest := Run(b, q, options, first.state, requests[1..]);
      assert run.value == [first.value] + rest.value;
      forall i | 0 <= i < |requests| && !Accepted(q.size, requests[i])
        ensures run.value[i] == Failure(InvalidArgument(LengthMessage))
      {
        if i > 0 {
          assert requests[i] == requests[1..][i - 1];
        }
      }
      var head := if Accepted(q.size, requests[0]) then 1 else 0;
      assert c' == Cursor(c.request, c.expiry, c.position + head);
      forall i | 0 <= i < |requests| && Accepted(q.size, requests[i])
        ensures run.value[i] == Success(b.scrollPage(c.request, c.expiry, c.position + AcceptedCount(q.size, requests[..i + 1])))
      {
        assert requests[..i + 1][0] == requests[0];
        assert requests[..i + 1][1..] == requests[1..][..i];
        assert AcceptedCount(q.size, requests[..i + 1]) == head + AcceptedCount(q.size, requests[1..][..i]);
        if i == 0 {
          assert requests[1..][..0] == [];
        } else {
          assert requests[i] == requests[1..][i - 1];
          assert requests[1..][..i] == requests[1..][..(i - 1) + 1];
          assert run.value[i] == rest.value[i - 1];
        }
      }
    }
  }

  /** An open cursor never goes back to Unopened, and an unopened one opens exactly when some request is accepted. */
  lemma {:induction false} RunNeverCloses(b: Searchable, q: Query, options: Options, s: State, requests: seq<Request>)
    ensures Run(b, q, options, s, requests).state.scroll.Some? <==> s.scroll.Some? || AcceptedCount(q.size, requests) > 0
    decreases |requests|
  {
    if requests != [] {
      var first := Fetch(b, q, options, s, requests[0].offset, requests[0].length);
      if first.state.scroll.Some? {
        RunAdvancesByAccepted(b, q, options, first.state, first.state.scroll.value, requests[1..]);
      } else {
        RunNeverCloses(b, q, options, first.state, requests[1..]);
      }
    }
  }

  /** Accepted requests on an open cursor return the following pages of the same session, one each, in order. */
  lemma {:induction false} RunVisitsNextPages(b: Searchable, q: Query, options: Options, s: State, c: Cursor, requests: seq<Request>)
    requires s.scroll == Some(c)
    requires forall i :: 0 <= i < |requests| ==> Accepted(q.size, requests[i])
    ensures var run := Run(b, q, options, s, requests);
            && |run.value| == |requests| && |run.calls| == |requests|
            && (forall i :: 0 <= i < |requests| ==> run.value[i] == Success(b.scrollPage(c.request, c.expiry, c.position + 1 + i)))
            && (forall i :: 0 <= i < |requests| ==> run.calls[i] == Next)
            && run.state.scroll == Some(Cursor(c.request, c.expiry, c.position + |requests|))
    decreases |requests|
  {
    if requests != [] {
      assert Accepted(q.size, requests[0]);
      var first := Fetch(b, q, options, s, requests[0].offset, requests[0].length);
      var c' := Cursor(c.request, c.expiry, c.position + 1);
      assert first.state.scroll == Some(c');
      assert first.value == Success(b.scrollPage(c.request, c.expiry, c.position + 1));
      assert first.calls == [Next];
      forall i | 0 <= i < |requests[1..]| ensures Accepted(q.size, requests[1..][i]) {
        assert requests[1..][i] == requests[i + 1];
      }
      RunVisitsNextPages(b, q, options, first.state, c', requests[1..]);
      var run := Run(b, q, options, s, requests);
      var rest := Run(b, q, options, first.state, requests[1..]);
      assert run.value == [first.value] + rest.value;
      assert run.calls == first.calls + rest.calls;
    }
  }

  /**
   * From a fresh adapter, n accepted requests return pages 0 .. n-1 of one
   * scroll session, opened once on the query sized by the first request's
   * effective length, and leave the cursor on page n-1.
   */
  lemma {:induction false} RunFromUnopened(b: Searchable, q: Query, options: Options, requests: seq<Request>)
    requires |requests| > 0
    requires forall i :: 0 <= i < |requests| ==> Accepted(q.size, requests[i])
    ensures var c := OpenedCursor(q, options, EffectiveLength(q.size, requests[0].offset, requests[0].length));
            var run := Run(b, q, options, Unopened, requests);
            && |run.value| == |requests| && |run.calls| == |requests|
            && (forall i :: 0 <= i < |requests| ==> run.value[i] == Success(b.scrollPage(c.request, c.expiry, i)))
            && run.calls[0] == OpenScroll(c.request, c.expiry)
            && (forall i :: 1 <= i < |requests| ==> run.calls[i] == Next)
            && run.state.scroll == Some(Cursor(c.request, c.expiry, |requests| - 1))
  {
    var c := OpenedCursor(q, options, EffectiveLength(q.size, requests[0].offset, requests[0].length));
    assert Accepted(q.size, requests[0]);
    var first := Fetch(b, q, options, Unopened, requests[0].offset, requests[0].length);
    assert first.state.scroll == Some(c);
    assert first.value == Success(b.scrollPage(c.request, c.expiry, 0));
    assert first.calls == [OpenScroll(c.request, c.expiry)];
    var tail := requests[1..];
    forall i | 0 <= i < |tail| ensures Accepted(q.size, tail[i]) {
      assert tail[i] == requests[i + 1];
    }
    RunVisitsNextPages(b, q, options, first.state, c, tail);
    var rest := Run(b, q, options, first.state, tail);
    var run := Run(b, q, options, Unopened, requests);
    assert run == Step([first.value] + rest.value, rest.state, first.calls + rest.calls);
    forall i | 1 <= i < |requests|
      ensures run.value[i] == Success(b.scrollPage(c.request, c.expiry, i)) && run.calls[i] == Next
    {
      assert run.value[i] == rest.value[i - 1];
      assert run.calls[i] == rest.calls[i - 1];
    }
  }

  /** Any sequence of calls keeps the invariant, so after the last fetched page the metadata is that page's. */
  lemma {:induction false} RunPreservesConsistent(b: Searchable, q: Query, options: Options, s: State, requests: seq<Request>)
    requires Consistent(b, q, options, s)
    ensures Consistent(b, q, options, Run(b, q, options, s, requests).state)
    decreases |requests|
  {
    if requests != [] {
      var first := Fetch(b, q, options, s, requests[0].offset, requests[0].length);
      OperationsPreserveConsistent(b, q, options, s, requests[0].offset, requests[0].length, false);
      RunPreservesConsistent(b, q, options, first.state, requests[1..]);
    }
  }
}
