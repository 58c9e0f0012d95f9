/** The fetch-all routine `DingClient::_load_all`: page through a collection
    by offset until the server reports no next page, accumulating records in
    order. It is generic over the parameter bundle `P`, which it only
    rebuilds through the `IterableRequest` capability, and over the record
    type `T`; the page call is a function from a bundle to a page or an
    error. */
module Pagination {
  import opened Base
  import opened Http
  import opened Errors
  import opened Types

  /** The `IterableRequest` capability: rebuild a bundle with another
      `limit` or another `offset`. */
  datatype Paging<!P> = Paging(limit: (P, Option<uint64>) -> P, offset: (P, Option<uint64>) -> P)

  const TagsPaging: Paging<TagsRequest> :=
    Paging((r: TagsRequest, l: Option<uint64>) => r.WithLimit(l), (r: TagsRequest, o: Option<uint64>) => r.WithOffset(o))

  const BookmarksPaging: Paging<BookmarksRequest> :=
    Paging((r: BookmarksRequest, l: Option<uint64>) => r.WithLimit(l), (r: BookmarksRequest, o: Option<uint64>) => r.WithOffset(o))

  /** The bundle every page is requested from: the caller's limit and
      offset cleared, so the server's page size applies. */
  function Cleared<P>(paging: Paging<P>, params: P): P {
    paging.offset(paging.limit(params, None), None)
  }

  /** The capability records apply the setters of each bundle, so clearing
      leaves a tag bundle with no paging at all and a bookmark bundle with
      only the caller's query. */
  lemma ClearedBundles(t: TagsRequest, b: BookmarksRequest, x: Option<uint64>)
    ensures TagsPaging.limit(t, x) == t.WithLimit(x) && TagsPaging.offset(t, x) == t.WithOffset(x)
    ensures BookmarksPaging.limit(b, x) == b.WithLimit(x) && BookmarksPaging.offset(b, x) == b.WithOffset(x)
    ensures Cleared(TagsPaging, t) == TagsRequest(None, None)
    ensures Cleared(BookmarksPaging, b) == BookmarksRequest(b.query, None, None)
  {
  }

  type PageCall<!P, T> = P -> Result<Envelope<T>, DingError>

  /** A page that announces a next page holds at least one record, and the
      offset advanced past it still fits a `u64`. Without the first the loop
      asks for the same page forever; without the second `offset +=`
      overflows. */
  predicate AdvancesAt<P, T>(call: PageCall<P, T>, request: P, offset: uint64) {
    match call(request)
    case Ok(page) => page.next.Some? ==> 0 < |page.results| && offset as int + |page.results| < U64_LIMIT
    case Err(_) => true
  }

  ghost predicate MakesProgress<P, T>(call: PageCall<P, T>, paging: Paging<P>, base: P) {
    forall offset: uint64 :: AdvancesAt(call, paging.offset(base, Some(offset)), offset)
  }

  /** One page call: the loop's offset, the bundle sent, and the answer. */
  datatype PageExchange<P, T> = PageExchange(offset: uint64, request: P, response: Result<Envelope<T>, DingError>)

  /** The page calls the loop makes from `offset` on, in order. */
  ghost function Transcript<P, T>(call: PageCall<P, T>, paging: Paging<P>, base: P, offset: uint64): (t: seq<PageExchange<P, T>>)
    requires MakesProgress(call, paging, base)
    ensures |t| >= 1
    decreases U64_LIMIT - offset as int
  {
    var request := paging.offset(base, Some(offset));
    var response := call(request);
    assert AdvancesAt(call, request, offset);
    if response.Err? || response.value.next.None? then
      [PageExchange(offset, request, response)]
    else
      [PageExchange(offset, request, response)] + Transcript(call, paging, base, offset + |response.value.results| as uint64)
  }

  function PageResults<P, T>(e: PageExchange<P, T>): seq<T> {
    match e.response
    case Ok(page) => page.results
    case Err(_) => []
  }

  /** The records of every page in the transcript, in order. */
  function Flatten<P, T>(t: seq<PageExchange<P, T>>): seq<T> {
    if t == [] then [] else PageResults(t[0]) + Flatten(t[1..])
  }

  /** What `_load_all` returns after a transcript: the error of its last
      call if that failed, otherwise every record fetched. */
  function Collected<P, T>(t: seq<PageExchange<P, T>>): Result<seq<T>, DingError>
    requires |t| >= 1
  {
    match t[|t| - 1].response
    case Err(e) => Err(e)
    case Ok(_) => Ok(Flatten(t))
  }

  function Prepend<T>(prefix: seq<T>, r: Result<seq<T>, DingError>): Result<seq<T>, DingError> {
    match r
    case Ok(rest) => Ok(prefix + rest)
    case Err(e) => Err(e)
  }

  lemma FlattenCons<P, T>(e: PageExchange<P, T>, rest: seq<PageExchange<P, T>>)
    ensures Flatten([e] + rest) == PageResults(e) + Flatten(rest)
  {
    assert ([e] + rest)[1..] == rest;
  }

  lemma PrependAssociates<T>(a: seq<T>, b: seq<T>, r: Result<seq<T>, DingError>)
    ensures Prepend(a, Prepend(b, r)) == Prepend(a + b, r)
    ensures Prepend([], r) == r
  {
    if r.Ok? {
      assert a + (b + r.value) == (a + b) + r.value;
      assert [] + r.value == r.value;
    }
  }

  /** A page without a next link ends the transcript, and the outcome is its
      records. */
  lemma CollectedLast<P, T>(call: PageCall<P, T>, paging: Paging<P>, base: P, offset: uint64)
    requires MakesProgress(call, paging, base)
    requires call(paging.offset(base, Some(offset))).Ok?
    requires call(paging.offset(base, Some(offset))).value.next.None?
    ensures Collected(Transcript(call, paging, base, offset)) == Ok(call(paging.offset(base, Some(offset))).value.results)
  {
    var request := paging.offset(base, Some(offset));
    var e := PageExchange(offset, request, call(request));
    assert Transcript(call, paging, base, offset) == [e];
    assert Flatten([e]) == PageResults(e) + Flatten([e][1..]);
    assert [e][1..] == [];
    assert PageResults(e) + [] == PageResults(e);
  }

  /** Past a page that announces a next one, the outcome is that page's
      records in front of the outcome from the advanced offset. */
  lemma CollectedStep<P, T>(call: PageCall<P, T>, paging: Paging<P>, base: P, offset: uint64, next: uint64)
    requires MakesProgress(call, paging, base)
    requires call(paging.offset(base, Some(offset))).Ok?
    requires call(paging.offset(base, Some(offset))).value.next.Some?
    requires next as int == offset as int + |call(paging.offset(base, Some(offset))).value.results|
    ensures Collected(Transcript(call, paging, base, offset)) ==
            Prepend(call(paging.offset(base, Some(offset))).value.results, Collected(Transcript(call, paging, base, next)))
  {
    var request := paging.offset(base, Some(offset));
    var e := PageExchange(offset, request, call(request));
    var rest := Transcript(call, paging, base, next);
    assert Transcript(call, paging, base, offset) == [e] + rest;
    FlattenCons(e, rest);
    assert ([e] + rest)[|rest|] == rest[|rest| - 1];
  }

  /** `_load_all`. */
  method LoadAll<P, T>(params: P, paging: Paging<P>, call: PageCall<P, T>) returns (r: Result<seq<T>, DingError>)
    requires MakesProgress(call, paging, Cleared(paging, params))
    ensures r == Collected(Transcript(call, paging, Cleared(paging, params), 0))
  {
    var base := paging.offset(paging.limit(params, None), None);
    var offset: uint64 := 0;
    var results: seq<T> := [];
    var resp := call(paging.offset(base, Some(offset)));
    if resp.Err? {
      return Err(resp.error);
    }
    var page := resp.value;
    PrependAssociates([], [], Collected(Transcript(call, paging, base, 0)));
    while true
      invariant call(paging.offset(base, Some(offset))) == Ok(page)
      invariant Collected(Transcript(call, paging, base, 0)) == Prepend(results, Collected(Transcript(call, paging, base, offset)))
      decreases U64_LIMIT - offset as int
    {
      ghost var before := results;
      results := results + page.Results();
      if page.Next().None? {
        CollectedLast(call, paging, base, offset);
        break;
      }
      assert AdvancesAt(call, paging.offset(base, Some(offset)), offset);
      ghost var was := offset;
      offset := offset + |page.Results()| as uint64;
      CollectedStep(call, paging, base, was, offset);
      PrependAssociates(before, page.results, Collected(Transcript(call, paging, base, offset)));
      resp := call(paging.offset(base, Some(offset)));
      if resp.Err? {
        return Err(resp.error);
      }
      page := resp.value;
    }
    return Ok(results);
  }

  /** Every call sends the base bundle with the offset the loop holds at that
      point, and that offset is the starting offset plus the number of
      records all earlier pages returned. */
  lemma {:induction false} TranscriptAt<P, T>(call: PageCall<P, T>, paging: Paging<P>, base: P, offset: uint64, k: nat)
    requires MakesProgress(call, paging, base)
    requires k < |Transcript(call, paging, base, offset)|
    ensures var t := Transcript(call, paging, base, offset);
            && t[k].request == paging.offset(base, Some(t[k].offset))
            && t[k].response == call(t[k].request)
            && t[k].offset as int == offset as int + |Flatten(t[..k])|
    decreases k
  {
    var t := Transcript(call, paging, base, offset);
    var request := paging.offset(base, Some(offset));
    var e := PageExchange(offset, request, call(request));
    assert t[0] == e;
    if k == 0 {
      assert t[..0] == [];
    } else {
      assert AdvancesAt(call, request, offset);
      var page := call(request).value;
      var next := offset + |page.results| as uint64;
      var rest := Transcript(call, paging, base, next);
      assert t == [e] + rest;
      TranscriptAt(call, paging, base, next, k - 1);
      assert t[k] == rest[k - 1];
      assert t[..k] == [e] + rest[..k - 1];
      FlattenCons(e, rest[..k - 1]);
      assert PageResults(e) == page.results;
    }
  }

  lemma TranscriptRequests<P, T>(call: PageCall<P, T>, paging: Paging<P>, base: P, offset: uint64)
    requires MakesProgress(call, paging, base)
    ensures var t := Transcript(call, paging, base, offset);
            forall k :: 0 <= k < |t| ==>
              && t[k].request == paging.offset(base, Some(t[k].offset))
              && t[k].response == call(t[k].request)
              && t[k].offset as int == offset as int + |Flatten(t[..k])|
  {
    var t := Transcript(call, paging, base, offset);
    forall k | 0 <= k < |t|
      ensures t[k].request == paging.offset(base, Some(t[k].offset))
      ensures t[k].response == call(t[k].request)
      ensures t[k].offset as int == offset as int + |Flatten(t[..k])|
    {
      TranscriptAt(call, paging, base, offset, k);
    }
  }

  /** Every page call of a bookmark fetch keeps the caller's search query,
      asks with no limit, whatever limit the caller gave, and at the offset
      the loop holds: 0 for the first call, then the number of records
      received so far. */
  lemma {:induction false} BookmarksPagesKeepQuery<T>(call: PageCall<BookmarksRequest, T>, params: BookmarksRequest)
    requires MakesProgress(call, BookmarksPaging, Cleared(BookmarksPaging, params))
    ensures var t := Transcript(call, BookmarksPaging, Cleared(BookmarksPaging, params), 0);
            && t[0].offset == 0
            && t[0].request == BookmarksRequest(params.query, None, Some(0))
            && forall k :: 0 <= k < |t| ==>
                 && t[k].request == BookmarksRequest(params.query, None, Some(t[k].offset))
                 && t[k].offset as int == |Flatten(t[..k])|
  {
    var base := Cleared(BookmarksPaging, params);
    TranscriptRequests(call, BookmarksPaging, base, 0);
    TranscriptAt(call, BookmarksPaging, base, 0, 0);
    assert Flatten(Transcript(call, BookmarksPaging, base, 0)[..0]) == [];
  }

  /** Every page call of a tag fetch asks with no limit, at the offset the
      loop holds: 0 for the first call, then the number of records received
      so far. */
  lemma {:induction false} TagsPagesClearLimit<T>(call: PageCall<TagsRequest, T>, params: TagsRequest)
    requires MakesProgress(call, TagsPaging, Cleared(TagsPaging, params))
    ensures var t := Transcript(call, TagsPaging, Cleared(TagsPaging, params), 0);
            && t[0].offset == 0
            && t[0].request == TagsRequest(None, Some(0))
            && forall k :: 0 <= k < |t| ==>
                 && t[k].request == TagsRequest(None, Some(t[k].offset))
                 && t[k].offset as int == |Flatten(t[..k])|
  {
    var base := Cleared(TagsPaging, params);
    TranscriptRequests(call, TagsPaging, base, 0);
    TranscriptAt(call, TagsPaging, base, 0, 0);
    assert Flatten(Transcript(call, TagsPaging, base, 0)[..0]) == [];
  }

  /** The loop stops right after the first call that failed or returned a
      page without a next link: every earlier call returned a page with one. */
  lemma {:induction false} TranscriptStops<P, T>(call: PageCall<P, T>, paging: Paging<P>, base: P, offset: uint64)
    requires MakesProgress(call, paging, base)
    ensures var t := Transcript(call, paging, base, offset);
            && (forall k :: 0 <= k < |t| - 1 ==> t[k].response.Ok? && t[k].response.value.next.Some?)
            && (t[|t| - 1].response.Err? || t[|t| - 1].response.value.next.None?)
    decreases U64_LIMIT - offset as int
  {
    var t := Transcript(call, paging, base, offset);
    var request := paging.offset(base, Some(offset));
    var e := PageExchange(offset, request, call(request));
    assert AdvancesAt(call, request, offset);
    if |t| > 1 {
      var page := call(request).value;
      var next := offset + |page.results| as uint64;
      var rest := Transcript(call, paging, base, next);
      assert t == [e] + rest;
      TranscriptStops(call, paging, base, next);
      assert t[|t| - 1] == rest[|rest| - 1];
      forall k | 1 <= k < |t| - 1
        ensures t[k].response.Ok? && t[k].response.value.next.Some?
      {
        assert t[k] == rest[k - 1];
      }
    }
  }

  /** A failed call makes the whole fetch fail with that call's error and no
      records; when no call failed, the fetch returns every record of every
      page, in order. */
  lemma CollectedOutcome<P, T>(call: PageCall<P, T>, paging: Paging<P>, base: P, offset: uint64)
    requires MakesProgress(call, paging, base)
    ensures var t := Transcript(call, paging, base, offset);
            && (forall k :: 0 <= k < |t| && t[k].response.Err? ==> k == |t| - 1 && Collected(t) == Err(t[k].response.error))
            && ((forall k :: 0 <= k < |t| ==> t[k].response.Ok?) ==> Collected(t) == Ok(Flatten(t)))
  {
    TranscriptStops(call, paging, base, offset);
  }

  function Min(a: int, b: int): int {
    if a <= b then a else b
  }

  /** A model server: it holds `collection` and answers a request for
      `offset` with the next `pageSize` records from there, announcing a
      next page exactly when records remain after them. */
  function Serve<T>(collection: seq<T>, pageSize: nat, link: Url, offset: Option<uint64>): (page: Envelope<T>)
    requires |collection| < U64_LIMIT
    ensures |page.results| <= pageSize && page.count as int == |collection|
  {
    var n := |collection|;
    var start := Min(offset.GetOr(0) as int, n);
    var end := Min(start + pageSize, n);
    Envelope(n as uint64, if end < n then Some(link) else None, if start > 0 then Some(link) else None, collection[start..end])
  }

  /** Against the model server with a positive page size, every page that
      announces a next one is non-empty and stays within the collection. */
  lemma ServerMakesProgress<P, T>(collection: seq<T>, pageSize: nat, link: Url,
                                  call: PageCall<P, T>, paging: Paging<P>, base: P)
    requires 0 < pageSize && |collection| < U64_LIMIT
    requires forall o: uint64 :: call(paging.offset(base, Some(o))) == Ok(Serve(collection, pageSize, link, Some(o)))
    ensures MakesProgress(call, paging, base)
  {
    forall o: uint64 ensures AdvancesAt(call, paging.offset(base, Some(o)), o) {
      assert call(paging.offset(base, Some(o))) == Ok(Serve(collection, pageSize, link, Some(o)));
    }
  }

  /** Fetching from `offset` against the model server returns the rest of
      the collection, in the server's order. */
  lemma {:induction false} ServedRecords<P, T>(collection: seq<T>, pageSize: nat, link: Url,
                                               call: PageCall<P, T>, paging: Paging<P>, base: P, offset: uint64)
    requires 0 < pageSize && |collection| < U64_LIMIT
    requires forall o: uint64 :: call(paging.offset(base, Some(o))) == Ok(Serve(collection, pageSize, link, Some(o)))
    requires offset as int <= |collection|
    ensures MakesProgress(call, paging, base)
    ensures Collected(Transcript(call, paging, base, offset)) == Ok(collection[offset..])
    decreases |collection| - offset as int
  {
    ServerMakesProgress(collection, pageSize, link, call, paging, base);
    ServePage(collection, pageSize, link, offset);
    assert call(paging.offset(base, Some(offset))) == Ok(Serve(collection, pageSize, link, Some(offset)));
    if offset as int + pageSize >= |collection| {
      CollectedLast(call, paging, base, offset);
    } else {
      var next := offset + pageSize as uint64;
      ServedRecords(collection, pageSize, link, call, paging, base, next);
      ServedStep(collection, pageSize, link, call, paging, base, offset, next);
    }
  }

  /** One step of `ServedRecords`: a full page in front of the rest. */
  lemma ServedStep<P, T>(collection: seq<T>, pageSize: nat, link: Url,
                         call: PageCall<P, T>, paging: Paging<P>, base: P, offset: uint64, next: uint64)
    requires 0 < pageSize && |collection| < U64_LIMIT
    requires MakesProgress(call, paging, base)
    requires call(paging.offset(base, Some(offset))) == Ok(Serve(collection, pageSize, link, Some(offset)))
    requires next as int == offset as int + pageSize < |collection|
    requires Collected(Transcript(call, paging, base, next)) == Ok(collection[next..])
    ensures Collected(Transcript(call, paging, base, offset)) == Ok(collection[offset..])
  {
    ServePage(collection, pageSize, link, offset);
    var page := Serve(collection, pageSize, link, Some(offset));
    CollectedStep(call, paging, base, offset, next);
    assert collection[offset..] == page.results + collection[next..];
  }

  /** The model server's answer at an offset inside the collection: the
      last page holds the rest and has no next link; any earlier page holds
      exactly `pageSize` records and has one. */
  lemma ServePage<T>(collection: seq<T>, pageSize: nat, link: Url, offset: uint64)
    requires 0 < pageSize && |collection| < U64_LIMIT && offset as int <= |collection|
    ensures var page := Serve(collection, pageSize, link, Some(offset));
            && (offset as int + pageSize >= |collection| ==> page.next.None? && page.results == collection[offset..])
            && (offset as int + pageSize < |collection| ==>
                  page.next.Some? && page.results == collection[offset..offset as int + pageSize])
  {
  }

  /** The k-th call of a fetch from `offset` against the model server asks
      for offset `offset + k * pageSize`, and the fetch makes as many calls
      as it takes to cover the remaining records at `pageSize` per page (one
      call when none remain). */
  lemma {:induction false} ServedCalls<P, T>(collection: seq<T>, pageSize: nat, link: Url,
                                             call: PageCall<P, T>, paging: Paging<P>, base: P, offset: uint64)
    requires 0 < pageSize && |collection| < U64_LIMIT
    requires forall o: uint64 :: call(paging.offset(base, Some(o))) == Ok(Serve(collection, pageSize, link, Some(o)))
    requires offset as int <= |collection|
    ensures MakesProgress(call, paging, base)
    ensures var t := Transcript(call, paging, base, offset);
            var remaining := |collection| - offset as int;
            && (forall k :: 0 <= k < |t| ==> t[k].offset as int == offset as int + k * pageSize)
            && (remaining == 0 ==> |t| == 1)
            && (remaining > 0 ==> (|t| - 1) * pageSize < remaining <= |t| * pageSize)
    decreases |collection| - offset as int
  {
    ServerMakesProgress(collection, pageSize, link, call, paging, base);
    var t := Transcript(call, paging, base, offset);
    var request := paging.offset(base, Some(offset));
    var page := Serve(collection, pageSize, link, Some(offset));
    assert call(request) == Ok(page);
    var e := PageExchange(offset, request, call(request));
    if offset as int + pageSize >= |collection| {
      assert t == [e];
    } else {
      var next := offset + pageSize as uint64;
      var rest := Transcript(call, paging, base, next);
      assert t == [e] + rest;
      ServedCalls(collection, pageSize, link, call, paging, base, next);
      forall k | 1 <= k < |t|
        ensures t[k].offset as int == offset as int + k * pageSize
      {
        assert t[k] == rest[k - 1];
        OneMorePage(k - 1, pageSize);
      }
      OneMorePage(|rest| - 1, pageSize);
      OneMorePage(|rest|, pageSize);
    }
  }

  lemma OneMorePage(k: int, m: int)
    ensures k * m + m == (k + 1) * m
  {
  }

  /** Fetching all of a collection of N records served M per page returns
      exactly those N records in order, after ceil(N/M) calls (one call for
      an empty collection), the k-th at offset k * M. */
  lemma LoadAllFetchesWholeCollection<P, T>(collection: seq<T>, pageSize: nat, link: Url,
                                            call: PageCall<P, T>, paging: Paging<P>, params: P)
    requires 0 < pageSize && |collection| < U64_LIMIT
    requires forall o: uint64 :: call(paging.offset(Cleared(paging, params), Some(o))) == Ok(Serve(collection, pageSize, link, Some(o)))
    ensures MakesProgress(call, paging, Cleared(paging, params))
    ensures var t := Transcript(call, paging, Cleared(paging, params), 0);
            && Collected(t) == Ok(collection)
            && (forall k :: 0 <= k < |t| ==> t[k].offset as int == k * pageSize)
            && (|collection| == 0 ==> |t| == 1)
            && (|collection| > 0 ==> |t| == (|collection| + pageSize - 1) / pageSize)
  {
    var base := Cleared(paging, params);
    ServedRecords(collection, pageSize, link, call, paging, base, 0);
    assert collection[0..] == collection;
    ServedCallCount(collection, pageSize, link, call, paging, base);
  }

  /** A fetch from offset 0 against the model server makes ceil(N/M) calls
      for N > 0 records, the k-th at offset k * M. */
  lemma ServedCallCount<P, T>(collection: seq<T>, pageSize: nat, link: Url,
                              call: PageCall<P, T>, paging: Paging<P>, base: P)
    requires 0 < pageSize && |collection| < U64_LIMIT
    requires forall o: uint64 :: call(paging.offset(base, Some(o))) == Ok(Serve(collection, pageSize, link, Some(o)))
    ensures MakesProgress(call, paging, base)
    ensures var t := Transcript(call, paging, base, 0);
            && (forall k :: 0 <= k < |t| ==> t[k].offset as int == k * pageSize)
            && (|collection| == 0 ==> |t| == 1)
            && (|collection| > 0 ==> |t| == (|collection| + pageSize - 1) / pageSize)
  {
    ServedCalls(collection, pageSize, link, call, paging, base, 0);
    var n := |Transcript(call, paging, base, 0)|;
    if |collection| > 0 {
      CeilingDivision(|collection|, pageSize, n);
    }
  }

  /** c is the ceiling of n / m when (c - 1) * m < n <= c * m. */
  lemma CeilingDivision(n: nat, m: nat, c: nat)
    requires 0 < m && (c - 1) * m < n <= c * m
    ensures c == (n + m - 1) / m
  {
    var q := (n + m - 1) / m;
    var r := (n + m - 1) % m;
    assert n + m - 1 == q * m + r && 0 <= r < m;
    OneMorePage(c - 1, m);
    if q < c {
      MultiplyMonotone(q, c - 1, m);
    } else if q > c {
      MultiplyMonotone(c + 1, q, m);
      OneMorePage(c, m);
    }
  }

  lemma MultiplyMonotone(a: int, b: int, m: nat)
    requires a <= b
    ensures a * m <= b * m
  {
  }
}
