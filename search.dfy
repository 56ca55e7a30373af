/** The paginating search iterator of `src/modman/api.py` (class `SearchIterator`).

    The page source is abstract: `Next` and `Page` are given the response the
    transport returns for the current request, and `All` is given a function
    from page number to response together with a clock indexed by the number of
    requests already issued. */
module Search {
  import opened Wrappers
  import opened Http
  import opened Ratelimit
  import opened Models
  import opened Api

  /** The fixed parameters of one search: `query`, `facets`, `index`, `offset`, `limit`. */
  datatype Query = Query(text: Option<string>, facets: Option<seq<seq<string>>>, index: string, offset: int, limit: int)

  /** Everything an iteration step can observe or change: the client, the cursor
      `_page`, `page_cache` and `total_hits`. */
  datatype IterState = IterState(client: ClientState, page: int, cache: map<int, SearchResult>, totalHits: int)

  /** What one `__next__` does: return a page, stop (`StopIteration`), or raise. */
  datatype Step = Yielded(result: SearchResult) | Stopped | Raised(error: ApiError)

  /** The `limit` argument checks of the constructor. */
  function LimitError(limit: int): (r: Option<ApiError>)
    ensures limit > 100 <==> r == Some(LimitTooLarge)
    ensures limit <= 0 <==> r == Some(LimitTooSmall)
    ensures r.None? <==> 1 <= limit <= 100
  {
    if limit > 100 then Some(LimitTooLarge)
    else if limit <= 0 then Some(LimitTooSmall)
    else None
  }

  /** `offset // limit`: the page holding result number `offset`. */
  function StartPage(offset: int, limit: int): (p: int)
    requires limit >= 1
    ensures limit * p <= offset < limit * p + limit
  {
    offset / limit
  }

  /** `construct_params()` for the cursor at `page`. */
  function SearchParams(q: Query, page: int): Params {
    var a: Params := if q.text.Some? && |q.text.value| > 0 then [("query", Text(q.text.value))] else [];
    var b: Params := if Truthy(q.facets) then [("facets", Json(JGroups(q.facets.value)))] else [];
    [("index", Text(q.index)), ("offset", Number(q.limit * page)), ("limit", Number(q.limit))] + a + b
  }

  /** The parameters are `index`, `offset = limit * page` and `limit`, always in
      that order, then `query` exactly when the text is non-empty and `facets`
      exactly when the facets are truthy. */
  lemma SearchParamsShape(q: Query, page: int)
    ensures var p := SearchParams(q, page);
      |p| >= 3
      && p[0] == ("index", Text(q.index)) && p[1] == ("offset", Number(q.limit * page)) && p[2] == ("limit", Number(q.limit))
      && (HasKey(p[3..], "query") <==> q.text.Some? && |q.text.value| > 0)
      && (HasKey(p[3..], "facets") <==> Truthy(q.facets))
      && (forall i :: 3 <= i < |p| ==>
            (p[i].0 == "query" && p[i].1 == Text(q.text.value)) || (p[i].0 == "facets" && p[i].1 == Json(JGroups(q.facets.value))))
  {
    var base: Params := [("index", Text(q.index)), ("offset", Number(q.limit * page)), ("limit", Number(q.limit))];
    var a: Params := if q.text.Some? && |q.text.value| > 0 then [("query", Text(q.text.value))] else [];
    var b: Params := if Truthy(q.facets) then [("facets", Json(JGroups(q.facets.value)))] else [];
    assert HasKey(a, "query") <==> q.text.Some? && |q.text.value| > 0 by { if |a| > 0 { assert a[0].0 == "query"; } }
    assert !HasKey(a, "facets");
    assert HasKey(b, "facets") <==> Truthy(q.facets) by { if |b| > 0 { assert b[0].0 == "facets"; } }
    assert !HasKey(b, "query");
    HasKeyAppend(a, b, "query");
    HasKeyAppend(a, b, "facets");
    assert (base + a + b)[3..] == a + b;
  }

  /** The request `__next__` issues for the cursor at `page`. */
  function PageRequest(q: Query, page: int): Request {
    Request("/search", SearchParams(q, page))
  }

  /** A page that ends the iteration: empty, or shorter than `limit`. */
  predicate Short(r: SearchResult, limit: int) {
    |r.hits| == 0 || |r.hits| < limit
  }

  /** `__next__` at instant `now`, `resp` answering the request for the cursor's page. */
  function NextStep(q: Query, c: IterState, now: int, resp: Response<SearchResult>): (IterState, Step) {
    var (s1, g) := GetJsonSpec(c.client, PageRequest(q, c.page), now, resp);
    var c0 := c.(client := s1);
    match g
    case Failure(HttpStatus(_)) => (c0, Stopped)
    case Failure(e) => (c0, Raised(e))
    case Success(raw) =>
      match ValidateSearchResult(raw)
      case None => (c0, Raised(ValidationFailed))
      case Some(parsed) =>
        if parsed.totalHits > q.limit * s1.limits.limit then (c0, Raised(SearchTooBroad))
        else
          var c1 := IterState(s1, c.page + 1, c.cache[c.page := parsed], parsed.totalHits);
          if Short(parsed, q.limit) then (c1, Stopped) else (c1, Yielded(parsed))
  }

  /** The outcomes of `__next__`. An HTTP error, a budget refusal and every other
      error leave cursor, cache and `total_hits` alone; only a page that passes
      validation and the budget check is cached at the cursor, which then
      advances; that page is returned exactly when it is not short. */
  lemma NextStepOutcome(q: Query, c: IterState, now: int, resp: Response<SearchResult>)
    ensures var (c1, st) := NextStep(q, c, now, resp);
      (c1.page == c.page && c1.cache == c.cache && c1.totalHits == c.totalHits && !st.Yielded?)
      || (c1.page == c.page + 1 && c1.cache == c.cache[c.page := c1.cache[c.page]] && c.page in c1.cache
          && c1.totalHits == c1.cache[c.page].totalHits
          && c1.cache[c.page] == resp.body
          && c1.cache[c.page].totalHits <= q.limit * c1.client.limits.limit
          && (st.Yielded? <==> !Short(c1.cache[c.page], q.limit))
          && (st.Yielded? ==> st.result == c1.cache[c.page])
          && (!st.Yielded? ==> st.Stopped?))
    ensures var (c1, st) := NextStep(q, c, now, resp);
      c1.client == GetJsonSpec(c.client, PageRequest(q, c.page), now, resp).0
  {
  }

  /** The three ways `__next__` ends without caching, by cause. */
  lemma NextStepRefusals(q: Query, c: IterState, now: int, resp: Response<SearchResult>)
    ensures c.client.limits.Exhausted(now) ==>
      NextStep(q, c, now, resp) == (c, Raised(Ratelimited(c.client.limits.ResetAt())))
    ensures !c.client.limits.Exhausted(now) && !IsSuccess(resp.status) ==>
      NextStep(q, c, now, resp).1 == Stopped && NextStep(q, c, now, resp).0.page == c.page
    ensures var s1 := GetJsonSpec(c.client, PageRequest(q, c.page), now, resp).0;
      !c.client.limits.Exhausted(now) && IsSuccess(resp.status) && ValidateSearchResult(resp.body).Some?
      && resp.body.totalHits > q.limit * s1.limits.limit ==>
      NextStep(q, c, now, resp) == (c.(client := s1), Raised(SearchTooBroad))
  {
  }

  /** The accepting path of `__next__`: a 2xx page that validates and passes the
      budget check is cached at the cursor, which advances, and `total_hits` is
      taken from it; it is returned unless it is short. */
  lemma NextStepAccepts(q: Query, c: IterState, now: int, resp: Response<SearchResult>)
    requires !c.client.limits.Exhausted(now) && IsSuccess(resp.status) && ValidateSearchResult(resp.body).Some?
    requires resp.body.totalHits <= q.limit * GetJsonSpec(c.client, PageRequest(q, c.page), now, resp).0.limits.limit
    ensures NextStep(q, c, now, resp) ==
      (IterState(GetJsonSpec(c.client, PageRequest(q, c.page), now, resp).0, c.page + 1, c.cache[c.page := resp.body], resp.body.totalHits),
       if Short(resp.body, q.limit) then Stopped else Yielded(resp.body))
  {
  }

  /** `page(n)`: a cached page is returned as is and nothing is sent; otherwise
      `__next__` runs with the cursor at `n`, end-of-sequence becomes
      `IndexError`, and the cursor is restored on every path. */
  function PageSpec(q: Query, c: IterState, n: int, now: int, resp: Response<SearchResult>): (IterState, Result<SearchResult, ApiError>) {
    if n in c.cache then (c, Success(c.cache[n]))
    else
      var (c1, st) := NextStep(q, c.(page := n), now, resp);
      var c2 := c1.(page := c.page);
      match st
      case Yielded(r) => (c2, Success(r))
      case Stopped => (c2, Failure(PageOutOfRange))
      case Raised(e) => (c2, Failure(e))
  }

  /** The cursor after `page(n)` is the cursor before it, whatever happened. */
  lemma PageRestoresCursor(q: Query, c: IterState, n: int, now: int, resp: Response<SearchResult>)
    ensures PageSpec(q, c, n, now, resp).0.page == c.page
    ensures n in c.cache ==> PageSpec(q, c, n, now, resp) == (c, Success(c.cache[n]))
    ensures n !in c.cache ==> PageSpec(q, c, n, now, resp).0.client == GetJsonSpec(c.client, PageRequest(q, n), now, resp).0
  {
  }

  /** A fetched page is returned by `page(n)` exactly when it is full, and then
      it is the server's page, now cached at `n`. */
  lemma PageFetched(q: Query, c: IterState, n: int, now: int, resp: Response<SearchResult>)
    requires n !in c.cache
    ensures var (c2, r) := PageSpec(q, c, n, now, resp);
      r.Success? ==> r.value == resp.body && n in c2.cache && c2.cache[n] == resp.body && !Short(resp.body, q.limit)
    ensures var (c2, r) := PageSpec(q, c, n, now, resp);
      r == Failure(PageOutOfRange) <==>
        (NextStep(q, c.(page := n), now, resp).1 == Stopped)
  {
    NextStepOutcome(q, c.(page := n), now, resp);
  }

  /** A short last page is cached even though `page(n)` reports it out of range:
      asking again for `n` returns it without another request. */
  lemma {:induction false} ShortPageCachedButRefused(q: Query, c: IterState, n: int, now: int, resp: Response<SearchResult>,
                                                     later: int, resp2: Response<SearchResult>)
    requires n !in c.cache && !c.client.limits.Exhausted(now) && IsSuccess(resp.status)
    requires ValidateSearchResult(resp.body).Some? && Short(resp.body, q.limit)
    requires resp.body.totalHits <= q.limit * GetJsonSpec(c.client, PageRequest(q, n), now, resp).0.limits.limit
    ensures var (c2, r) := PageSpec(q, c, n, now, resp);
      r == Failure(PageOutOfRange) && PageSpec(q, c2, n, later, resp2) == (c2, Success(resp.body))
  {
    var s1 := GetJsonSpec(c.client, PageRequest(q, n), now, resp).0;
    assert NextStep(q, c.(page := n), now, resp).1 == Stopped;
    var c2 := PageSpec(q, c, n, now, resp).0;
    assert c2.cache == c.cache[n := resp.body];
  }

  /** The hits of the cached pages `lo` up to (excluding) `hi`, in page order. */
  function Concat(cache: map<int, SearchResult>, lo: int, hi: int): seq<SearchHit>
    decreases hi - lo
  {
    if hi <= lo then [] else (if lo in cache then cache[lo].hits else []) + Concat(cache, lo + 1, hi)
  }

  /** `for page in self: r.extend(page.hits)` from accumulated hits `acc`: `None`
      when the iteration has not ended within `fuel` steps. */
  function Drain(q: Query, c: IterState, acc: seq<SearchHit>, source: int -> Response<SearchResult>, clock: nat -> int, fuel: nat)
    : Option<(IterState, Result<seq<SearchHit>, ApiError>)>
    decreases fuel
  {
    if fuel == 0 then None
    else
      var (c1, st) := NextStep(q, c, clock(|c.client.sent|), source(c.page));
      match st
      case Stopped => Some((c1, Success(acc)))
      case Raised(e) => Some((c1, Failure(e)))
      case Yielded(r) => Drain(q, c1, acc + r.hits, source, clock, fuel - 1)
  }

  /** One step of the drain, by what `__next__` did. */
  lemma DrainStep(q: Query, c: IterState, acc: seq<SearchHit>, source: int -> Response<SearchResult>, clock: nat -> int, fuel: nat,
                  c1: IterState, st: Step)
    requires fuel > 0 && NextStep(q, c, clock(|c.client.sent|), source(c.page)) == (c1, st)
    ensures st.Yielded? ==> Drain(q, c, acc, source, clock, fuel) == Drain(q, c1, acc + st.result.hits, source, clock, fuel - 1)
    ensures st.Stopped? ==> Drain(q, c, acc, source, clock, fuel) == Some((c1, Success(acc)))
    ensures st.Yielded? ==> DrainComplete(q, c, acc, source, clock, fuel) == DrainComplete(q, c1, acc + st.result.hits, source, clock, fuel - 1)
    ensures st.Stopped? && c.page in c1.cache && c1.page == c.page + 1 ==>
      DrainComplete(q, c, acc, source, clock, fuel) == Some((c1, Success(acc + c1.cache[c.page].hits)))
  {
  }

  /** `all()`. */
  function AllSpec(q: Query, c: IterState, source: int -> Response<SearchResult>, clock: nat -> int, fuel: nat)
    : Option<(IterState, Result<seq<SearchHit>, ApiError>)>
  {
    Drain(q, c, [], source, clock, fuel)
  }

  /** Draining never moves the cursor back, never changes a page cached before
      the cursor, and leaves every page it passed over cached. */
  lemma {:induction false} DrainFrame(q: Query, c: IterState, acc: seq<SearchHit>, source: int -> Response<SearchResult>,
                                      clock: nat -> int, fuel: nat)
    requires Drain(q, c, acc, source, clock, fuel).Some?
    ensures var c2 := Drain(q, c, acc, source, clock, fuel).value.0;
      c.page <= c2.page
      && (forall p :: c.page <= p < c2.page ==> p in c2.cache)
      && (forall p :: p < c.page && p in c.cache ==> p in c2.cache && c2.cache[p] == c.cache[p])
    decreases fuel
  {
    var (c1, st) := NextStep(q, c, clock(|c.client.sent|), source(c.page));
    NextStepOutcome(q, c, clock(|c.client.sent|), source(c.page));
    if st.Yielded? {
      DrainFrame(q, c1, acc + st.result.hits, source, clock, fuel - 1);
    }
  }

  /** The end of the pages whose hits `all()` keeps: the final page is dropped
      when it was short (empty or fewer than `limit` hits). */
  function KeptEnd(q: Query, start: int, c2: IterState): int {
    if start < c2.page && c2.page - 1 in c2.cache && Short(c2.cache[c2.page - 1], q.limit) then c2.page - 1 else c2.page
  }

  /** What `all()` returns when it returns: the hits of every page it fetched, in
      page order, except the final short page, which is fetched and cached but
      whose hits are not included. */
  lemma {:induction false} DrainCollects(q: Query, c: IterState, acc: seq<SearchHit>, source: int -> Response<SearchResult>,
                                         clock: nat -> int, fuel: nat)
    requires Drain(q, c, acc, source, clock, fuel).Some? && Drain(q, c, acc, source, clock, fuel).value.1.Success?
    ensures var (c2, r) := Drain(q, c, acc, source, clock, fuel).value;
      c.page <= KeptEnd(q, c.page, c2) && r.value == acc + Concat(c2.cache, c.page, KeptEnd(q, c.page, c2))
    decreases fuel, 1
  {
    if NextStep(q, c, clock(|c.client.sent|), source(c.page)).1.Yielded? {
      DrainCollectsYielded(q, c, acc, source, clock, fuel);
    } else {
      DrainCollectsStopped(q, c, acc, source, clock, fuel);
    }
  }

  lemma {:induction false} DrainCollectsYielded(q: Query, c: IterState, acc: seq<SearchHit>, source: int -> Response<SearchResult>,
                                                clock: nat -> int, fuel: nat)
    requires Drain(q, c, acc, source, clock, fuel).Some? && Drain(q, c, acc, source, clock, fuel).value.1.Success?
    requires NextStep(q, c, clock(|c.client.sent|), source(c.page)).1.Yielded?
    ensures var (c2, r) := Drain(q, c, acc, source, clock, fuel).value;
      c.page <= KeptEnd(q, c.page, c2) && r.value == acc + Concat(c2.cache, c.page, KeptEnd(q, c.page, c2))
    decreases fuel, 0
  {
    var (c1, st) := NextStep(q, c, clock(|c.client.sent|), source(c.page));
    NextStepOutcome(q, c, clock(|c.client.sent|), source(c.page));
    var acc1 := acc + st.result.hits;
    DrainStep(q, c, acc, source, clock, fuel, c1, st);
    DrainCollects(q, c1, acc1, source, clock, fuel - 1);
    DrainFrame(q, c1, acc1, source, clock, fuel - 1);
    var (c2, r) := Drain(q, c1, acc1, source, clock, fuel - 1).value;
    KeptPagesStep(q, c.page, c1, c2, st.result, acc, r.value);
  }

  /** The step of `DrainCollectsYielded` on plain values: a full page cached at
      `start` before the pages kept from `start + 1`. */
  lemma KeptPagesStep(q: Query, start: int, c1: IterState, c2: IterState, page: SearchResult,
                      acc: seq<SearchHit>, hits: seq<SearchHit>)
    requires c1.page == start + 1 && start in c1.cache && c1.cache[start] == page && !Short(page, q.limit)
    requires forall p :: p < c1.page && p in c1.cache ==> p in c2.cache && c2.cache[p] == c1.cache[p]
    requires c1.page <= KeptEnd(q, c1.page, c2)
    requires hits == acc + page.hits + Concat(c2.cache, c1.page, KeptEnd(q, c1.page, c2))
    ensures start <= KeptEnd(q, start, c2) && hits == acc + Concat(c2.cache, start, KeptEnd(q, start, c2))
  {
    assert c2.cache[start] == page;
    KeptPagesExtend(q, start, c2, page);
    var rest := Concat(c2.cache, c1.page, KeptEnd(q, c1.page, c2));
    assert acc + page.hits + rest == acc + (page.hits + rest);
  }

  lemma DrainCollectsStopped(q: Query, c: IterState, acc: seq<SearchHit>, source: int -> Response<SearchResult>,
                             clock: nat -> int, fuel: nat)
    requires Drain(q, c, acc, source, clock, fuel).Some? && Drain(q, c, acc, source, clock, fuel).value.1.Success?
    requires !NextStep(q, c, clock(|c.client.sent|), source(c.page)).1.Yielded?
    ensures var (c2, r) := Drain(q, c, acc, source, clock, fuel).value;
      c.page <= KeptEnd(q, c.page, c2) && r.value == acc + Concat(c2.cache, c.page, KeptEnd(q, c.page, c2))
  {
    var (c1, st) := NextStep(q, c, clock(|c.client.sent|), source(c.page));
    NextStepOutcome(q, c, clock(|c.client.sent|), source(c.page));
    KeptPagesStop(q, c.page, c1);
  }

  /** A drain that stops at its first step keeps no page. */
  lemma KeptPagesStop(q: Query, start: int, c1: IterState)
    requires c1.page == start || (c1.page == start + 1 && start in c1.cache && Short(c1.cache[start], q.limit))
    ensures KeptEnd(q, start, c1) == start && Concat(c1.cache, start, start) == []
  {
  }

  /** A full page at `start` followed by the pages kept from `start + 1`. */
  lemma KeptPagesExtend(q: Query, start: int, c2: IterState, r: SearchResult)
    requires start + 1 <= KeptEnd(q, start + 1, c2) && start in c2.cache && c2.cache[start] == r && !Short(r, q.limit)
    ensures KeptEnd(q, start, c2) == KeptEnd(q, start + 1, c2)
    ensures Concat(c2.cache, start, KeptEnd(q, start, c2)) == r.hits + Concat(c2.cache, start + 1, KeptEnd(q, start, c2))
  {
  }

  /** `all()` from a fresh accumulator. */
  lemma AllCollects(q: Query, c: IterState, source: int -> Response<SearchResult>, clock: nat -> int, fuel: nat)
    requires AllSpec(q, c, source, clock, fuel).Some? && AllSpec(q, c, source, clock, fuel).value.1.Success?
    ensures var (c2, r) := AllSpec(q, c, source, clock, fuel).value;
      (forall p :: c.page <= p < c2.page ==> p in c2.cache)
      && c.page <= KeptEnd(q, c.page, c2)
      && r.value == Concat(c2.cache, c.page, KeptEnd(q, c.page, c2))
  {
    DrainFrame(q, c, [], source, clock, fuel);
    DrainCollects(q, c, [], source, clock, fuel);
    assert [] + AllSpec(q, c, source, clock, fuel).value.1.value == AllSpec(q, c, source, clock, fuel).value.1.value;
  }

  /** `all()` as evidently intended: the hits of the final page are kept too. */
  function DrainComplete(q: Query, c: IterState, acc: seq<SearchHit>, source: int -> Response<SearchResult>, clock: nat -> int, fuel: nat)
    : Option<(IterState, Result<seq<SearchHit>, ApiError>)>
    decreases fuel
  {
    if fuel == 0 then None
    else
      var (c1, st) := NextStep(q, c, clock(|c.client.sent|), source(c.page));
      match st
      case Stopped =>
        if c.page in c1.cache && c1.page == c.page + 1 then Some((c1, Success(acc + c1.cache[c.page].hits)))
        else Some((c1, Success(acc)))
      case Raised(e) => Some((c1, Failure(e)))
      case Yielded(r) => DrainComplete(q, c1, acc + r.hits, source, clock, fuel - 1)
  }

  lemma {:induction false} DrainCompleteFrame(q: Query, c: IterState, acc: seq<SearchHit>,
                                              source: int -> Response<SearchResult>, clock: nat -> int, fuel: nat)
    requires DrainComplete(q, c, acc, source, clock, fuel).Some?
    ensures var c2 := DrainComplete(q, c, acc, source, clock, fuel).value.0;
      c.page <= c2.page
      && (forall p :: c.page <= p < c2.page ==> p in c2.cache)
      && (forall p :: p < c.page && p in c.cache ==> p in c2.cache && c2.cache[p] == c.cache[p])
    decreases fuel
  {
    var (c1, st) := NextStep(q, c, clock(|c.client.sent|), source(c.page));
    NextStepOutcome(q, c, clock(|c.client.sent|), source(c.page));
    if st.Yielded? {
      DrainCompleteFrame(q, c1, acc + st.result.hits, source, clock, fuel - 1);
    }
  }

  /** The corrected `all()` returns the hits of every page it fetched, in page order. */
  lemma {:induction false} DrainCompleteCollects(q: Query, c: IterState, acc: seq<SearchHit>,
                                                 source: int -> Response<SearchResult>, clock: nat -> int, fuel: nat)
    requires DrainComplete(q, c, acc, source, clock, fuel).Some? && DrainComplete(q, c, acc, source, clock, fuel).value.1.Success?
    ensures var (c2, r) := DrainComplete(q, c, acc, source, clock, fuel).value;
      r.value == acc + Concat(c2.cache, c.page, c2.page)
    decreases fuel, 1
  {
    if NextStep(q, c, clock(|c.client.sent|), source(c.page)).1.Yielded? {
      DrainCompleteCollectsYielded(q, c, acc, source, clock, fuel);
    } else {
      DrainCompleteCollectsStopped(q, c, acc, source, clock, fuel);
    }
  }

  lemma {:induction false} DrainCompleteCollectsYielded(q: Query, c: IterState, acc: seq<SearchHit>,
                                                        source: int -> Response<SearchResult>, clock: nat -> int, fuel: nat)
    requires DrainComplete(q, c, acc, source, clock, fuel).Some? && DrainComplete(q, c, acc, source, clock, fuel).value.1.Success?
    requires NextStep(q, c, clock(|c.client.sent|), source(c.page)).1.Yielded?
    ensures var (c2, r) := DrainComplete(q, c, acc, source, clock, fuel).value;
      r.value == acc + Concat(c2.cache, c.page, c2.page)
    decreases fuel, 0
  {
    var (c1, st) := NextStep(q, c, clock(|c.client.sent|), source(c.page));
    NextStepOutcome(q, c, clock(|c.client.sent|), source(c.page));
    var acc1 := acc + st.result.hits;
    DrainCompleteCollects(q, c1, acc1, source, clock, fuel - 1);
    DrainCompleteFrame(q, c1, acc1, source, clock, fuel - 1);
    DrainStep(q, c, acc, source, clock, fuel, c1, st);
    var (c2, r) := DrainComplete(q, c1, acc1, source, clock, fuel - 1).value;
    FetchedPagesStep(c.page, c1, c2, st.result, acc, r.value);
  }

  /** The step of `DrainCompleteCollectsYielded` on plain values: the page
      cached at `start` before the pages fetched from `start + 1`. */
  lemma FetchedPagesStep(start: int, c1: IterState, c2: IterState, page: SearchResult,
                         acc: seq<SearchHit>, hits: seq<SearchHit>)
    requires c1.page == start + 1 && start in c1.cache && c1.cache[start] == page && c1.page <= c2.page
    requires forall p :: p < c1.page && p in c1.cache ==> p in c2.cache && c2.cache[p] == c1.cache[p]
    requires hits == acc + page.hits + Concat(c2.cache, c1.page, c2.page)
    ensures hits == acc + Concat(c2.cache, start, c2.page)
  {
    assert c2.cache[start] == page;
    var rest := Concat(c2.cache, c1.page, c2.page);
    assert Concat(c2.cache, start, c2.page) == page.hits + rest;
    assert acc + page.hits + rest == acc + (page.hits + rest);
  }

  lemma DrainCompleteCollectsStopped(q: Query, c: IterState, acc: seq<SearchHit>,
                                     source: int -> Response<SearchResult>, clock: nat -> int, fuel: nat)
    requires DrainComplete(q, c, acc, source, clock, fuel).Some? && DrainComplete(q, c, acc, source, clock, fuel).value.1.Success?
    requires !NextStep(q, c, clock(|c.client.sent|), source(c.page)).1.Yielded?
    ensures var (c2, r) := DrainComplete(q, c, acc, source, clock, fuel).value;
      r.value == acc + Concat(c2.cache, c.page, c2.page)
  {
    var (c1, st) := NextStep(q, c, clock(|c.client.sent|), source(c.page));
    NextStepOutcome(q, c, clock(|c.client.sent|), source(c.page));
    if c1.page == c.page + 1 {
      assert Concat(c1.cache, c1.page, c1.page) == [];
      assert Concat(c1.cache, c.page, c1.page) == c1.cache[c.page].hits + [];
    } else {
      assert Concat(c1.cache, c.page, c1.page) == [];
    }
  }

  class SearchIterator {
    const client: ModrinthAPI
    const query: Query
    var page: int
    var pageCache: map<int, SearchResult>
    var totalHits: int

    function State(): IterState
      reads this, client, client.ratelimiter
    {
      IterState(client.State(), page, pageCache, totalHits)
    }

    /** `SearchIterator(client, query, facets, index, offset, limit)` once the
        limit checks have passed. */
    constructor (client: ModrinthAPI, text: Option<string>, facets: Option<seq<seq<string>>>, index: string, offset: int, limit: int)
      requires LimitError(limit).None?
      ensures this.client == client && query == Query(text, facets, index, offset, limit)
      ensures page == StartPage(offset, limit) && pageCache == map[] && totalHits == 9999
    {
      this.client := client;
      query := Query(text, facets, index, offset, limit);
      page := offset / limit;
      pageCache := map[];
      totalHits := 9999;
    }

    /** `construct_params()`. */
    function ConstructParams(): (p: Params)
      reads this
      ensures p == SearchParams(query, page)
    {
      SearchParams(query, page)
    }

    /** `__next__()` at instant `now`, `resp` answering this page's request. */
    method Next(now: int, resp: Response<SearchResult>) returns (st: Step)
      modifies this, client, client.ratelimiter
      ensures (State(), st) == NextStep(query, old(State()), now, resp)
    {
      var g := client.GetJson("/search", ConstructParams(), now, resp);
      if g.Failure? {
        if g.error.HttpStatus? {
          return Stopped;
        }
        return Raised(g.error);
      }
      var parsed := ValidateSearchResult(g.value);
      if parsed.None? {
        return Raised(ValidationFailed);
      }
      var res := parsed.value;
      if res.totalHits > query.limit * client.ratelimiter.limit {
        return Raised(SearchTooBroad);
      }
      if res.totalHits != totalHits {
        totalHits := res.totalHits;
      }
      pageCache := pageCache[page := res];
      page := page + 1;
      if |res.hits| == 0 || |res.hits| < query.limit {
        return Stopped;
      }
      st := Yielded(res);
    }

    /** `page(n)` at instant `now`, `resp` answering the request for page `n`
        should one be needed. */
    method Page(n: int, now: int, resp: Response<SearchResult>) returns (r: Result<SearchResult, ApiError>)
      modifies this, client, client.ratelimiter
      ensures (State(), r) == PageSpec(query, old(State()), n, now, resp)
    {
      if n in pageCache {
        return Success(pageCache[n]);
      }
      var originalPage := page;
      page := n;
      var st := Next(now, resp);
      page := originalPage;
      match st
      case Yielded(res) =>
        r := Success(res);
      case Stopped =>
        r := Failure(PageOutOfRange);
      case Raised(e) =>
        r := Failure(e);
    }

    /** `self[n]`: the hits of `page(n)`. */
    method GetItem(n: int, now: int, resp: Response<SearchResult>) returns (r: Result<seq<SearchHit>, ApiError>)
      modifies this, client, client.ratelimiter
      ensures var (c2, p) := PageSpec(query, old(State()), n, now, resp);
        State() == c2 && r == (if p.Success? then Success(p.value.hits) else Failure(p.error))
    {
      var p := Page(n, now, resp);
      if p.Failure? {
        return Failure(p.error);
      }
      r := Success(p.value.hits);
    }

    /** `all()`, the page for page `k` being `source(k)` and the clock reading
        `clock(m)` when `m` requests have been issued. `fuel` bounds the number
        of steps the iteration takes, which the caller must know to end. */
    method All(source: int -> Response<SearchResult>, clock: nat -> int, ghost fuel: nat) returns (r: Result<seq<SearchHit>, ApiError>)
      requires AllSpec(query, State(), source, clock, fuel).Some?
      modifies this, client, client.ratelimiter
      ensures AllSpec(query, old(State()), source, clock, fuel) == Some((State(), r))
    {
      var acc: seq<SearchHit> := [];
      ghost var f := fuel;
      while true
        invariant Drain(query, State(), acc, source, clock, f) == AllSpec(query, old(State()), source, clock, fuel)
        invariant Drain(query, State(), acc, source, clock, f).Some?
        decreases f
      {
        var st := Next(clock(|client.sent|), source(page));
        match st
        case Stopped =>
          return Success(acc);
        case Raised(e) =>
          return Failure(e);
        case Yielded(res) =>
          acc := acc + res.hits;
          f := f - 1;
      }
    }
  }

  /** `SearchIterator(...)`: a limit above 100 or below 1 raises before anything else. */
  method Open(client: ModrinthAPI, text: Option<string>, facets: Option<seq<seq<string>>>, index: string, offset: int, limit: int)
    returns (r: Result<SearchIterator, ApiError>)
    ensures LimitError(limit).Some? ==> r == Failure(LimitError(limit).value)
    ensures LimitError(limit).None? ==>
      r.Success? && fresh(r.value) && r.value.client == client && r.value.query == Query(text, facets, index, offset, limit)
      && r.value.page == StartPage(offset, limit) && r.value.pageCache == map[] && r.value.totalHits == 9999
  {
    var e := LimitError(limit);
    if e.Some? {
      return Failure(e.value);
    }
    var it := new SearchIterator(client, text, facets, index, offset, limit);
    r := Success(it);
  }

  // ---------------------------------------------------------------- a worked example

  function ExampleHit(slug: string): SearchHit { SearchHit(slug, "", "", None) }

  function ExamplePage(hits: seq<SearchHit>): Response<SearchResult> {
    Response(200, None, None, None, SearchResult(hits, 0, 2, 5))
  }

  /** Three pages of 2, 2 and 1 hits with `limit=2` on a fresh client. */
  function ExampleSource(p: int): Response<SearchResult> {
    if p == 0 then ExamplePage([ExampleHit("aaa"), ExampleHit("bbb")])
    else if p == 1 then ExamplePage([ExampleHit("ccc"), ExampleHit("ddd")])
    else ExamplePage([ExampleHit("eee")])
  }

  function ExampleQuery(): Query { Query(None, None, "relevance", 0, 2) }

  function ExampleClock(sent: nat): int { 0 }

  function ExampleStart(): IterState {
    IterState(ClientState(Initial(300, None, None, DATETIME_MIN), []), 0, map[], 9999)
  }

  /** Every example page validates, and with headers absent the tracker only
      has its timestamp restamped, which at instant 0 changes nothing. */
  lemma ExamplePagesAccepted(p: int, s: ClientState, req: Request)
    requires s.limits == Initial(300, None, None, DATETIME_MIN)
    ensures ValidateSearchResult(ExampleSource(p).body) == Some(ExampleSource(p).body)
    ensures !s.limits.Exhausted(0) && IsSuccess(ExampleSource(p).status)
    ensures GetJsonSpec(s, req, 0, ExampleSource(p)).0 == ClientState(s.limits, s.sent + [req])
  {
    assert ValidSlug("aaa") && ValidSlug("bbb") && ValidSlug("ccc") && ValidSlug("ddd") && ValidSlug("eee");
  }

  /** The three `__next__` steps on the example pages: two full pages are
      returned and the short third one is cached and ends the iteration. */
  lemma ExampleSteps() returns (c1: IterState, c2: IterState, c3: IterState)
    ensures NextStep(ExampleQuery(), ExampleStart(), 0, ExampleSource(0)) == (c1, Yielded(ExampleSource(0).body))
    ensures NextStep(ExampleQuery(), c1, 0, ExampleSource(1)) == (c2, Yielded(ExampleSource(1).body))
    ensures NextStep(ExampleQuery(), c2, 0, ExampleSource(2)) == (c3, Stopped)
    ensures |c1.client.sent| == 1 && |c2.client.sent| == 2 && c1.page == 1 && c2.page == 2
    ensures 2 in c3.cache && c3.cache[2] == ExampleSource(2).body && c3.page == 3
  {
    var q, c0 := ExampleQuery(), ExampleStart();
    var L := Initial(300, None, None, DATETIME_MIN);
    ExamplePagesAccepted(0, c0.client, PageRequest(q, 0));
    NextStepAccepts(q, c0, 0, ExampleSource(0));
    c1 := NextStep(q, c0, 0, ExampleSource(0)).0;
    ExamplePagesAccepted(1, c1.client, PageRequest(q, 1));
    NextStepAccepts(q, c1, 0, ExampleSource(1));
    c2 := NextStep(q, c1, 0, ExampleSource(1)).0;
    ExamplePagesAccepted(2, c2.client, PageRequest(q, 2));
    NextStepAccepts(q, c2, 0, ExampleSource(2));
    c3 := NextStep(q, c2, 0, ExampleSource(2)).0;
  }

  lemma ExampleHitLists()
    ensures [] + ExampleSource(0).body.hits + ExampleSource(1).body.hits
      == [ExampleHit("aaa"), ExampleHit("bbb"), ExampleHit("ccc"), ExampleHit("ddd")]
    ensures [] + ExampleSource(0).body.hits + ExampleSource(1).body.hits + ExampleSource(2).body.hits
      == [ExampleHit("aaa"), ExampleHit("bbb"), ExampleHit("ccc"), ExampleHit("ddd"), ExampleHit("eee")]
  {
  }

  /** On those three pages `all()` returns the four hits of the two full pages:
      the fifth hit, on the short last page, is lost, although the page was
      fetched and cached. */
  lemma AllDropsShortPage()
    ensures var r := AllSpec(ExampleQuery(), ExampleStart(), ExampleSource, ExampleClock, 3);
      r.Some? && r.value.1 == Success([ExampleHit("aaa"), ExampleHit("bbb"), ExampleHit("ccc"), ExampleHit("ddd")])
      && 2 in r.value.0.cache && r.value.0.cache[2] == ExampleSource(2).body
  {
    var q, c0 := ExampleQuery(), ExampleStart();
    ExampleHitLists();
    var c1, c2, c3 := ExampleSteps();
    var h0, h1 := ExampleSource(0).body.hits, ExampleSource(1).body.hits;
    DrainStep(q, c0, [], ExampleSource, ExampleClock, 3, c1, Yielded(ExampleSource(0).body));
    DrainStep(q, c1, [] + h0, ExampleSource, ExampleClock, 2, c2, Yielded(ExampleSource(1).body));
    DrainStep(q, c2, [] + h0 + h1, ExampleSource, ExampleClock, 1, c3, Stopped);
  }

  /** The corrected `all()` returns all five hits on the same pages. */
  lemma AllCompleteKeepsShortPage()
    ensures var r := DrainComplete(ExampleQuery(), ExampleStart(), [], ExampleSource, ExampleClock, 3);
      r.Some? && r.value.1 == Success([ExampleHit("aaa"), ExampleHit("bbb"), ExampleHit("ccc"), ExampleHit("ddd"), ExampleHit("eee")])
  {
    var q, c0 := ExampleQuery(), ExampleStart();
    ExampleHitLists();
    var c1, c2, c3 := ExampleSteps();
    var h0, h1, h2 := ExampleSource(0).body.hits, ExampleSource(1).body.hits, ExampleSource(2).body.hits;
    DrainStep(q, c0, [], ExampleSource, ExampleClock, 3, c1, Yielded(ExampleSource(0).body));
    DrainStep(q, c1, [] + h0, ExampleSource, ExampleClock, 2, c2, Yielded(ExampleSource(1).body));
    DrainStep(q, c2, [] + h0 + h1, ExampleSource, ExampleClock, 1, c3, Stopped);
  }
}
