/** The request gate of `ModrinthAPI` in `src/modman/api.py` (`_get`, `_get_json`)
    and the argument and parameter rules of the endpoints built on it.

    The transport is abstract: each call is given the response the transport
    would return, and the client keeps the log `sent` of the requests it
    actually issued, so that "no request was made" is observable. */
module Api {
  import opened Wrappers
  import opened Http
  import opened Ratelimit

  /** The observable state of a client: its tracker and the requests issued so far. */
  datatype ClientState = ClientState(limits: Limits, sent: seq<Request>)

  /** `_get`: refuse before sending when ratelimited, otherwise send, then
      re-synchronise from the three headers (a missing one is -1). */
  function GetSpec<B>(s: ClientState, req: Request, now: int, resp: Response<B>): (ClientState, Result<Response<B>, ApiError>) {
    if s.limits.Exhausted(now) then (s, Failure(Ratelimited(s.limits.ResetAt())))
    else
      var l := s.limits.Synced(HeaderOr(resp.limitHeader), HeaderOr(resp.remainingHeader), HeaderOr(resp.resetHeader), now);
      (ClientState(l, s.sent + [req]), Success(resp))
  }

  /** `_get_json`: `_get`, then `raise_for_status` on the synced client, then the body. */
  function GetJsonSpec<B>(s: ClientState, req: Request, now: int, resp: Response<B>): (ClientState, Result<B, ApiError>) {
    var (s1, r) := GetSpec(s, req, now, resp);
    match r
    case Failure(e) => (s1, Failure(e))
    case Success(rsp) => if IsSuccess(rsp.status) then (s1, Success(rsp.body)) else (s1, Failure(HttpStatus(rsp.status)))
  }

  /** The gate: when the tracker is exhausted the call raises `Ratelimited(reset_at)`
      and changes nothing, no request included; otherwise exactly that request is
      issued and the tracker is the old one synced from the response headers at
      `now`, whether or not the status is a success; a non-2xx status then raises. */
  lemma GetJsonGate<B>(s: ClientState, req: Request, now: int, resp: Response<B>)
    ensures s.limits.Exhausted(now) ==> GetJsonSpec(s, req, now, resp) == (s, Failure(Ratelimited(s.limits.ResetAt())))
    ensures !s.limits.Exhausted(now) ==>
      GetJsonSpec(s, req, now, resp).0 ==
        ClientState(s.limits.Synced(HeaderOr(resp.limitHeader), HeaderOr(resp.remainingHeader), HeaderOr(resp.resetHeader), now),
                s.sent + [req])
    ensures !s.limits.Exhausted(now) ==>
      GetJsonSpec(s, req, now, resp).1 == (if IsSuccess(resp.status) then Success(resp.body) else Failure(HttpStatus(resp.status)))
  {
  }

  /** Every call issues at most one request, and only ever appends to the log. */
  lemma GetJsonAppendsAtMostOne<B>(s: ClientState, req: Request, now: int, resp: Response<B>)
    ensures var s1 := GetJsonSpec(s, req, now, resp).0;
      s1.sent == s.sent || s1.sent == s.sent + [req]
    ensures GetJsonSpec(s, req, now, resp).1.Success? ==> GetJsonSpec(s, req, now, resp).0.sent == s.sent + [req]
  {
  }

  /** `get_random_projects`: the count bounds, checked before any request. */
  function RandomProjectsRequest(count: int): (r: Result<Request, ApiError>)
    ensures count > 100 <==> r == Failure(CountTooLarge)
    ensures count < 0 <==> r == Failure(CountTooSmall)
    ensures 0 <= count <= 100 <==> r == Success(Request("/projects_random", [("count", Number(count))]))
  {
    if count > 100 then Failure(CountTooLarge)
    else if count < 0 then Failure(CountTooSmall)
    else Success(Request("/projects_random", [("count", Number(count))]))
  }

  /** Python truthiness of an optional list: `None` and `[]` are both falsy. */
  predicate Truthy<T>(xs: Option<seq<T>>) { xs.Some? && |xs.value| > 0 }

  /** `json.dumps` of a boolean. */
  function DumpBool(b: bool): string { if b then "true" else "false" }

  /** `list_project_versions` query: each filter is sent only when given (a list
      only when non-empty), in the order loaders, game_versions, featured. */
  function VersionFilterParams(loaders: Option<seq<string>>, gameVersions: Option<seq<string>>, featured: Option<bool>): (p: Params)
    ensures HasKey(p, "loaders") <==> Truthy(loaders)
    ensures HasKey(p, "game_versions") <==> Truthy(gameVersions)
    ensures HasKey(p, "featured") <==> featured.Some?
    ensures |p| == (if Truthy(loaders) then 1 else 0) + (if Truthy(gameVersions) then 1 else 0) + (if featured.Some? then 1 else 0)
    ensures forall i :: 0 <= i < |p| && p[i].0 == "loaders" ==> p[i].1 == Json(JStrings(loaders.value))
    ensures forall i :: 0 <= i < |p| && p[i].0 == "game_versions" ==> p[i].1 == Json(JStrings(gameVersions.value))
    ensures forall i :: 0 <= i < |p| && p[i].0 == "featured" ==> p[i].1 == Text(DumpBool(featured.value))
  {
    var a: Params := if Truthy(loaders) then [("loaders", Json(JStrings(loaders.value)))] else [];
    var b: Params := if Truthy(gameVersions) then [("game_versions", Json(JStrings(gameVersions.value)))] else [];
    var c: Params := if featured.Some? then [("featured", Text(DumpBool(featured.value)))] else [];
    assert HasKey(a, "loaders") <==> Truthy(loaders) by { if |a| > 0 { assert a[0].0 == "loaders"; } }
    assert HasKey(b, "game_versions") <==> Truthy(gameVersions) by { if |b| > 0 { assert b[0].0 == "game_versions"; } }
    assert HasKey(c, "featured") <==> featured.Some? by { if |c| > 0 { assert c[0].0 == "featured"; } }
    HasKeyAppend(a, b, "loaders"); HasKeyAppend(a + b, c, "loaders");
    HasKeyAppend(a, b, "game_versions"); HasKeyAppend(a + b, c, "game_versions");
    HasKeyAppend(a, b, "featured"); HasKeyAppend(a + b, c, "featured");
    a + b + c
  }

  lemma HasKeyAppend(p: Params, q: Params, k: string)
    ensures HasKey(p + q, k) <==> HasKey(p, k) || HasKey(q, k)
  {
    if HasKey(p, k) {
      var i :| 0 <= i < |p| && p[i].0 == k;
      assert (p + q)[i] == p[i];
    }
    if HasKey(q, k) {
      var i :| 0 <= i < |q| && q[i].0 == k;
      assert (p + q)[|p| + i] == q[i];
    }
    if HasKey(p + q, k) {
      var i :| 0 <= i < |p + q| && (p + q)[i].0 == k;
      if i >= |p| {
        assert q[i - |p|] == (p + q)[i];
      }
    }
  }

  /** `get_multiple_versions`: a 414 (URL too long) becomes "too many ids"; any
      other error passes through. */
  function VersionsError(e: ApiError): (r: ApiError)
    ensures e == HttpStatus(414) ==> r == TooManyIds
    ensures e != HttpStatus(414) ==> r == e
  {
    if e == HttpStatus(414) then TooManyIds else e
  }

  /** `check_slug_validity`: every HTTP status error becomes "invalid slug";
      anything else (a ratelimit refusal) passes through. */
  function SlugError(slug: string, e: ApiError): (r: ApiError)
    ensures e.HttpStatus? ==> r == InvalidSlug(slug)
    ensures !e.HttpStatus? ==> r == e
  {
    if e.HttpStatus? then InvalidSlug(slug) else e
  }

  class ModrinthAPI {
    const ratelimiter: Ratelimiter
    var sent: seq<Request>

    function State(): ClientState
      reads this, ratelimiter
    {
      ClientState(ratelimiter.State(), sent)
    }

    /** `ModrinthAPI()`: a fresh tracker `Ratelimiter(300)` and nothing sent. */
    constructor ()
      ensures fresh(ratelimiter)
      ensures State() == ClientState(Initial(300, None, None, DATETIME_MIN), [])
    {
      ratelimiter := new Ratelimiter(300, None, None, DATETIME_MIN);
      sent := [];
    }

    /** `_get(url, params=...)` at instant `now`, `resp` being the transport's answer. */
    method Get<B>(url: string, params: Params, now: int, resp: Response<B>) returns (r: Result<Response<B>, ApiError>)
      modifies this, ratelimiter
      ensures (State(), r) == GetSpec(old(State()), Request(url, params), now, resp)
    {
      if ratelimiter.AreRatelimited(now) {
        return Failure(Ratelimited(ratelimiter.ResetAt()));
      }
      sent := sent + [Request(url, params)];
      var _ := ratelimiter.Sync(HeaderOr(resp.limitHeader), HeaderOr(resp.remainingHeader), HeaderOr(resp.resetHeader), now);
      r := Success(resp);
    }

    /** `_get_json(url, params=...)`. */
    method GetJson<B>(url: string, params: Params, now: int, resp: Response<B>) returns (r: Result<B, ApiError>)
      modifies this, ratelimiter
      ensures (State(), r) == GetJsonSpec(old(State()), Request(url, params), now, resp)
    {
      var g := Get(url, params, now, resp);
      match g
      case Failure(e) =>
        r := Failure(e);
      case Success(rsp) =>
        if !IsSuccess(rsp.status) {
          return Failure(HttpStatus(rsp.status));
        }
        r := Success(rsp.body);
    }

    /** `get_random_projects(count)`: out-of-range counts raise before anything is sent. */
    method GetRandomProjects<P>(count: int, now: int, resp: Response<seq<P>>) returns (r: Result<seq<P>, ApiError>)
      modifies this, ratelimiter
      ensures RandomProjectsRequest(count).Failure? ==> r == Failure(RandomProjectsRequest(count).error) && State() == old(State())
      ensures RandomProjectsRequest(count).Success? ==>
        (State(), r) == GetJsonSpec(old(State()), RandomProjectsRequest(count).value, now, resp)
    {
      var req := RandomProjectsRequest(count);
      if req.Failure? {
        return Failure(req.error);
      }
      r := GetJson(req.value.url, req.value.params, now, resp);
    }

    /** `check_slug_validity(slug)`: the project id from the response; an HTTP error
        becomes `InvalidSlug`, and a body without `id` raises `KeyError`. */
    method CheckSlugValidity(slug: string, now: int, resp: Response<Option<string>>) returns (r: Result<string, ApiError>)
      modifies this, ratelimiter
      ensures var (s1, g) := GetJsonSpec(old(State()), Request("/project/" + slug + "/check", []), now, resp);
        State() == s1
        && r == (match g
                 case Failure(e) => Failure(SlugError(slug, e))
                 case Success(body) => if body.Some? then Success(body.value) else Failure(MissingId))
    {
      var g := GetJson("/project/" + slug + "/check", [], now, resp);
      match g
      case Failure(e) =>
        r := Failure(SlugError(slug, e));
      case Success(body) =>
        if body.None? {
          return Failure(MissingId);
        }
        r := Success(body.value);
    }

    /** `list_project_versions(slug, loaders, game_versions, featured)`. */
    method ListProjectVersions<V>(slug: string, loaders: Option<seq<string>>, gameVersions: Option<seq<string>>,
                                  featured: Option<bool>, now: int, resp: Response<seq<V>>)
      returns (r: Result<seq<V>, ApiError>)
      modifies this, ratelimiter
      ensures (State(), r) == GetJsonSpec(old(State()),
        Request("/project/" + slug + "/versions", VersionFilterParams(loaders, gameVersions, featured)), now, resp)
    {
      r := GetJson("/project/" + slug + "/versions", VersionFilterParams(loaders, gameVersions, featured), now, resp);
    }

    /** `get_multiple_versions(*ids)`: a 414 becomes `TooManyIds`. */
    method GetMultipleVersions<V>(ids: seq<string>, now: int, resp: Response<seq<V>>) returns (r: Result<seq<V>, ApiError>)
      modifies this, ratelimiter
      ensures var (s1, g) := GetJsonSpec(old(State()), Request("/versions", [("ids", Json(JStrings(ids)))]), now, resp);
        State() == s1 && r == (if g.Failure? then Failure(VersionsError(g.error)) else g)
    {
      var g := GetJson("/versions", [("ids", Json(JStrings(ids)))], now, resp);
      if g.Failure? {
        return Failure(VersionsError(g.error));
      }
      r := g;
    }
  }

  /** A slug lookup that the server refuses with any status outside 2xx (not
      only a 4xx) reports the slug as invalid, after the tracker was synced. */
  lemma CheckSlugRefused(s: ClientState, slug: string, now: int, resp: Response<Option<string>>)
    requires !s.limits.Exhausted(now) && !IsSuccess(resp.status)
    ensures var (_, g) := GetJsonSpec(s, Request("/project/" + slug + "/check", []), now, resp);
      g.Failure? && SlugError(slug, g.error) == InvalidSlug(slug)
  {
  }
}
