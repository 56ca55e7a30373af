/** The values that cross the transport boundary: requests, responses and the
    errors the client raises. Responses are abstract: status, the three
    ratelimit headers (already read as integers) and a decoded body of type `B`. */
module Http {
  import opened Wrappers

  /** A JSON value as `json.dumps` receives it; its text form is not modelled. */
  datatype JsonValue = JBool(b: bool) | JStrings(items: seq<string>) | JGroups(groups: seq<seq<string>>)

  /** A query parameter value: a string, an integer, or something to be dumped as JSON. */
  datatype ParamValue = Text(s: string) | Number(n: int) | Json(j: JsonValue)

  /** Query parameters in insertion order, as a Python `dict` keeps them. */
  type Params = seq<(string, ParamValue)>

  datatype Request = Request(url: string, params: Params)

  datatype Response<B> = Response(
    status: int,
    limitHeader: Option<int>,      // X-Ratelimit-Limit
    remainingHeader: Option<int>,  // X-Ratelimit-Remaining
    resetHeader: Option<int>,      // X-Ratelimit-Reset
    body: B)

  /** `raise_for_status` raises for every status outside 2xx. */
  predicate IsSuccess(status: int) { 200 <= status < 300 }

  /** `int(headers.get(name, -1))` for a header that is an integer when present. */
  function HeaderOr(h: Option<int>): int { if h.Some? then h.value else -1 }

  /** True when a parameter list holds key `k`. */
  predicate HasKey(p: Params, k: string) { exists i :: 0 <= i < |p| && p[i].0 == k }

  /** What the client raises. */
  datatype ApiError =
    | Ratelimited(until: int)       // errors.Ratelimited, carrying `until`
    | HttpStatus(status: int)       // httpx.HTTPStatusError
    | LimitTooLarge                 // ValueError("Limit cannot be greater than 100")
    | LimitTooSmall                 // ValueError("Limit cannot be less than 1")
    | CountTooLarge                 // ValueError("Count cannot be greater than 100")
    | CountTooSmall                 // ValueError("Count cannot be less than 0")
    | InvalidSlug(slug: string)     // ValueError("The slug/ID ... is invalid.")
    | TooManyIds                    // ValueError("Too many IDs provided ...")
    | MissingId                     // KeyError('id')
    | ValidationFailed              // pydantic ValidationError
    | SearchTooBroad                // RuntimeError("Search too vague ...")
    | PageOutOfRange                // IndexError("Page index out of range")
}
