# modman core in Dafny

This project models the core of **modman**, a command-line client for the
Modrinth mod repository. Modman is written in Python. The model covers four
parts:

- **The API client** (`src/modman/api.py`):
  - the ratelimit tracker, which reads the `X-Ratelimit-*` headers;
  - the request gate in front of every call;
  - the facet builder;
  - the paginated search iterator;
  - the argument and error rules of the version and slug endpoints.
- **The response records** (`src/modman/models.py`):
  - the slug and colour constraints of search hits;
  - the rank of the version type;
  - the version ordering, the primary file, the pre-release flag, equality and hash.
- **The download worker** (`src/modman/lib.py`): it streams a file, hashes it and retries up to three times on a checksum mismatch.
- **The runtime helpers** (`src/modman/lib.py`): the search for the configuration file, saving and loading the configuration, and the `install.properties` parser.

The model abstracts away the outside world:

- **Time.** An instant is an `int` count of seconds, and `datetime.min` is `0`. Every operation that reads the clock takes the instant as a parameter (`now`).
- **The network.** A response is a value, `Http.Response<B>`. It holds a status, the three ratelimit headers already read as integers and a decoded body.
  - A method that issues a request takes the response the server would give.
  - The client keeps the log of requests it sent. This log is the only trace of the network.
- **Search pages.** `all()` receives the pages as a function from page number to response, and the clock as a function from the number of requests sent so far to the current instant.
- **Downloads.** A download receives its streamed attempts as a function from attempt number to chunk list, and the SHA-512 hex digest as a function parameter.
- **The file system.** A file system is a predicate that says which paths exist.

Each Python class whose fields change becomes a Dafny `class`: `Ratelimiter`, `ModrinthAPI`, `SearchIterator`, `DownloadThread`, and the progress display and target file it writes to. The methods of `Ratelimiter`, `ModrinthAPI` and `SearchIterator`, `DownloadThread.Run` and the loops of `construct_facets`, `find_config` and the properties parser are proved against a pure specification function, as in `ensures (State(), r) == NextStep(query, old(State()), now, resp)`, and lemmas state what the source promises about that function. `DownloadThread.Attempt` and `Retry` and the members of the progress display and the target file state their whole new state in their own `ensures` clauses.

Where the specification and the code disagree, the model follows the code, with one exception:

- `are_ratelimited` counts the instant `reset_at` itself as still limited, because it uses `>=` (`Ratelimit.ExhaustionWindow`).
- `check_slug_validity` reports `InvalidSlug` for every status outside 2xx, 5xx included, not only for a 4xx (`Api.CheckSlugRefused`).
- `construct_facets` builds one inner list per distinct field. So `versions="1.20.1", categories="fabric"` gives `[["versions:1.20.1"], ["categories:fabric"]]`, not the single group that the docstring example at `src/modman/api.py:238-239` shows (`FacetsProperties.TwoPlainFields`). Arguments naming the same field, such as `versions` and `versions__eq`, share a group (`FacetsProperties.SamePlainField`).
- `all()` leaves out the hits of the final short page, and `run()` never sets the success flag. Both are listed under Findings; the main model keeps the code's behaviour, and the corrected versions stand beside it.
- Search validation checks slugs with the pattern as written, which accepts one trailing newline (`Models.ValidateSearchResult`). The intended rule is `Models.ValidateSearchResultIntended` (Findings).
- The exception is version ordering. As written, comparing versions of different types raises `TypeError`. The model orders versions as the `VersionType` docstring (`src/modman/models.py:297-306`) intends, by type rank and then by date (`Models.Lt`, `Models.TypeDominates`). The behaviour as written is `Models.LtAsWritten` (Findings).

Files:

| file | module | content |
|---|---|---|
| `wrappers.dfy` | `Wrappers` | `Option` and `Result` |
| `http.dfy` | `Http` | requests, responses, the error taxonomy |
| `ratelimit.dfy` | `Ratelimit` | the tracker value `Limits` and the class `Ratelimiter` |
| `api.dfy` | `Api` | the gate `GetSpec`/`GetJsonSpec`, the class `ModrinthAPI`, the argument rules |
| `facets.dfy` | `Facets`, `FacetsProperties` | `construct_facets` as a method, its reference definition and its properties |
| `models.dfy` | `Models` | validators, version type, ordering, primary file, identity |
| `search.dfy` | `Search` | `SearchIterator` and the step, page and drain specifications |
| `download.dfy` | `Download` | `DownloadThread.run` and the retry loop |
| `runtime.dfy` | `Runtime` | `find_config`, `save_config`/`load_config`, `str.strip`, the properties parser |

## Model

| member | source | states |
|---|---|---|
| Ratelimit.OrElse | src/modman/api.py:31-32 | `x or d`: a present non-zero value is kept, and `None` or `0` falls back to the default |
| Ratelimit.Ratelimiter.constructor | src/modman/api.py:29-33 | the new tracker holds `limit`; `remaining or limit`; `reset or 0`; and `last_hit` as `datetime.min` exactly when the reset is 0, otherwise now |
| Ratelimit.InitialDefaults | src/modman/api.py:29-33 | a missing or zero `remaining` becomes `limit`; a missing or zero reset puts `reset_at` at `datetime.min`; a fresh tracker with a non-zero limit and a defaulted remaining budget is not limited |
| Ratelimit.InitialRemainingNonNegative | src/modman/api.py:29-33 | non-negative arguments give a non-negative remaining budget |
| Ratelimit.Ratelimiter.ResetAt | src/modman/api.py:41-43 | `reset_at` is `last_hit` plus `reset` seconds |
| Ratelimit.Ratelimiter.Sync | src/modman/api.py:45-61 | each field is replaced only by a non-negative value; `last_hit` becomes now; the method returns the same instance |
| Ratelimit.SentinelSyncOnlyStamps | src/modman/api.py:54-60 | a sync with the three `-1` sentinels changes only the timestamp |
| Ratelimit.SyncedIdempotent | src/modman/api.py:54-60 | syncing twice with the same headers at the same instant is the same as syncing once |
| Ratelimit.SyncedKeepsRemainingNonNegative | src/modman/api.py:56-57 | a sync never makes a non-negative remaining budget negative |
| Ratelimit.Ratelimiter.AreRatelimited | src/modman/api.py:63-65 | limited exactly when `reset_at >= now` and `remaining == 0` |
| Ratelimit.SyncedExhausted | src/modman/api.py:54-65 | after a sync at `t`, the tracker is limited at `now` exactly when the remaining budget it now holds is 0 and `now <= t + reset` for the reset it now holds |
| Ratelimit.RemainingNotExhausted | src/modman/api.py:63-65 | a positive remaining budget is never limited |
| Ratelimit.ExhaustionWindow | src/modman/api.py:63-65 | an exhausted tracker stays limited up to `reset_at` inclusive and is free one second later |
| Api.ModrinthAPI.constructor | src/modman/api.py:194-198 | a new client owns a fresh tracker `Ratelimiter(300)` and has sent nothing |
| Api.ModrinthAPI.Get | src/modman/api.py:209-219 | `_get`: the new client state and the result are those of `GetSpec`, the gate specification |
| Api.ModrinthAPI.GetJson | src/modman/api.py:221-229 | `_get_json`: the new client state and the result are those of `GetJsonSpec` |
| Api.GetJsonGate | src/modman/api.py:209-229 | when limited: `Ratelimited(reset_at)` with nothing sent and the state unchanged; otherwise exactly one request is logged, the tracker is synced from the headers with `-1` for a missing one, and the body is returned exactly on a 2xx status, else `HttpStatus` |
| Api.GetJsonAppendsAtMostOne | src/modman/api.py:209-219 | a call only ever appends to the request log, at most one request, and a successful call appends exactly its own request |
| Api.RandomProjectsRequest | src/modman/api.py:308-314 | count above 100 and count below 0 each raise their own error; each error occurs exactly in its case; otherwise the request is `/projects_random` with `count` |
| Api.ModrinthAPI.GetRandomProjects | src/modman/api.py:308-314 | a rejected count raises before anything is sent and leaves the state unchanged; otherwise it is `_get_json` of that request |
| Api.SlugError | src/modman/api.py:323-326 | every HTTP status error becomes `InvalidSlug(slug)`; every other error passes through |
| Api.ModrinthAPI.CheckSlugValidity | src/modman/api.py:316-327 | the request is `/project/{slug}/check`; the result is the body's `id`; an HTTP error becomes `InvalidSlug`; a body without `id` raises `MissingId` |
| Api.CheckSlugRefused | src/modman/api.py:323-326 | any status outside 2xx, 5xx included, reports the slug as invalid |
| Api.VersionFilterParams | src/modman/api.py:366-372 | `loaders` and `game_versions` are present exactly when the lists are non-empty, and `featured` exactly when it is not `None`. The number of parameters is the number of those conditions that hold. Each value is the JSON dump of its argument |
| Api.ModrinthAPI.ListProjectVersions | src/modman/api.py:347-374 | `_get_json` of `/project/{slug}/versions` with the filter parameters |
| Api.VersionsError | src/modman/api.py:403-408 | status 414 becomes `TooManyIds`; every other error is re-raised unchanged |
| Api.ModrinthAPI.GetMultipleVersions | src/modman/api.py:396-409 | `_get_json` of `/versions` with the dumped ids, the error mapped by `VersionsError` |
| Facets.LastSeparator | src/modman/api.py:257 | the position where `rsplit("__", 1)` splits: a `"__"` with no later one, or `None` when the key has none |
| Facets.SplitKeyMeaning | src/modman/api.py:256-259 | a key without `"__"` is `(key, "eq")`; otherwise `field + "__" + op == key` and `op` contains no `"__"` |
| Facets.FirstBadOp | src/modman/api.py:253-261 | there is no bad operator exactly when every operator is in the six-entry table |
| Facets.ConstructFacets | src/modman/api.py:232-269 | the method's result is the reference definition `FacetsSpec` |
| Facets.CollectPairs | src/modman/api.py:254-261 | the first unknown operator raises; otherwise the field order is the order of first appearance, the mapping has exactly those keys, and each field maps to its (symbol, value) pairs in argument order |
| Facets.RenderGroups | src/modman/api.py:263-268 | rendering the mapping equals the reference rendering `RenderAll` |
| Facets.RenderOne | src/modman/api.py:265-267 | rendering one field's pairs equals `RenderGroup` |
| FacetsProperties.FieldsOrder | src/modman/api.py:254-261 | the fields are distinct; a field is listed exactly when some argument names it; the fields of a prefix of the arguments are a prefix of the fields |
| FacetsProperties.SumPairsFields | src/modman/api.py:255-261 | every argument lands in exactly one field's list |
| FacetsProperties.PairsValues | src/modman/api.py:255-261 | a field's list holds exactly the values given for that field |
| FacetsProperties.PairsIndexOf | src/modman/api.py:255-261 | each argument's value appears in its field's list |
| FacetsProperties.RenderGroupShape | src/modman/api.py:265-267 | a group renders exactly when all its values are strings; then entry `j` is `field + symbol + value` of pair `j` |
| FacetsProperties.RenderAllShape | src/modman/api.py:263-268 | all groups render exactly when each one does; then group `g` is the rendering of field `g` |
| FacetsProperties.RenderAllTotal | src/modman/api.py:263-268 | the rendered groups hold as many strings as the fields have pairs |
| FacetsProperties.FacetsShape | src/modman/api.py:232-269 | on success there is one group per distinct field and as many strings as arguments, each `field + symbol + value` in argument order |
| FacetsProperties.FacetsErrors | src/modman/api.py:256-267 | the first unknown operator is a `KeyError`; otherwise an integer value is a `TypeError`; the call succeeds exactly when all operators are known and all values are strings |
| FacetsProperties.IntValueFails | src/modman/api.py:267 | any integer value makes the rendering fail |
| FacetsProperties.StringValuesRender | src/modman/api.py:263-268 | all-string values always render |
| FacetsProperties.SingleStringArgument | src/modman/api.py:240-241 | one argument with a known operator gives `[[field + symbol + value]]`, as in `downloads__gte="100"` giving `downloads>=100`; an integer value fails instead (`FacetsProperties.IntValueFails`) |
| FacetsProperties.PlainKeyUsesColon | src/modman/api.py:258-259 | a key without `"__"` renders with `":"` |
| FacetsProperties.TwoPlainFields | src/modman/api.py:260-268 | two different plain fields give two groups in argument order |
| FacetsProperties.EqSuffixKey | src/modman/api.py:256-259 | the key `k__eq` splits into field `k` and operator `eq`, rendered `":"` |
| FacetsProperties.SamePlainField | src/modman/api.py:260-268 | two distinct keys naming the same field, `k` and `k__eq`, give one group with both entries in argument order |
| Models.ValidateSearchResult | src/modman/models.py:100-123 | a page validates, unchanged, exactly when every hit's slug matches the pattern as written (a final newline included) and every colour is absent or within `0..0xFFFFFF` |
| Models.ValidateSearchResultIntended | src/modman/models.py:100-123 | corrected: a page validates exactly when every slug is 3 to 64 characters of the slug class and every colour is absent or in range |
| Models.IntendedValidationStricter | src/modman/models.py:105 | every page the intended rule accepts is accepted as written, and the two agree when no slug ends in a newline |
| Models.NewlineSlugPageAccepted | src/modman/models.py:105 | a page with the slug `"abc\n"` validates as written and fails the intended rule |
| Models.SlugHasNoSlash | src/modman/models.py:105 | a valid slug never contains `/` |
| Models.SlugTrailingNewlineAccepted | src/modman/models.py:105 | the pattern as written accepts `"abc\n"`; the intended rule rejects it |
| Models.SlugRulesAgreeWithoutNewline | src/modman/models.py:105 | the two rules agree on every string that does not end in a newline |
| Models.Rank | src/modman/models.py:308-313 | `__int__` is the index of the member's value in `["alpha", "beta", "release"]` |
| Models.RankOrder | src/modman/models.py:299-313 | alpha < beta < release, and equal ranks mean equal types |
| Models.FirstPrimary | src/modman/models.py:400-402 | the index of the first file flagged primary; `None` exactly when no file is flagged |
| Models.PrimaryFile | src/modman/models.py:395-403 | fails exactly on an empty file list; the result is one of the files; when any file is flagged it is the first flagged file; with none flagged it is the first file |
| Models.PrimaryFileUnique | src/modman/models.py:344-350 | when exactly one file is flagged, that file is the primary file |
| Models.PreReleaseByRank | src/modman/models.py:405-408 | a pre-release is exactly an alpha or a beta, that is, rank below release |
| Models.TypeDominates | src/modman/models.py:410-420 | a higher type is greater whatever the dates |
| Models.SameTypeByDate | src/modman/models.py:416-417 | within one type, `<` is "published earlier" |
| Models.OrderConverse | src/modman/models.py:410-420 | `>` and `<` are converse, as are `>=` and `<=`; `<=` is `<` or equal keys |
| Models.OrderTransitive | src/modman/models.py:416-420 | `<` and `<=` are transitive, and `<` is irreflexive |
| Models.OrderTotal | src/modman/models.py:410-420 | exactly one of `<`, equal keys, `>` holds |
| Models.PreReleaseBeforeRelease | src/modman/models.py:406-417 | every pre-release sorts before every release |
| Models.LtAsWritten | src/modman/models.py:416-417 | as written: within one type it agrees with the rank order; across types it raises |
| Models.CompareAcrossTypesRaises | src/modman/models.py:416-417 | a release and a later beta: the comparison as written raises, while the rank order puts the release above |
| Models.EqualityAndHash | src/modman/models.py:422-426 | equality by `id` is an equivalence, and equal versions hash alike |
| Models.EqualityIgnoresKey | src/modman/models.py:410-426 | two records of one id are equal and yet one is `<` the other |
| Search.LimitError | src/modman/api.py:86-89 | a limit above 100 and a limit below 1 each raise their own error, each exactly in its case; no error exactly when `1 <= limit <= 100` |
| Search.StartPage | src/modman/api.py:97 | `offset // limit` is the page whose span holds the offset |
| Search.Open | src/modman/api.py:76-100 | a bad limit raises before anything else; otherwise a fresh iterator at `offset // limit` with an empty cache and `total_hits` 9999 |
| Search.SearchIterator.constructor | src/modman/api.py:90-100 | the fields as initialised, once the limit is valid |
| Search.SearchIterator.ConstructParams | src/modman/api.py:113-120 | the parameters are `SearchParams` of the query at the cursor |
| Search.SearchParamsShape | src/modman/api.py:113-120 | `index`, `offset = limit * page` and `limit` come first, then `query` exactly when the text is non-empty and `facets` exactly when the facets are non-empty |
| Search.SearchIterator.Next | src/modman/api.py:125-155 | `__next__`: the new state and the step are those of `NextStep` |
| Search.NextStepOutcome | src/modman/api.py:125-155 | either cursor, cache and `total_hits` are unchanged and nothing is yielded; or the validated page joins the cache at the cursor, the cursor advances, and the page is yielded exactly when it is not short |
| Search.NextStepRefusals | src/modman/api.py:128-137 | a limited tracker raises `Ratelimited` with nothing changed; an HTTP error ends the iteration at the same cursor; a page predicting more requests than the limit raises `SearchTooBroad` |
| Search.NextStepAccepts | src/modman/api.py:133-155 | a valid 2xx page within budget is cached at the cursor, the cursor advances, `total_hits` is taken from it, and it is yielded unless short |
| Search.SearchIterator.Page | src/modman/api.py:157-176 | `page(n)`: the new state and the result are those of `PageSpec` |
| Search.PageRestoresCursor | src/modman/api.py:164-176 | the cursor is the same afterwards on every path; a cached page is returned with nothing sent |
| Search.PageFetched | src/modman/api.py:168-174 | a fetched page is returned exactly when it is full, and is then cached; `IndexError` exactly when `__next__` stopped |
| Search.ShortPageCachedButRefused | src/modman/api.py:143-174 | a short page is refused with `IndexError` yet cached, so asking again returns it without a request |
| Search.SearchIterator.GetItem | src/modman/api.py:178-181 | `self[n]` is the hits of `page(n)` |
| Search.SearchIterator.All | src/modman/api.py:183-188 | `all()`: the new state and the result are those of `AllSpec` |
| Search.DrainStep | src/modman/api.py:185-188 | a yielded page extends the hit list, and `StopIteration` returns it |
| Search.DrainFrame | src/modman/api.py:183-188 | the drain never moves the cursor back, keeps earlier pages, and leaves every page it passed cached |
| Search.DrainCollects | src/modman/api.py:183-188 | what `all()` returns: the hits of every page fetched, in order, except a final short page |
| Search.AllCollects | src/modman/api.py:183-188 | the same from an empty list, with every fetched page cached |
| Search.AllDropsShortPage | src/modman/api.py:183-188 | pages of 2, 2 and 1 hits at limit 2: `all()` returns 4 hits; the fifth is fetched and cached but lost |
| Search.DrainCompleteCollects | src/modman/api.py:183-188 | the corrected `all()` returns the hits of every fetched page in page order |
| Search.AllCompleteKeepsShortPage | src/modman/api.py:183-188 | the corrected `all()` returns all 5 hits on the same pages |
| Download.FlattenLength | src/modman/lib.py:58-62 | the written bytes are as many as the progress advances by |
| Download.StopFromFirst | src/modman/lib.py:53-71 | the loop stops at the first accepted attempt, and runs all three only when none is accepted |
| Download.Attempts | src/modman/lib.py:53-73 | between 1 and 3 streams are opened |
| Download.RunResultCases | src/modman/lib.py:41-73 | `run` returns exactly when HEAD is 2xx with a length and either there are no hashes or some attempt matches; it raises the integrity error exactly when all three mismatch |
| Download.NoHashesOneAttempt | src/modman/lib.py:63-65 | without hashes exactly one attempt is made |
| Download.MatchOnThirdAttempt | src/modman/lib.py:53-71 | two mismatches then a match: three attempts, and `run` returns |
| Download.DownloadThread.constructor | src/modman/lib.py:25-39 | the fields as given, `success` false |
| Download.TargetFile.Touch | src/modman/lib.py:56 | the file exists, with its content kept |
| Download.TargetFile.OpenForWriting | src/modman/lib.py:57 | opening with `"wb"` truncates |
| Download.TargetFile.Write | src/modman/lib.py:60 | a write appends the chunk |
| Download.Progress.AddTask | src/modman/lib.py:50-51 | a new task with the total and nothing completed; its id is its index |
| Download.Progress.Advance | src/modman/lib.py:61-62 | only the task's completed count grows, by `n` |
| Download.DownloadThread.Attempt | src/modman/lib.py:54-62 | one stream: the file holds exactly the streamed bytes, the hashed bytes are the same, and the progress advanced by their length |
| Download.DownloadThread.Retry | src/modman/lib.py:53-73 | verified exactly when some attempt is accepted; `Attempts` streams were opened; the file holds the last attempt's bytes; the progress counts all streamed bytes |
| Download.DownloadThread.Run | src/modman/lib.py:41-73 | the result is `RunResult`; the HEAD errors touch nothing; `success` is never changed |
| Download.SuccessNeverFlagged | src/modman/lib.py:39-73 | as written, a returning run leaves `success` false |
| Download.DownloadThread.RunAndRecord | src/modman/lib.py:41-73 | corrected: `success` holds exactly when `run` returned |
| Download.SuccessFlagged | src/modman/lib.py:39-73 | corrected: the same returning run sets `success` |
| Runtime.SearchUpNearest | src/modman/lib.py:84-86 | the search finds the nearest ancestor holding the file; `None` exactly when none does |
| Runtime.FindConfig | src/modman/lib.py:82-86 | the loop's result is `FindConfigSpec` |
| Runtime.FindConfigNearest | src/modman/lib.py:82-86 | `find_config` returns the nearest strict ancestor of the start directory holding `modman.toml`, or `None` exactly when none does |
| Runtime.FindConfigSkipsStart | src/modman/lib.py:84 | the start directory's own file is never returned |
| Runtime.LoadTarget | src/modman/lib.py:89-93 | `load_config` reads the found file, else raises `FileNotFoundError` |
| Runtime.SaveTarget | src/modman/lib.py:96-102 | `save_config` writes the found file, else `cwd/modman.toml` |
| Runtime.SaveThenLoadFails | src/modman/lib.py:84-102 | with no config in any ancestor, `save_config` writes `cwd/modman.toml` and `load_config` then fails |
| Runtime.SaveThenLoadFixed | src/modman/lib.py:82-102 | corrected: with the start directory searched too, loading after saving finds the saved file |
| Runtime.LeadingCut | src/modman/lib.py:130 | the leading run of whitespace that `strip()` cuts |
| Runtime.TrailingEnd | src/modman/lib.py:130 | where the trailing run of whitespace starts |
| Runtime.StripSlice | src/modman/lib.py:130 | `strip()` is a slice with only whitespace before and after it, and it neither starts nor ends with whitespace |
| Runtime.IndexOf | src/modman/lib.py:130 | the first `=`, or `None` when there is none |
| Runtime.SplitOnceMeaning | src/modman/lib.py:130 | unpacking `split("=")` into two succeeds exactly when there is one `=`, and then `key + "=" + value` is the line and neither side holds `=` |
| Runtime.ParseProperties | src/modman/lib.py:128-131 | the loop's result is `ParseSpec` |
| Runtime.ParseFailureSticks | src/modman/lib.py:129-130 | once a line fails, the whole parse fails with that error |
| Runtime.ParseErrors | src/modman/lib.py:129-131 | the parse succeeds exactly when every line splits; otherwise it reports the first line that does not |
| Runtime.ParseKeys | src/modman/lib.py:129-131 | the keys are exactly the keys of the lines |
| Runtime.ParseLastWins | src/modman/lib.py:131 | a key holds the value of its last line |
| Runtime.FabricVersions | src/modman/lib.py:138-141 | present exactly when both keys are present, with their values |
| Runtime.PropertyLineExample | src/modman/lib.py:130 | `" k=v\n"` gives `("k", "v")` |
| Runtime.TwoEqualsRejected | src/modman/lib.py:130 | `"a=b=c"` does not unpack |

## Left out

- JSON text: `json.dumps` output, `response.json()` and pydantic's parsing of JSON are not modelled. Parameters carry JSON values, and bodies arrive decoded.
- Header parsing: `int(...)` of a header is not modelled, so a non-numeric header raising `ValueError` is left out. Headers arrive as optional integers.
- Search.NextStep: the budget check `total_hits / limit > ratelimiter.limit` uses float division. It is stated as the exact integer comparison `total_hits > limit * ratelimit_limit`, which is the same test for every `limit >= 1`.
- Search.NextStep: the sleep of `ph / 600` seconds and the `MODMAN_NO_SEARCH_BUDGET` variable (`src/modman/api.py:152-154`) are left out. They are timing and environment, and they change no state or result.
- Search.SearchIterator.All: `all()` needs that the iteration ends within a ghost step bound `fuel`. The source loop need not end, for a server that always answers with full pages.
- `__iter__`, `__str__`, `__repr__` and the logging calls are left out.
- The slicing refusal in `page`/`__getitem__` is left out. Dafny's integer argument rules it out.
- `search_projects` with its default limit of 20 is left out. It only constructs the iterator, which is `Search.Open`.
- The other endpoints (`get_project`, `get_multiple_projects`, `get_version`, the hash lookups, dependencies) are left out. They are `_get_json` calls and have no logic of their own.
- Models.SlugChar: Python's `\w` also matches Unicode letters and digits. The model reads it as ASCII letters, digits and `_`.
- The pydantic checks other than the slug and colour constraints of search hits (URLs, enums, required fields) are left out. So are the records with no logic.
- `Project.slug` (`src/modman/models.py:206`) is never checked: the projects returned by `get_random_projects` are not validated, and their type is a parameter.
- Api.ModrinthAPI.Get: the instant of the ratelimit check and the instant `sync` stamps into `last_hit` are one parameter `now`. The source reads `datetime.now()` twice (`src/modman/api.py:65` and `src/modman/api.py:60`), so `last_hit` is really the later time of the response.
- Models.HashOf: Python's string hash is a parameter.
- Download.DownloadThread.Run: threading, the `httpx` client, `urlparse`, the task label, the log messages and `rich`'s display are left out. The progress display is its task list. The HEAD is a status and an optional length.
- Download.DownloadThread.Run: SHA-512 is a function parameter, and the hash is taken over the whole attempt at once, the same bytes `update` receives chunk by chunk.
- Runtime.FindConfig: paths are sequences of components from the root. `Path.cwd()` is a parameter and existence is a predicate. Relative paths and `resolve` are left out.
- Runtime.LoadTarget: the TOML content and `toml.load`/`toml.dump` are left out. The model states which file is read or written.
- Runtime.ParseProperties: the zip handling around the parser, `readlines` and UTF-8 decoding are left out. The lines arrive as strings, and `strip()` uses Python's whitespace set.

## Findings

| source | as written | input that shows it | evidently intended | confidence | as-written member | corrected member |
|---|---|---|---|---|---|---|
| src/modman/models.py:410-420 | Versions are compared as tuples `(version_type, date_published)`. `enum.Enum` defines no `<`, so `TypeError` is raised for versions of different types. | a release and a beta with any dates | order by type rank (`__int__`, the docstring at 299-306), then by date | not executed | Models.CompareAcrossTypesRaises | Models.TypeDominates |
| src/modman/models.py:105 | The pattern ends in `$`, which also matches before a final newline. | slug `"abc\n"` | only 3 to 64 characters of the slug class | not executed | Models.NewlineSlugPageAccepted | Models.ValidateSearchResultIntended |
| src/modman/api.py:145-188 | The final short page is cached and then ends the loop with `StopIteration`, so `all()` never adds its hits. | pages of 2, 2 and 1 hits at limit 2 | all pages' hits concatenated | not executed | Search.AllDropsShortPage | Search.AllCompleteKeepsShortPage |
| src/modman/lib.py:39-73 | `success` is set to `False` and never assigned again. | any download that verifies | `success` true once `run` returns | not executed | Download.SuccessNeverFlagged | Download.SuccessFlagged |
| src/modman/lib.py:84-102 | `find_config` searches only `start.parents`, never `start` itself, while `save_config` writes into the current directory. | an empty tree: save, then load | loading finds the saved config | not executed | Runtime.SaveThenLoadFails | Runtime.SaveThenLoadFixed |
