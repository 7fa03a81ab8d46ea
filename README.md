# OpenSerp client — a Dafny model

This project models the synchronous client of the OpenSerp API wrapper
(`OpenSerpClient` in `openserp_wrapper/client.py`) and the wrapper's exception
hierarchy (`openserp_wrapper/exceptions.py`). The model covers:

- how `search` checks its arguments: text first, then limit, then offset;
- how it builds the cache key `search:{text}:{engines}:{limit}:{offset}`, where
  the engines are sorted and comma-joined, or `all` when none are given;
- how it builds the query parameters of `GET /mega/search`, including the rule
  for combining the two dates;
- the control flow of `search` over a cache: wait for the rate limiter, answer
  from the cache when the cached value is truthy, otherwise send one request,
  classify the status, and cache only a successful body with the client's TTL;
- how transport failures become wrapper exceptions;
- the constructor (`base_url.rstrip("/")`, a fresh empty cache when none, or
  a falsy one, is given) and `clear_cache`;
- the exceptions as one datatype, with `str(e)` rendered as `[code] message`
  or as the message alone.

Files, one module each:

- `wrappers.dfy`: `Option` (Python's `None`) and `Result` (a return value or a raised exception).
- `builtins.dfy`: the Python built-ins the client relies on. These are `str.join`,
  Python's string ordering and `sorted`, `str(int)` and `str.rstrip`, each with
  the properties the client needs. `sorted` is proved to give ordered output
  that is a permutation of its input, and to give the same answer for every
  reordering of its input. `str(int)` is proved injective and free of colons.
- `json.dfy`: the decoded body of a response, and Python's truth value of it.
- `exceptions.dfy`: `OpenSerpException` and its subclasses, with `Code()` and `ToString()`.
- `client.dfy`: the search arguments, validation, the cache key, the params,
  the HTTP outcome and its classification, and the `OpenSerpClient` class.

The HTTP request is not executed. `Search` takes the session's answer as a
parameter of type `HttpOutcome`. That answer is either a response (status,
text and decoded body) or one of three failure tags: timeout, connection
failure, or any other request failure with its description. The client object
carries two ghost fields that the Python object does not have: how often
`rate_limiter.wait()` was called (`limiterWaits`), and the log of params it
sent (`sent`). With these, the contracts can say that a step was or was not
taken.

The repository's documentation describes a different system: a multi-engine
fan-out with deduplication, ranking, a throttling rejection from the rate
limiter, and a cache key that also covers the date, language and sort. The
code does none of this. The model follows the code, so the key ignores date,
language and sort (`KeyIgnoresFilters`). `search` ignores whatever
`rate_limiter.wait()` returns; the model treats `wait()` as a step that always
returns, and an exception raised from it is not modelled. Cache failures are
not caught by `search`.

The key has two consequences that the model states outright. Because the
text is not escaped, a colon in it can stand in for the engines field
(`KeyTextCollision`: the text `a:b` without engines and the text `a` with the
engine `b:all` share one key). And because the filters are not in the key, a
search that differs from an earlier successful one only in dates, language or
sort is answered with the earlier body and sends no request
(`FilterChangeServedFromCache`).

## Model

| member | source | states |
|---|---|---|
| `Client.Validate` | openserp_wrapper/client.py:100-106 | No error exactly when text is a non-empty string, 1 <= limit <= 100 and offset >= 0. Otherwise the result is a `ValidationError` with no code, and the first failing check picks it: text, then limit, then offset, each with its own message. |
| `Client.OpenSerpClient.Search` | openserp_wrapper/client.py:108-170 | Invalid arguments give the validation error and leave the rate limiter, the cache and the session untouched. Otherwise the rate limiter is waited on once, if there is one. A truthy cached value under the key is returned unchanged, with no request and no cache write. Otherwise exactly one request is sent with the params of `ParamsFor`, and the result is `HandleOutcome`'s. The cache gets `CacheEntry(body, cache_ttl)` under the key on success only, and is unchanged otherwise. The settings never change. |
| `Client.RepeatedSearchUsesCache` | openserp_wrapper/client.py:113-161 | On a fresh client, a valid search whose answer is a successful truthy body returns that body. The same search again, with no expiry in between (the model has no clock), returns the same result, and only one request is sent in all. |
| `Client.FilterChangeServedFromCache` | openserp_wrapper/client.py:113-161 | On a fresh client, after a successful truthy search, a second search that differs only in date_from, date_to, language or sort is answered with the first body, with no expiry in between. Only one request is sent in all. |
| `Client.CacheHit` | openserp_wrapper/client.py:114-115 | `if cached_result`: the key is present and its value is truthy. Its exact extent is stated by `CacheHitExactly`. |
| `Client.CacheHitExactly` | openserp_wrapper/client.py:114-115 | A hit happens exactly when the key is present and its value is none of null, false, 0, "", [] and {}. |
| `Json.Truthy` | openserp_wrapper/client.py:115 | Python's `bool` of a decoded body. Its exact extent is stated by `Json.FalsyValues`. |
| `Json.FalsyValues` | openserp_wrapper/client.py:115 | A value is false exactly when it is one of null, false, 0, "", [] and {}. |
| `Client.FalsyCachedValueIsMiss` | openserp_wrapper/client.py:114-115 | An empty dict, empty list, null or empty string in the cache is not a hit. |
| `Client.HandleOutcome` | openserp_wrapper/client.py:146-170 | Success exactly for a response with status below 400, and then the value is the decoded body. 429 gives `ConnectionError("Rate limited by OpenSerp server", "RATE_LIMIT")`. Any other status >= 400 gives `APIError("API error: " + text)` carrying that status. A timeout gives `TimeoutError` naming the timeout in seconds. A connection failure gives `ConnectionError` naming the base URL. Any other request failure gives `ConnectionError("Request error: ...")`. |
| `Client.ErrorStatusesClassified` | openserp_wrapper/client.py:146-154 | For every status >= 400 the result is an error. The `RATE_LIMIT` code appears exactly for 429, an `APIError` exactly for the rest, and the API error renders as its message because it has no code. |
| `Client.BuildParams` | openserp_wrapper/client.py:118-135 | The params built step by step satisfy `ParamsFor`. `text`, `limit`, `offset` and `sort` always hold the arguments. `engines` is present exactly when the list is non-empty, joined in the caller's order. `date` is `from..to` exactly when both dates are truthy. `date_from` or `date_to` appears alone exactly when only that end is truthy. `lang` is present exactly when the language is truthy. |
| `Client.ParamsFor` | openserp_wrapper/client.py:118-135 | The params dict `search` builds for a request. `BuildParams` meets it, `ParamsDetermined` shows that only one dict does, and `ParamsShape` gives the key-presence rules. |
| `Client.ParamsDetermined` | openserp_wrapper/client.py:118-135 | Any two dicts satisfying `ParamsFor` for one request are equal, so the characterisation fixes the params completely. |
| `Client.ParamsShape` | openserp_wrapper/client.py:119-135 | The four fixed keys are always present. With a `date` key there is neither `date_from` nor `date_to`, and never both single ends. `engines` and `lang` are present exactly when their arguments are truthy. |
| `Client.ParamsKeepEngineOrder` | openserp_wrapper/client.py:127 | For engines `["duckduckgo", "bing"]`, the params carry `duckduckgo,bing` while the cache key's engines part is `bing,duckduckgo`. |
| `Client.WireInjective` | openserp_wrapper/client.py:119-135 | The nine param keys have pairwise different names on the wire. |
| `Client.CacheKey` | openserp_wrapper/client.py:205-214 | `_generate_cache_key`. Its properties are stated by `KeyUsesSortedEngines`, `KeyIgnoresEngineOrder`, `KeyDefaultsToAll`, `KeySeparatesPages` and `KeyTextCollision`. |
| `Client.KeyIgnoresEngineOrder` | openserp_wrapper/client.py:213 | Any permutation of the engine list gives the same cache key. |
| `Client.KeyUsesSortedEngines` | openserp_wrapper/client.py:213-214 | For a non-empty engine list, the key is `search:` + text + `:` + any ascending arrangement of the engines joined by commas + `:` + limit + `:` + offset. |
| `Client.KeyDefaultsToAll` | openserp_wrapper/client.py:213-214 | No engine list and an empty engine list both give `search:{text}:all:{limit}:{offset}`. |
| `Client.KeyIgnoresFilters` | openserp_wrapper/client.py:113 | Two requests that differ only in date_from, date_to, language or sort get the same key. |
| `Client.KeySeparatesPages` | openserp_wrapper/client.py:214 | Equal keys imply equal limit and equal offset, so different pages never share a cache entry. |
| `Client.KeyTextCollision` | openserp_wrapper/client.py:214 | The key does not separate text from engines: `CacheKey("a:b", None, 10, 0) == CacheKey("a", ["b:all"], 10, 0)`. |
| `Client.SortTwoEngines` | openserp_wrapper/client.py:213 | `sorted(["duckduckgo", "bing"])` is `["bing", "duckduckgo"]`. |
| `Client.OpenSerpClient.constructor` | openserp_wrapper/client.py:44-50 | `base_url` is stored with `RStrip(base_url, '/')`. A missing cache becomes an empty one, and a given one is kept. Timeout, TTL, rate-limiter presence and SSL flag are stored unchanged. No wait and no request has happened yet. |
| `Client.OpenSerpClient.ClearCache` | openserp_wrapper/client.py:189-191 | The cache is empty afterwards, and nothing else changes. |
| `Builtins.RStrip` | openserp_wrapper/client.py:44 | The result is a prefix of the input and does not end in the stripped character. Everything removed is that character. |
| `Builtins.RStripIdempotent` | openserp_wrapper/client.py:44 | Stripping an already stripped URL changes nothing. |
| `Builtins.Join` | openserp_wrapper/client.py:213 | `",".join(...)`, also used at client.py:127. Its shape is stated by `JoinShape` and `JoinTwo`. |
| `Builtins.JoinShape` | openserp_wrapper/client.py:213 | The joined string starts with the first part and ends with the last. Its length is the parts' total plus one separator per gap, and it is empty for no parts. |
| `Builtins.JoinTwo` | openserp_wrapper/client.py:127 | Two parts are joined as first + separator + second. |
| `Builtins.LexLe` | openserp_wrapper/client.py:213 | Python's `<=` on strings, as used by `sorted`. `LexLeIsPythonOrder` gives it as the language defines it. |
| `Builtins.LexLeIsPythonOrder` | openserp_wrapper/client.py:213 | `LexLe(a, b)` holds exactly when a is a prefix of b, or the first position where they differ holds the smaller code point in a. |
| `Builtins.SortStrings` | openserp_wrapper/client.py:213 | `sorted(engines)` is ascending in Python's string order and is a permutation of its input. |
| `Builtins.Insert` | openserp_wrapper/client.py:213 | Inserting into an ascending list keeps it ascending and adds exactly the one element. |
| `Builtins.SortedUnique` | openserp_wrapper/client.py:213 | Two ascending lists with the same elements are equal. |
| `Builtins.SortIgnoresOrder` | openserp_wrapper/client.py:213 | `sorted` gives one result for all reorderings of its input. |
| `Builtins.LexLeTotal` | openserp_wrapper/client.py:213 | Python's string order is total. |
| `Builtins.LexLeAntisymmetric` | openserp_wrapper/client.py:213 | Python's string order is antisymmetric. |
| `Builtins.LexLeTransitive` | openserp_wrapper/client.py:213 | Python's string order is transitive. |
| `Builtins.IntToString` | openserp_wrapper/client.py:214 | `str(i)`. Its form is stated by `IntToStringReadsBack`, `IntToStringInjective` and `IntToStringHasNoColon`. |
| `Builtins.IntToStringReadsBack` | openserp_wrapper/client.py:214 | `str(i)` is non-empty, starts with `-` exactly for a negative i, and the rest is digits that read back as the magnitude of i. |
| `Builtins.NatToString` | openserp_wrapper/client.py:214 | `str(n)` for n >= 0 is a non-empty string of digits with no leading zero. |
| `Builtins.ParseNatToString` | openserp_wrapper/client.py:214 | Reading the digits of `str(n)` back gives n. |
| `Builtins.IntToStringInjective` | openserp_wrapper/client.py:214 | Different integers have different `str` forms, negative ones included. |
| `Builtins.IntToStringHasNoColon` | openserp_wrapper/client.py:214 | `str(i)` contains no `:`, the key's field separator. |
| `Exceptions.OpenSerpException.ToString` | openserp_wrapper/exceptions.py:14-17 | `__str__`. Its two forms are stated by `RenderWithCode`, `RenderWithoutCode` and `RenderEndsWithMessage`. |
| `Exceptions.RenderWithCode` | openserp_wrapper/exceptions.py:14-16 | With a non-empty code, `str(e)` is exactly `"[" + code + "] " + message`. |
| `Exceptions.RenderWithoutCode` | openserp_wrapper/exceptions.py:14-17 | With no code, or an empty one, `str(e)` is the message alone. |
| `Exceptions.RenderEndsWithMessage` | openserp_wrapper/exceptions.py:14-17 | The message is always the tail of `str(e)`. |
| `Exceptions.ConstructionStoresArguments` | openserp_wrapper/exceptions.py:9-12 | The base, connection, timeout, validation and cache errors each keep message and code unchanged, and the code defaults to None. |
| `Exceptions.APIErrorStoresArguments` | openserp_wrapper/exceptions.py:35-37 | `APIError` keeps message, status code and code. Its string follows the base rule, and status code and code default to None. |
| `Exceptions.RateLimitErrorRendersMessage` | openserp_wrapper/exceptions.py:49-51 | `RateLimitError` never has a code, so its string is its message. It keeps `retry_after`, which defaults to None. |

## Left out

- The `requests` session, `Retry`/`HTTPAdapter` backoff and mounting (openserp_wrapper/client.py:52-66), and `urljoin`. These are library behaviour and network I/O. The request is the caller-supplied `HttpOutcome`. Whatever the retry policy does shows up only as the final outcome: 429, 500, 502, 503 and 504 are on the retry list, so once retries run out they usually arrive as some other request failure rather than as that status.
- `response.json()`: the decoded body is part of the outcome. A body that fails to decode is not modelled. JSON numbers are integers only; floating point is left out.
- `search_engines` (openserp_wrapper/client.py:172-187): a network call plus JSON decoding.
- `close`, `__enter__` and `__exit__`: resource plumbing.
- `Cache`, `InMemoryCache`, `RedisCache` and `RateLimiter` are not part of this model. The cache is a `map` from key to value and TTL, with no expiry, since there is no clock. A cache object shared with other clients is not modelled. `rate_limiter.wait()` is only counted, and it is taken always to return; an exception it might raise, such as `OpenSerpRateLimitError`, is not modelled.
- `AsyncOpenSerpClient` and `openserp_wrapper/__init__.py`, which only re-exports names.
- Client.BuildParams: keeps the params as a map. It does not model the insertion order of the Python dict, which only fixes the order of the parameters in the query string that `requests` writes.
- Client.Validate: takes limit and offset as integers. A Python caller could pass a float such as 5.5, which passes the range check and then appears as `5.5` in the key.
- Client.OpenSerpClient.constructor: takes the cache as an optional map. `cache or InMemoryCache()` also replaces a cache object that is given but falsy. The Cache classes are not part of this model, so their truth value is unknown. For a dict-like cache, a falsy one is empty, and its replacement holds the same (empty) contents; only the object's identity differs, and aliasing is not modelled.
- Client.OpenSerpClient.Search: the timeout in the timeout message is an integer. A float timeout would print with a decimal point.
