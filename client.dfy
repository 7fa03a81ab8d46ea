/**
 * The synchronous OpenSerp client: argument validation, the cache key, the
 * query parameters of `/mega/search`, the mapping of an HTTP outcome to a
 * result or an exception, and the client object whose `Search` ties them
 * together over a cache.
 */
module Client {
  import opened Wrappers
  import opened Builtins
  import opened Exceptions
  import Json

  // ---------------------------------------------------------------------
  // Arguments of search()
  // ---------------------------------------------------------------------

  /** The `text` argument: a Python string, or a value of some other type. */
  datatype TextArg = Str(value: string) | NotAString

  /** The arguments of `search`, with the Python defaults. */
  datatype SearchRequest = SearchRequest(
    text: TextArg,
    engines: Option<seq<string>> := None,
    limit: int := 10,
    offset: int := 0,
    dateFrom: Option<string> := None,
    dateTo: Option<string> := None,
    language: Option<string> := None,
    sort: string := "relevance")

  /** Python's truth value of an optional string. */
  predicate StrTruthy(o: Option<string>) { o.Some? && o.value != "" }

  /** Python's truth value of an optional list. */
  predicate ListTruthy(o: Option<seq<string>>) { o.Some? && o.value != [] }

  const TextMessage := "Search text must be a non-empty string"
  const LimitMessage := "Limit must be between 1 and 100"
  const OffsetMessage := "Offset must be non-negative"

  /** The checks at the top of `search`, in their order; None when all pass. */
  function Validate(text: TextArg, limit: int, offset: int): (err: Option<OpenSerpException>)
    ensures err.None? <==> text.Str? && text.value != "" && 1 <= limit <= 100 && offset >= 0
    ensures err.Some? ==> err.value.ValidationError? && err.value.Code() == None
    ensures (text.NotAString? || text.value == "") ==> err == Some(ValidationError(TextMessage))
    ensures text.Str? && text.value != "" && !(1 <= limit <= 100) ==>
      err == Some(ValidationError(LimitMessage))
    ensures text.Str? && text.value != "" && 1 <= limit <= 100 && offset < 0 ==>
      err == Some(ValidationError(OffsetMessage))
  {
    if text.NotAString? || text.value == "" then Some(ValidationError(TextMessage))
    else if !(1 <= limit <= 100) then Some(ValidationError(LimitMessage))
    else if offset < 0 then Some(ValidationError(OffsetMessage))
    else None
  }

  // ---------------------------------------------------------------------
  // _generate_cache_key
  // ---------------------------------------------------------------------

  /** The engines part of the key: the sorted names joined by commas, or "all". */
  function EngineString(engines: Option<seq<string>>): string
  {
    if ListTruthy(engines) then Join(",", SortStrings(engines.value)) else "all"
  }

  /** `_generate_cache_key(text, engines, limit, offset)`. */
  function CacheKey(text: string, engines: Option<seq<string>>, limit: int, offset: int): string
  {
    "search:" + text + ":" + EngineString(engines) + ":" + IntToString(limit) + ":" + IntToString(offset)
  }

  /** The key `search` uses for a request whose text is a string. */
  function RequestKey(req: SearchRequest): string
    requires req.text.Str?
  {
    CacheKey(req.text.value, req.engines, req.limit, req.offset)
  }

  /** Any reordering of the engine list gives the same key. */
  lemma KeyIgnoresEngineOrder(text: string, e1: seq<string>, e2: seq<string>, limit: int, offset: int)
    requires multiset(e1) == multiset(e2)
    ensures CacheKey(text, Some(e1), limit, offset) == CacheKey(text, Some(e2), limit, offset)
  {
    SortIgnoresOrder(e1, e2);
    assert |e1| == |multiset(e1)| == |multiset(e2)| == |e2|;
  }

  /**
   * With engines given, the engines part of the key is any ascending
   * arrangement of them, joined by commas.
   */
  lemma KeyUsesSortedEngines(text: string, engines: seq<string>, arranged: seq<string>, limit: int, offset: int)
    requires engines != []
    requires IsSorted(arranged) && multiset(arranged) == multiset(engines)
    ensures CacheKey(text, Some(engines), limit, offset) ==
      "search:" + text + ":" + Join(",", arranged) + ":" + IntToString(limit) + ":" + IntToString(offset)
  {
    SortedUnique(SortStrings(engines), arranged);
  }

  /** No engine list and an empty one both give the engines part "all". */
  lemma KeyDefaultsToAll(text: string, limit: int, offset: int)
    ensures CacheKey(text, None, limit, offset) == CacheKey(text, Some([]), limit, offset)
    ensures CacheKey(text, None, limit, offset) ==
      "search:" + text + ":all:" + IntToString(limit) + ":" + IntToString(offset)
  {
  }

  /** The date range, the language and the sort order do not take part in the key. */
  lemma KeyIgnoresFilters(req: SearchRequest, dateFrom: Option<string>, dateTo: Option<string>,
                          language: Option<string>, sort: string)
    requires req.text.Str?
    ensures RequestKey(req) ==
      RequestKey(req.(dateFrom := dateFrom, dateTo := dateTo, language := language, sort := sort))
  {
  }

  /**
   * A colon in the text can stand in for the engines field: the text `a:b`
   * with no engines and the text `a` with the engine `b:all` share a key.
   */
  lemma KeyTextCollision()
    ensures CacheKey("a:b", None, 10, 0) == CacheKey("a", Some(["b:all"]), 10, 0)
  {
    assert SortStrings(["b:all"]) == ["b:all"] by {
      assert ["b:all"][1..] == [];
    }
    assert EngineString(Some(["b:all"])) == "b:all";
    assert "a:b" + ":" + "all" == "a" + ":" + "b:all";
  }

  /** Splitting at the last colon: the part after it holds no colon. */
  lemma SplitAtLastColon(x: string, u: string, y: string, v: string)
    requires ':' !in u && ':' !in v
    requires x + ":" + u == y + ":" + v
    ensures x == y && u == v
  {
    var s := x + ":" + u;
    assert s[|x|] == ':';
    assert (y + ":" + v)[|y|] == ':';
    assert |u| == |v|;
    assert x == s[..|x|] && y == (y + ":" + v)[..|y|];
    assert u == s[|x| + 1..] && v == (y + ":" + v)[|y| + 1..];
  }

  /** Searches for different pages, or different page sizes, never share a key. */
  lemma KeySeparatesPages(t1: string, e1: Option<seq<string>>, l1: int, o1: int,
                          t2: string, e2: Option<seq<string>>, l2: int, o2: int)
    requires CacheKey(t1, e1, l1, o1) == CacheKey(t2, e2, l2, o2)
    ensures l1 == l2 && o1 == o2
  {
    IntToStringHasNoColon(l1);
    IntToStringHasNoColon(l2);
    IntToStringHasNoColon(o1);
    IntToStringHasNoColon(o2);
    var p1 := "search:" + t1 + ":" + EngineString(e1);
    var p2 := "search:" + t2 + ":" + EngineString(e2);
    SplitAtLastColon(p1 + ":" + IntToString(l1), IntToString(o1), p2 + ":" + IntToString(l2), IntToString(o2));
    SplitAtLastColon(p1, IntToString(l1), p2, IntToString(l2));
    IntToStringInjective(l1, l2);
    IntToStringInjective(o1, o2);
  }

  // ---------------------------------------------------------------------
  // The params dict
  // ---------------------------------------------------------------------

  /** The keys of the params dict; `Wire` is the string the request carries. */
  datatype ParamName =
    | TextKey | LimitKey | OffsetKey | SortKey | EnginesKey | DateKey | DateFromKey | DateToKey | LangKey
  {
    function Wire(): string
    {
      match this
      case TextKey => "text"
      case LimitKey => "limit"
      case OffsetKey => "offset"
      case SortKey => "sort"
      case EnginesKey => "engines"
      case DateKey => "date"
      case DateFromKey => "date_from"
      case DateToKey => "date_to"
      case LangKey => "lang"
    }
  }

  /** Distinct keys are distinct strings on the wire. */
  lemma WireInjective(a: ParamName, b: ParamName)
    requires a.Wire() == b.Wire()
    ensures a == b
  {
    var wa, wb := a.Wire(), b.Wire();
    assert wa[0] == wb[0] && |wa| == |wb|;
    if |wa| > 4 { assert wa[4] == wb[4]; }
  }

  datatype ParamValue = PStr(s: string) | PInt(i: int)

  /** The params dict, key by key. */
  type Params = map<ParamName, ParamValue>

  /**
   * What the params of a request are: text, limit, offset and sort always;
   * the engines joined in the caller's order; one combined date when both
   * ends are given, otherwise the end that is given; the language when it is
   * given; nothing else.
   */
  predicate ParamsFor(ps: Params, req: SearchRequest)
    requires req.text.Str?
  {
    && Get(ps, TextKey) == Some(PStr(req.text.value))
    && Get(ps, LimitKey) == Some(PInt(req.limit))
    && Get(ps, OffsetKey) == Some(PInt(req.offset))
    && Get(ps, SortKey) == Some(PStr(req.sort))
    && Get(ps, EnginesKey) ==
       (if ListTruthy(req.engines) then Some(PStr(Join(",", req.engines.value))) else None)
    && Get(ps, DateKey) ==
       (if StrTruthy(req.dateFrom) && StrTruthy(req.dateTo)
        then Some(PStr(req.dateFrom.value + ".." + req.dateTo.value)) else None)
    && Get(ps, DateFromKey) ==
       (if StrTruthy(req.dateFrom) && !StrTruthy(req.dateTo) then Some(PStr(req.dateFrom.value)) else None)
    && Get(ps, DateToKey) ==
       (if !StrTruthy(req.dateFrom) && StrTruthy(req.dateTo) then Some(PStr(req.dateTo.value)) else None)
    && Get(ps, LangKey) ==
       (if StrTruthy(req.language) then Some(PStr(req.language.value)) else None)
  }

  /** `params.get(name)`. */
  function Get(ps: Params, name: ParamName): Option<ParamValue>
  {
    if name in ps then Some(ps[name]) else None
  }

  /** Builds the params dict of a request step by step, as `search` does. */
  method BuildParams(req: SearchRequest) returns (params: Params)
    requires req.text.Str?
    ensures ParamsFor(params, req)
  {
    params := map[TextKey := PStr(req.text.value), LimitKey := PInt(req.limit),
                  OffsetKey := PInt(req.offset), SortKey := PStr(req.sort)];
    if ListTruthy(req.engines) {
      params := params[EnginesKey := PStr(Join(",", req.engines.value))];
    }
    if StrTruthy(req.dateFrom) && StrTruthy(req.dateTo) {
      params := params[DateKey := PStr(req.dateFrom.value + ".." + req.dateTo.value)];
    } else if StrTruthy(req.dateFrom) {
      params := params[DateFromKey := PStr(req.dateFrom.value)];
    } else if StrTruthy(req.dateTo) {
      params := params[DateToKey := PStr(req.dateTo.value)];
    }
    if StrTruthy(req.language) {
      params := params[LangKey := PStr(req.language.value)];
    }
  }

  /** The characterisation fixes the dict: two params satisfying it are equal. */
  lemma ParamsDetermined(p1: Params, p2: Params, req: SearchRequest)
    requires req.text.Str?
    requires ParamsFor(p1, req) && ParamsFor(p2, req)
    ensures p1 == p2
  {
    forall n ensures (n in p1 <==> n in p2) && (n in p1 ==> p1[n] == p2[n]) {
      assert Get(p1, n) == Get(p2, n) by {
        match n
        case TextKey =>
        case LimitKey =>
        case OffsetKey =>
        case SortKey =>
        case EnginesKey =>
        case DateKey =>
        case DateFromKey =>
        case DateToKey =>
        case LangKey =>
      }
    }
  }

  /** The four fixed keys are always sent; the dates go as one `date` key or as at most one end. */
  lemma ParamsShape(ps: Params, req: SearchRequest)
    requires req.text.Str? && ParamsFor(ps, req)
    ensures {TextKey, LimitKey, OffsetKey, SortKey} <= ps.Keys
    ensures DateKey in ps <==> StrTruthy(req.dateFrom) && StrTruthy(req.dateTo)
    ensures DateKey in ps ==> DateFromKey !in ps && DateToKey !in ps
    ensures !(DateFromKey in ps && DateToKey in ps)
    ensures EnginesKey in ps <==> ListTruthy(req.engines)
    ensures LangKey in ps <==> StrTruthy(req.language)
  {
  }

  /** `sorted(["duckduckgo", "bing"])` puts bing first. */
  lemma SortTwoEngines()
    ensures SortStrings(["duckduckgo", "bing"]) == ["bing", "duckduckgo"]
  {
    var sorted := ["bing", "duckduckgo"];
    assert "bing"[0] == 'b' && "duckduckgo"[0] == 'd';
    assert LexLe("bing", "duckduckgo");
    assert IsSorted(sorted);
    assert multiset(["duckduckgo", "bing"]) == multiset(sorted);
    SortedUnique(SortStrings(["duckduckgo", "bing"]), sorted);
  }

  /** Unlike the cache key, the `engines` param keeps the caller's order. */
  lemma ParamsKeepEngineOrder(ps: Params, req: SearchRequest)
    requires req.text.Str? && ParamsFor(ps, req)
    requires req.engines == Some(["duckduckgo", "bing"])
    ensures ps[EnginesKey] == PStr("duckduckgo,bing")
    ensures EngineString(req.engines) == "bing,duckduckgo"
  {
    SortTwoEngines();
    JoinTwo(",", "bing", "duckduckgo");
    JoinTwo(",", "duckduckgo", "bing");
    assert "bing" + "," + "duckduckgo" == "bing,duckduckgo";
    assert "duckduckgo" + "," + "bing" == "duckduckgo,bing";
    assert Get(ps, EnginesKey) == Some(PStr("duckduckgo,bing"));
  }

  // ---------------------------------------------------------------------
  // The HTTP exchange
  // ---------------------------------------------------------------------

  /**
   * What the session delivers for one GET: a response with its status, its
   * text and its decoded body, or one of the request failures.
   */
  datatype HttpOutcome =
    | Response(status: int, text: string, body: Json.Value)
    | Timeout
    | ConnectFailure
    | OtherFailure(description: string)

  /** The status checks and the exception translation of `search`. */
  function HandleOutcome(outcome: HttpOutcome, timeout: int, baseUrl: string): (r: Result<Json.Value, OpenSerpException>)
    ensures r.Success? <==> outcome.Response? && outcome.status < 400
    ensures r.Success? ==> r.value == outcome.body
    ensures outcome.Response? && outcome.status == 429 ==>
      r == Failure(ConnectionError("Rate limited by OpenSerp server", Some("RATE_LIMIT")))
    ensures outcome.Response? && outcome.status >= 400 && outcome.status != 429 ==>
      r == Failure(APIError("API error: " + outcome.text, Some(outcome.status)))
    ensures outcome.Timeout? ==>
      r == Failure(TimeoutError("Request timeout after " + IntToString(timeout) + "s"))
    ensures outcome.ConnectFailure? ==> r == Failure(ConnectionError("Failed to connect to " + baseUrl))
    ensures outcome.OtherFailure? ==> r == Failure(ConnectionError("Request error: " + outcome.description))
  {
    match outcome
    case Response(status, text, body) =>
      if status == 429 then Failure(ConnectionError("Rate limited by OpenSerp server", Some("RATE_LIMIT")))
      else if status >= 400 then Failure(APIError("API error: " + text, statusCode := Some(status)))
      else Success(body)
    case Timeout => Failure(TimeoutError("Request timeout after " + IntToString(timeout) + "s"))
    case ConnectFailure => Failure(ConnectionError("Failed to connect to " + baseUrl))
    case OtherFailure(description) => Failure(ConnectionError("Request error: " + description))
  }

  /** A status at or above 400 is always an error, and only 429 carries the RATE_LIMIT code. */
  lemma ErrorStatusesClassified(outcome: HttpOutcome, timeout: int, baseUrl: string)
    requires outcome.Response? && outcome.status >= 400
    ensures var r := HandleOutcome(outcome, timeout, baseUrl);
      r.Failure? &&
      (r.error.Code() == Some("RATE_LIMIT") <==> outcome.status == 429) &&
      (r.error.APIError? <==> outcome.status != 429) &&
      (r.error.APIError? ==> r.error.ToString() == "API error: " + outcome.text)
  {
  }

  // ---------------------------------------------------------------------
  // The client
  // ---------------------------------------------------------------------

  /** One cached result with the time-to-live it was stored with. */
  datatype CacheEntry = CacheEntry(value: Json.Value, ttl: int)

  /** `cache.get(key)` yields a result that Python counts as true. */
  predicate CacheHit(cache: map<string, CacheEntry>, key: string)
  {
    key in cache && Json.Truthy(cache[key].value)
  }

  /** A falsy cached value, such as an empty dict or list, does not count as a hit. */
  lemma FalsyCachedValueIsMiss(cache: map<string, CacheEntry>, key: string)
    requires key in cache
    requires cache[key].value in {Json.Object([]), Json.Array([]), Json.Null, Json.String("")}
    ensures !CacheHit(cache, key)
  {
  }

  /** A hit is a present key whose value is none of Python's six false values. */
  lemma CacheHitExactly(cache: map<string, CacheEntry>, key: string)
    ensures CacheHit(cache, key) <==>
      key in cache &&
      cache[key].value !in {Json.Null, Json.Bool(false), Json.Number(0), Json.String(""),
                            Json.Array([]), Json.Object([])}
  {
    if key in cache { Json.FalsyValues(cache[key].value); }
  }

  class OpenSerpClient {
    var baseUrl: string
    var timeout: int
    var cache: map<string, CacheEntry>
    var cacheTtl: int
    /** Whether a rate limiter was given. */
    var hasRateLimiter: bool
    var verifySsl: bool
    /** How often `rate_limiter.wait()` has been called. */
    ghost var limiterWaits: nat
    /** The session: the params of every GET of `/mega/search` issued, in order. */
    ghost var sent: seq<Params>

    /** `OpenSerpClient(...)`: trailing slashes leave the URL; no cache means a fresh empty one. */
    constructor (baseUrl: string := "http://localhost:7000", timeout: int := 30,
                 cache: Option<map<string, CacheEntry>> := None, cacheTtl: int := 3600,
                 hasRateLimiter: bool := false, verifySsl: bool := true)
      ensures this.baseUrl == RStrip(baseUrl, '/')
      ensures this.timeout == timeout && this.cacheTtl == cacheTtl
      ensures this.cache == (if cache.Some? then cache.value else map[])
      ensures this.hasRateLimiter == hasRateLimiter && this.verifySsl == verifySsl
      ensures limiterWaits == 0 && sent == []
    {
      this.baseUrl := RStrip(baseUrl, '/');
      this.timeout := timeout;
      this.cache := if cache.Some? then cache.value else map[];
      this.cacheTtl := cacheTtl;
      this.hasRateLimiter := hasRateLimiter;
      this.verifySsl := verifySsl;
      limiterWaits := 0;
      sent := [];
    }

    /** The settings no call ever changes. */
    twostate predicate SettingsKept()
      reads this
    {
      && baseUrl == old(baseUrl) && timeout == old(timeout) && cacheTtl == old(cacheTtl)
      && hasRateLimiter == old(hasRateLimiter) && verifySsl == old(verifySsl)
    }

    /**
     * `search(...)` where the session answers with `outcome`: validate, wait
     * for the rate limiter, answer from the cache, otherwise send the request
     * and cache a successful body.
     */
    method Search(req: SearchRequest, outcome: HttpOutcome) returns (r: Result<Json.Value, OpenSerpException>)
      modifies this
      ensures SettingsKept()
      // Invalid arguments: the error, before the limiter, the cache or the session.
      ensures Validate(req.text, req.limit, req.offset).Some? ==>
        && r == Failure(Validate(req.text, req.limit, req.offset).value)
        && limiterWaits == old(limiterWaits) && cache == old(cache) && sent == old(sent)
      ensures Validate(req.text, req.limit, req.offset).None? ==>
        limiterWaits == old(limiterWaits) + (if hasRateLimiter then 1 else 0)
      // A true cached value is returned unchanged, with no request and no write.
      ensures Validate(req.text, req.limit, req.offset).None? && CacheHit(old(cache), RequestKey(req)) ==>
        && r == Success(old(cache)[RequestKey(req)].value)
        && cache == old(cache) && sent == old(sent)
      // Otherwise exactly one request; only a success is written, under the key, with the client's TTL.
      ensures Validate(req.text, req.limit, req.offset).None? && !CacheHit(old(cache), RequestKey(req)) ==>
        && |sent| == |old(sent)| + 1 && sent[..|old(sent)|] == old(sent)
        && ParamsFor(sent[|old(sent)|], req)
        && r == HandleOutcome(outcome, timeout, baseUrl)
        && cache == (if r.Success? then old(cache)[RequestKey(req) := CacheEntry(r.value, cacheTtl)]
                     else old(cache))
    {
      var err := Validate(req.text, req.limit, req.offset);
      if err.Some? {
        return Failure(err.value);
      }
      if hasRateLimiter {
        limiterWaits := limiterWaits + 1;
      }
      var key := CacheKey(req.text.value, req.engines, req.limit, req.offset);
      if key in cache && Json.Truthy(cache[key].value) {
        return Success(cache[key].value);
      }
      var params := BuildParams(req);
      sent := sent + [params];
      r := HandleOutcome(outcome, timeout, baseUrl);
      if r.Success? {
        cache := cache[key := CacheEntry(r.value, cacheTtl)];
      }
    }

    /** `clear_cache()`: every cached result is dropped. */
    method ClearCache()
      modifies this
      ensures cache == map[]
      ensures SettingsKept() && limiterWaits == old(limiterWaits) && sent == old(sent)
    {
      cache := map[];
    }
  }

  /**
   * A search that differs from an earlier successful one only in its dates,
   * language or sort is answered from the cache with the earlier body, and
   * its own request is never sent.
   */
  method FilterChangeServedFromCache(req: SearchRequest, other: SearchRequest, first: HttpOutcome, second: HttpOutcome)
    returns (r1: Result<Json.Value, OpenSerpException>, r2: Result<Json.Value, OpenSerpException>, ghost requests: nat)
    requires Validate(req.text, req.limit, req.offset).None?
    requires other == req.(dateFrom := other.dateFrom, dateTo := other.dateTo,
                           language := other.language, sort := other.sort)
    requires first.Response? && first.status < 400 && Json.Truthy(first.body)
    ensures r1 == Success(first.body) && r2 == r1
    ensures requests == 1
  {
    var client := new OpenSerpClient();
    r1 := client.Search(req, first);
    KeyIgnoresFilters(req, other.dateFrom, other.dateTo, other.language, other.sort);
    r2 := client.Search(other, second);
    requests := |client.sent|;
  }

  /**
   * Two identical searches on a fresh client whose first answer is a
   * successful, non-empty body: the second is answered from the cache with
   * the same body and sends nothing.
   */
  method RepeatedSearchUsesCache(req: SearchRequest, first: HttpOutcome, second: HttpOutcome)
    returns (r1: Result<Json.Value, OpenSerpException>, r2: Result<Json.Value, OpenSerpException>, ghost requests: nat)
    requires Validate(req.text, req.limit, req.offset).None?
    requires first.Response? && first.status < 400 && Json.Truthy(first.body)
    ensures r1 == Success(first.body) && r2 == r1
    ensures requests == 1
  {
    var client := new OpenSerpClient();
    r1 := client.Search(req, first);
    r2 := client.Search(req, second);
    requests := |client.sent|;
  }
}
