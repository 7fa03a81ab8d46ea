/**
 * The wrapper's exception hierarchy. Every exception carries a message and an
 * optional code; the API error adds the HTTP status code and the rate-limit
 * error a retry-after hint instead of a code. Omitted arguments default to
 * `None`, as in the Python constructors.
 */
module Exceptions {
  import opened Wrappers

  datatype OpenSerpException =
    | BaseError(message: string, code: Option<string> := None)
    | ConnectionError(message: string, code: Option<string> := None)
    | TimeoutError(message: string, code: Option<string> := None)
    | APIError(message: string, statusCode: Option<int> := None, code: Option<string> := None)
    | ValidationError(message: string, code: Option<string> := None)
    | RateLimitError(message: string, retryAfter: Option<int> := None)
    | CacheError(message: string, code: Option<string> := None)
  {
    /** The `code` attribute; the rate-limit error passes none to the base. */
    function Code(): Option<string>
    {
      if RateLimitError? then None else code
    }

    /** Python's truth value of `self.code`: present and not empty. */
    predicate HasCode()
    {
      Code().Some? && Code().value != ""
    }

    /** `str(e)`. */
    function ToString(): string
    {
      if HasCode() then "[" + Code().value + "] " + message else message
    }
  }

  /** With a non-empty code, the rendering is the bracketed code, a space, then the message. */
  lemma RenderWithCode(e: OpenSerpException)
    requires e.Code().Some? && e.Code().value != ""
    ensures e.ToString() == "[" + e.Code().value + "] " + e.message
    ensures |e.ToString()| == |e.message| + |e.Code().value| + 3
  {
  }

  /** Without a code, or with an empty one, the rendering is the message alone. */
  lemma RenderWithoutCode(e: OpenSerpException)
    requires e.Code() == None || e.Code() == Some("")
    ensures e.ToString() == e.message
  {
  }

  /** The message is always the tail of the rendering. */
  lemma RenderEndsWithMessage(e: OpenSerpException)
    ensures |e.ToString()| >= |e.message|
    ensures e.ToString()[|e.ToString()| - |e.message|..] == e.message
  {
  }

  /** Construction keeps message and code, and the code defaults to None. */
  lemma ConstructionStoresArguments(message: string, code: Option<string>)
    ensures BaseError(message, code).message == message && BaseError(message, code).Code() == code
    ensures BaseError(message).Code() == None
    ensures ConnectionError(message, code).message == message
    ensures ConnectionError(message, code).Code() == code && ConnectionError(message).Code() == None
    ensures TimeoutError(message, code).message == message
    ensures TimeoutError(message, code).Code() == code && TimeoutError(message).Code() == None
    ensures ValidationError(message, code).message == message
    ensures ValidationError(message, code).Code() == code && ValidationError(message).Code() == None
    ensures CacheError(message, code).message == message
    ensures CacheError(message, code).Code() == code && CacheError(message).Code() == None
  {
  }

  /** The API error keeps its status code and renders like any other exception. */
  lemma APIErrorStoresArguments(message: string, statusCode: Option<int>, code: Option<string>)
    ensures var e := APIError(message, statusCode, code);
      e.message == message && e.statusCode == statusCode && e.Code() == code &&
      e.ToString() == BaseError(message, code).ToString()
    ensures APIError(message).statusCode == None && APIError(message).Code() == None
  {
  }

  /** The rate-limit error has no code, so it renders as its message; it keeps retry_after. */
  lemma RateLimitErrorRendersMessage(message: string, retryAfter: Option<int>)
    ensures RateLimitError(message, retryAfter).Code() == None
    ensures RateLimitError(message, retryAfter).ToString() == message
    ensures RateLimitError(message, retryAfter).retryAfter == retryAfter
    ensures RateLimitError(message).retryAfter == None
  {
  }
}
