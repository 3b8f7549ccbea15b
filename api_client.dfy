/** The fetch-based HTTP client: a response cache for GET, cache invalidation after
    POST, the conversion of thrown errors and raw responses into `ApiResponse`
    values, and the wrapper that ends the session on a 401. The network reply is an
    input; the cache and the browser's local storage are maps the client updates. */
module ApiClient {
  import opened Wrappers
  import opened Text
  import opened Types

  // ---------------------------------------------------------------------------
  // Errors
  // ---------------------------------------------------------------------------

  /** One entry of a FastAPI validation `detail` list. */
  datatype DetailItem = DetailItem(msg: Option<string>, message: Option<string>)

  /** The `detail` field of an error body. */
  datatype Detail = NoDetail | TextDetail(text: string) | ListDetail(items: seq<DetailItem>)

  /** The JSON body of a failed response (`{}` when it was not JSON). */
  datatype ErrorBody = ErrorBody(detail: Detail, message: Option<string>)

  /** A thrown error: its message and, for POST, PUT and DELETE failures, the
      response it was built from. */
  datatype HttpError = HttpError(message: string, response: Option<ErrorResponse>)
  datatype ErrorResponse = ErrorResponse(data: ErrorBody, status: int)

  /** `err.msg || err.message`; a missing value joins as the empty string. */
  function ItemText(item: DetailItem): string
  {
    if Truthy(item.msg) then item.msg.value else item.message.GetOr("")
  }

  function ItemTexts(items: seq<DetailItem>): (r: seq<string>)
    ensures |r| == |items| && forall i :: 0 <= i < |items| ==> r[i] == ItemText(items[i])
  {
    seq(|items|, i requires 0 <= i < |items| => ItemText(items[i]))
  }

  /** Whether `detail` is truthy: any list, or non-empty text. */
  predicate DetailTruthy(d: Detail)
  {
    d.ListDetail? || (d.TextDetail? && d.text != "")
  }

  const UnexpectedError := "An unexpected error occurred"

  /** The message `handleApiError` reports for a thrown error. */
  function ErrorText(e: HttpError): string
  {
    if e.response.Some? && DetailTruthy(e.response.value.data.detail) then
      match e.response.value.data.detail
      case ListDetail(items) => Join(ItemTexts(items), ", ")
      case TextDetail(t) => t
    else if e.response.Some? && Truthy(e.response.value.data.message) then e.response.value.data.message.value
    else if e.message != "" then e.message
    else UnexpectedError
  }

  /** `handleApiError`: always a failure, carrying the extracted message. */
  function HandleApiError<T>(e: HttpError): (r: ApiResponse<T>)
    ensures !r.success && r.data.None? && r.error.Some?
    ensures r.error.value == "" ==> e.response.Some? && e.response.value.data.detail.ListDetail?
  {
    Fail(ErrorText(e))
  }

  /** A validation list reports every item's message, joined by ", ". */
  lemma ErrorFromDetailList(e: HttpError, items: seq<DetailItem>)
    requires e.response.Some? && e.response.value.data.detail == ListDetail(items)
    ensures HandleApiError<int>(e).error == Some(Join(ItemTexts(items), ", "))
    ensures forall i :: 0 <= i < |items| && Truthy(items[i].msg) ==> ItemTexts(items)[i] == items[i].msg.value
  {
  }

  /** Which source the message comes from, in order of precedence: a non-empty text
      `detail`, then the body's `message`, then the error's own message, then the
      fixed fallback. A later source is used only when every earlier one is absent
      or empty. */
  lemma ErrorPrecedence(e: HttpError)
    ensures e.response.Some? && e.response.value.data.detail.TextDetail? && e.response.value.data.detail.text != "" ==>
      ErrorText(e) == e.response.value.data.detail.text
    ensures (e.response.None? || !DetailTruthy(e.response.value.data.detail)) ==>
      ErrorText(e) ==
        if e.response.Some? && Truthy(e.response.value.data.message) then e.response.value.data.message.value
        else OrElse(Some(e.message), UnexpectedError)
    ensures ErrorText(e) == UnexpectedError <== (e.response.None? || (!DetailTruthy(e.response.value.data.detail) && !Truthy(e.response.value.data.message))) && e.message == ""
  {
  }

  /** A thrown error whose message is non-empty and that carries no response (every
      failed GET) reports exactly that message. */
  lemma ErrorWithoutResponse(e: HttpError)
    requires e.response.None? && e.message != ""
    ensures HandleApiError<int>(e).error == Some(e.message)
  {
  }

  /** `handleApiResponse`: success with the data exactly for a 2xx status. */
  function HandleApiResponse<T>(status: int, data: T): (r: ApiResponse<T>)
    ensures r.success <==> 200 <= status < 300
    ensures r.success ==> r.data == Some(data)
    ensures !r.success ==> r.error == Some("Request failed") && r.data.None?
  {
    if 200 <= status < 300 then Succeed(data) else Fail("Request failed")
  }

  // ---------------------------------------------------------------------------
  // Requests
  // ---------------------------------------------------------------------------

  /** What the network delivered for one request: an ok response (`response.ok`)
      with its status and JSON data, a non-ok response with its status line and
      error body, or a failure to fetch at all. */
  datatype FetchReply<B> =
    | OkReply(status: int, data: B)
    | ErrorReply(status: int, statusText: string, body: ErrorBody)
    | NetworkFailure(message: string)

  /** The `{ data, status }` object a request resolves to. */
  datatype Result<B> = Result(data: B, status: int)

  /** How a client call ends: resolved with a result, or thrown. */
  datatype Outcome<B> = Resolved(result: Result<B>) | Threw(error: HttpError)

  /** "HTTP <status>: <statusText>" */
  function StatusLine(status: int, statusText: string): string
  {
    "HTTP " + IntToString(status) + ": " + statusText
  }

  function IntToString(n: int): string
  {
    if n < 0 then "-" + NatToString(-n) else NatToString(n)
  }

  /** The error a failed GET throws: a plain error, with no response attached. */
  function GetError<B>(reply: FetchReply<B>): (e: HttpError)
    requires !reply.OkReply?
    ensures e.response.None?
  {
    match reply
    case ErrorReply(status, text, _) => HttpError(StatusLine(status, text), None)
    case NetworkFailure(m) => HttpError(m, None)
  }

  /** The error a failed POST, PUT or DELETE throws: the response's body and status
      are attached. */
  function WriteError<B>(reply: FetchReply<B>): (e: HttpError)
    requires !reply.OkReply?
    ensures reply.ErrorReply? ==> e.response == Some(ErrorResponse(reply.body, reply.status))
    ensures reply.NetworkFailure? ==> e == HttpError(reply.message, None)
  {
    match reply
    case ErrorReply(status, text, body) => HttpError(StatusLine(status, text), Some(ErrorResponse(body, status)))
    case NetworkFailure(m) => HttpError(m, None)
  }

  function CacheKey(url: string): string
  {
    "GET:" + url
  }

  /** The GET cache keys a successful POST invalidates. */
  const InvalidatedKeys: set<string> := {"GET:/doctors", "GET:/appointments", "GET:/users/me"}

  const AuthTokenKey := "auth_token"
  const AuthUserKey := "auth_user"

  /** Whether an error makes the wrapper end the session. */
  predicate IsUnauthorized(e: HttpError)
  {
    e.response.Some? && e.response.value.status == 401
  }

  /** A failed GET never looks unauthorized to the wrapper, whatever its status. */
  lemma GetErrorNeverUnauthorized<B>(reply: FetchReply<B>)
    requires !reply.OkReply?
    ensures !IsUnauthorized(GetError(reply))
  {
  }

  /** A failed POST/PUT/DELETE with status 401 ends the session. */
  lemma WriteErrorUnauthorized<B>(reply: FetchReply<B>)
    requires !reply.OkReply?
    ensures IsUnauthorized(WriteError(reply)) <==> reply.ErrorReply? && reply.status == 401
  {
  }

  /** The wrapped client with its response cache (entries stay until invalidated;
      their three-minute lifetime is not modelled), the browser's local storage and
      the page location it may set. */
  class Client<B> {
    var cache: map<string, Result<B>>
    var storage: map<string, string>
    var location: Option<string>

    constructor (storage0: map<string, string>)
      ensures cache == map[] && storage == storage0 && location.None?
    {
      cache := map[];
      storage := storage0;
      location := None;
    }

    /** `handle401Error` when the error is a 401; the error is rethrown unchanged. */
    method EndSessionIfUnauthorized(e: HttpError)
      modifies this
      ensures IsUnauthorized(e) ==> storage == old(storage) - {AuthTokenKey, AuthUserKey} && location == Some("/login")
      ensures !IsUnauthorized(e) ==> storage == old(storage) && location == old(location)
      ensures cache == old(cache)
    {
      if IsUnauthorized(e) {
        storage := storage - {AuthTokenKey, AuthUserKey};
        location := Some("/login");
      }
    }

    /** Wrapped `get`. With caching on, a cached entry under "GET:"+url is returned
        without using the network reply; otherwise an ok reply resolves, and is
        stored in the cache only when caching is on and the status is 200. */
    method Get(url: string, useCache: bool, reply: FetchReply<B>) returns (out: Outcome<B>)
      modifies this
      ensures useCache && CacheKey(url) in old(cache) ==>
        out == Resolved(old(cache)[CacheKey(url)]) && cache == old(cache)
      ensures !(useCache && CacheKey(url) in old(cache)) ==>
        match reply
        case OkReply(status, data) =>
          out == Resolved(Result(data, status)) &&
          cache == (if useCache && status == 200 then old(cache)[CacheKey(url) := Result(data, status)] else old(cache))
        case _ => out == Threw(GetError(reply)) && cache == old(cache)
      ensures storage == old(storage) && location == old(location)
    {
      var key := CacheKey(url);
      if useCache && key in cache {
        return Resolved(cache[key]);
      }
      if reply.OkReply? {
        var result := Result(reply.data, reply.status);
        if useCache && reply.status == 200 {
          cache := cache[key := result];
        }
        return Resolved(result);
      }
      var e := GetError(reply);
      GetErrorNeverUnauthorized(reply);
      EndSessionIfUnauthorized(e);
      return Threw(e);
    }

    /** Wrapped `post`. An ok reply resolves and, for a 2xx status, drops exactly
        the three invalidated GET entries; a failure throws with the response
        attached, ending the session on a 401. */
    method Post(reply: FetchReply<B>) returns (out: Outcome<B>)
      modifies this
      ensures reply.OkReply? ==>
        out == Resolved(Result(reply.data, reply.status)) &&
        cache == (if 200 <= reply.status < 300 then old(cache) - InvalidatedKeys else old(cache)) &&
        storage == old(storage) && location == old(location)
      ensures !reply.OkReply? ==> out == Threw(WriteError(reply)) && cache == old(cache)
      ensures !reply.OkReply? && IsUnauthorized(WriteError(reply)) ==>
        storage == old(storage) - {AuthTokenKey, AuthUserKey} && location == Some("/login")
      ensures !reply.OkReply? && !IsUnauthorized(WriteError(reply)) ==>
        storage == old(storage) && location == old(location)
    {
      if reply.OkReply? {
        if 200 <= reply.status < 300 {
          cache := cache - InvalidatedKeys;
        }
        return Resolved(Result(reply.data, reply.status));
      }
      var e := WriteError(reply);
      EndSessionIfUnauthorized(e);
      return Threw(e);
    }

    /** Wrapped `put` and `delete`: no cache involvement; a failure throws with the
        response attached, ending the session on a 401. */
    method PutOrDelete(reply: FetchReply<B>) returns (out: Outcome<B>)
      modifies this
      ensures reply.OkReply? ==> out == Resolved(Result(reply.data, reply.status)) && storage == old(storage) && location == old(location)
      ensures !reply.OkReply? ==> out == Threw(WriteError(reply))
      ensures !reply.OkReply? && IsUnauthorized(WriteError(reply)) ==>
        storage == old(storage) - {AuthTokenKey, AuthUserKey} && location == Some("/login")
      ensures !reply.OkReply? && !IsUnauthorized(WriteError(reply)) ==>
        storage == old(storage) && location == old(location)
      ensures cache == old(cache)
    {
      if reply.OkReply? {
        return Resolved(Result(reply.data, reply.status));
      }
      var e := WriteError(reply);
      EndSessionIfUnauthorized(e);
      return Threw(e);
    }
  }

  /** A successful POST leaves every other cached GET entry in place, and the three
      invalidated ones are gone. */
  lemma InvalidationFrame<B>(cache: map<string, Result<B>>, k: string)
    ensures k in InvalidatedKeys ==> k !in cache - InvalidatedKeys
    ensures k !in InvalidatedKeys && k in cache ==> k in cache - InvalidatedKeys && (cache - InvalidatedKeys)[k] == cache[k]
  {
  }
}
