/**
 * The shared request executor (`ApiRequestManager`): shaping one outbound
 * request, mapping its HTTP response to a value or an error, the rate-limit
 * delay, and the retry loop.
 *
 * `fetch` and the platforms behind it are a scripted `Network`: the i-th
 * request it is ever sent gets the i-th scripted response, and every request
 * is appended to its log. A request past the end of the script gets no
 * response at all (`Dropped`), like a network failure.
 */
module ApiRequestManager {
  import opened Js

  datatype HttpMethod = GET | POST | PUT | DELETE

  type Headers = map<string, string>

  /** What `fetch(endpoint, options)` is handed; the body is the JSON value to serialise. */
  datatype Request = Request(endpoint: string, verb: HttpMethod, headers: Headers, body: JsValue)

  /** An HTTP exchange: an ok response with its parsed body, a non-ok one, or none at all. */
  datatype Response = Ok(body: Json) | Fail(status: int, statusText: string) | Dropped

  class Network {
    const script: seq<Response>
    var log: seq<Request>

    constructor (script: seq<Response>)
      ensures this.script == script && log == []
    {
      this.script := script;
      log := [];
    }

    /** The response the i-th request ever sent receives. */
    function Reply(i: nat): Response {
      if i < |script| then script[i] else Dropped
    }

    /** The replies to the next `n` requests when `k` have been sent so far. */
    function Replies(k: nat, n: nat): (rs: seq<Response>)
      ensures |rs| == n && forall i :: 0 <= i < n ==> rs[i] == Reply(k + i)
    {
      seq(n, i requires 0 <= i < n => Reply(k + i))
    }

    method Fetch(request: Request) returns (response: Response)
      modifies this
      ensures log == old(log) + [request]
      ensures response == Reply(old(|log|))
    {
      response := Reply(|log|);
      log := log + [request];
    }
  }

  const JsonContentType: Headers := map["Content-Type" := "application/json"]

  predicate CarriesBody(verb: HttpMethod) {
    verb == POST || verb == PUT
  }

  /** The options makeRequest builds: the caller's headers over a default JSON content type. */
  function RequestOptions(endpoint: string, verb: HttpMethod, data: JsValue, headers: Headers): Request {
    Request(endpoint, verb, JsonContentType + headers, if Truthy(data) && CarriesBody(verb) then data else None)
  }

  /**
   * The shape of a request: every caller header is sent as given (a caller's
   * Content-Type wins over the JSON default), and the data goes out as the
   * body exactly when it is truthy and the method is POST or PUT.
   */
  lemma RequestOptionsShape(endpoint: string, verb: HttpMethod, data: JsValue, headers: Headers)
    ensures var r := RequestOptions(endpoint, verb, data, headers);
      r.endpoint == endpoint && r.verb == verb &&
      r.headers.Keys == headers.Keys + {"Content-Type"} &&
      (forall k :: k in headers ==> r.headers[k] == headers[k]) &&
      ("Content-Type" !in headers ==> r.headers["Content-Type"] == "application/json") &&
      (r.body.Some? <==> Truthy(data) && CarriesBody(verb)) &&
      (r.body.Some? ==> r.body == data)
  {
  }

  /** How makeRequest settles for a given exchange. */
  function Settle(response: Response): (r: Outcome<Json>)
    ensures response.Ok? <==> r.Returns?
    ensures response.Ok? ==> r.value == response.body
    ensures response.Fail? ==> r == Throws(RequestFailed(response.status, response.statusText))
    ensures response.Dropped? ==> r == Throws(NetworkFailed)
  {
    match response
    case Ok(body) => Returns(body)
    case Fail(status, text) => Throws(RequestFailed(status, text))
    case Dropped => Throws(NetworkFailed)
  }

  /** `makeRequest(endpoint, method, data, headers)`. */
  method MakeRequest(net: Network, endpoint: string, verb: HttpMethod, data: JsValue, headers: Headers)
    returns (r: Outcome<Json>)
    modifies net
    ensures net.log == old(net.log) + [RequestOptions(endpoint, verb, data, headers)]
    ensures r == Settle(net.Reply(old(|net.log|)))
  {
    var options := Request(endpoint, verb, JsonContentType + headers, None);
    if Truthy(data) && CarriesBody(verb) {
      options := options.(body := data);
    }
    var response := net.Fetch(options);
    match response
    case Ok(body) =>
      r := Returns(body);
    case Fail(status, text) =>
      r := Throws(RequestFailed(status, text));
    case Dropped =>
      r := Throws(NetworkFailed);
  }

  // ---------------------------------------------------------------------------
  // Rate limiting and retries

  /** The `response` an error thrown by a request function may carry; `headers` may be missing. */
  datatype ErrorResponse = ErrorResponse(status: int, headers: Option<Headers>)

  /** A value thrown by a request function: an error, or null/undefined. */
  datatype Thrown = Thrown(error: Error, response: Option<ErrorResponse>) | Nullish

  /** How one invocation of a request function settles. */
  datatype Attempt<T> = Resolved(value: T) | Rejected(reason: Thrown)

  const DefaultDelayMs := 5000
  const DefaultMaxRetries := 3

  /** `handleRateLimiting(retryAfter)`: the timeout it waits, `retryAfter || 5000`. */
  function RateLimitingDelay(retryAfter: Option<int>): (ms: int)
    ensures retryAfter.None? || retryAfter == Some(0) ==> ms == DefaultDelayMs
    ensures retryAfter.Some? && retryAfter.value != 0 ==> ms == retryAfter.value
  {
    match retryAfter
    case Some(n) => if n != 0 then n else DefaultDelayMs
    case None => DefaultDelayMs
  }

  /** The `retry-after` header value, or "5" when it is absent or empty. */
  function RetryAfterHeader(headers: Headers): string {
    if "retry-after" in headers && headers["retry-after"] != "" then headers["retry-after"] else "5"
  }

  /** `error.response && error.response.status === 429`, for an error that is not null. */
  predicate RateLimited(e: Thrown) {
    e.Thrown? && e.response.Some? && e.response.value.status == 429
  }

  /**
   * `handleErrors(error)`: the delay it waits before the next attempt, if
   * any, or the TypeError it throws. Reading `.response` of null or
   * undefined throws, and so does reading the retry-after header of a 429
   * response without headers. Only a 429 waits; the delay is the
   * retry-after seconds times 1000, and a zero or NaN result becomes 5000.
   */
  function HandleErrors(e: Thrown): (h: Outcome<Option<int>>)
    ensures h.Throws? <==> e.Nullish? || (RateLimited(e) && e.response.value.headers.None?)
    ensures h.Throws? ==> h.error == TypeError
    ensures h.Returns? ==> (h.value.Some? <==> RateLimited(e))
    ensures h.Returns? && RateLimited(e) && "retry-after" !in e.response.value.headers.value ==> h == Returns(Some(5000))
    ensures h.Returns? && RateLimited(e) ==>
      var p := ParseInt(RetryAfterHeader(e.response.value.headers.value));
      h == Returns(Some(if p.None? || p.value == 0 then 5000 else p.value * 1000))
  {
    if e.Nullish? then Throws(TypeError)
    else if RateLimited(e) then
      match e.response.value.headers
      case None => Throws(TypeError)
      case Some(headers) =>
        var seconds := ParseInt(RetryAfterHeader(headers));
        var retryAfter := match seconds case Some(s) => Some(s * 1000) case None => None;
        DefaultRetryAfter();
        Returns(Some(RateLimitingDelay(retryAfter)))
    else
      Returns(None)
  }

  lemma DefaultRetryAfter()
    ensures ParseInt("5") == Some(5)
  {
    ParseIntDecimalString(5, "");
    assert DecimalString(5) + "" == "5";
  }

  /** A numeric retry-after header `n` (n != 0) waits n seconds. */
  lemma RetryAfterSeconds(e: Thrown, n: int)
    requires RateLimited(e)
    requires n != 0 && e.response.value.headers == Some(map["retry-after" := DecimalString(n)])
    ensures HandleErrors(e) == Returns(Some(n * 1000))
  {
    ParseIntDecimalString(n, "");
    assert DecimalString(n) + "" == DecimalString(n);
    NatStringDigits(if n < 0 then -n else n);
    assert RetryAfterHeader(e.response.value.headers.value) == DecimalString(n);
  }

  /** `maxRetries: number = 3`: an omitted (undefined) argument is 3. */
  function MaxRetries(maxRetries: Option<int>): int {
    if maxRetries.Some? then maxRetries.value else DefaultMaxRetries
  }

  /**
   * The first `k` invocations of the request function all reject, and
   * `handleErrors` waits after each of them instead of throwing.
   */
  predicate RetriedThrough<T>(requestFn: nat -> Attempt<T>, k: nat) {
    forall i :: 0 <= i < k ==> requestFn(i).Rejected? && HandleErrors(requestFn(i).reason).Returns?
  }

  /**
   * The first `k` failures are retried, and `handleErrors` throws on the
   * failure of invocation `k`.
   */
  predicate HandlerThrowsAt<T>(requestFn: nat -> Attempt<T>, k: nat) {
    RetriedThrough(requestFn, k) && requestFn(k).Rejected? && HandleErrors(requestFn(k).reason).Throws?
  }

  /**
   * `retryFailedRequests(requestFn, maxRetries)`. The i-th invocation of the
   * request function settles as `requestFn(i)`. Besides the result, the
   * method reports how many times the function was invoked and the values
   * handed to `handleErrors`, in order. A `handleErrors` that throws ends the
   * loop with its TypeError.
   */
  method RetryFailedRequests<T>(requestFn: nat -> Attempt<T>, maxRetries: Option<int>)
    returns (r: Attempt<T>, calls: nat, handled: seq<Thrown>)
    ensures MaxRetries(maxRetries) <= 0 ==> calls == 0 && handled == [] && r == Rejected(Thrown(MaxRetriesReached, None))
    ensures MaxRetries(maxRetries) > 0 ==> 1 <= calls <= MaxRetries(maxRetries)
    ensures forall i :: 0 <= i < calls - 1 ==> requestFn(i).Rejected?
    ensures |handled| <= calls
    ensures forall i :: 0 <= i < |handled| ==> requestFn(i).Rejected? && handled[i] == requestFn(i).reason
    ensures forall i :: 0 <= i < calls - 1 && i < |handled| ==> HandleErrors(handled[i]).Returns?
    ensures calls > 0 && |handled| == calls - 1 ==> r == requestFn(calls - 1)
    ensures calls > 0 && |handled| == calls - 1 && r.Rejected? ==> calls == MaxRetries(maxRetries)
    ensures calls > 0 && |handled| == calls ==>
      HandleErrors(handled[calls - 1]).Throws? && r == Rejected(Thrown(TypeError, None))
    ensures calls > 0 && |handled| == calls ==> calls < MaxRetries(maxRetries)
    ensures calls > 0 ==> calls - 1 <= |handled|
    ensures forall k :: 0 <= k < MaxRetries(maxRetries) && requestFn(k).Resolved? && RetriedThrough(requestFn, k) ==>
      calls == k + 1 && |handled| == k && r == requestFn(k)
    ensures forall k :: 0 <= k < MaxRetries(maxRetries) - 1 && HandlerThrowsAt(requestFn, k) ==>
      calls == k + 1 && |handled| == k + 1 && r == Rejected(Thrown(TypeError, None))
    ensures var limit := MaxRetries(maxRetries);
      limit > 0 && RetriedThrough(requestFn, limit - 1) && requestFn(limit - 1).Rejected? ==>
        calls == limit && |handled| == limit - 1 && r == requestFn(limit - 1)
  {
    var limit := MaxRetries(maxRetries);
    var retries := 0;
    calls := 0;
    handled := [];
    while retries < limit
      invariant 0 <= retries == calls
      invariant retries == 0 || retries < limit
      invariant forall i :: 0 <= i < calls ==> requestFn(i).Rejected?
      invariant |handled| == calls
      invariant forall i :: 0 <= i < calls ==> handled[i] == requestFn(i).reason
      invariant forall i :: 0 <= i < calls ==> HandleErrors(handled[i]).Returns?
    {
      var attempt := requestFn(calls);
      calls := calls + 1;
      if attempt.Resolved? {
        return attempt, calls, handled;
      }
      retries := retries + 1;
      if retries >= limit {
        return attempt, calls, handled;
      }
      handled := handled + [attempt.reason];
      var h := HandleErrors(attempt.reason);
      if h.Throws? {
        return Rejected(Thrown(h.error, None)), calls, handled;
      }
    }
    r := Rejected(Thrown(MaxRetriesReached, None));
  }
}
