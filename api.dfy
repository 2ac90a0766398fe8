/** The transport client (src/lib/api.ts): building a request, one attempt against
    `fetch`, the bounded retry on server errors, content-type dispatch of the
    response body, and the shared error handler.

    `fetch` is an oracle: the k-th attempt of a request (counting from 0) yields
    `oracle(k)`, a response, a timeout abort or a thrown error. Timers are not
    modelled: the 10 s abort timer is an `Aborted` outcome and the 1 s retry
    delay is a no-op. The browser state the client touches
    (local storage, the location, toasts and the console) lives in `Browser`. */
module Api {
  import opened Wrappers
  import opened Js
  import Config

  const RETRY_COUNT: nat := 2

  const AUTH_TOKEN_KEY := "auth_token"
  const LOGIN_LOCATION := "/login"
  const DEFAULT_FALLBACK_MESSAGE := "An unexpected error occurred"
  const JSON_CONTENT_TYPE := "application/json"
  const TEXT_CONTENT_TYPE := "text/"
  /** What a JavaScript engine (V8) throws for `null.message`. */
  const NULL_MESSAGE_READ := "Cannot read properties of null (reading 'message')"

  datatype HttpMethod = GET | POST | PUT | DELETE {
    function Name(): string {
      match this
      case GET => "GET"
      case POST => "POST"
      case PUT => "PUT"
      case DELETE => "DELETE"
    }
  }

  /** `API_CONFIG.BASE_URL`, read from the same variable as the `config` record. */
  function ApiBaseUrl(env: Config.Env): (url: string)
    ensures url == Config.Resolve(env).apiBaseUrl
    ensures url != ""
  {
    Config.OrDefault(env, Config.API_BASE_URL_KEY, Config.DEFAULT_API_BASE_URL)
  }

  // ---------------------------------------------------------------------------
  // Browser state

  /** A value caught by a `catch` clause and handed to `handleApiError`. */
  datatype Caught = CaughtApi(error: ApiError) | CaughtOther(description: string)

  datatype ConsoleEntry = Logged(parts: seq<string>) | LoggedError(error: Caught)

  /** The parts of the browser the data-access layer reads or changes. */
  class Browser {
    var storage: map<string, string>
    var location: string
    var toasts: seq<string>
    var console: seq<ConsoleEntry>

    constructor (storage: map<string, string>, location: string)
      ensures this.storage == storage && this.location == location
      ensures toasts == [] && console == []
    {
      this.storage := storage;
      this.location := location;
      toasts := [];
      console := [];
    }
  }

  /** `localStorage.getItem("auth_token")`, when `if (token)` accepts it. */
  function AuthToken(storage: map<string, string>): Option<string> {
    if AUTH_TOKEN_KEY in storage && storage[AUTH_TOKEN_KEY] != "" then Some(storage[AUTH_TOKEN_KEY]) else None
  }

  // ---------------------------------------------------------------------------
  // Building a request

  /** The caller's `options`: another HTTP method, and header overrides. */
  datatype RequestOptions = RequestOptions(httpMethod: Option<string>, headers: Option<map<string, string>>)

  const NO_OPTIONS := RequestOptions(None, None)

  /** What `fetch` is given. The body is the value that is sent as JSON text. */
  datatype RequestInit = RequestInit(httpMethod: string, headers: map<string, string>, body: Option<Json>)

  datatype FetchCall = FetchCall(url: string, init: RequestInit)

  function CallerHeaders(options: RequestOptions): map<string, string> {
    options.headers.GetOr(map[])
  }

  /** The `headers` object: the JSON content type, the caller's headers over it,
      then the bearer token over both. */
  function MergedHeaders(options: RequestOptions, token: Option<string>): map<string, string> {
    var headers := map["Content-Type" := JSON_CONTENT_TYPE] + CallerHeaders(options);
    if token.Some? then headers["Authorization" := "Bearer " + token.value] else headers
  }

  /** `data ? JSON.stringify(data) : undefined` */
  function RequestBody(data: Option<Json>): Option<Json> {
    if data.Some? && Truthy(data.value) then data else None
  }

  /** The request configuration exactly as the source assembles it: `...options`
      is spread after `headers`, so caller headers replace the merged headers. */
  function RequestConfigAsWritten(verb: HttpMethod, data: Option<Json>, options: RequestOptions,
                                  token: Option<string>): (init: RequestInit)
    ensures init.httpMethod == options.httpMethod.GetOr(verb.Name())
    ensures init.body.Some? <==> data.Some? && Truthy(data.value)
    ensures init.body.Some? ==> init.body == data
    ensures options.headers.Some? ==> init.headers == options.headers.value
    ensures options.headers.None? ==> init.headers == MergedHeaders(options, token)
    ensures options.headers.None? ==> "Content-Type" in init.headers && init.headers["Content-Type"] == JSON_CONTENT_TYPE
    ensures options.headers.None? ==> ("Authorization" in init.headers <==> token.Some?)
  {
    RequestInit(options.httpMethod.GetOr(verb.Name()),
                options.headers.GetOr(MergedHeaders(options, token)),
                RequestBody(data))
  }

  /** The request configuration with the merged headers kept, as the headers
      object is evidently meant to be used. */
  function RequestConfig(verb: HttpMethod, data: Option<Json>, options: RequestOptions,
                         token: Option<string>): (init: RequestInit)
    ensures init.httpMethod == options.httpMethod.GetOr(verb.Name())
    ensures init.body.Some? <==> data.Some? && Truthy(data.value)
    ensures init.body.Some? ==> init.body == data
    ensures token.Some? ==> "Authorization" in init.headers && init.headers["Authorization"] == "Bearer " + token.value
    ensures token.None? ==> ("Authorization" in init.headers <==> "Authorization" in CallerHeaders(options))
    ensures "Content-Type" !in CallerHeaders(options) ==>
              "Content-Type" in init.headers && init.headers["Content-Type"] == JSON_CONTENT_TYPE
    ensures forall k :: k in CallerHeaders(options) && (k != "Authorization" || token.None?) ==>
                          k in init.headers && init.headers[k] == CallerHeaders(options)[k]
    ensures init.headers.Keys == {"Content-Type"} + CallerHeaders(options).Keys +
                                 (if token.Some? then {"Authorization"} else {})
  {
    RequestInit(options.httpMethod.GetOr(verb.Name()), MergedHeaders(options, token), RequestBody(data))
  }

  /** Without caller headers the request carries the JSON content type and,
      exactly when a token is stored, the bearer token, and nothing else. */
  lemma DefaultHeaders(verb: HttpMethod, data: Option<Json>, token: Option<string>)
    ensures RequestConfigAsWritten(verb, data, NO_OPTIONS, token).headers ==
            if token.Some? then map["Content-Type" := JSON_CONTENT_TYPE, "Authorization" := "Bearer " + token.value]
            else map["Content-Type" := JSON_CONTENT_TYPE]
  {
  }

  /** The two configurations differ only when the caller passes headers. */
  lemma AsWrittenAgreesWithoutCallerHeaders(verb: HttpMethod, data: Option<Json>, options: RequestOptions,
                                            token: Option<string>)
    requires options.headers.None?
    ensures RequestConfigAsWritten(verb, data, options, token) == RequestConfig(verb, data, options, token)
  {
  }

  /** As written, any caller header map drops both the content type and the
      stored bearer token from the request. */
  lemma AsWrittenDropsAuthorization()
    ensures var options := RequestOptions(None, Some(map["X-Request-Id" := "1"]));
            var init := RequestConfigAsWritten(GET, None, options, Some("secret"));
            "Authorization" !in init.headers && "Content-Type" !in init.headers &&
            RequestConfig(GET, None, options, Some("secret")).headers["Authorization"] == "Bearer secret"
  {
  }

  // ---------------------------------------------------------------------------
  // Responses

  /** The three ways `parseResponse` can read a body: `json()` (which may throw
      with a message), `text()` and `blob()`. */
  datatype RawBody = RawBody(json: Result<Json, string>, text: string, blob: seq<bv8>)

  /** A response as `fetch` resolves it; header names are lower case, as the
      Headers API gives them. */
  datatype Response = Response(status: int, statusText: string, headers: seq<(string, string)>, body: RawBody)

  /** What one call of `fetch` does. A `Failed` with no message stands for a
      thrown value that is not an `Error`. */
  datatype Outcome = Responded(response: Response) | Aborted | Failed(message: Option<string>)

  /** A parsed body. */
  datatype Body = JsonData(json: Json) | TextData(text: string) | BlobData(blob: seq<bv8>)

  datatype ApiResponse = ApiResponse(data: Body, status: int, statusText: string, headers: map<string, string>)

  datatype ApiError = ApiError(message: string, status: int, statusText: string, data: Option<Body>)

  type RequestResult = Result<ApiResponse, ApiError>

  const TIMEOUT_ERROR := ApiError("Request timeout", 408, "Request Timeout", None)

  function NetworkError(message: Option<string>): ApiError {
    ApiError(message.GetOr("Unknown error"), 0, "Network Error", None)
  }

  /** `response.ok` */
  predicate IsOk(status: int) { 200 <= status <= 299 }

  /** The names of a header list. */
  function Names(headers: seq<(string, string)>): set<string>
    decreases |headers|
  {
    if headers == [] then {} else Names(headers[..|headers| - 1]) + {headers[|headers| - 1].0}
  }

  /** A name belongs to the list exactly when some header carries it. */
  lemma {:induction false} NamesIff(headers: seq<(string, string)>, x: string)
    ensures x in Names(headers) <==> exists i :: 0 <= i < |headers| && headers[i].0 == x
    decreases |headers|
  {
    if headers != [] {
      var init := headers[..|headers| - 1];
      NamesIff(init, x);
      if exists i :: 0 <= i < |init| && init[i].0 == x {
        var i :| 0 <= i < |init| && init[i].0 == x;
        assert headers[i].0 == x;
      }
      if exists i :: 0 <= i < |headers| && headers[i].0 == x {
        var i :| 0 <= i < |headers| && headers[i].0 == x;
        if i < |init| { assert init[i].0 == x; }
      }
    }
  }

  /** The header map `forEach` builds: a later pair overwrites an earlier one. */
  function HeadersToMap(headers: seq<(string, string)>): (m: map<string, string>)
    ensures m.Keys == Names(headers)
    ensures forall i :: 0 <= i < |headers| ==> headers[i].0 in m
    decreases |headers|
  {
    if headers == [] then map[]
    else
      var init, last := headers[..|headers| - 1], headers[|headers| - 1];
      assert forall i :: 0 <= i < |init| ==> init[i] == headers[i];
      HeadersToMap(init)[last.0 := last.1]
  }

  /** Header names are distinct, as `Headers.forEach` yields them. */
  predicate DistinctNames(headers: seq<(string, string)>) {
    forall i, j :: 0 <= i < j < |headers| ==> headers[i].0 != headers[j].0
  }

  /** Every header keeps its value in the map. */
  lemma {:induction false} HeadersToMapLookup(headers: seq<(string, string)>)
    requires DistinctNames(headers)
    ensures forall i :: 0 <= i < |headers| ==> HeadersToMap(headers)[headers[i].0] == headers[i].1
    decreases |headers|
  {
    if headers != [] {
      var init := headers[..|headers| - 1];
      assert DistinctNames(init) by {
        forall i, j | 0 <= i < j < |init| ensures init[i].0 != init[j].0 {
          assert init[i] == headers[i] && init[j] == headers[j];
        }
      }
      HeadersToMapLookup(init);
      forall i | 0 <= i < |headers| ensures HeadersToMap(headers)[headers[i].0] == headers[i].1 {
        if i < |init| {
          assert init[i] == headers[i];
          assert headers[i].0 != headers[|headers| - 1].0;
        }
      }
    }
  }

  /** `getHeadersObject` */
  method GetHeadersObject(headers: seq<(string, string)>) returns (result: map<string, string>)
    ensures result == HeadersToMap(headers)
  {
    result := map[];
    for i := 0 to |headers|
      invariant result == HeadersToMap(headers[..i])
    {
      assert headers[..i + 1][..i] == headers[..i];
      result := result[headers[i].0 := headers[i].1];
    }
    assert headers[..|headers|] == headers;
  }

  /** `response.headers.get("Content-Type") || ""` */
  function ContentType(response: Response): string {
    var m := HeadersToMap(response.headers);
    if "content-type" in m then m["content-type"] else ""
  }

  /** `parseResponse`: JSON first, then text, and a blob for anything else. */
  function ParseResponse(response: Response): (r: Result<Body, string>)
    ensures r.Failure? <==> Includes(ContentType(response), JSON_CONTENT_TYPE) && response.body.json.Failure?
    ensures r.Failure? ==> r.error == response.body.json.error
    ensures r.Success? && r.value.JsonData? <==> Includes(ContentType(response), JSON_CONTENT_TYPE) && response.body.json.Success?
    ensures r.Success? && r.value.JsonData? ==> r.value.json == response.body.json.value
    ensures r.Success? && r.value.TextData? <==>
              !Includes(ContentType(response), JSON_CONTENT_TYPE) && Includes(ContentType(response), TEXT_CONTENT_TYPE)
    ensures r.Success? && r.value.TextData? ==> r.value.text == response.body.text
    ensures r.Success? && r.value.BlobData? <==>
              !Includes(ContentType(response), JSON_CONTENT_TYPE) && !Includes(ContentType(response), TEXT_CONTENT_TYPE)
    ensures r.Success? && r.value.BlobData? ==> r.value.blob == response.body.blob
  {
    var contentType := ContentType(response);
    if Includes(contentType, JSON_CONTENT_TYPE) then
      match response.body.json
      case Success(j) => Success(JsonData(j))
      case Failure(m) => Failure(m)
    else if Includes(contentType, TEXT_CONTENT_TYPE) then Success(TextData(response.body.text))
    else Success(BlobData(response.body.blob))
  }

  /** A response without a content type is read as a blob. */
  lemma MissingContentTypeIsBlob(response: Response)
    requires "content-type" !in HeadersToMap(response.headers)
    ensures ParseResponse(response) == Success(BlobData(response.body.blob))
  {
    IncludesIff("", JSON_CONTENT_TYPE);
    IncludesIff("", TEXT_CONTENT_TYPE);
  }

  // ---------------------------------------------------------------------------
  // One attempt

  /** `data?.message` when it is truthy. */
  function DataMessage(data: Option<Body>): Option<Json> {
    if data.Some? && data.value.JsonData? then
      var p := Property(data.value.json, "message");
      if p.Some? && Truthy(p.value) then p else None
    else None
  }

  /** The message of the error a non-ok response raises:
      `responseData.message || "Request failed with status N"`. Reading a property
      of a JSON `null` body throws instead. */
  function RejectionMessage(data: Body, status: int): (r: Result<string, string>)
    ensures r.Failure? <==> data == JsonData(JNull)
    ensures r.Failure? ==> r.error == NULL_MESSAGE_READ
    ensures data.JsonData? && Property(data.json, "message").Some? && Truthy(Property(data.json, "message").value) ==>
              r == Success(JsText(Property(data.json, "message").value))
    ensures !data.JsonData? ==> r == Success("Request failed with status " + IntToString(status))
    ensures data.JsonData? && data.json != JNull &&
            (Property(data.json, "message").None? || !Truthy(Property(data.json, "message").value)) ==>
              r == Success("Request failed with status " + IntToString(status))
  {
    if data == JsonData(JNull) then Failure(NULL_MESSAGE_READ)
    else match DataMessage(Some(data))
      case Some(m) => Success(JsText(m))
      case None => Success("Request failed with status " + IntToString(status))
  }

  /** What the `try` block throws. */
  datatype Thrown = ThrownApi(error: ApiError) | ThrownAbort | ThrownError(message: Option<string>)

  /** The outcome of the `try` block of one attempt. */
  datatype Step = Delivered(response: ApiResponse) | Threw(thrown: Thrown)

  /** The `try` block of `fetchWithRetry` for one outcome of `fetch`. */
  function Attempt(o: Outcome): (s: Step)
    ensures s.Delivered? <==> o.Responded? && IsOk(o.response.status) && ParseResponse(o.response).Success?
    ensures s.Delivered? ==>
              && s.response.data == ParseResponse(o.response).value
              && s.response.status == o.response.status
              && s.response.statusText == o.response.statusText
              && s.response.headers == HeadersToMap(o.response.headers)
    ensures s.Threw? && s.thrown.ThrownApi? ==>
              && o.Responded? && !IsOk(o.response.status) && ParseResponse(o.response).Success?
              && s.thrown.error.status == o.response.status
              && s.thrown.error.statusText == o.response.statusText
              && s.thrown.error.data == Some(ParseResponse(o.response).value)
    ensures s.Threw? && s.thrown.ThrownApi? ==>
              RejectionMessage(ParseResponse(o.response).value, o.response.status) == Success(s.thrown.error.message)
    ensures (o.Responded? && !IsOk(o.response.status) && ParseResponse(o.response).Success? &&
             ParseResponse(o.response).value != JsonData(JNull)) ==> s.Threw? && s.thrown.ThrownApi?
    ensures o.Responded? && !IsOk(o.response.status) && ParseResponse(o.response) == Success(JsonData(JNull)) ==>
              s == Threw(ThrownError(Some(NULL_MESSAGE_READ)))
    ensures o.Responded? && ParseResponse(o.response).Failure? ==> s == Threw(ThrownError(Some(ParseResponse(o.response).error)))
    ensures s == Threw(ThrownAbort) <==> o.Aborted?
    ensures o.Failed? ==> s == Threw(ThrownError(o.message))
  {
    match o
    case Aborted => Threw(ThrownAbort)
    case Failed(m) => Threw(ThrownError(m))
    case Responded(response) =>
      match ParseResponse(response)
      case Failure(m) => Threw(ThrownError(Some(m)))
      case Success(data) =>
        if IsOk(response.status) then
          Delivered(ApiResponse(data, response.status, response.statusText, HeadersToMap(response.headers)))
        else
          match RejectionMessage(data, response.status)
          case Success(message) => Threw(ThrownApi(ApiError(message, response.status, response.statusText, Some(data))))
          case Failure(m) => Threw(ThrownError(Some(m)))
  }

  /** The `try` block's outcome for every attempt of a request. */
  function Steps(oracle: nat -> Outcome): nat -> Step {
    (k: nat) => Attempt(oracle(k))
  }

  function StepAt(oracle: nat -> Outcome, k: nat): Step {
    Steps(oracle)(k)
  }

  /** The `catch` block's test for another attempt (besides the remaining count). */
  predicate Retries(s: Step) {
    s.Threw? && s.thrown.ThrownApi? && s.thrown.error.status >= 500
  }

  /** The error the `catch` block raises for what the `try` block threw. */
  function Classify(t: Thrown): ApiError {
    match t
    case ThrownApi(e) => e
    case ThrownAbort => TIMEOUT_ERROR
    case ThrownError(m) => NetworkError(m)
  }

  /** What the caller sees when the attempt is the last one. */
  function Final(s: Step): RequestResult {
    match s
    case Delivered(r) => Success(r)
    case Threw(t) => Failure(Classify(t))
  }

  // ---------------------------------------------------------------------------
  // The retry loop

  datatype Fetched = Fetched(result: RequestResult, attempts: nat)

  /** `fetchWithRetry(url, config, retryCount)` started at attempt `next`. */
  function FetchFrom(steps: nat -> Step, next: nat, retryCount: nat): (f: Fetched)
    ensures 1 <= f.attempts <= retryCount + 1
    decreases retryCount
  {
    var s := steps(next);
    if Retries(s) && retryCount > 0 then
      var rest := FetchFrom(steps, next + 1, retryCount - 1);
      Fetched(rest.result, rest.attempts + 1)
    else Fetched(Final(s), 1)
  }

  /** One request, with the configured retry budget. */
  function FetchSpec(oracle: nat -> Outcome): Fetched {
    FetchFrom(Steps(oracle), 0, RETRY_COUNT)
  }

  /** Every attempt but the last raised a server error (status 500 or more). */
  lemma {:induction false} RetriedOnlyOnServerErrors(steps: nat -> Step, next: nat, retryCount: nat)
    ensures forall k :: next <= k < next + FetchFrom(steps, next, retryCount).attempts - 1 ==>
                          Retries(steps(k))
    decreases retryCount
  {
    if Retries(steps(next)) && retryCount > 0 {
      RetriedOnlyOnServerErrors(steps, next + 1, retryCount - 1);
    }
  }

  /** The last attempt decides the result. */
  lemma {:induction false} LastAttemptDecides(steps: nat -> Step, next: nat, retryCount: nat)
    ensures var f := FetchFrom(steps, next, retryCount);
            f.result == Final(steps(next + f.attempts - 1))
    decreases retryCount
  {
    var s := steps(next);
    if Retries(s) && retryCount > 0 {
      LastAttemptDecides(steps, next + 1, retryCount - 1);
    }
  }

  /** The loop stops before the budget runs out only on an attempt that is not retried. */
  lemma {:induction false} StopsOnlyWhenNotRetried(steps: nat -> Step, next: nat, retryCount: nat)
    ensures var f := FetchFrom(steps, next, retryCount);
            f.attempts <= retryCount ==> !Retries(steps(next + f.attempts - 1))
    decreases retryCount
  {
    var s := steps(next);
    var f := FetchFrom(steps, next, retryCount);
    if Retries(s) && retryCount > 0 {
      var rest := FetchFrom(steps, next + 1, retryCount - 1);
      StopsOnlyWhenNotRetried(steps, next + 1, retryCount - 1);
      assert f.attempts == rest.attempts + 1;
      assert next + f.attempts - 1 == next + 1 + rest.attempts - 1;
    } else {
      assert f.attempts == 1;
    }
  }

  /** Conversely, the number of attempts is the first attempt not retried, or
      the budget plus one. */
  lemma {:induction false} AttemptsCharacterized(steps: nat -> Step, next: nat, retryCount: nat, n: nat)
    requires 1 <= n <= retryCount + 1
    requires forall k :: next <= k < next + n - 1 ==> Retries(steps(k))
    requires n == retryCount + 1 || !Retries(steps(next + n - 1))
    ensures FetchFrom(steps, next, retryCount).attempts == n
    decreases retryCount
  {
    if n > 1 {
      assert Retries(steps(next));
      AttemptsCharacterized(steps, next + 1, retryCount - 1, n - 1);
    }
  }

  /** A timed-out first attempt is reported as status 408 and not retried. */
  lemma TimeoutNotRetried(oracle: nat -> Outcome)
    requires oracle(0).Aborted?
    ensures FetchSpec(oracle) == Fetched(Failure(TIMEOUT_ERROR), 1)
  {
  }

  /** A first attempt that throws is reported as status 0 and not retried. */
  lemma NetworkFailureNotRetried(oracle: nat -> Outcome)
    requires oracle(0).Failed?
    ensures FetchSpec(oracle) == Fetched(Failure(NetworkError(oracle(0).message)), 1)
  {
  }

  /** A response the client rejects as a server-reported failure with this status. */
  predicate ServerRejects(o: Outcome, status: int) {
    && o.Responded? && o.response.status == status && !IsOk(status)
    && ParseResponse(o.response).Success?
    && ParseResponse(o.response).value != JsonData(JNull)
  }

  /** A status below 500 (400, 401, 404, ...) ends the request after one attempt. */
  lemma ClientErrorNotRetried(oracle: nat -> Outcome, status: int)
    requires status < 500 && ServerRejects(oracle(0), status)
    ensures FetchSpec(oracle).attempts == 1
    ensures FetchSpec(oracle).result.Failure? && FetchSpec(oracle).result.error.status == status
  {
    assert StepAt(oracle, 0).Threw? && StepAt(oracle, 0).thrown.ThrownApi?;
  }

  /** A persistent server error costs three attempts and raises the last one's error. */
  lemma PersistentServerErrorExhaustsRetries(oracle: nat -> Outcome)
    requires forall k :: 0 <= k <= RETRY_COUNT ==> oracle(k).Responded? && ServerRejects(oracle(k), oracle(k).response.status)
    requires forall k :: 0 <= k <= RETRY_COUNT ==> oracle(k).response.status >= 500
    ensures FetchSpec(oracle).attempts == RETRY_COUNT + 1
    ensures FetchSpec(oracle).result.Failure?
    ensures FetchSpec(oracle).result.error == Classify(StepAt(oracle, RETRY_COUNT).thrown)
    ensures FetchSpec(oracle).result.error.status == oracle(RETRY_COUNT).response.status
  {
    forall k | 0 <= k <= RETRY_COUNT ensures Retries(StepAt(oracle, k)) {
      assert ServerRejects(oracle(k), oracle(k).response.status);
    }
    AttemptsCharacterized(Steps(oracle), 0, RETRY_COUNT, RETRY_COUNT + 1);
    LastAttemptDecides(Steps(oracle), 0, RETRY_COUNT);
  }

  /** The error taxonomy for the attempt that decides a request: either the
      envelope of an ok response, or exactly one of a timeout (408), a transport
      failure (status 0, no body) or a server-reported failure carrying the
      response's status and body. */
  predicate Classified(o: Outcome, r: RequestResult) {
    && (r.Success? ==> o.Responded? && IsOk(o.response.status) && IsOk(r.value.status))
    && (r.Failure? ==>
          || (o.Aborted? && r.error == TIMEOUT_ERROR)
          || (r.error.status == 0 && r.error.statusText == "Network Error" && r.error.data.None?)
          || (o.Responded? && !IsOk(o.response.status) && ParseResponse(o.response).Success?
              && r.error.status == o.response.status
              && r.error.data == Some(ParseResponse(o.response).value)))
  }

  /** `steps` runs `Attempt` on each outcome `oracle` hands out, as `Steps(oracle)` does. */
  ghost predicate AttemptsOf(steps: nat -> Step, oracle: nat -> Outcome) {
    forall k: nat {:trigger Attempt(oracle(k))} :: steps(k) == Attempt(oracle(k))
  }

  /** A step function for `oracle` that specifies its request. */
  lemma StepsOf(oracle: nat -> Outcome) returns (steps: nat -> Step)
    ensures AttemptsOf(steps, oracle)
    ensures FetchFrom(steps, 0, RETRY_COUNT) == FetchSpec(oracle)
  {
    steps := Steps(oracle);
  }

  /** The outcome of the last attempt decides the request. */
  lemma LastOutcomeDecides(steps: nat -> Step, oracle: nat -> Outcome)
    requires AttemptsOf(steps, oracle)
    ensures FetchFrom(steps, 0, RETRY_COUNT).result == Final(Attempt(oracle(FetchFrom(steps, 0, RETRY_COUNT).attempts - 1)))
  {
    LastAttemptDecides(steps, 0, RETRY_COUNT);
  }

  /** Every single attempt's outcome falls into the taxonomy. */
  lemma AttemptClassified(o: Outcome)
    ensures Classified(o, Final(Attempt(o)))
  {
  }

  /** A request's result falls into the taxonomy for its last attempt. */
  lemma FailureTaxonomy(steps: nat -> Step, oracle: nat -> Outcome)
    requires AttemptsOf(steps, oracle)
    ensures var f := FetchFrom(steps, 0, RETRY_COUNT);
            Classified(oracle(f.attempts - 1), f.result)
  {
    LastOutcomeDecides(steps, oracle);
    AttemptClassified(oracle(FetchFrom(steps, 0, RETRY_COUNT).attempts - 1));
  }

  /** All attempts of a request go to the same URL with the same configuration. */
  predicate Repeated(calls: seq<FetchCall>, call: FetchCall, n: nat) {
    |calls| == n && forall i :: 0 <= i < |calls| ==> calls[i] == call
  }

  /** The `try` block of `fetchWithRetry` as statements: call `fetch`, parse the
      body, and either build the envelope (through `GetHeadersObject`) or throw.
      `Attempt` is the same block as a value, for the lemmas; this method and
      `CatchBlock` are what the loop of `FetchWithRetry` runs. */
  method TryAttempt(o: Outcome) returns (step: Step)
    ensures step == Attempt(o)
  {
    match o
    case Aborted =>
      step := Threw(ThrownAbort);
    case Failed(m) =>
      step := Threw(ThrownError(m));
    case Responded(response) =>
      var parsed := ParseResponse(response);
      if parsed.Failure? {
        step := Threw(ThrownError(Some(parsed.error)));
      } else if !IsOk(response.status) {
        match RejectionMessage(parsed.value, response.status)
        case Success(message) =>
          step := Threw(ThrownApi(ApiError(message, response.status, response.statusText, Some(parsed.value))));
        case Failure(m) =>
          step := Threw(ThrownError(Some(m)));
      } else {
        var headers := GetHeadersObject(response.headers);
        step := Delivered(ApiResponse(parsed.value, response.status, response.statusText, headers));
      }
  }

  /** The `catch` block of `fetchWithRetry` (and the `return` after the `try`):
      retry a server error while the budget lasts, otherwise rethrow a client
      error, turn an abort into a timeout and anything else into a network error. */
  method CatchBlock(step: Step, retryCount: nat) returns (retry: bool, result: RequestResult)
    ensures retry <==> Retries(step) && retryCount > 0
    ensures !retry ==> result == Final(step)
  {
    retry := false;
    match step
    case Delivered(response) =>
      result := Success(response);
    case Threw(thrown) =>
      if thrown.ThrownApi? {
        if thrown.error.status >= 500 && retryCount > 0 {
          retry := true;
        }
        result := Failure(thrown.error);
      } else if thrown.ThrownAbort? {
        result := Failure(TIMEOUT_ERROR);
      } else {
        result := Failure(NetworkError(thrown.message));
      }
  }

  /** `fetchWithRetry`: the recursion on `retryCount` as a loop. `calls` lists the
      calls of `fetch` in order. */
  method FetchWithRetry(url: string, init: RequestInit, oracle: nat -> Outcome)
    returns (result: RequestResult, calls: seq<FetchCall>)
    ensures result == FetchSpec(oracle).result
    ensures Repeated(calls, FetchCall(url, init), FetchSpec(oracle).attempts)
    ensures 1 <= |calls| <= RETRY_COUNT + 1
  {
    var retryCount := RETRY_COUNT;
    calls := [];
    ghost var steps := StepsOf(oracle);
    while true
      invariant |calls| + retryCount == RETRY_COUNT
      invariant Repeated(calls, FetchCall(url, init), |calls|)
      invariant FetchFrom(steps, 0, RETRY_COUNT).result == FetchFrom(steps, |calls|, retryCount).result
      invariant FetchFrom(steps, 0, RETRY_COUNT).attempts == |calls| + FetchFrom(steps, |calls|, retryCount).attempts
      decreases retryCount
    {
      var attempt := |calls|;
      calls := calls + [FetchCall(url, init)];
      var step := TryAttempt(oracle(attempt));
      assert step == steps(attempt);
      var retry;
      retry, result := CatchBlock(step, retryCount);
      if !retry {
        return;
      }
      retryCount := retryCount - 1;
    }
  }

  // ---------------------------------------------------------------------------
  // The client's entry points

  /** `request`: the base URL before the endpoint, the configuration built from
      the stored token as the source spreads it (caller headers replace the
      merged ones), then the retry loop. */
  method Request(env: Config.Env, b: Browser, endpoint: string, verb: HttpMethod, data: Option<Json>,
                 options: RequestOptions, oracle: nat -> Outcome)
    returns (result: RequestResult, calls: seq<FetchCall>)
    ensures result == FetchSpec(oracle).result
    ensures Repeated(calls, FetchCall(ApiBaseUrl(env) + endpoint, RequestConfigAsWritten(verb, data, options, AuthToken(b.storage))),
                     FetchSpec(oracle).attempts)
  {
    var url := ApiBaseUrl(env) + endpoint;
    var init := RequestConfigAsWritten(verb, data, options, AuthToken(b.storage));
    result, calls := FetchWithRetry(url, init, oracle);
  }

  /** `get`: a request without a body. */
  method Get(env: Config.Env, b: Browser, endpoint: string, options: RequestOptions, oracle: nat -> Outcome)
    returns (result: RequestResult, calls: seq<FetchCall>)
    ensures result == FetchSpec(oracle).result
    ensures Repeated(calls, FetchCall(ApiBaseUrl(env) + endpoint, RequestConfigAsWritten(GET, None, options, AuthToken(b.storage))),
                     FetchSpec(oracle).attempts)
    ensures forall i :: 0 <= i < |calls| ==> calls[i].init.body.None? && calls[i].init.httpMethod == options.httpMethod.GetOr("GET")
  {
    result, calls := Request(env, b, endpoint, GET, None, options, oracle);
  }

  /** `post`: the data is sent as the body when it is truthy. */
  method Post(env: Config.Env, b: Browser, endpoint: string, data: Json, options: RequestOptions, oracle: nat -> Outcome)
    returns (result: RequestResult, calls: seq<FetchCall>)
    ensures result == FetchSpec(oracle).result
    ensures Repeated(calls, FetchCall(ApiBaseUrl(env) + endpoint, RequestConfigAsWritten(POST, Some(data), options, AuthToken(b.storage))),
                     FetchSpec(oracle).attempts)
    ensures forall i :: 0 <= i < |calls| ==> calls[i].init.body == (if Truthy(data) then Some(data) else None)
  {
    result, calls := Request(env, b, endpoint, POST, Some(data), options, oracle);
  }

  /** `put`: the data is sent as the body when it is truthy. */
  method Put(env: Config.Env, b: Browser, endpoint: string, data: Json, options: RequestOptions, oracle: nat -> Outcome)
    returns (result: RequestResult, calls: seq<FetchCall>)
    ensures result == FetchSpec(oracle).result
    ensures Repeated(calls, FetchCall(ApiBaseUrl(env) + endpoint, RequestConfigAsWritten(PUT, Some(data), options, AuthToken(b.storage))),
                     FetchSpec(oracle).attempts)
    ensures forall i :: 0 <= i < |calls| ==> calls[i].init.body == (if Truthy(data) then Some(data) else None)
  {
    result, calls := Request(env, b, endpoint, PUT, Some(data), options, oracle);
  }

  /** `delete`: a request without a body. */
  method Delete(env: Config.Env, b: Browser, endpoint: string, options: RequestOptions, oracle: nat -> Outcome)
    returns (result: RequestResult, calls: seq<FetchCall>)
    ensures result == FetchSpec(oracle).result
    ensures Repeated(calls, FetchCall(ApiBaseUrl(env) + endpoint, RequestConfigAsWritten(DELETE, None, options, AuthToken(b.storage))),
                     FetchSpec(oracle).attempts)
    ensures forall i :: 0 <= i < |calls| ==> calls[i].init.body.None? && calls[i].init.httpMethod == options.httpMethod.GetOr("DELETE")
  {
    result, calls := Request(env, b, endpoint, DELETE, None, options, oracle);
  }

  // ---------------------------------------------------------------------------
  // handleApiError

  /** The toast text: the body's `message`, then the error's message, then the fallback. */
  function ErrorMessage(error: Caught, fallback: string): (m: string)
    ensures error.CaughtOther? ==> m == fallback
    ensures error.CaughtApi? && DataMessage(error.error.data).Some? ==> m == JsText(DataMessage(error.error.data).value)
    ensures error.CaughtApi? && DataMessage(error.error.data).None? ==>
              m == (if error.error.message != "" then error.error.message else fallback)
  {
    match error
    case CaughtOther(_) => fallback
    case CaughtApi(e) =>
      match DataMessage(e.data)
      case Some(v) => JsText(v)
      case None => if e.message != "" then e.message else fallback
  }

  /** The toast for the error one attempt raises is that error's own message,
      except for a transport failure whose thrown message is empty. */
  lemma AttemptNotification(o: Outcome, fallback: string)
    requires Attempt(o).Threw?
    ensures var e := Classify(Attempt(o).thrown);
            ErrorMessage(CaughtApi(e), fallback) == if e.message == "" && e.data.None? then fallback else e.message
  {
    var s := Attempt(o);
    if s.thrown.ThrownApi? {
      var response := o.response;
      var data := ParseResponse(response).value;
      assert RejectionMessage(data, response.status).Success?;
      if DataMessage(Some(data)).None? {
        assert s.thrown.error.message == "Request failed with status " + IntToString(response.status);
      }
    }
  }

  /** For an error a request raises, the toast repeats the error's own message;
      the fallback appears only for a transport failure whose thrown message is empty. */
  lemma NotificationForRequestFailure(steps: nat -> Step, oracle: nat -> Outcome, fallback: string)
    requires AttemptsOf(steps, oracle) && FetchFrom(steps, 0, RETRY_COUNT).result.Failure?
    ensures var e := FetchFrom(steps, 0, RETRY_COUNT).result.error;
            ErrorMessage(CaughtApi(e), fallback) == if e.message == "" && e.data.None? then fallback else e.message
  {
    LastOutcomeDecides(steps, oracle);
    AttemptNotification(oracle(FetchFrom(steps, 0, RETRY_COUNT).attempts - 1), fallback);
  }

  predicate IsUnauthorized(error: Caught) {
    error.CaughtApi? && error.error.status == 401
  }

  /** What one call of `handleApiError` does to the browser. */
  twostate predicate Handled(b: Browser, new error: Caught, new fallback: string)
    reads b
  {
    && b.console == old(b.console) + [LoggedError(error)]
    && b.toasts == old(b.toasts) + [ErrorMessage(error, fallback)]
    && (if IsUnauthorized(error) then b.storage == old(b.storage) - {AUTH_TOKEN_KEY} && b.location == LOGIN_LOCATION
        else b.storage == old(b.storage) && b.location == old(b.location))
  }

  /** `handleApiError`: log, one toast, and on 401 the session is dropped and the
      user sent to the login page. */
  method HandleApiError(b: Browser, error: Caught, fallback: string := DEFAULT_FALLBACK_MESSAGE)
    modifies b
    ensures Handled(b, error, fallback)
  {
    b.console := b.console + [LoggedError(error)];
    match error
    case CaughtApi(e) =>
      b.toasts := b.toasts + [ErrorMessage(error, fallback)];
      if e.status == 401 {
        b.storage := b.storage - {AUTH_TOKEN_KEY};
        b.location := LOGIN_LOCATION;
      }
    case CaughtOther(_) =>
      b.toasts := b.toasts + [fallback];
  }

  /** After a 401 is handled no token is stored, so the next request without
      caller headers carries no Authorization header. */
  lemma UnauthorizedEndsSession(storage: map<string, string>, verb: HttpMethod, data: Option<Json>)
    ensures AuthToken(storage - {AUTH_TOKEN_KEY}) == None
    ensures "Authorization" !in RequestConfigAsWritten(verb, data, NO_OPTIONS, AuthToken(storage - {AUTH_TOKEN_KEY})).headers
  {
  }
}
