/**
  The HTTP client layer of `src/lib/api.js`: one freshly configured client per
  call, the rate-limit advisory on successful responses, the rejection handler
  that turns failures into one message each, and the CLI output formatter.
*/
module LibApi {
  import opened Wrappers
  import opened JsStrings
  import opened JsValues
  import opened Http
  import opened LibConfig
  import opened LibAuth

  const Timeout: nat := 30000

  const AuthenticationFailed := "Authentication failed. Check your API key."
  const AccessDenied := "Access denied. Insufficient permissions."
  const ResourceNotFound := "Resource not found."
  const ServerError := "Server error. Please try again later."
  const NoResponseFromServer := "No response from server. Check your connection."

  /** What `createApiClient` configures: base URL, timeout in milliseconds, default headers. */
  datatype Client = Client(baseURL: string, timeout: nat, headers: map<string, string>)

  /** The five request helpers, each with the arguments it forwards. */
  datatype Call =
    | HttpGet(endpoint: string, params: Json)
    | HttpPost(endpoint: string, data: Json)
    | HttpPut(endpoint: string, data: Json)
    | HttpDel(endpoint: string)
    | DownloadFile(endpoint: string)

  /** The request a client sends; `binary` is the `arraybuffer` response type. */
  datatype Request = Request(
    verb: string, baseURL: string, endpoint: string, timeout: nat,
    headers: map<string, string>, params: Option<Json>, data: Option<Json>, binary: bool)

  /** The success handler's result: the warning it printed, if any, and the response it passed on. */
  datatype Advisory = Advisory(warning: Option<string>, response: Response)

  /**
    One call as a whole: the request it issued (None when it failed before
    sending anything), the rate-limit warning, and what the caller receives.
  */
  datatype CallTrace = CallTrace(issued: Option<Request>, warning: Option<string>, result: Result<Json, Error>)

  /** A header's text in a template literal: its value, or `undefined`. */
  function HeaderText(headers: map<string, string>, name: string): string {
    if name in headers then headers[name] else "undefined"
  }

  /**
    `createApiClient()`: base URL and headers are read afresh from the store;
    a missing API key makes the construction itself throw.
  */
  function CreateApiClient(config: ConfigStore): (r: Result<Client, Error>)
    reads config
    ensures r.Success? <==> config.GetApiKey().Success?
    ensures r.Success? ==> r.value.baseURL == config.GetBaseUrl() && r.value.baseURL != ""
    ensures r.Success? ==> r.value.timeout == 30000
    ensures r.Success? ==> r.value.headers.Keys == {"X-API-KEY", "Accept", "Content-Type"}
    ensures r.Success? ==> r.value.headers["X-API-KEY"] == config.GetApiKey().value
    ensures r.Success? ==> r.value.headers["Accept"] == "application/json" && r.value.headers["Content-Type"] == "application/json"
    ensures r.Success? ==> r.value.headers == GetAuthHeaders(config).value
    ensures r.Failure? ==> r.error == Error(Configuration, ApiKeyMissing)
  {
    var baseURL := config.GetBaseUrl();
    match GetAuthHeaders(config)
    case Failure(e) => Failure(e)
    case Success(headers) => Success(Client(baseURL, Timeout, headers))
  }

  /** The request the helper for `call` hands to the client. */
  function RequestFor(client: Client, call: Call): (req: Request)
    ensures req.baseURL == client.baseURL && req.timeout == client.timeout && req.headers == client.headers
    ensures req.endpoint == call.endpoint
    ensures req.binary <==> call.DownloadFile?
    ensures call.HttpGet? ==> req.verb == "GET" && req.params == Some(call.params) && req.data == None
    ensures call.HttpPost? ==> req.verb == "POST" && req.params == None && req.data == Some(call.data)
    ensures call.HttpPut? ==> req.verb == "PUT" && req.params == None && req.data == Some(call.data)
    ensures call.HttpDel? ==> req.verb == "DELETE" && req.params == None && req.data == None
    ensures call.DownloadFile? ==> req.verb == "GET" && req.params == None && req.data == None
  {
    match call
    case HttpGet(endpoint, params) => Request("GET", client.baseURL, endpoint, client.timeout, client.headers, Some(params), None, false)
    case HttpPost(endpoint, data) => Request("POST", client.baseURL, endpoint, client.timeout, client.headers, None, Some(data), false)
    case HttpPut(endpoint, data) => Request("PUT", client.baseURL, endpoint, client.timeout, client.headers, None, Some(data), false)
    case HttpDel(endpoint) => Request("DELETE", client.baseURL, endpoint, client.timeout, client.headers, None, None, false)
    case DownloadFile(endpoint) => Request("GET", client.baseURL, endpoint, client.timeout, client.headers, None, None, true)
  }

  /**
    The success handler: it warns when `x-ratelimit-remaining` is present and
    `parseInt` of it is a number below 10, and passes the response on unchanged.
  */
  function RateLimitAdvisory(response: Response): (a: Advisory)
    ensures a.response == response
    ensures a.warning.Some? <==>
      && "x-ratelimit-remaining" in response.headers
      && response.headers["x-ratelimit-remaining"] != ""
      && ParseInt(response.headers["x-ratelimit-remaining"]).Some?
      && ParseInt(response.headers["x-ratelimit-remaining"]).value < 10
    ensures a.warning.Some? ==>
      a.warning.value == "Warning: Only " + response.headers["x-ratelimit-remaining"] + "/"
        + HeaderText(response.headers, "x-ratelimit-limit") + " API calls remaining in this window"
  {
    var headers := response.headers;
    if "x-ratelimit-remaining" in headers && headers["x-ratelimit-remaining"] != "" then
      var remaining := headers["x-ratelimit-remaining"];
      var limit := HeaderText(headers, "x-ratelimit-limit");
      var parsed := ParseInt(remaining);
      if parsed.Some? && parsed.value < 10 then
        Advisory(Some("Warning: Only " + remaining + "/" + limit + " API calls remaining in this window"), response)
      else
        Advisory(None, response)
    else
      Advisory(None, response)
  }

  /** A remaining count the server writes as a decimal integer warns exactly when it is below 10. */
  lemma {:induction false} RateLimitWarnsBelowTen(response: Response, n: int)
    requires "x-ratelimit-remaining" in response.headers
    requires response.headers["x-ratelimit-remaining"] == IntToString(n)
    ensures RateLimitAdvisory(response).warning.Some? <==> n < 10
  {
    NumberReadsBack(n);
  }

  /** A remaining count that is not a number (`parseInt` gives `NaN`) never warns. */
  lemma {:induction false} RateLimitIgnoresNaN(response: Response)
    requires "x-ratelimit-remaining" in response.headers
    requires var t := TrimStart(response.headers["x-ratelimit-remaining"]);
      t == [] || (t[0] != '-' && t[0] != '+' && !IsDecimalDigit(t[0]))
    ensures RateLimitAdvisory(response).warning == None
  {
    ParseIntNaN(response.headers["x-ratelimit-remaining"]);
  }

  /**
    The rejection handler, one message per failure. A 422 quotes the body's
    `message` when it is truthy and the whole body otherwise (read as
    `data?.message`; see `InterceptErrorAsWritten`), a 429 quotes the
    `retry-after` header verbatim, only 500 is a server error, and every other
    status quotes itself and the whole body.
  */
  function InterceptError(x: Exchange): (e: Error)
    ensures x.Responded? ==> e.kind == (if 500 < x.response.status <= 599 then Unclassified else Taxonomy(x.response.status))
    ensures x.Responded? && x.response.status == 401 ==> e.message == AuthenticationFailed
    ensures x.Responded? && x.response.status == 403 ==> e.message == AccessDenied
    ensures x.Responded? && x.response.status == 404 ==> e.message == ResourceNotFound
    ensures x.Responded? && x.response.status == 500 ==> e.message == ServerError
    ensures x.Responded? && x.response.status == 422 ==>
      var detail := Get(x.response.data, "message");
      e.message == "Validation error: " + Stringify(if TruthyOpt(detail) then detail.value else x.response.data)
    ensures x.Responded? && x.response.status == 429 ==>
      e.message == "Rate limit exceeded. Retry after " + HeaderText(x.response.headers, "retry-after") + " seconds."
    ensures x.Responded? && e.kind == Unclassified ==>
      e.message == "API error (" + IntToString(x.response.status) + "): " + Stringify(x.response.data)
    ensures x.NoResponse? ==> e == Error(Transport, NoResponseFromServer)
    ensures x.SetupFailed? ==> e == Error(RequestSetup, "Request error: " + x.message)
  {
    match x
    case Responded(response) =>
      var status := response.status;
      var data := response.data;
      if status == 401 then Error(Authentication, AuthenticationFailed)
      else if status == 403 then Error(Authorization, AccessDenied)
      else if status == 404 then Error(NotFound, ResourceNotFound)
      else if status == 422 then
        var detail := Get(data, "message");
        Error(Validation, "Validation error: " + Stringify(if TruthyOpt(detail) then detail.value else data))
      else if status == 429 then
        Error(RateLimited, "Rate limit exceeded. Retry after " + HeaderText(response.headers, "retry-after") + " seconds.")
      else if status == 500 then Error(Server, ServerError)
      else Error(Unclassified, "API error (" + IntToString(status) + "): " + Stringify(data))
    case NoResponse => Error(Transport, NoResponseFromServer)
    case SetupFailed(message) => Error(RequestSetup, "Request error: " + message)
  }

  /**
    The rejection handler as written: on a 422 it reads `data.message` without
    a guard, which throws a TypeError when the body is `null`.
  */
  function InterceptErrorAsWritten(x: Exchange): (e: Error)
    ensures !(x.Responded? && x.response.status == 422 && x.response.data == JNull) ==> e == InterceptError(x)
  {
    if x.Responded? && x.response.status == 422 && x.response.data == JNull then
      Error(Type, "Cannot read properties of null (reading 'message')")
    else
      InterceptError(x)
  }

  /** A 422 with a `null` body: as written it is a TypeError, not a validation error. */
  lemma {:induction false} NullValidationBody()
    ensures InterceptErrorAsWritten(Responded(Response(422, JNull, map[]))).kind == Type
    ensures InterceptError(Responded(Response(422, JNull, map[]))) == Error(Validation, "Validation error: null")
  {
  }

  /** 401, 403, 404 and 500 give one fixed error each, whatever the body and headers. */
  lemma {:induction false} FixedMessagesIgnoreBody(r1: Response, r2: Response)
    requires r1.status == r2.status && r1.status in {401, 403, 404, 500}
    ensures InterceptError(Responded(r1)) == InterceptError(Responded(r2))
  {
  }

  /**
    `get`, `post`, `put`, `del` and `downloadFile`: build a fresh client (which
    fails, before any request, without an API key), send the request, and
    return the response body untransformed on a 2xx status; any other outcome
    goes through the rejection handler as written, so that a 422 with a
    `null` body rejects with its TypeError.
  */
  function Perform(config: ConfigStore, call: Call, exchange: Exchange): (t: CallTrace)
    reads config
    ensures config.GetApiKey().Failure? ==> t == CallTrace(None, None, Failure(Error(Configuration, ApiKeyMissing)))
    ensures config.GetApiKey().Success? ==>
      CreateApiClient(config).Success? && t.issued == Some(RequestFor(CreateApiClient(config).value, call))
    ensures t.issued.Some? ==>
      && t.issued.value.baseURL == config.GetBaseUrl()
      && t.issued.value.timeout == 30000
      && t.issued.value.endpoint == call.endpoint
      && "X-API-KEY" in t.issued.value.headers
      && t.issued.value.headers["X-API-KEY"] == config.GetApiKey().value
    ensures t.issued.Some? && exchange.Responded? && IsSuccess(exchange.response.status) ==>
      t.result == Success(exchange.response.data) && t.warning == RateLimitAdvisory(exchange.response).warning
    ensures t.issued.Some? && !(exchange.Responded? && IsSuccess(exchange.response.status)) ==>
      t.result == Failure(InterceptErrorAsWritten(exchange)) && t.warning == None
    ensures t.issued.Some? && exchange.Responded? && exchange.response.status == 422 && exchange.response.data == JNull ==>
      t.result.Failure? && t.result.error.kind == Type
  {
    match CreateApiClient(config)
    case Failure(e) => CallTrace(None, None, Failure(e))
    case Success(client) =>
      var request := RequestFor(client, call);
      if exchange.Responded? && IsSuccess(exchange.response.status) then
        var advisory := RateLimitAdvisory(exchange.response);
        CallTrace(Some(request), advisory.warning, Success(advisory.response.data))
      else
        CallTrace(Some(request), None, Failure(InterceptErrorAsWritten(exchange)))
  }

  /** Without an API key nothing the network could answer changes the outcome. */
  lemma {:induction false} FailsBeforeRequest(config: ConfigStore, call: Call, x1: Exchange, x2: Exchange)
    requires config.GetApiKey().Failure?
    ensures Perform(config, call, x1) == Perform(config, call, x2)
    ensures Perform(config, call, x1).issued == None
  {
  }

  /** The `[i] ` prefixed segments of the pretty format, one per array element. */
  function Indexed(items: seq<Json>): (segments: seq<string>)
    ensures |segments| == |items|
    ensures forall i :: 0 <= i < |items| ==> segments[i] == "[" + NatToString(i) + "] " + Stringify(items[i])
  {
    seq(|items|, i requires 0 <= i < |items| => "[" + NatToString(i) + "] " + Stringify(items[i]))
  }

  /**
    `formatOutput(data, format)`: the JSON text for format `json` and for any
    value that is no array; otherwise one segment per element, prefixed with
    its index, separated by blank lines.
  */
  function FormatOutput(data: Json, format: string): (out: string)
    ensures format == "json" || !data.JArr? ==> out == Stringify(data)
    ensures format != "json" && data.JArr? ==> out == JoinWith(Indexed(data.items), "\n\n")
  {
    if format == "json" then Stringify(data)
    else if data.JArr? then JoinWith(Indexed(data.items), "\n\n")
    else Stringify(data)
  }

  /** On an array the two formats never agree: the pretty text starts with the index `[0]`. */
  lemma {:induction false} PrettyArrayDiffersFromJson(items: seq<Json>, format: string)
    requires format != "json"
    ensures FormatOutput(JArr(items), format) != FormatOutput(JArr(items), "json")
    ensures items != [] ==> FormatOutput(JArr(items), format)[..4] == "[0] "
  {
    var pretty := FormatOutput(JArr(items), format);
    var json := FormatOutput(JArr(items), "json");
    if items == [] {
      assert pretty == "" && json == "[]";
    } else {
      var segments := Indexed(items);
      assert segments[0][..4] == "[0] ";
      assert pretty[1] == '0';
      assert json[1] == '\n';
    }
  }
}
