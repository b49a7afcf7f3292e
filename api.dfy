/**
  The older request layer of `src/api.js`: a fixed base URL, the API key read
  from the store on every call, its own error table, and the resource
  functions that shape query parameters and bodies and unwrap list responses.
*/
module Api {
  import opened Wrappers
  import opened JsStrings
  import opened JsValues
  import opened Http
  import LibApi

  /** This layer ignores any configured base URL. */
  const BaseUrl := "https://api.billingo.hu/v3"

  const KeyNotConfigured := "API key not configured. Run: billingohu config set --api-key <key>"
  const AuthenticationFailed := "Authentication failed. Check your API key."
  const AccessForbidden := "Access forbidden. Check your API permissions."
  const ResourceNotFound := "Resource not found."
  const RateLimitWait := "Rate limit exceeded. Please wait before retrying."
  const NoResponseFromBillingo := "No response from Billingo API." + " Check your internet connection."

  /** The request configuration `apiRequest` hands to the transport. */
  datatype RequestConfig = RequestConfig(
    verb: string, url: string, headers: map<string, string>, params: Option<Json>, data: Option<Json>)

  /**
    `apiRequest`'s set-up: it refuses to go on without a stored key, and
    attaches `params` and `data` only when they are truthy (both default to
    `null`). `apiKey` is what the store holds under `apiKey`.
  */
  method BuildRequest(verb: string, endpoint: string, data: Json, params: Json, apiKey: Option<string>)
    returns (r: Result<RequestConfig, Error>)
    ensures r.Failure? <==> !Given(apiKey)
    ensures r.Failure? ==> r.error == Error(Configuration, KeyNotConfigured)
    ensures r.Success? ==> r.value.verb == verb && r.value.url == BaseUrl + endpoint
    ensures r.Success? ==> r.value.headers.Keys == {"X-API-KEY", "Accept", "Content-Type"}
    ensures r.Success? ==>
      && r.value.headers["X-API-KEY"] == apiKey.value
      && r.value.headers["Accept"] == "application/json"
      && r.value.headers["Content-Type"] == "application/json"
    ensures r.Success? ==> (r.value.params.Some? <==> Truthy(params)) && (r.value.params.Some? ==> r.value.params.value == params)
    ensures r.Success? ==> (r.value.data.Some? <==> Truthy(data)) && (r.value.data.Some? ==> r.value.data.value == data)
  {
    if !Given(apiKey) {
      return Failure(Error(Configuration, KeyNotConfigured));
    }
    var headers := map["X-API-KEY" := apiKey.value, "Accept" := "application/json", "Content-Type" := "application/json"];
    var config := RequestConfig(verb, BaseUrl + endpoint, headers, None, None);
    if Truthy(params) {
      config := config.(params := Some(params));
    }
    if Truthy(data) {
      config := config.(data := Some(data));
    }
    return Success(config);
  }

  /**
    `handleApiError`: 401, 403, 404 and 429 have fixed messages; every other
    status quotes itself and the first of the body's `message`, its `error`,
    or the whole body as compact JSON; no response has its own message; any
    other failure is rethrown with its message unchanged.
  */
  function HandleApiError(x: Exchange): (e: Error)
    ensures x.Responded? ==> e.kind == (if x.response.status in {401, 403, 404, 429} then Taxonomy(x.response.status) else Unclassified)
    ensures x.Responded? && x.response.status == 401 ==> e.message == AuthenticationFailed
    ensures x.Responded? && x.response.status == 403 ==> e.message == AccessForbidden
    ensures x.Responded? && x.response.status == 404 ==> e.message == ResourceNotFound
    ensures x.Responded? && x.response.status == 429 ==> e.message == RateLimitWait
    ensures x.Responded? && e.kind == Unclassified ==>
      var data := x.response.data;
      var prefix := "API Error (" + IntToString(x.response.status) + "): ";
      && (TruthyOpt(Get(data, "message")) ==> e.message == prefix + ToJsString(Get(data, "message").value))
      && (!TruthyOpt(Get(data, "message")) && TruthyOpt(Get(data, "error")) ==> e.message == prefix + ToJsString(Get(data, "error").value))
      && (!TruthyOpt(Get(data, "message")) && !TruthyOpt(Get(data, "error")) ==> e.message == prefix + StringifyCompact(data))
    ensures x.NoResponse? ==> e == Error(Transport, NoResponseFromBillingo)
    ensures x.SetupFailed? ==> e == Error(RequestSetup, x.message)
  {
    match x
    case Responded(response) =>
      var status := response.status;
      var data := response.data;
      if status == 401 then Error(Authentication, AuthenticationFailed)
      else if status == 403 then Error(Authorization, AccessForbidden)
      else if status == 404 then Error(NotFound, ResourceNotFound)
      else if status == 429 then Error(RateLimited, RateLimitWait)
      else
        var message := Get(data, "message");
        var error := Get(data, "error");
        var detail :=
          if TruthyOpt(message) then ToJsString(message.value)
          else if TruthyOpt(error) then ToJsString(error.value)
          else StringifyCompact(data);
        Error(Unclassified, "API Error (" + IntToString(status) + "): " + detail)
    case NoResponse => Error(Transport, NoResponseFromBillingo)
    case SetupFailed(message) => Error(RequestSetup, message)
  }

  /** This table keeps the conventional taxonomy except that it has no validation or server errors. */
  lemma {:induction false} HandleApiErrorAgainstTaxonomy(r: Response)
    ensures HandleApiError(Responded(r)).kind == Taxonomy(r.status) <==> r.status != 422 && !(500 <= r.status <= 599)
  {
  }

  /**
    `apiRequest`: without a stored key it fails before sending anything;
    otherwise it sends the request and returns the body of a 2xx response
    untransformed, and every other outcome goes through `HandleApiError`.
  */
  method ApiRequest(verb: string, endpoint: string, data: Json, params: Json, apiKey: Option<string>, exchange: Exchange)
    returns (issued: Option<RequestConfig>, result: Result<Json, Error>)
    ensures !Given(apiKey) ==> issued == None && result == Failure(Error(Configuration, KeyNotConfigured))
    ensures Given(apiKey) ==> issued.Some? && issued.value.verb == verb
    ensures Given(apiKey) ==> issued.value.url == BaseUrl + endpoint && issued.value.url[..|BaseUrl|] == BaseUrl
    ensures Given(apiKey) ==> issued.value.headers.Keys == {"X-API-KEY", "Accept", "Content-Type"}
    ensures Given(apiKey) ==>
      && issued.value.headers["X-API-KEY"] == apiKey.value
      && issued.value.headers["Accept"] == "application/json"
      && issued.value.headers["Content-Type"] == "application/json"
    ensures Given(apiKey) ==> issued.value.params == (if Truthy(params) then Some(params) else None)
    ensures Given(apiKey) ==> issued.value.data == (if Truthy(data) then Some(data) else None)
    ensures Given(apiKey) && exchange.Responded? && IsSuccess(exchange.response.status) ==> result == Success(exchange.response.data)
    ensures Given(apiKey) && !(exchange.Responded? && IsSuccess(exchange.response.status)) ==> result == Failure(HandleApiError(exchange))
  {
    var config := BuildRequest(verb, endpoint, data, params, apiKey);
    if config.Failure? {
      return None, Failure(config.error);
    }
    issued := Some(config.value);
    if exchange.Responded? && IsSuccess(exchange.response.status) {
      result := Success(exchange.response.data);
    } else {
      result := Failure(HandleApiError(exchange));
    }
  }

  /**
    The members of `listInvoices`' query: `page` and `per_page` with their
    defaults 1 and 25, `type` and `payment_method` exactly when truthy, and
    no other member.
  */
  ghost predicate InvoiceQuery(params: seq<(string, Json)>, page: Option<Json>, perPage: Option<Json>,
                               kind: Option<Json>, paymentMethod: Option<Json>) {
    && Lookup(params, "page") == Some(if page.Some? then page.value else JNum(1))
    && Lookup(params, "per_page") == Some(if perPage.Some? then perPage.value else JNum(25))
    && (Lookup(params, "type").Some? <==> TruthyOpt(kind))
    && (Lookup(params, "type").Some? ==> Lookup(params, "type") == kind)
    && (Lookup(params, "payment_method").Some? <==> TruthyOpt(paymentMethod))
    && (Lookup(params, "payment_method").Some? ==> Lookup(params, "payment_method") == paymentMethod)
    && forall name :: name !in {"page", "per_page", "type", "payment_method"} ==> Lookup(params, name) == None
  }

  /**
    `listInvoices`' query: `page` and `per_page` always (1 and 25 when the
    caller leaves them undefined), `type` and `payment_method` only when
    truthy. Options left undefined are `None`.
  */
  method ListInvoicesParams(page: Option<Json>, perPage: Option<Json>, kind: Option<Json>, paymentMethod: Option<Json>)
    returns (params: seq<(string, Json)>)
    ensures InvoiceQuery(params, page, perPage, kind, paymentMethod)
  {
    params := SetMember([], "page", if page.Some? then page.value else JNum(1));
    params := SetMember(params, "per_page", if perPage.Some? then perPage.value else JNum(25));
    if TruthyOpt(kind) {
      params := SetMember(params, "type", kind.value);
    }
    if TruthyOpt(paymentMethod) {
      params := SetMember(params, "payment_method", paymentMethod.value);
    }
  }

  /**
    `data.data || []` over a list response: the page's `data` member when
    truthy, else an empty list; a `null` body has no members to read and
    throws a TypeError. The result is always truthy.
  */
  function UnwrapList(data: Json): (r: Result<Json, Error>)
    ensures r.Failure? <==> data == JNull
    ensures r.Failure? ==> r.error.kind == Type
    ensures r.Success? ==> Truthy(r.value)
    ensures r.Success? && TruthyOpt(Get(data, "data")) ==> r.value == Get(data, "data").value
    ensures r.Success? && !TruthyOpt(Get(data, "data")) ==> r.value == JArr([])
  {
    if data == JNull then Failure(Error(Type, "Cannot read properties of null (reading 'data')"))
    else
      var page := Get(data, "data");
      if TruthyOpt(page) then Success(page.value) else Success(JArr([]))
  }

  /** `listCurrencies`' `data || []`: the body when truthy, else an empty list; always truthy. */
  function UnwrapCurrencies(data: Json): (r: Json)
    ensures Truthy(r)
    ensures Truthy(data) ==> r == data
    ensures !Truthy(data) ==> r == JArr([])
  {
    if Truthy(data) then data else JArr([])
  }

  /**
    `listInvoices`: the query, one GET of `/documents`, and the unwrapped page.
    `apiKey` and `exchange` stand for the store and the network.
  */
  method ListInvoices(page: Option<Json>, perPage: Option<Json>, kind: Option<Json>, paymentMethod: Option<Json>,
                      apiKey: Option<string>, exchange: Exchange)
    returns (issued: Option<RequestConfig>, result: Result<Json, Error>)
    ensures issued.Some? <==> Given(apiKey)
    ensures !Given(apiKey) ==> result == Failure(Error(Configuration, KeyNotConfigured))
    ensures issued.Some? ==> issued.value.verb == "GET" && issued.value.url == BaseUrl + "/documents"
    ensures issued.Some? ==> issued.value.params.Some? && issued.value.params.value.JObj?
    ensures issued.Some? ==> InvoiceQuery(issued.value.params.value.members, page, perPage, kind, paymentMethod)
    ensures result.Success? ==> Truthy(result.value)
    ensures Given(apiKey) && exchange.Responded? && IsSuccess(exchange.response.status) ==> result == UnwrapList(exchange.response.data)
    ensures Given(apiKey) && !(exchange.Responded? && IsSuccess(exchange.response.status)) ==> result == Failure(HandleApiError(exchange))
  {
    var params := ListInvoicesParams(page, perPage, kind, paymentMethod);
    var body;
    issued, body := ApiRequest("GET", "/documents", JNull, JObj(params), apiKey, exchange);
    if body.Failure? {
      return issued, Failure(body.error);
    }
    result := UnwrapList(body.value);
  }

  /** `sendInvoice`'s body: an object whose only member is `emails`. */
  function SendInvoiceBody(emails: Json): (body: Json)
    ensures body.JObj? && Keys(body.members) == ["emails"]
    ensures Get(body, "emails") == Some(emails)
  {
    JObj([("emails", emails)])
  }

  /** Where the two request layers part: their error kinds differ exactly on 422 and 500. */
  lemma {:induction false} LayersDisagreeOnKind(r: Response)
    ensures LibApi.InterceptError(Responded(r)).kind == HandleApiError(Responded(r)).kind <==> r.status !in {422, 500}
  {
  }

  /** Their messages for a response agree only on 401 and 404. */
  lemma {:induction false} LayersDisagreeOnMessage(r: Response)
    ensures LibApi.InterceptError(Responded(r)).message == HandleApiError(Responded(r)).message <==> r.status in {401, 404}
  {
    var lib := LibApi.InterceptError(Responded(r)).message;
    var src := HandleApiError(Responded(r)).message;
    if r.status == 403 {
      assert lib[7] != src[7];
    } else if r.status == 429 {
      RateLimitMessagesDiffer(r);
    } else if r.status == 422 || r.status == 500 {
      assert src[0] == 'A';
      assert lib[0] != 'A';
    } else if r.status !in {401, 404} {
      DefaultMessagesDiffer(r);
    }
  }

  lemma {:induction false} RateLimitMessagesDiffer(r: Response)
    requires r.status == 429
    ensures LibApi.InterceptError(Responded(r)).message[21] == 'R'
    ensures HandleApiError(Responded(r)).message[21] == 'P'
  {
  }

  /** The two default branches differ in the case of one letter: `API error` against `API Error`. */
  lemma {:induction false} DefaultMessagesDiffer(r: Response)
    requires r.status !in {401, 403, 404, 422, 429, 500}
    ensures LibApi.InterceptError(Responded(r)).message[4] == 'e'
    ensures HandleApiError(Responded(r)).message[4] == 'E'
  {
  }

  /** Neither a missing response nor a set-up failure produces the same message in both layers. */
  lemma {:induction false} LayersDisagreeWithoutResponse(message: string)
    ensures LibApi.InterceptError(NoResponse).message != HandleApiError(NoResponse).message
    ensures LibApi.InterceptError(SetupFailed(message)).message != HandleApiError(SetupFailed(message)).message
  {
    assert LibApi.NoResponseFromServer[17] == 's';
    assert NoResponseFromBillingo[17] == 'B';
    assert |LibApi.InterceptError(SetupFailed(message)).message| > |message|;
  }
}
