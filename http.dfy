/**
  What an HTTP call can end in, the errors the CLI reports, and the step a
  command takes: issue one request, or stop before any request.
*/
module Http {
  import opened JsValues

  /** A response as the transport delivers it: status, decoded body, lower-case header names. */
  datatype Response = Response(status: int, data: Json, headers: map<string, string>)

  /**
    The outcome of sending one request: a response (of any status), a request
    that got no response (network failure, timeout), or a request that could
    not be set up at all (the transport's own error message).
  */
  datatype Exchange =
    | Responded(response: Response)
    | NoResponse
    | SetupFailed(message: string)

  /** The transport treats exactly the 2xx statuses as success. */
  predicate IsSuccess(status: int) {
    200 <= status < 300
  }

  /** The kinds of error a command can end with. */
  datatype ErrorKind =
    | Configuration   // no API key
    | Authentication  // 401
    | Authorization   // 403
    | NotFound        // 404
    | Validation      // 422
    | RateLimited     // 429
    | Server          // 5xx
    | Unclassified    // any other status
    | Transport       // request sent, no response
    | RequestSetup    // request could not be set up
    | Input           // unreadable or malformed user payload
    | Type            // a JavaScript TypeError

  /** A thrown error as the user sees it: one message. */
  datatype Error = Error(kind: ErrorKind, message: string)

  /**
    A conventional HTTP error taxonomy: 401 authentication, 403 authorization,
    404 not found, 422 validation, 429 rate limited, every 5xx a server error.
    It is a yardstick for the two classification tables of the client layers.
  */
  function Taxonomy(status: int): ErrorKind {
    if status == 401 then Authentication
    else if status == 403 then Authorization
    else if status == 404 then NotFound
    else if status == 422 then Validation
    else if status == 429 then RateLimited
    else if 500 <= status <= 599 then Server
    else Unclassified
  }

  /**
    What a command does next: send one request (its query for a GET, its
    body otherwise), or exit with a message before any request.
  */
  datatype Step =
    | Issue(verb: string, endpoint: string, payload: Json)
    | Abort(message: string)
}
