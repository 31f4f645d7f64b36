/** The error surface returned to callers of an action. */
module Errors {
  import opened Wrappers
  import JsonValue
  import Http

  /** The `error` and `reason` strings a CouchDB server puts in an error body. */
  datatype ErrorResponse = ErrorResponse(error: string, reason: string)

  /** Why a string could not be resolved into a document path. */
  datatype PathParseError = NoLeadingSlash | BadShape

  datatype Error =
    | DocumentPathParse(kind: PathParseError)
    | NotFound(response: ErrorResponse)
    | Unauthorized(response: ErrorResponse)
    | Conflict(response: ErrorResponse)
    | ServerResponse(status: Http.StatusCode, body: Option<JsonValue.Value>)
    | ResponseNotJson(contentType: Option<string>)
    | JsonDecode(cause: string)
    | Transport(cause: string)

  /** Decodes a server error body: an object with string fields `error` and `reason`. */
  function DecodeErrorResponse(v: JsonValue.Value): (r: Result<ErrorResponse, string>)
    ensures r.Ok? <==>
              v.Object? && "error" in v.fields && v.fields["error"].String?
              && "reason" in v.fields && v.fields["reason"].String?
    ensures r.Ok? ==> r.value.error == v.fields["error"].str && r.value.reason == v.fields["reason"].str
  {
    match v
    case Object(fields) =>
      if "error" !in fields || !fields["error"].String? then Err("missing string field `error`")
      else if "reason" !in fields || !fields["reason"].String? then Err("missing string field `reason`")
      else Ok(ErrorResponse(fields["error"].str, fields["reason"].str))
    case _ => Err("expected a JSON object")
  }

  /**
   * `Error::not_found`: the response body decoded as an error body. A body
   * that cannot be decoded yields the decoding error instead.
   */
  function NotFoundError(decoded: Result<ErrorResponse, Error>): (e: Error)
    ensures decoded.Ok? ==> e == NotFound(decoded.value)
    ensures decoded.Err? ==> e == decoded.error
  {
    match decoded
    case Ok(response) => NotFound(response)
    case Err(e) => e
  }

  /** `Error::unauthorized`, built the same way as `NotFoundError`. */
  function UnauthorizedError(decoded: Result<ErrorResponse, Error>): (e: Error)
    ensures decoded.Ok? ==> e == Unauthorized(decoded.value)
    ensures decoded.Err? ==> e == decoded.error
  {
    match decoded
    case Ok(response) => Unauthorized(response)
    case Err(e) => e
  }

  /** `Error::server_response`: the status code, and the JSON body when there is one. */
  function ServerResponseError(status: Http.StatusCode, decoded: Result<JsonValue.Value, Error>): (e: Error)
    ensures e.ServerResponse? && e.status == status
    ensures e.body.Some? <==> decoded.Ok?
    ensures decoded.Ok? ==> e.body.value == decoded.value
  {
    match decoded
    case Ok(body) => ServerResponse(status, Some(body))
    case Err(_) => ServerResponse(status, None)
  }
}
