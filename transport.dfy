/**
 * The transport seam: request options, the description of an HTTP request's
 * intent that does not depend on any transport, and the shape of a
 * transport's request operation.
 */
module Transport {
  import opened Wrappers
  import opened Identifiers
  import opened Errors
  import JsonValue
  import Http

  datatype RequestAccept = Json

  datatype RequestBody<B> = Json(value: B)

  /**
   * Options of one request. An absent field means the corresponding header,
   * query parameter or body is omitted.
   */
  datatype RequestOptions<B> = RequestOptions(
    accept: Option<RequestAccept>,
    revisionQuery: Option<Revision>,
    attachmentsQuery: Option<bool>,
    body: Option<RequestBody<B>>)
  {
    function WithAcceptJson(): (o: RequestOptions<B>)
      ensures o.accept == Some(RequestAccept.Json)
      ensures o.revisionQuery == revisionQuery && o.attachmentsQuery == attachmentsQuery && o.body == body
    {
      this.(accept := Some(RequestAccept.Json))
    }

    function WithRevisionQuery(rev: Revision): (o: RequestOptions<B>)
      ensures o.revisionQuery == Some(rev)
      ensures o.accept == accept && o.attachmentsQuery == attachmentsQuery && o.body == body
    {
      this.(revisionQuery := Some(rev))
    }

    function WithAttachmentsQuery(attachments: bool): (o: RequestOptions<B>)
      ensures o.attachmentsQuery == Some(attachments)
      ensures o.accept == accept && o.revisionQuery == revisionQuery && o.body == body
    {
      this.(attachmentsQuery := Some(attachments))
    }

    function WithJsonBody(b: B): (o: RequestOptions<B>)
      ensures o.body == Some(RequestBody.Json(b))
      ensures o.accept == accept && o.revisionQuery == revisionQuery && o.attachmentsQuery == attachmentsQuery
    {
      this.(body := Some(RequestBody.Json(b)))
    }
  }

  /** `RequestOptions::new()`: no header, no query parameter, no body. */
  function NewRequestOptions<B>(): (o: RequestOptions<B>)
    ensures o.accept.None? && o.revisionQuery.None? && o.attachmentsQuery.None? && o.body.None?
  {
    RequestOptions(None, None, None, None)
  }

  /** Setters on distinct fields commute: the order of a builder chain does not matter. */
  lemma SettersCommute<B>(o: RequestOptions<B>, rev: Revision, attachments: bool, b: B)
    ensures o.WithAcceptJson().WithRevisionQuery(rev) == o.WithRevisionQuery(rev).WithAcceptJson()
    ensures o.WithAcceptJson().WithAttachmentsQuery(attachments) == o.WithAttachmentsQuery(attachments).WithAcceptJson()
    ensures o.WithRevisionQuery(rev).WithAttachmentsQuery(attachments) == o.WithAttachmentsQuery(attachments).WithRevisionQuery(rev)
    ensures o.WithJsonBody(b).WithAcceptJson() == o.WithAcceptJson().WithJsonBody(b)
    ensures o.WithJsonBody(b).WithRevisionQuery(rev) == o.WithRevisionQuery(rev).WithJsonBody(b)
    ensures o.WithJsonBody(b).WithAttachmentsQuery(attachments) == o.WithAttachmentsQuery(attachments).WithJsonBody(b)
  {
  }

  /**
   * A transport's request operation, applied to the transport `T` itself:
   * method, ordered path segments and options in; a transport-specific
   * request `Req`, or the error that prevented building it, out.
   */
  type RequestFunction<!T, !B, Req> = (T, Http.Method, seq<string>, RequestOptions<B>) -> Result<Req, Error>

  /** `Transport::get`: the request operation with the `GET` method. */
  function Get<T, B, Req>(request: RequestFunction<T, B, Req>, transport: T, path: seq<string>,
                          options: RequestOptions<B>): (r: Result<Req, Error>)
    ensures r == request(transport, Http.Get, path, options)
  {
    request(transport, Http.Get, path, options)
  }

  /**
   * What an action reads from a transport's response: the status code, and
   * the body as a JSON value or the error that prevents reading one.
   */
  datatype Response = Response(status: Http.StatusCode, jsonBody: Result<JsonValue.Value, Error>)

  /**
   * `Response::decode_json_body`: the body decoded by `decode` into the
   * caller's type. A body that cannot be read gives its error; a decoding
   * failure is wrapped as `JsonDecode`.
   */
  function DecodeJsonBody<R>(response: Response, decode: JsonValue.Value -> Result<R, string>): (r: Result<R, Error>)
    ensures response.jsonBody.Err? ==> r == Err(response.jsonBody.error)
    ensures response.jsonBody.Ok? ==> (r.Ok? <==> decode(response.jsonBody.value).Ok?)
    ensures response.jsonBody.Ok? && r.Ok? ==> Ok(r.value) == decode(response.jsonBody.value)
    ensures response.jsonBody.Ok? && r.Err? ==> r.error == JsonDecode(decode(response.jsonBody.value).error)
  {
    match response.jsonBody
    case Err(e) => Err(e)
    case Ok(v) =>
      match decode(v)
      case Ok(x) => Ok(x)
      case Err(cause) => Err(JsonDecode(cause))
  }
}
