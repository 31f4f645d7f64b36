/**
 * The mock transport: a transport that performs no I/O. Its request
 * operation records method, path and resolved options in a comparable value;
 * its responses are built directly from a status code and an optional JSON
 * body.
 */
module Testing {
  import opened Wrappers
  import opened Identifiers
  import opened Errors
  import opened Transport
  import JsonValue
  import Http

  datatype MockTransport = MockTransport

  datatype MockRequestAccept = Json

  datatype MockRequestBody = Json(value: JsonValue.Value)

  /**
   * The request recorded by the mock transport. It has no field for the
   * attachments query.
   */
  datatype MockRequest = MockRequest(
    httpMethod: Http.Method,
    path: seq<string>,
    accept: Option<MockRequestAccept>,
    revisionQuery: Option<Revision>,
    body: Option<MockRequestBody>)

  /** The recorded form of an options' body, serialised to a JSON value. */
  function RecordedBody<B>(body: Option<RequestBody<B>>, serialize: B -> JsonValue.Value): (r: Option<MockRequestBody>)
    ensures r.None? <==> body.None?
    ensures body.Some? ==> r == Some(MockRequestBody.Json(serialize(body.value.value)))
  {
    match body
    case None => None
    case Some(Json(b)) => Some(MockRequestBody.Json(serialize(b)))
  }

  /**
   * `MockTransport::request`: always succeeds, recording the method, the path
   * segments in order, the accept choice, the revision query and the body
   * serialised by `serialize`.
   */
  function Request<B>(transport: MockTransport, m: Http.Method, path: seq<string>,
                      options: RequestOptions<B>, serialize: B -> JsonValue.Value): (r: Result<MockRequest, Error>)
    ensures r.Ok?
    ensures r.value.httpMethod == m
    ensures |r.value.path| == |path| && forall i :: 0 <= i < |path| ==> r.value.path[i] == path[i]
    ensures r.value.accept == Some(MockRequestAccept.Json) <==> options.accept == Some(RequestAccept.Json)
    ensures r.value.accept.None? <==> options.accept.None?
    ensures r.value.revisionQuery == options.revisionQuery
    ensures options.body.None? <==> r.value.body.None?
    ensures options.body.Some? ==> r.value.body == Some(MockRequestBody.Json(serialize(options.body.value.value)))
  {
    Ok(MockRequest(
         m,
         path,
         (match options.accept
          case None => None
          case Some(Json) => Some(MockRequestAccept.Json)),
         options.revisionQuery,
         RecordedBody(options.body, serialize)))
  }

  /** The mock's request operation in the shape every transport's has. */
  function MockRequestFunction<B>(serialize: B -> JsonValue.Value): RequestFunction<MockTransport, B, MockRequest>
  {
    (t, m, p, o) => Request(t, m, p, o, serialize)
  }

  /**
   * Two mock requests are equal exactly when the method, path, accept choice,
   * revision query and serialised body agree; the attachments query plays no part.
   */
  lemma RequestEqualIff<B>(t: MockTransport, m1: Http.Method, p1: seq<string>, o1: RequestOptions<B>,
                           m2: Http.Method, p2: seq<string>, o2: RequestOptions<B>, serialize: B -> JsonValue.Value)
    ensures Request(t, m1, p1, o1, serialize) == Request(t, m2, p2, o2, serialize) <==>
              m1 == m2 && p1 == p2 && o1.accept == o2.accept && o1.revisionQuery == o2.revisionQuery
              && RecordedBody(o1.body, serialize) == RecordedBody(o2.body, serialize)
  {
  }

  /** Requests whose options differ only in the attachments query are recorded as equal. */
  lemma RequestIgnoresAttachments<B>(t: MockTransport, m: Http.Method, p: seq<string>, o: RequestOptions<B>,
                                     attachments: Option<bool>, serialize: B -> JsonValue.Value)
    ensures Request(t, m, p, o.(attachmentsQuery := attachments), serialize) == Request(t, m, p, o, serialize)
  {
  }

  datatype MockResponseBody = Json(value: JsonValue.Value)

  datatype MockResponse = MockResponse(status: Http.StatusCode, body: Option<MockResponseBody>)
  {
    /** `with_json_body`: sets the body to the serialised value; the status is unchanged. */
    function WithJsonBody<B>(b: B, serialize: B -> JsonValue.Value): (r: MockResponse)
      ensures r.status == status
      ensures r.body == Some(MockResponseBody.Json(serialize(b)))
    {
      this.(body := Some(MockResponseBody.Json(serialize(b))))
    }

    /** `build_json_body`: the body is the object built by inserting the given pairs in order. */
    function BuildJsonBody(inserts: seq<(string, JsonValue.Value)>): (r: MockResponse)
      ensures r.status == status
      ensures r.body.Some? && r.body.value.value.Object?
      ensures r.body == Some(MockResponseBody.Json(JsonValue.Object(JsonValue.ObjectOfInserts(inserts))))
      ensures forall k :: k in r.body.value.value.fields <==> exists i :: 0 <= i < |inserts| && inserts[i].0 == k
    {
      WithJsonBody(JsonValue.Object(JsonValue.ObjectOfInserts(inserts)), v => v)
    }

    /** `status_code`: the status the response was built with. */
    function StatusCode(): (s: Http.StatusCode)
      ensures s == status
    {
      status
    }

    /**
     * The mock response as the action sees it: the same status, and the body
     * if one was set, else `ResponseNotJson(None)`.
     */
    function AsResponse(): (r: Response)
      ensures r.status == status
      ensures body.None? ==> r.jsonBody == Err(ResponseNotJson(None))
      ensures body.Some? ==> r.jsonBody == Ok(body.value.value)
    {
      match body
      case None => Response(status, Err(ResponseNotJson(None)))
      case Some(Json(v)) => Response(status, Ok(v))
    }

    /**
     * `decode_json_body`: a response without a body fails with
     * `ResponseNotJson(None)`; otherwise the body is decoded by `decode`, and a
     * decoding failure is wrapped as `JsonDecode`.
     */
    function DecodeJsonBody<R>(decode: JsonValue.Value -> Result<R, string>): (r: Result<R, Error>)
      ensures body.None? ==> r == Err(ResponseNotJson(None))
      ensures body.Some? ==> (decode(body.value.value).Ok? <==> r.Ok?)
      ensures body.Some? && r.Ok? ==> Ok(r.value) == decode(body.value.value)
      ensures body.Some? && r.Err? ==> r.error == JsonDecode(decode(body.value.value).error)
    {
      match body
      case None => Err(ResponseNotJson(None))
      case Some(Json(v)) =>
        match decode(v)
        case Ok(x) => Ok(x)
        case Err(cause) => Err(JsonDecode(cause))
    }
  }

  /** `MockResponse::new`: the given status and no body. */
  function NewResponse(status: Http.StatusCode): (r: MockResponse)
    ensures r.StatusCode() == status && r.body.None?
  {
    MockResponse(status, None)
  }

  /** A response built from a status and a body reports that status and decodes to that body. */
  lemma ResponseBuilderRoundTrip<B>(status: Http.StatusCode, b: B, serialize: B -> JsonValue.Value)
    ensures NewResponse(status).WithJsonBody(b, serialize).StatusCode() == status
    ensures NewResponse(status).WithJsonBody(b, serialize).DecodeJsonBody(v => Ok(v)) == Ok(serialize(b))
    ensures NewResponse(status).DecodeJsonBody(v => Ok(v)) == Err(ResponseNotJson(None))
  {
  }

  /** Decoding a mock response directly agrees with decoding it through the response contract. */
  lemma AsResponseDecodes<R>(response: MockResponse, decode: JsonValue.Value -> Result<R, string>)
    ensures DecodeJsonBody(response.AsResponse(), decode) == response.DecodeJsonBody(decode)
  {
  }
}
