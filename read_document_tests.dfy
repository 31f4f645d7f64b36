/**
 * The unit tests of the read action, stated for all inputs against the mock
 * transport and mock responses.
 */
module ReadDocumentTests {
  import opened Wrappers
  import opened Identifiers
  import opened Errors
  import opened Documents
  import opened Transport
  import opened Testing
  import opened ReadDocumentAction
  import JsonValue
  import Http

  /** The mock transport's request operation for bodiless requests. */
  function MockGet(): RequestFunction<MockTransport, (), MockRequest>
  {
    MockRequestFunction(_ => JsonValue.Null)
  }

  /**
   * Against the mock transport, reading any well-formed document path records
   * a `GET` on the path's segments with JSON accepted, the revision query
   * exactly when a revision was given, and no body; the state is the path's
   * database name.
   */
  lemma MockMakeRequest(path: DocumentPath, rev: Option<Revision>, choice: Option<AttachmentContent>)
    requires WellFormedPath(path)
    ensures MakeRequest(ReadDocument(MockTransport, PathString(path), rev, choice), MockGet())
            == Ok((MockRequest(Http.Get, path.Segments(), Some(MockRequestAccept.Json), rev, Option.None),
                   path.databaseName))
  {
    PathStringRoundTrip(path);
  }

  /** Test `make_request_default`: "/foo/bar" gives `GET ["foo", "bar"]` with JSON accepted, and "foo". */
  lemma MakeRequestDefault()
    ensures MakeRequest(New(MockTransport, "/foo/bar"), MockGet())
            == Ok((Request(MockTransport, Http.Get, ["foo", "bar"], NewRequestOptions<()>().WithAcceptJson(), _ => JsonValue.Null).value,
                   DatabaseName("foo")))
  {
    FooBarPath();
  }

  /** Test `make_request_with_revision`: the revision appears as the `rev` query. */
  lemma MakeRequestWithRevision(rev: Revision)
    ensures MakeRequest(New(MockTransport, "/foo/bar").WithRevision(rev), MockGet())
            == Ok((Request(MockTransport, Http.Get, ["foo", "bar"],
                           NewRequestOptions<()>().WithAcceptJson().WithRevisionQuery(rev), _ => JsonValue.Null).value,
                   DatabaseName("foo")))
  {
    FooBarPath();
  }

  /**
   * The mock transport records no attachments query, so whatever the attachment
   * choice the recorded request is the same: the attachment tests compare
   * values that cannot differ.
   */
  lemma MockCannotSeeAttachmentChoice(action: ReadDocument<MockTransport>, c1: Option<AttachmentContent>,
                                      c2: Option<AttachmentContent>)
    ensures MakeRequest(action.(attachmentContent := c1), MockGet())
            == MakeRequest(action.(attachmentContent := c2), MockGet())
  {
  }

  /**
   * Round trip of a successful read: a `200 OK` whose body is a document's
   * `_id`, `_rev` and fields yields that document in the carried database.
   */
  lemma TakeResponseOk(databaseName: DatabaseName, id: DocumentId, rev: Revision,
                       content: map<string, JsonValue.Value>)
    requires ReadsBackFromString(id)
    requires ID_KEY !in content && REV_KEY !in content
    ensures TakeResponse(NewResponse(Http.OK).WithJsonBody(DocumentBody(id, rev, content), v => v).AsResponse(),
                         databaseName)
            == Ok(Document(databaseName, id, rev, content))
  {
    DecodeDocumentBody(id, rev, content);
  }

  /** A `200 OK` without a body is a `ResponseNotJson(None)` error. */
  lemma TakeResponseOkWithoutBody(databaseName: DatabaseName)
    ensures TakeResponse(NewResponse(Http.OK).AsResponse(), databaseName) == Err(ResponseNotJson(Option.None))
  {
  }

  /** The fields of a server error body, inserted as the tests build it. */
  function ErrorBody(error: string, reason: string): seq<(string, JsonValue.Value)>
  {
    [("error", JsonValue.String(error)), ("reason", JsonValue.String(reason))]
  }

  /** The inserted `error` and `reason` strings reach the decoded error body verbatim. */
  lemma DecodeErrorBody(error: string, reason: string)
    ensures DecodeErrorResponse(JsonValue.Object(JsonValue.ObjectOfInserts(ErrorBody(error, reason))))
            == Ok(ErrorResponse(error, reason))
  {
  }

  /** Test `take_response_not_found`: a `404` yields `NotFound` with the body's strings verbatim. */
  lemma TakeResponseNotFound(error: string, reason: string, databaseName: DatabaseName)
    ensures TakeResponse(NewResponse(Http.NOT_FOUND).BuildJsonBody(ErrorBody(error, reason)).AsResponse(),
                         databaseName)
            == Err(NotFound(ErrorResponse(error, reason)))
  {
    DecodeErrorBody(error, reason);
  }

  /** Test `take_response_unauthorized`: a `401` yields `Unauthorized` with the body's strings verbatim. */
  lemma TakeResponseUnauthorized(error: string, reason: string, databaseName: DatabaseName)
    ensures TakeResponse(NewResponse(Http.UNAUTHORIZED).BuildJsonBody(ErrorBody(error, reason)).AsResponse(),
                         databaseName)
            == Err(Unauthorized(ErrorResponse(error, reason)))
  {
    DecodeErrorBody(error, reason);
  }

  /**
   * A status other than `200`, `404` and `401` is a `ServerResponse` error that
   * keeps the status and the JSON body.
   */
  lemma TakeResponseOtherStatus(status: Http.StatusCode, body: JsonValue.Value, databaseName: DatabaseName)
    requires status != Http.OK && status != Http.NOT_FOUND && status != Http.UNAUTHORIZED
    ensures TakeResponse(NewResponse(status).WithJsonBody(body, v => v).AsResponse(), databaseName)
            == Err(ServerResponse(status, Some(body)))
    ensures TakeResponse(NewResponse(status).AsResponse(), databaseName) == Err(ServerResponse(status, Option.None))
  {
  }
}
