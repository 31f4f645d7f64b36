/**
 * The "read document" action: phase one builds a `GET` request on the
 * document's path and carries the database name; phase two turns the
 * response and that name into a document or an error.
 */
module ReadDocumentAction {
  import opened Wrappers
  import opened Identifiers
  import opened Errors
  import opened Documents
  import opened Transport
  import JsonValue
  import Http

  /** Which attachments the server should send content for. */
  datatype AttachmentContent = None | All

  /**
   * The action: the transport it is built against, the document path (a path
   * string), and the optional revision and attachment choice.
   */
  datatype ReadDocument<T> = ReadDocument(
    transport: T,
    docPath: string,
    revision: Option<Revision>,
    attachmentContent: Option<AttachmentContent>)
  {
    /** Reads the given revision; nothing else changes. */
    function WithRevision(rev: Revision): (a: ReadDocument<T>)
      ensures a.revision == Some(rev)
      ensures a.transport == transport && a.docPath == docPath && a.attachmentContent == attachmentContent
    {
      this.(revision := Some(rev))
    }

    /** Reads with the given attachment choice; nothing else changes. */
    function WithAttachmentContent(choice: AttachmentContent): (a: ReadDocument<T>)
      ensures a.attachmentContent == Some(choice)
      ensures a.transport == transport && a.docPath == docPath && a.revision == revision
    {
      this.(attachmentContent := Some(choice))
    }
  }

  /** `ReadDocument::new`: no revision and no attachment choice. */
  function New<T>(transport: T, docPath: string): (a: ReadDocument<T>)
    ensures a.transport == transport && a.docPath == docPath
    ensures a.revision.None? && a.attachmentContent.None?
  {
    ReadDocument(transport, docPath, Option.None, Option.None)
  }

  /**
   * The options of the request: JSON accepted, the attachments query only
   * when an attachment choice was made, the revision query only when a
   * revision was given, and no body.
   */
  function RequestOptionsOf<T>(action: ReadDocument<T>): (o: RequestOptions<()>)
    ensures o.accept == Some(RequestAccept.Json)
    ensures o.attachmentsQuery.None? <==> action.attachmentContent.None?
    ensures action.attachmentContent == Some(AttachmentContent.None) ==> o.attachmentsQuery == Some(false)
    ensures action.attachmentContent == Some(AttachmentContent.All) ==> o.attachmentsQuery == Some(true)
    ensures o.revisionQuery == action.revision
    ensures o.body.None?
  {
    var options := NewRequestOptions<()>().WithAcceptJson();
    var options :=
      match action.attachmentContent
      case None => options
      case Some(None) => options.WithAttachmentsQuery(false)
      case Some(All) => options.WithAttachmentsQuery(true);
    match action.revision
    case None => options
    case Some(rev) => options.WithRevisionQuery(rev)
  }

  /**
   * `make_request`: resolves the document path and issues exactly one `GET`
   * on its segments through the transport. A path that does not resolve, or a
   * transport that cannot build the request, yields that error and no request.
   */
  function MakeRequest<T, Req>(action: ReadDocument<T>, request: RequestFunction<T, (), Req>)
    : (r: Result<(Req, DatabaseName), Error>)
    ensures IntoDocumentPath(action.docPath).Err? ==> r == Err(IntoDocumentPath(action.docPath).error)
    ensures IntoDocumentPath(action.docPath).Ok? ==>
              var path := IntoDocumentPath(action.docPath).value;
              var issued := request(action.transport, Http.Get, path.Segments(), RequestOptionsOf(action));
              && (r.Ok? <==> issued.Ok?)
              && (r.Ok? ==> r.value == (issued.value, path.databaseName))
              && (r.Err? ==> r.error == issued.error)
  {
    var options := RequestOptionsOf(action);
    match IntoDocumentPath(action.docPath)
    case Err(e) => Err(e)
    case Ok(path) =>
      match Get(request, action.transport, path.Segments(), options)
      case Err(e) => Err(e)
      case Ok(req) => Ok((req, path.databaseName))
  }

  /**
   * `take_response`: `200 OK` decodes the body as a document and places it in
   * the carried database; `404` and `401` become `NotFound` and `Unauthorized`
   * carrying the server's error body; every other status is a
   * `ServerResponse` error keeping the status and the body.
   */
  function TakeResponse(response: Response, databaseName: DatabaseName): (r: Result<Document, Error>)
    ensures r.Ok? ==> response.status == Http.OK
    // 200: a document body gives the document, in the carried database
    ensures response.status == Http.OK ==>
              (r.Ok? <==> response.jsonBody.Ok? && IsDocumentBody(response.jsonBody.value))
    ensures response.status == Http.OK && r.Ok? ==>
              var fields := response.jsonBody.value.fields;
              && r.value == NewFromDecoded(databaseName, DecodeDocument(response.jsonBody.value).value)
              && r.value.databaseName == databaseName
              && r.value.documentId.ToString() == fields[ID_KEY].str
              && r.value.revision == Revision(fields[REV_KEY].str)
              && r.value.content == fields - {ID_KEY, REV_KEY}
    ensures response.status == Http.OK && response.jsonBody.Err? ==> r == Err(response.jsonBody.error)
    ensures response.status == Http.OK && response.jsonBody.Ok? && !IsDocumentBody(response.jsonBody.value) ==>
              r == Err(JsonDecode(DecodeDocument(response.jsonBody.value).error))
    // 404 and 401: the server's error body, or the error that prevented decoding it
    ensures response.status == Http.NOT_FOUND && response.jsonBody.Ok? && DecodeErrorResponse(response.jsonBody.value).Ok? ==>
              r == Err(NotFound(DecodeErrorResponse(response.jsonBody.value).value))
    ensures response.status == Http.UNAUTHORIZED && response.jsonBody.Ok? && DecodeErrorResponse(response.jsonBody.value).Ok? ==>
              r == Err(Unauthorized(DecodeErrorResponse(response.jsonBody.value).value))
    ensures response.status in {Http.NOT_FOUND, Http.UNAUTHORIZED} && response.jsonBody.Ok?
            && DecodeErrorResponse(response.jsonBody.value).Err? ==>
              r == Err(JsonDecode(DecodeErrorResponse(response.jsonBody.value).error))
    ensures response.status in {Http.NOT_FOUND, Http.UNAUTHORIZED} && response.jsonBody.Err? ==>
              r == Err(response.jsonBody.error)
    // any other status
    ensures response.status !in {Http.OK, Http.NOT_FOUND, Http.UNAUTHORIZED} ==>
              r == Err(ServerResponse(response.status,
                                      if response.jsonBody.Ok? then Some(response.jsonBody.value) else Option.None))
  {
    var status := response.status;
    if status == Http.OK then
      match DecodeJsonBody(response, DecodeDocument)
      case Ok(decoded) => Ok(NewFromDecoded(databaseName, decoded))
      case Err(e) => Err(e)
    else if status == Http.NOT_FOUND then
      Err(NotFoundError(DecodeJsonBody(response, DecodeErrorResponse)))
    else if status == Http.UNAUTHORIZED then
      Err(UnauthorizedError(DecodeJsonBody(response, DecodeErrorResponse)))
    else
      Err(ServerResponseError(status, DecodeJsonBody(response, v => Ok(v))))
  }
}
