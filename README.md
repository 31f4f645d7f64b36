# Reading a CouchDB document through a pluggable transport

A model of the core of the chill CouchDB client: the two-phase "read document"
action and the in-memory mock transport that its unit tests are written against.

- Phase one, `make_request`, encodes the action (document path, optional
  revision, optional attachment choice) into request options, resolves the
  document path into a database name and ordered path segments, and issues
  exactly one `GET` through the transport. It returns the transport's request
  together with the database name as the state carried to phase two.
- Phase two, `take_response`, dispatches on the response status: `200 OK`
  decodes a document body and places it in the carried database, `404` and
  `401` become `NotFound` and `Unauthorized` errors carrying the server's
  `error`/`reason` strings, and every other status becomes a `ServerResponse`
  error.
- The mock transport records each request as a comparable value (method, path,
  accept choice, revision query, serialised body), and mock responses are built
  from a status code and an optional JSON body.

Everything in the source is expression-level (`let` rebindings, `match`,
builder setters that return an updated value), so the model is made of
datatypes, functions and lemmas.

Modules, one per concern:

| file | module | models |
|---|---|---|
| wrappers.dfy | `Wrappers` | `Option`, `Result` |
| json_value.dfy | `JsonValue` | JSON values; the object builder's insert sequence |
| http.dfy | `Http` | request methods; 16-bit status codes with `OK`, `UNAUTHORIZED`, `NOT_FOUND` |
| errors.dfy | `Errors` | the error surface; decoding a server error body |
| identifiers.dfy | `Identifiers` | database names, revisions, document ids, document paths and their resolution from a path string |
| documents.dfy | `Documents` | documents and the decoding of a document body |
| transport.dfy | `Transport` | request options, the shape of a transport's request operation, and the response contract |
| testing.dfy | `Testing` | `src/transport/testing.rs`: mock transport, request and response |
| read_document.dfy | `ReadDocumentAction` | `src/action/read_document.rs` |
| read_document_tests.dfy | `ReadDocumentTests` | the unit tests of `src/action/read_document.rs`, over the mock |

How the Rust generics are represented:

- The action is generic over its transport `T: Transport`. In the model the
  action holds a transport value of type `T`. `MakeRequest` receives the
  transport's request operation as a function
  `(T, Method, seq<string>, RequestOptions<B>) -> Result<Req, Error>`.
- Because `MakeRequest` takes any request function, its contract can state that
  a transport failure is passed through unchanged. For the mock the function is
  `Testing.MockRequestFunction`, which never fails.
- `decode_json_body<B>` takes the decoder for the target type as a function.
  `with_json_body<B>` and the request body take the serialiser as a function.
- `take_response` is generic over `R: Response`. In the model it takes a
  `Transport.Response`: a status code plus the body as a JSON value, or the
  error that prevents reading the body. `Transport.DecodeJsonBody` decodes that
  value into the caller's type.
- `Testing.MockResponse.AsResponse` is how a mock response meets this
  contract. `Testing.AsResponseDecodes` proves that decoding through the
  contract agrees with the mock's own `decode_json_body`. The action module
  does not depend on the mock; the unit tests live in `ReadDocumentTests`.

## Model

| member | source | states |
|---|---|---|
| ReadDocumentAction.New | src/action/read_document.rs:68-75 | a new action keeps the transport and path and has no revision and no attachment choice |
| ReadDocumentAction.ReadDocument.WithRevision | src/action/read_document.rs:82-85 | sets the revision and leaves transport, path and attachment choice unchanged |
| ReadDocumentAction.ReadDocument.WithAttachmentContent | src/action/read_document.rs:93-96 | sets the attachment choice and leaves transport, path and revision unchanged |
| ReadDocumentAction.RequestOptionsOf | src/action/read_document.rs:112-123 | options always accept JSON; `attachments` is false for `None`, true for `All`, absent when unset; the revision query is exactly the action's revision; no body |
| ReadDocumentAction.MakeRequest | src/action/read_document.rs:110-129 | a path that fails to resolve gives that error; otherwise the result is exactly the transport's `GET` on the path's segments with the action's options: either its error, or its request paired with the path's database name |
| ReadDocumentTests.MockMakeRequest | src/action/read_document.rs:171-236 | for every well-formed path, revision and attachment choice, the mock records `GET`, the path's segments, JSON accept, the given revision query and no body, and the state is the database name |
| ReadDocumentTests.MakeRequestDefault | src/action/read_document.rs:171-184 | "/foo/bar" with no modifiers equals the mock `GET ["foo","bar"]` with only JSON accept, and state "foo" |
| ReadDocumentTests.MakeRequestWithRevision | src/action/read_document.rs:186-200 | with a revision, the request equals the mock `GET ["foo","bar"]` with JSON accept and that revision query |
| ReadDocumentTests.MockCannotSeeAttachmentChoice | src/action/read_document.rs:202-236 | against the mock, any two attachment choices give equal results, so the attachment tests cannot tell `false`, `true` and unset apart |
| ReadDocumentAction.TakeResponse | src/action/read_document.rs:131-143 | only a `200` succeeds. For `200`: it succeeds iff the body is a document body, and then the document is in the carried database with id rendering as `_id`, revision `_rev` and content the other fields; an unreadable body gives its error; a non-document body gives `JsonDecode` with the document decoder's cause. For `404`/`401`: `NotFound`/`Unauthorized` of the decoded error body, else the body or decoding error. Any other status: `ServerResponse` with that status and the body, or none |
| ReadDocumentTests.TakeResponseOk | src/action/read_document.rs:238-262 | for every id whose `_id` form reads back (all but a normal name starting like a design or local id), a `200` whose body is the id, revision and fields yields that document, in the carried database, with content equal to the other fields |
| ReadDocumentTests.TakeResponseOkWithoutBody | src/action/read_document.rs:135-136 | a `200` without a body fails with `ResponseNotJson(None)` |
| ReadDocumentTests.DecodeErrorBody | src/action/read_document.rs:268-271 | an error body built from `error` and `reason` decodes to those two strings verbatim |
| ReadDocumentTests.TakeResponseNotFound | src/action/read_document.rs:264-278 | a `404` with an `error`/`reason` body yields `NotFound` carrying both strings verbatim |
| ReadDocumentTests.TakeResponseUnauthorized | src/action/read_document.rs:280-294 | a `401` with an `error`/`reason` body yields `Unauthorized` carrying both strings verbatim |
| ReadDocumentTests.TakeResponseOtherStatus | src/action/read_document.rs:141 | any other status yields `ServerResponse` with that status and the JSON body, or no body when none was set |
| Testing.Request | src/transport/testing.rs:27-50 | always `Ok`; the recorded method is the given one; the path is the given segments in order; accept is JSON iff the options accept JSON and absent iff absent; the revision query is copied; the body is the serialised options body, absent iff absent |
| Testing.RecordedBody | src/transport/testing.rs:43-48 | no options body records no body; a JSON body is recorded as its serialised value |
| Testing.RequestEqualIff | src/transport/testing.rs:35-49 | two recorded requests are equal iff method, path, accept, revision query and serialised body agree |
| Testing.RequestIgnoresAttachments | src/transport/testing.rs:99-106 | options that differ only in the attachments query are recorded as equal requests |
| Testing.NewResponse | src/transport/testing.rs:65-70 | a new response has the given status and no body |
| Testing.MockResponse.WithJsonBody | src/transport/testing.rs:72-75 | sets the body to the serialised value and keeps the status |
| Testing.MockResponse.BuildJsonBody | src/transport/testing.rs:77-81 | keeps the status; the body is the object built from the inserts in order, whose keys are exactly the inserted keys and whose values are the last inserted for each key |
| Testing.MockResponse.StatusCode | src/transport/testing.rs:85-87 | returns the status the response was built with |
| Testing.MockResponse.DecodeJsonBody | src/transport/testing.rs:89-96 | no body gives `ResponseNotJson(None)`; with a body it succeeds iff the decoder does, with the decoder's value, and a decoder failure is wrapped as `JsonDecode` with its cause |
| Testing.MockResponse.AsResponse | src/transport/testing.rs:84-96 | the mock response seen through the response contract: the same status, and the body, or `ResponseNotJson(None)` when none was set |
| Testing.AsResponseDecodes | src/transport/testing.rs:89-96 | decoding a mock response through the response contract equals its own `decode_json_body` |
| Testing.ResponseBuilderRoundTrip | src/transport/testing.rs:65-96 | a response built with a status and a body reports that status and decodes to the serialised body; without a body it decodes to `ResponseNotJson(None)` |
| JsonValue.ObjectOfInserts | src/transport/testing.rs:77-81 | the built object has a key iff some insert used it |
| JsonValue.ObjectOfInsertsLastWins | src/transport/testing.rs:77-81 | a key's value is the one inserted last for that key |
| Transport.NewRequestOptions | src/action/read_document.rs:112 | new options have no accept, no revision query, no attachments query and no body |
| Transport.RequestOptions.WithAcceptJson | src/action/read_document.rs:112 | sets accept to JSON and changes no other field |
| Transport.RequestOptions.WithAttachmentsQuery | src/action/read_document.rs:116-117 | sets the attachments query and changes no other field |
| Transport.RequestOptions.WithRevisionQuery | src/action/read_document.rs:122 | sets the revision query and changes no other field |
| Transport.RequestOptions.WithJsonBody | src/transport/testing.rs:43-48 | sets the JSON body and changes no other field |
| Transport.SettersCommute | src/action/read_document.rs:112-123 | setters of different fields commute, so the order of the builder chain does not matter |
| Transport.Get | src/action/read_document.rs:127 | `get` is the transport's request operation with the `GET` method |
| Transport.DecodeJsonBody | src/action/read_document.rs:136 | an unreadable body gives its error; otherwise it succeeds iff the decoder does, with its value, and a decoder failure is wrapped as `JsonDecode` |
| Identifiers.IntoDocumentPath | src/action/read_document.rs:125-126 | a resolved path is well formed and renders back to exactly the input string; an input without a leading slash fails with `NoLeadingSlash`; every failure is a path-parse error |
| Identifiers.PathStringRoundTrip | src/action/read_document.rs:125-127 | every well-formed path resolves from its own string form |
| Identifiers.FooBarPath | src/action/read_document.rs:176-180 | "/foo/bar" resolves to database "foo" and document "bar", with segments `["foo","bar"]` |
| Identifiers.DocumentPath.Segments | src/action/read_document.rs:126-127 | the segments start with the database name and end with the document name; two for a normal document, three with `_design` or `_local` in between otherwise |
| Identifiers.DocumentId.ToString | src/action/read_document.rs:244 | the `_id` form of an id: the name alone for a normal id, `_design/` or `_local/` followed by the name otherwise |
| Identifiers.DocumentIdFromString | src/action/read_document.rs:136-137 | reading an `_id` string and writing it back gives the same string |
| Identifiers.DocumentIdRoundTrip | src/action/read_document.rs:241-244 | every id except a normal name starting with `_design/` or `_local/` reads back as itself from its `_id` form, including empty names and names containing `/` |
| Documents.DecodeDocument | src/action/read_document.rs:136 | succeeds iff the body is an object with string `_id` and `_rev`; the id and revision come from those fields, and the content is every other field with its value |
| Documents.DecodeDocumentBody | src/action/read_document.rs:136-137 | decoding the body of a document gives back its id, revision and content, for every id whose `_id` form reads back |
| Documents.NewFromDecoded | src/action/read_document.rs:137 | the document lies in the given database and keeps the decoded id, revision and content |
| Errors.DecodeErrorResponse | src/action/read_document.rs:139-140 | succeeds iff the body is an object with string `error` and `reason`, and then keeps both strings verbatim |
| Errors.NotFoundError | src/action/read_document.rs:139 | `NotFound` of the decoded error body, or the decoding error when the body could not be decoded |
| Errors.UnauthorizedError | src/action/read_document.rs:140 | `Unauthorized` of the decoded error body, or the decoding error when the body could not be decoded |
| Errors.ServerResponseError | src/action/read_document.rs:141 | `ServerResponse` with the given status, holding the JSON body exactly when it could be read |

## Left out

- `ReadDocument::run` and the production transport's `exec_sync` (src/action/read_document.rs:99-104) are left out: they perform network I/O. For the same reason the model has no pipeline that runs phase one, executes the request and then runs phase two.
- The doc-test example at src/action/read_document.rs:33-57 is left out because it needs a live fake server.
- The production transport and its response type are not part of this model. Responses are seen only through the response contract, which the mock response meets.
- src/transport/mod.rs only declares traits, and it uses different names (`create_request`/`handle_response`, `RequestMaker`, `json_decode_content`). The model uses the names from the action and the mock.
- The JSON library is modelled only through its values. Serialisation and decoding into a caller-chosen type are function parameters. Numbers are unbounded integers, so floating-point numbers are not modelled.
- `RequestOptions` is reconstructed from how the action and the mock use it, because its definition is not part of this model. Calling a setter twice simply overwrites the field.
- `IntoDocumentPath` is modelled only for path strings, and it is reconstructed. It accepts `/db/doc`, `/db/_design/name` and `/db/_local/name` with non-empty segments and rejects everything else. Other implementors (tuples, ready-made paths) and percent-decoding are not modelled.
- `Revision::parse` is not modelled: a revision is an opaque token, and any `_rev` string is accepted unchanged.
- The decodable document shape is reconstructed. Its content is every field other than `_id` and `_rev`. Special fields such as `_attachments` and `_deleted` are not modelled.
- `Error::not_found`, `Error::unauthorized` and `Error::server_response` are reconstructed. The first two decode the body as `{error, reason}` and return the decoding error when that fails. The third keeps the status and the body decoded as JSON, or no body if that decoding fails. The generic `ServerResponse` error keeps the decoded JSON body, not the raw bytes.
- The status code is a 16-bit number, and hyper's named status variants are represented by their numeric codes.
- Consuming the action by value (Rust moves), lifetimes and borrowing have no counterpart. Dafny values are immutable, so reuse is harmless in the model. `Debug` and `PartialEq` derives become datatype equality.
- Phase one is deterministic because `MakeRequest` is a function: equal actions give equal requests. No separate lemma states this.
