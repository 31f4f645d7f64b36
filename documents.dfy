/**
 * Documents as the read action returns them, and the decoding of a document
 * body: the `_id` and `_rev` fields identify the document, every other field
 * is its content.
 */
module Documents {
  import opened Wrappers
  import opened Identifiers
  import JsonValue

  const ID_KEY: string := "_id"
  const REV_KEY: string := "_rev"

  datatype Document = Document(
    databaseName: DatabaseName,
    documentId: DocumentId,
    revision: Revision,
    content: map<string, JsonValue.Value>)

  /** A document body as decoded from JSON, before it is tied to a database. */
  datatype DecodedDocument = DecodedDocument(
    id: DocumentId,
    rev: Revision,
    content: map<string, JsonValue.Value>)

  /** A decoded document body: an object whose `_id` and `_rev` fields are strings. */
  predicate IsDocumentBody(v: JsonValue.Value)
  {
    v.Object?
    && ID_KEY in v.fields && v.fields[ID_KEY].String?
    && REV_KEY in v.fields && v.fields[REV_KEY].String?
  }

  function DecodeDocument(v: JsonValue.Value): (r: Result<DecodedDocument, string>)
    ensures r.Ok? <==> IsDocumentBody(v)
    ensures r.Ok? ==> r.value.id.ToString() == v.fields[ID_KEY].str
    ensures r.Ok? ==> r.value.rev == Revision(v.fields[REV_KEY].str)
    ensures r.Ok? ==> r.value.content.Keys == v.fields.Keys - {ID_KEY, REV_KEY}
    ensures r.Ok? ==> forall k :: k in r.value.content ==> r.value.content[k] == v.fields[k]
  {
    match v
    case Object(fields) =>
      if ID_KEY !in fields || !fields[ID_KEY].String? then Err("missing string field `_id`")
      else if REV_KEY !in fields || !fields[REV_KEY].String? then Err("missing string field `_rev`")
      else
        Ok(DecodedDocument(
             DocumentIdFromString(fields[ID_KEY].str),
             Revision(fields[REV_KEY].str),
             fields - {ID_KEY, REV_KEY}))
    case _ => Err("expected a JSON object")
  }

  /** `Document::new_from_decoded`: a decoded body placed in the database it was read from. */
  function NewFromDecoded(databaseName: DatabaseName, decoded: DecodedDocument): (d: Document)
    ensures d.databaseName == databaseName
    ensures d.documentId == decoded.id && d.revision == decoded.rev && d.content == decoded.content
  {
    Document(databaseName, decoded.id, decoded.rev, decoded.content)
  }

  /** The body a server sends for a document: its content plus `_id` and `_rev`. */
  function DocumentBody(id: DocumentId, rev: Revision, content: map<string, JsonValue.Value>): JsonValue.Value
  {
    JsonValue.Object(content[ID_KEY := JsonValue.String(id.ToString())][REV_KEY := JsonValue.String(rev.token)])
  }

  /** Decoding the body of a document gives back its id, revision and content. */
  lemma DecodeDocumentBody(id: DocumentId, rev: Revision, content: map<string, JsonValue.Value>)
    requires ReadsBackFromString(id)
    requires ID_KEY !in content && REV_KEY !in content
    ensures DecodeDocument(DocumentBody(id, rev, content)) == Ok(DecodedDocument(id, rev, content))
  {
    var fields := DocumentBody(id, rev, content).fields;
    assert fields - {ID_KEY, REV_KEY} == content;
    DocumentIdRoundTrip(id);
  }
}
