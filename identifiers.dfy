/**
 * The opaque identifiers an action passes through: database names, document
 * ids, revisions and document paths, and the resolution of a path string such
 * as "/db/doc" into a database name plus the ordered URL path segments.
 */
module Identifiers {
  import opened Wrappers
  import opened Errors

  datatype DatabaseName = DatabaseName(name: string)

  /** A document revision token (for example "1-1234567890abcdef1234567890abcdef"). */
  datatype Revision = Revision(token: string)

  const DESIGN: string := "_design"
  const LOCAL: string := "_local"

  /** A document id: a normal document, a design document or a local document. */
  datatype DocumentId = Normal(name: string) | Design(name: string) | Local(name: string)
  {
    /** The path segments that follow the database name. */
    function PathSegments(): (segs: seq<string>)
      ensures 1 <= |segs| <= 2 && segs[|segs| - 1] == name
      ensures |segs| == 2 <==> !Normal?
    {
      match this
      case Normal(n) => [n]
      case Design(n) => [DESIGN, n]
      case Local(n) => [LOCAL, n]
    }

    /** The id as it appears in the `_id` field of a document body. */
    function ToString(): (s: string)
      ensures Normal? ==> s == name
      ensures Design? ==> s == "_design/" + name
      ensures Local? ==> s == "_local/" + name
    {
      match this
      case Normal(n) => n
      case Design(n) => DESIGN + "/" + n
      case Local(n) => LOCAL + "/" + n
    }
  }

  predicate HasPrefix(s: string, prefix: string)
  {
    |prefix| <= |s| && s[..|prefix|] == prefix
  }

  /** Reads a document id from its `_id` form, recognising the design and local prefixes. */
  function DocumentIdFromString(s: string): (id: DocumentId)
    ensures id.ToString() == s
  {
    var design := DESIGN + "/";
    var local := LOCAL + "/";
    if HasPrefix(s, design) then
      var id := Design(s[|design|..]);
      assert s == design + s[|design|..];
      id
    else if HasPrefix(s, local) then
      var id := Local(s[|local|..]);
      assert s == local + s[|local|..];
      id
    else
      Normal(s)
  }

  /**
   * An id whose `_id` form reads back as itself: every id except a normal one
   * whose name starts like a design or local id.
   */
  predicate ReadsBackFromString(id: DocumentId)
  {
    id.Normal? ==> !HasPrefix(id.name, DESIGN + "/") && !HasPrefix(id.name, LOCAL + "/")
  }

  /** A name that can stand as one path segment. */
  predicate IsSegment(n: string)
  {
    n != "" && '/' !in n
  }

  predicate WellFormedId(id: DocumentId)
  {
    IsSegment(id.name) && (id.Normal? ==> id.name != DESIGN && id.name != LOCAL)
  }

  /** The `_id` form of an id reads back as the same id, unless a normal name mimics a prefix. */
  lemma DocumentIdRoundTrip(id: DocumentId)
    requires ReadsBackFromString(id)
    ensures DocumentIdFromString(id.ToString()) == id
  {
    var s := id.ToString();
    match id
    case Normal(n) =>
    case Design(n) =>
      assert s[..|DESIGN + "/"|] == DESIGN + "/";
    case Local(n) =>
      assert s[..|LOCAL + "/"|] == LOCAL + "/";
      assert !HasPrefix(s, DESIGN + "/") by {
        assert s[1] == 'l';
      }
  }

  datatype DocumentPath = DocumentPath(databaseName: DatabaseName, documentId: DocumentId)
  {
    /**
     * The ordered URL path segments that `iter` yields: two for a normal
     * document (database, id), three for a design or local one (database,
     * prefix, name).
     */
    function Segments(): (segs: seq<string>)
      ensures |segs| == 2 <==> documentId.Normal?
      ensures |segs| == 2 || |segs| == 3
      ensures segs[0] == databaseName.name && segs[|segs| - 1] == documentId.name
      ensures documentId.Design? ==> segs[1] == DESIGN
      ensures documentId.Local? ==> segs[1] == LOCAL
    {
      [databaseName.name] + documentId.PathSegments()
    }
  }

  predicate WellFormedPath(p: DocumentPath)
  {
    IsSegment(p.databaseName.name) && WellFormedId(p.documentId)
  }

  /** The string form of a document path, "/db/doc" or "/db/_design/doc". */
  function PathString(p: DocumentPath): string
  {
    "/" + Join(p.Segments(), '/')
  }

  /** Splits `s` at every occurrence of `sep`. */
  function Split(s: string, sep: char): (parts: seq<string>)
    ensures |parts| >= 1
    ensures forall i :: 0 <= i < |parts| ==> sep !in parts[i]
  {
    if |s| == 0 then [""]
    else
      var rest := Split(s[1..], sep);
      if s[0] == sep then [""] + rest else [[s[0]] + rest[0]] + rest[1..]
  }

  /** Joins `parts` with `sep` between neighbours. */
  function Join(parts: seq<string>, sep: char): string
  {
    if |parts| == 0 then ""
    else if |parts| == 1 then parts[0]
    else parts[0] + [sep] + Join(parts[1..], sep)
  }

  lemma {:induction false} JoinSplit(s: string, sep: char)
    ensures Join(Split(s, sep), sep) == s
  {
    if |s| > 0 {
      var rest := Split(s[1..], sep);
      JoinSplit(s[1..], sep);
      if s[0] == sep {
        assert ([""] + rest)[1..] == rest;
      } else if |rest| > 1 {
        assert ([[s[0]] + rest[0]] + rest[1..])[1..] == rest[1..];
        assert s == [s[0]] + s[1..];
      } else {
        assert s == [s[0]] + s[1..];
      }
    }
  }

  lemma {:induction false} SplitWithoutSeparator(a: string, sep: char)
    requires sep !in a
    ensures Split(a, sep) == [a]
  {
    if |a| > 0 {
      SplitWithoutSeparator(a[1..], sep);
      assert a == [a[0]] + a[1..];
    }
  }

  lemma {:induction false} SplitAfterSeparator(a: string, t: string, sep: char)
    requires sep !in a
    ensures Split(a + [sep] + t, sep) == [a] + Split(t, sep)
  {
    var s := a + [sep] + t;
    if |a| == 0 {
      assert s[1..] == t;
    } else {
      assert s[1..] == a[1..] + [sep] + t;
      SplitAfterSeparator(a[1..], t, sep);
      assert [a[0]] + a[1..] == a;
    }
  }

  lemma {:induction false} SplitJoin(parts: seq<string>, sep: char)
    requires |parts| >= 1
    requires forall i :: 0 <= i < |parts| ==> sep !in parts[i]
    ensures Split(Join(parts, sep), sep) == parts
  {
    if |parts| == 1 {
      SplitWithoutSeparator(parts[0], sep);
    } else {
      SplitJoin(parts[1..], sep);
      SplitAfterSeparator(parts[0], Join(parts[1..], sep), sep);
      assert [parts[0]] + parts[1..] == parts;
    }
  }

  /** Reads a document path from its segments, when they have one of the three shapes. */
  function PathFromSegments(segs: seq<string>): (r: Result<DocumentPath, Error>)
    ensures r.Ok? ==> r.value.Segments() == segs
    ensures r.Err? ==> r.error == DocumentPathParse(BadShape)
  {
    if |segs| == 2 && segs[0] != "" && segs[1] != "" && segs[1] != DESIGN && segs[1] != LOCAL then
      Ok(DocumentPath(DatabaseName(segs[0]), Normal(segs[1])))
    else if |segs| == 3 && segs[0] != "" && segs[1] == DESIGN && segs[2] != "" then
      Ok(DocumentPath(DatabaseName(segs[0]), Design(segs[2])))
    else if |segs| == 3 && segs[0] != "" && segs[1] == LOCAL && segs[2] != "" then
      Ok(DocumentPath(DatabaseName(segs[0]), Local(segs[2])))
    else
      Err(DocumentPathParse(BadShape))
  }

  /**
   * `into_document_path` for a path string: a leading slash, then the database
   * name and the document id separated by slashes. A resolved path renders
   * back to exactly the input string.
   */
  function IntoDocumentPath(s: string): (r: Result<DocumentPath, Error>)
    ensures r.Ok? ==> WellFormedPath(r.value) && PathString(r.value) == s
    ensures r.Err? ==> r.error.DocumentPathParse?
    ensures (|s| == 0 || s[0] != '/') ==> r == Err(DocumentPathParse(NoLeadingSlash))
  {
    if |s| == 0 || s[0] != '/' then Err(DocumentPathParse(NoLeadingSlash))
    else
      var segs := Split(s[1..], '/');
      var r := PathFromSegments(segs);
      JoinSplit(s[1..], '/');
      assert s == "/" + s[1..];
      r
  }

  /** Every well-formed document path is resolved from its own string form. */
  lemma PathStringRoundTrip(p: DocumentPath)
    requires WellFormedPath(p)
    ensures IntoDocumentPath(PathString(p)) == Ok(p)
  {
    var segs := p.Segments();
    var s := PathString(p);
    assert s[1..] == Join(segs, '/');
    SplitJoin(segs, '/');
  }

  /** The path of the unit tests: "/foo/bar" is database "foo", document "bar". */
  lemma FooBarPath()
    ensures IntoDocumentPath("/foo/bar") == Ok(DocumentPath(DatabaseName("foo"), Normal("bar")))
    ensures IntoDocumentPath("/foo/bar").value.Segments() == ["foo", "bar"]
  {
    var p := DocumentPath(DatabaseName("foo"), Normal("bar"));
    assert PathString(p) == "/foo/bar";
    PathStringRoundTrip(p);
  }
}
