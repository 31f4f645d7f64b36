/**
 * JSON values as produced and consumed by the serialisation library.
 * The library itself is not modelled; only the values it exchanges.
 * Numbers are modelled as unbounded integers.
 */
module JsonValue {

  datatype Value =
    | Null
    | Bool(b: bool)
    | Number(n: int)
    | String(str: string)
    | Array(items: seq<Value>)
    | Object(fields: map<string, Value>)

  /**
   * The object that an object builder yields after inserting the given
   * key/value pairs in order; inserting a key again replaces its value.
   */
  function ObjectOfInserts(inserts: seq<(string, Value)>): (m: map<string, Value>)
    ensures forall k :: k in m <==> exists i :: 0 <= i < |inserts| && inserts[i].0 == k
  {
    if |inserts| == 0 then map[]
    else
      var last := inserts[|inserts| - 1];
      var prefix := inserts[..|inserts| - 1];
      var m := ObjectOfInserts(prefix)[last.0 := last.1];
      assert forall i :: 0 <= i < |prefix| ==> prefix[i] == inserts[i];
      m
  }

  /** The value of a key in the built object is the one inserted last for that key. */
  lemma {:induction false} ObjectOfInsertsLastWins(inserts: seq<(string, Value)>, i: nat)
    requires i < |inserts|
    requires forall j :: i < j < |inserts| ==> inserts[j].0 != inserts[i].0
    ensures inserts[i].0 in ObjectOfInserts(inserts)
    ensures ObjectOfInserts(inserts)[inserts[i].0] == inserts[i].1
  {
    if i < |inserts| - 1 {
      var prefix := inserts[..|inserts| - 1];
      assert forall j :: i < j < |prefix| ==> prefix[j] == inserts[j];
      ObjectOfInsertsLastWins(prefix, i);
    }
  }
}
