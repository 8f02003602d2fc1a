/**
 * JSON values. A JSON text (what json.dumps produces and json.loads reads) is
 * represented here by the value it denotes, so decoding an encoding is the identity.
 */
module Json {
  import opened Wrappers

  datatype JsonValue =
    | JNull
    | JBool(b: bool)
    | JNum(n: real)
    | JStr(s: string)
    | JArr(items: seq<JsonValue>)
    | JObj(fields: map<string, JsonValue>)

  /** A Python list of floats, as stored in a JSON-backed key-value store. */
  function Numbers(v: seq<real>): (r: seq<JsonValue>)
    ensures |r| == |v|
  {
    if v == [] then [] else [JNum(v[0])] + Numbers(v[1..])
  }

  function VectorValue(v: seq<real>): JsonValue
  {
    JArr(Numbers(v))
  }

  /** The floats of a list that holds only numbers; None when some element is not a number. */
  function AsNumbers(items: seq<JsonValue>): (r: Option<seq<real>>)
    ensures r.Some? ==> |r.value| == |items|
  {
    if items == [] then Some([])
    else match (items[0], AsNumbers(items[1..]))
      case (JNum(x), Some(rest)) => Some([x] + rest)
      case _ => None
  }

  function AsVector(j: JsonValue): Option<seq<real>>
  {
    if j.JArr? then AsNumbers(j.items) else None
  }

  lemma {:induction false} NumbersRoundTrip(v: seq<real>)
    ensures AsNumbers(Numbers(v)) == Some(v)
  {
    if v != [] {
      NumbersRoundTrip(v[1..]);
      var n := Numbers(v);
      assert n[0] == JNum(v[0]) && n[1..] == Numbers(v[1..]);
      assert [v[0]] + v[1..] == v;
    }
  }

  /** A stored embedding reads back as the same list of floats. */
  lemma VectorRoundTrip(v: seq<real>)
    ensures AsVector(VectorValue(v)) == Some(v)
  {
    NumbersRoundTrip(v);
  }
}
