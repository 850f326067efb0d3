/** JSON values (RFC 8259) as Foundation's `JSONSerialization` hands them to
    Swift, and the `as?` casts the source applies to them.

    An object is its list of entries in dictionary iteration order: Swift
    leaves that order unspecified but fixed, and the model takes it as given. */
module Json {
  import opened Wrappers

  datatype Json =
    | JNull
    | JBool(b: bool)
    | JNumber(n: real)
    | JString(s: string)
    | JArray(items: seq<Json>)
    | JObject(fields: seq<(string, Json)>)

  /** No key occurs twice, as in a Swift dictionary. */
  ghost predicate DistinctKeys<V>(fields: seq<(string, V)>) {
    forall i, j :: 0 <= i < j < |fields| ==> fields[i].0 != fields[j].0
  }

  /** Dictionary subscript `d[key]`. */
  function Get<V>(fields: seq<(string, V)>, key: string): Option<V> {
    if fields == [] then None
    else if fields[0].0 == key then Some(fields[0].1)
    else Get(fields[1..], key)
  }

  /** A lookup finds nothing exactly when no entry has the key, and what it
      finds is the value of an entry with the key. */
  lemma {:induction false} GetSpec<V>(fields: seq<(string, V)>, key: string)
    ensures Get(fields, key).None? <==> forall i :: 0 <= i < |fields| ==> fields[i].0 != key
    ensures Get(fields, key).Some? ==> exists i :: 0 <= i < |fields| && fields[i] == (key, Get(fields, key).value)
  {
    if fields != [] && fields[0].0 != key {
      GetSpec(fields[1..], key);
      if Get(fields, key).Some? {
        var i :| 0 <= i < |fields[1..]| && fields[1..][i] == (key, Get(fields, key).value);
        assert fields[i + 1] == fields[1..][i];
      }
      if Get(fields, key).None? {
        forall i | 0 <= i < |fields|
          ensures fields[i].0 != key
        {
          if i > 0 {
            assert fields[i] == fields[1..][i - 1];
          }
        }
      }
    }
  }

  /** Dictionary assignment `d[key] = v`: the entry is replaced where it
      stands, or added when the key is new. */
  function Put<V>(fields: seq<(string, V)>, key: string, v: V): (r: seq<(string, V)>)
    ensures Get(r, key) == Some(v)
    ensures forall k :: k != key ==> Get(r, k) == Get(fields, k)
    ensures DistinctKeys(fields) ==> DistinctKeys(r)
  {
    if fields == [] then [(key, v)]
    else if fields[0].0 == key then
      GetSpec(fields[1..], key);
      assert DistinctKeys(fields) ==> Get(fields[1..], key).None?;
      [(key, v)] + fields[1..]
    else
      var rest := Put(fields[1..], key, v);
      GetSpec(fields[1..], fields[0].0);
      GetSpec(rest, fields[0].0);
      assert DistinctKeys(fields) ==> Get(rest, fields[0].0).None?;
      [fields[0]] + rest
  }

  /** `x as? String` */
  function AsString(j: Json): (r: Option<string>)
    ensures r.Some? <==> j.JString?
    ensures r.Some? ==> r.value == j.s
  {
    match j
    case JString(s) => Some(s)
    case _ => None
  }

  /** `x as? Double`; JSON booleans are not converted (see README). */
  function AsDouble(j: Json): (r: Option<real>)
    ensures r.Some? <==> j.JNumber?
    ensures r.Some? ==> r.value == j.n
  {
    match j
    case JNumber(n) => Some(n)
    case _ => None
  }

  /** `x as? [String: Any]` */
  function AsObject(j: Json): (r: Option<seq<(string, Json)>>)
    ensures r.Some? <==> j.JObject?
    ensures r.Some? ==> r.value == j.fields
  {
    match j
    case JObject(fields) => Some(fields)
    case _ => None
  }

  /** Every value of the entry list is an object: the inner step of
      `x as? [String: [String: Any]]`. */
  function ObjectsOf(fields: seq<(string, Json)>): (r: Option<seq<(string, seq<(string, Json)>)>>)
    ensures r.Some? <==> forall i :: 0 <= i < |fields| ==> fields[i].1.JObject?
    ensures r.Some? ==> |r.value| == |fields|
    ensures r.Some? ==> forall i :: 0 <= i < |fields| ==> r.value[i] == (fields[i].0, fields[i].1.fields)
  {
    if fields == [] then Some([])
    else match (fields[0].1, ObjectsOf(fields[1..]))
      case (JObject(inner), Some(rest)) => Some([(fields[0].0, inner)] + rest)
      case _ => None
  }

  /** Every value of the entry list is a number: the inner step of
      `x as? [String: Double]`. */
  function NumbersOf(fields: seq<(string, Json)>): (r: Option<seq<(string, real)>>)
    ensures r.Some? <==> forall i :: 0 <= i < |fields| ==> fields[i].1.JNumber?
    ensures r.Some? ==> |r.value| == |fields|
    ensures r.Some? ==> forall i :: 0 <= i < |fields| ==> r.value[i] == (fields[i].0, fields[i].1.n)
  {
    if fields == [] then Some([])
    else match (fields[0].1, NumbersOf(fields[1..]))
      case (JNumber(n), Some(rest)) => Some([(fields[0].0, n)] + rest)
      case _ => None
  }

  /** Every value is an object of numbers: the inner step of
      `x as? [String: [String: Double]]`. */
  function NumberTableOf(fields: seq<(string, Json)>): (r: Option<seq<(string, seq<(string, real)>)>>)
    ensures r.Some? <==> forall i :: 0 <= i < |fields| ==>
              fields[i].1.JObject? && NumbersOf(fields[i].1.fields).Some?
    ensures r.Some? ==> |r.value| == |fields|
    ensures r.Some? ==> forall i :: 0 <= i < |fields| ==>
              r.value[i] == (fields[i].0, NumbersOf(fields[i].1.fields).value)
  {
    if fields == [] then Some([])
    else match (fields[0].1, NumberTableOf(fields[1..]))
      case (JObject(inner), Some(rest)) =>
        (match NumbersOf(inner)
         case Some(nums) => Some([(fields[0].0, nums)] + rest)
         case None => None)
      case _ => None
  }

  /** `x as? [String: [String: Any]]` */
  function AsObjectOfObjects(j: Json): (r: Option<seq<(string, seq<(string, Json)>)>>)
    ensures r.Some? <==> j.JObject? && ObjectsOf(j.fields).Some?
  {
    match j
    case JObject(fields) => ObjectsOf(fields)
    case _ => None
  }

  /** `x as? [String: [String: Double]]` */
  function AsNumberTable(j: Json): (r: Option<seq<(string, seq<(string, real)>)>>)
    ensures r.Some? <==> j.JObject? && NumberTableOf(j.fields).Some?
  {
    match j
    case JObject(fields) => NumberTableOf(fields)
    case _ => None
  }
}
