/** The JSON values the pipeline passes around, as Python holds them after
    `json.loads`: a dict keeps its keys in insertion order, so an object is
    a sequence of (key, value) pairs. */
module JsonValue {
  import opened Monad
  import opened Text

  datatype Json =
    | JNull
    | JBool(b: bool)
    | JNumber(n: int)
    | JString(s: string)
    | JArray(items: seq<Json>)
    | JObject(fields: seq<(string, Json)>)

  type Fields = seq<(string, Json)>

  /** The keys of a dict, in order. */
  function Keys(fields: Fields): (ks: seq<string>)
    ensures |ks| == |fields|
    ensures forall i :: 0 <= i < |fields| ==> ks[i] == fields[i].0
  {
    seq(|fields|, i requires 0 <= i < |fields| => fields[i].0)
  }

  /** `d.get(key)`: the value stored under `key`. */
  function Get(fields: Fields, key: string): (r: Option<Json>)
    ensures r.None? <==> key !in Keys(fields)
    ensures r.Some? ==> exists i :: 0 <= i < |fields| && fields[i] == (key, r.value)
  {
    match IndexOf(Keys(fields), key)
    case None => None
    case Some(i) => Some(fields[i].1)
  }

  /** `{**d, key: v}`: an existing key keeps its place and takes the new
      value; a new key goes at the end. */
  function Put(fields: Fields, key: string, v: Json): (r: Fields)
    ensures key in Keys(fields) ==> Keys(r) == Keys(fields)
    ensures key !in Keys(fields) ==> Keys(r) == Keys(fields) + [key]
    ensures Get(r, key) == Some(v)
    ensures forall k :: k != key ==> Get(r, k) == Get(fields, k)
  {
    match IndexOf(Keys(fields), key)
    case Some(i) =>
      var r := fields[i := (key, v)];
      assert Keys(r) == Keys(fields);
      r
    case None =>
      var r := fields + [(key, v)];
      assert Keys(r) == Keys(fields) + [key];
      assert forall k :: k != key && k in Keys(fields) ==>
        IndexOf(Keys(r), k) == IndexOf(Keys(fields), k) by {
        forall k | k != key && k in Keys(fields)
          ensures IndexOf(Keys(r), k) == IndexOf(Keys(fields), k)
        {
          var j := IndexOf(Keys(fields), k).value;
          assert Keys(r)[..j] == Keys(fields)[..j];
          FirstIndexIs(Keys(r), k, j);
        }
      }
      r
  }

  /** `obj[key]` in Python: a dict without `key` raises KeyError, and a
      list, string, number, bool or None raises TypeError. */
  function Subscript(v: Json, key: string): (r: Either<Json>)
    ensures r.Right? <==> v.JObject? && key in Keys(v.fields)
    ensures r.Right? ==> Get(v.fields, key) == Some(r.value)
    ensures v.JObject? && key !in Keys(v.fields) ==> r == Left(KeyError(key))
    ensures !v.JObject? ==> r == Left(TypeError)
  {
    match v
    case JObject(fields) =>
      (match Get(fields, key)
       case Some(x) => Right(x)
       case None => Left(KeyError(key)))
    case _ => Left(TypeError)
  }

  /** pydash `get(obj, key, default)` for one plain key: the value when `obj`
      is a dict holding `key`, `default` otherwise. */
  function GetOr(v: Json, key: string, default: Json): (r: Json)
    ensures v.JObject? && key in Keys(v.fields) ==> Get(v.fields, key) == Some(r)
    ensures !(v.JObject? && key in Keys(v.fields)) ==> r == default
  {
    match v
    case JObject(fields) =>
      (match Get(fields, key)
       case Some(x) => x
       case None => default)
    case _ => default
  }
}
