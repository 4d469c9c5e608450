/** Parsed JSON values as the client receives them from `response.json()`,
    with the optional-chaining lookup `data?.key` the response normalisers use. */
module Json {
  import opened Wrappers

  /** A parsed JSON document. Object members are a map: the parser has
      already resolved duplicate keys, so the client only ever sees one value
      per key. Numbers are kept as reals; the client never inspects them. */
  datatype Json =
    | Null
    | Bool(b: bool)
    | Num(n: real)
    | Str(s: string)
    | Arr(items: seq<Json>)
    | Obj(members: map<string, Json>)

  /** `data?.key`: the member's value when `data` is an object holding `key`,
      and `undefined` otherwise — for a missing key, and for `null`, numbers,
      strings, booleans and arrays, none of which carries the response keys
      this client reads. A member holding JSON `null` yields `Some(Null)`. */
  function Get(data: Json, key: string): (v: Option<Json>)
    ensures v.Some? <==> data.Obj? && key in data.members
    ensures v.Some? ==> v.value == data.members[key]
  {
    if data.Obj? && key in data.members then Some(data.members[key]) else None
  }

  /** `data?.outer?.key`: a lookup one object deeper, `undefined` as soon as
      either step finds nothing. */
  function GetIn(data: Json, outer: string, key: string): (v: Option<Json>)
    ensures v.Some? <==> Get(data, outer).Some? && Get(Get(data, outer).value, key).Some?
    ensures v.Some? ==> v.value == data.members[outer].members[key]
  {
    match Get(data, outer)
    case None => None
    case Some(inner) => Get(inner, key)
  }

  /** The reference meaning of a field-by-field normaliser: an object holding
      exactly those of `keys` that `data` holds, with `data`'s values, and
      nothing else. */
  function Project(data: Json, keys: set<string>): (p: Json)
    ensures p.Obj?
    ensures p.members.Keys <= keys
    ensures forall k :: k in keys ==> Get(p, k) == Get(data, k)
  {
    Obj(map k | k in keys && Get(data, k).Some? :: Get(data, k).value)
  }
}
