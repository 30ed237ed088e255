/**
 * JSON values as the API routes hold them after `JSON.parse`, with the
 * JavaScript semantics of property look-up, truthiness and `===`.
 */
module Json {
  import opened Wrappers

  datatype Json =
    | JNull
    | JBool(b: bool)
    | JNum(n: int)
    | JStr(s: string)
    | JList(items: seq<Json>)
    | JObject(fields: map<string, Json>)

  /** A stored entity: an object from field names to values. */
  type Record = map<string, Json>

  /** `record.key`: `None` stands for `undefined`. */
  function Get(r: Record, k: string): (v: Option<Json>)
    ensures v.Some? <==> k in r
  {
    if k in r then Some(r[k]) else None
  }

  /** JavaScript truthiness; `undefined`, `null`, `false`, `0` and `""` are falsy. */
  predicate Truthy(v: Option<Json>)
  {
    match v
    case None => false
    case Some(JNull) => false
    case Some(JBool(b)) => b
    case Some(JNum(n)) => n != 0
    case Some(JStr(s)) => s != ""
    case Some(_) => true
  }

  predicate IsPrimitive(j: Json)
  {
    !j.JList? && !j.JObject?
  }

  /**
   * `a === b` on two property values. Primitives compare by value and
   * `undefined === undefined`; arrays and objects that came out of
   * separate parses are distinct references and never equal.
   */
  predicate StrictEquals(a: Option<Json>, b: Option<Json>)
  {
    match (a, b)
    case (None, None) => true
    case (Some(x), Some(y)) => IsPrimitive(x) && x == y
    case _ => false
  }

  /** `===` against a string is plain equality with that string. */
  lemma StrictEqualsString(a: Option<Json>, s: string)
    ensures StrictEquals(a, Some(JStr(s))) <==> a == Some(JStr(s))
  {
  }

  /** `v || fallback`. */
  function Or(v: Option<Json>, fallback: Json): (r: Json)
    ensures Truthy(v) ==> Some(r) == v
    ensures !Truthy(v) ==> r == fallback
  {
    if Truthy(v) then v.value else fallback
  }

  /** `{ key: v }` as `JSON.stringify` writes it: an `undefined` value leaves the key out. */
  function OptionalField(k: string, v: Option<Json>): (r: Record)
    ensures k in r <==> v.Some?
    ensures forall x :: x in r ==> x == k
    ensures v.Some? ==> r[k] == v.value
  {
    if v.Some? then map[k := v.value] else map[]
  }

  /** The record with the given keys removed (object rest `const { a, b, ...rest } = r`). */
  function Without(r: Record, keys: set<string>): (o: Record)
    ensures forall k :: k in o <==> k in r && k !in keys
    ensures forall k :: k in o ==> o[k] == r[k]
  {
    map k | k in r && k !in keys :: r[k]
  }

  /**
   * `{ _id: id, ...body, ...server }`: the body's own `_id`, when it has one,
   * replaces the given id, and the fields the server sets after the spread
   * replace the body's.
   */
  function Spread(id: Json, body: Record, server: Record): (r: Record)
    requires "_id" !in server
    ensures r.Keys == body.Keys + server.Keys + {"_id"}
    ensures r["_id"] == Override(id, Get(body, "_id"))
    ensures forall k :: k in server ==> r[k] == server[k]
    ensures forall k :: k in body && k !in server ==> r[k] == body[k]
  {
    map["_id" := id] + body + server
  }
}
