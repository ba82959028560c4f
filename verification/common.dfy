/** Shared vocabulary: optional values, results, UUIDs, and the JSON values
    that the request parsers hand to the serializers, with the two pieces of
    Python semantics the serializers rely on: truthiness and DRF's UUIDField. */
module Common {

  datatype Option<+T> = None | Some(value: T)

  datatype Result<+T, +E> = Ok(value: T) | Err(error: E)

  /** 2^128: a UUID is a 128-bit integer. */
  const UUID_LIMIT: int := 0x1_0000_0000_0000_0000_0000_0000_0000_0000

  type Uuid = u: int | 0 <= u < UUID_LIMIT

  /** A parsed JSON value. Numbers are integers only: JSON numbers with a
      fraction or an exponent (Python floats) are outside this model. */
  datatype Json =
    | JNull
    | JBool(b: bool)
    | JInt(i: int)
    | JStr(s: string)
    | JArr(elems: seq<Json>)
    | JObj(fields: map<string, Json>)

  /** Python's `bool(v)` for the value a JSON parser produces. */
  predicate Truthy(v: Json) {
    match v
    case JNull => false
    case JBool(b) => b
    case JInt(i) => i != 0
    case JStr(s) => s != ""
    case JArr(xs) => |xs| > 0
    case JObj(m) => |m| > 0
  }

  /** Python's `d.get(k)` on a JSON object: absent keys give None. */
  function Get(m: map<string, Json>, k: string): (r: Option<Json>)
    ensures r.Some? <==> k in m
    ensures r.Some? ==> r.value == m[k]
  {
    if k in m then Some(m[k]) else None
  }

  /** Truthiness of `d.get(k)`: an absent key reads as None, which is falsy. */
  predicate GetTruthy(m: map<string, Json>, k: string) {
    k in m && Truthy(m[k])
  }

  /** `d.get(k) is True`: only the JSON literal `true` is identical to True. */
  predicate GetIsTrue(m: map<string, Json>, k: string) {
    k in m && m[k] == JBool(true)
  }

  /** `uuid.UUID(hex=s)` from Python's standard library, which strips an
      `urn:uuid:` prefix, braces and hyphens and reads 32 hex digits through
      `int(_, 16)`. Its grammar is foreign to this model, so it is a parameter. */
  type HexUuidParser = string -> Option<Uuid>

  /** DRF's `UUIDField().to_internal_value`: a Python int (and so a bool,
      which is an int subclass) becomes `uuid.UUID(int=…)`, valid in
      [0, 2^128); a string goes through `uuid.UUID(hex=…)`; anything else is
      invalid. */
  function UuidField(v: Json, hex: HexUuidParser): (r: Option<Uuid>)
    ensures v.JInt? ==> (r.Some? <==> 0 <= v.i < UUID_LIMIT)
    ensures r.Some? && v.JInt? ==> r.value == v.i
    ensures v.JStr? ==> r == hex(v.s)
    ensures v.JNull? || v.JArr? || v.JObj? ==> r.None?
  {
    match v
    case JBool(b) => Some(if b then 1 else 0)
    case JInt(i) => if 0 <= i < UUID_LIMIT then Some(i) else None
    case JStr(s) => hex(s)
    case _ => None
  }

  /** Regrouping a concatenation, stated once for the recursive lemmas
      that peel the last element off a list. */
  lemma ConcatAssoc<T>(x: seq<T>, y: seq<T>, z: seq<T>)
    ensures (x + y) + z == x + (y + z)
  {
  }
}
