/**
 * An abstract JSON document, standing for JsonCpp's `Json::Value`, and the
 * few accessors of it that the gateway uses. JSON text is never parsed or
 * printed here: the codec is a pair of oracles supplied by the caller.
 */
module Json {
  import opened Wrappers

  /** The range of C++ `int`, which `Json::Value::asInt` returns. */
  type Int32 = x: int | -0x8000_0000 <= x < 0x8000_0000

  datatype Json =
    | Null
    | Int(n: Int32)
    | Str(s: string)
    | Arr(elems: seq<Json>)
    | Obj(members: map<string, Json>)

  /** `Json::Reader::parse` (None when the text does not parse) and `Json::FastWriter::write`. */
  datatype Codec = Codec(parse: string -> Option<Json>, write: Json -> string)

  /**
   * `v.isMember(key)`: true only for an object holding `key`. JsonCpp answers
   * false for null and asserts for arrays, numbers and strings; the model
   * answers false for those too.
   */
  predicate IsMember(v: Json, key: string)
  {
    v.Obj? && key in v.members
  }

  /** `v[key]`: the member, or a null value when there is none. */
  function Member(v: Json, key: string): Json
  {
    if IsMember(v, key) then v.members[key] else Null
  }

  /** `asInt()` on a well-typed member; null and wrongly typed values read as 0. */
  function AsInt(v: Json): Int32
  {
    if v.Int? then v.n else 0
  }

  /** `asString()` on a well-typed member; null and wrongly typed values read as "". */
  function AsString(v: Json): string
  {
    if v.Str? then v.s else ""
  }

  /**
   * `isArray()`. Whether a null value counts as an array differs between
   * JsonCpp releases, so the caller says which behaviour it assumes.
   */
  predicate IsArray(v: Json, nullIsArray: bool)
  {
    v.Arr? || (v.Null? && nullIsArray)
  }

  /** The elements `rooms[0] .. rooms[rooms.size() - 1]`; a null value has size 0. */
  function Items(v: Json): seq<Json>
  {
    if v.Arr? then v.elems else []
  }
}
