/** JSON values as the reconciler sees them: a value is what a QJsonValue
    holds, an object is a map from keys to values, and numbers are doubles
    (modelled as reals). `Undefined` is what a lookup of a missing key
    yields; it is a value of its own and compares equal only to itself.
    Unlike a QJsonObject or QJsonArray, an `Obj` or `Arr` can hold
    `Undefined` (Qt drops a key whose value is undefined), so the model tells
    apart `Obj(map["content" := Undefined])` and `Obj(map[])`, which Qt
    does not. */
module Json {

  /** The C++ `int` of the source: 32-bit two's complement. */
  const Int32Min: int := -0x8000_0000
  const Int32Max: int := 0x7fff_ffff
  type Int32 = x: int | Int32Min <= x <= Int32Max

  datatype Json =
    | Undefined
    | Null
    | Bool(b: bool)
    | Num(d: real)
    | Str(s: string)
    | Arr(items: seq<Json>)
    | Obj(fields: map<string, Json>)

  type Object = map<string, Json>

  /** QJsonObject::value: the stored value, or `Undefined` for a missing key. */
  function Value(o: Object, key: string): Json
  {
    if key in o then o[key] else Undefined
  }

  /** A double that holds a whole number representable as an `int`. */
  predicate IsInt32(d: real)
  {
    d.Floor as real == d && Int32Min <= d.Floor <= Int32Max
  }

  /** QJsonValue::toInt(default): the number when the value is a double
      holding a whole `int`, otherwise the default. */
  function ToInt(v: Json, default: Int32): (r: Int32)
    ensures v.Num? && IsInt32(v.d) ==> r as real == v.d
    ensures !(v.Num? && IsInt32(v.d)) ==> r == default
  {
    if v.Num? && IsInt32(v.d) then v.d.Floor else default
  }

  /** QJsonValue::toObject: the object, or the empty object for any other value. */
  function AsObject(v: Json): Object
  {
    if v.Obj? then v.fields else map[]
  }

  /** QJsonValue::toArray: the array, or the empty array for any other value. */
  function AsArray(v: Json): seq<Json>
  {
    if v.Arr? then v.items else []
  }

  /** QJsonValue::toString: the string, or the empty string for any other value. */
  function AsString(v: Json): string
  {
    if v.Str? then v.s else ""
  }

  /** An integral number reads back as itself whatever the default. */
  lemma ToIntOfInt(k: Int32, default: Int32)
    ensures ToInt(Num(k as real), default) == k
  {
    assert (k as real).Floor == k;
  }
}
