/** Go values as the launcher sees them: `any`, JSON documents and the small
    wrapper types used throughout. A Go string is a byte sequence; here every
    `char` of a `string` stands for one byte, so `|s|` is Go's `len(s)`. */
module Values {

  datatype Option<+T> = None | Some(value: T)

  datatype Result<+T, +E> = Ok(value: T) | Err(error: E)

  datatype IntKind = GoInt | GoInt32 | GoInt64

  /** `Fields` is `map[string]any`. */
  type Fields = map<string, Value>

  /** A dynamic Go value. Values decoded from JSON use only Nil, Bool, Str, Float64,
      List and Object; the other constructors are the Go types that the launcher's
      type switches tell apart from those. */
  datatype Value =
    | Nil
    | Bool(b: bool)
    | Str(s: string)
    | Float64(f: real)
    | Float32(f32: real)
    | Int(kind: IntKind, n: int)
    | List(items: seq<Value>)
    | Strings(names: seq<string>)
    | Object(fields: Fields)
    | Pending(records: seq<PendingRecord>)

  /** The part of an interrupt that is stored in session state. A nil response schema is Nil. */
  datatype PendingRecord = PendingRecord(id: string, reason: string, expiresAt: string, schema: Value)

  /** Values that a JSON decoder can produce. */
  predicate IsJson(v: Value) {
    match v
    case Nil => true
    case Bool(_) => true
    case Str(_) => true
    case Float64(_) => true
    case List(items) => forall i :: 0 <= i < |items| ==> IsJson(items[i])
    case Object(fields) => forall k :: k in fields ==> IsJson(fields[k])
    case _ => false
  }

  /** `a` overridden by `b`: the merge of a state delta into session state. */
  function Override(a: Fields, b: Fields): Fields {
    a + b
  }

  /** An entry list read as a map, later entries winning: a Go map in one iteration order. */
  function MapOf(entries: seq<(string, Value)>): Fields {
    if entries == [] then map[]
    else MapOf(entries[..|entries| - 1])[entries[|entries| - 1].0 := entries[|entries| - 1].1]
  }

  predicate DistinctKeys(entries: seq<(string, Value)>) {
    forall i, j :: 0 <= i < j < |entries| ==> entries[i].0 != entries[j].0
  }
}
