/** The decoded structured values the protocol handlers read and produce.
    The carrier's text format is not modelled: a request is already a `Value`. */
module Json {
  import opened Wrappers

  /** Java's `int` and `long`. */
  newtype int32 = x: int | -0x8000_0000 <= x < 0x8000_0000
  newtype int64 = x: int | -0x8000_0000_0000_0000 <= x < 0x8000_0000_0000_0000

  /** A Java throwable as far as the handlers look at it: its class name,
      `getMessage()` (which may be null) and `getCause()` (which may be null). */
  datatype Throwable = Throwable(className: string, message: Option<string>, cause: Option<Throwable>)

  /** A decoded value. `Int32` and `Int64` are the boxed `Integer` and `Long`
      classes; every other number kind is an opaque tag. `Thrown` is a
      throwable stored as a value (the source puts exception objects into
      response maps). An object with key k bound to `Null` is a different
      value from one without k. */
  datatype Value =
    | Null
    | Bool(b: bool)
    | Str(s: string)
    | Int32(i: int32)
    | Int64(l: int64)
    | OtherNum(tag: string)
    | Arr(items: seq<Value>)
    | Obj(fields: map<string, Value>)
    | Thrown(t: Throwable)

  /** `Map.get`: null both when the key is absent and when it is bound to null. */
  function Get(m: map<string, Value>, key: string): Value
  {
    if key in m then m[key] else Null
  }

  /** The value `e.getMessage()` contributes to a response map. */
  function MessageOf(e: Throwable): Value
  {
    match e.message
    case Some(m) => Str(m)
    case None => Null
  }

  const NullPointerException := "java.lang.NullPointerException"

  /** What Guava's `checkNotNull(reference, message)` throws on a null reference. */
  function NullPointer(message: string): Throwable
  {
    Throwable(NullPointerException, Some(message), None)
  }
}
