/** The Java vocabulary the model needs: null references, thrown exceptions,
    the fixed-width `int` and `byte` types, maps as seen through iteration,
    and `String.valueOf`. */
module JavaLang {

  /** A Java reference: either `null` or a reference to a value. */
  datatype Nullable<+T> = Null | Ref(value: T)

  /** The exceptions the modelled code raises or passes on. */
  datatype Exception =
    | IllegalArgument(message: string)
    | IllegalState(message: string)
    | IOException(message: string)
    | NullPointer

  /** The outcome of a Java call: a returned value or a thrown exception. */
  datatype Result<+T> = Ok(value: T) | Thrown(exception: Exception)

  /** Java `int`. */
  newtype int32 = x: int | -0x8000_0000 <= x < 0x8000_0000

  /** Java `byte` (signed). */
  newtype byte = x: int | -128 <= x < 128

  /** A value stored in a `Map<String, ?>`: `null`, or an object together
      with the text its `toString()` returns (a `String` is its own text). */
  datatype JavaValue = NullValue | Object(text: string)

  /** `String.valueOf(Object)`: "null" for a null reference, `toString()` otherwise. */
  function ValueOf(v: JavaValue): string
  {
    match v
    case NullValue => "null"
    case Object(text) => text
  }

  /** A `java.util.Map` as the sequence of entries its `entrySet()` iteration
      visits, in that order. */
  type JavaMap<V> = seq<(string, V)>
}
