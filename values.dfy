/**
 * The runtime values the formatter is given, as a closed variant type.
 * A PHP array is an ordered list of (key, value) entries; an object carries
 * its class name and the three sources of fields the formatter may consult:
 * the result of `__debugInfo()` when the class defines it, the result of
 * `toArray()` when the class defines it, and its public properties.
 */
module Values {
  /** A method an object may define that returns its fields as an array: `__debugInfo` or `toArray`. */
  datatype Hook = Undefined | Returns(fields: seq<(Key, Value)>)

  /** A PHP array key: an integer or a string. */
  datatype Key = IntKey(i: int) | StrKey(s: string)

  datatype Value =
    | Null
    | Bool(b: bool)
    | Int(i: int)
    | Str(s: string)
    | Arr(entries: seq<(Key, Value)>)
    | Obj(
        className: string,
        debugInfo: Hook,
        toArray: Hook,
        props: seq<(Key, Value)>)
  {
    /** Arrays and objects are pretty-printed; everything else has a one-line literal form. */
    predicate IsCompound() {
      Arr? || Obj?
    }
  }
}
