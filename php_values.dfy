/**
 * Scalar JSON/PHP values, the flat records an asset is described by, and
 * PHP's `(int)` and `(string)` casts on them.
 */
module PhpValues {
  import opened PhpStrings

  /** A decoded scalar: what `json_decode` yields at a leaf. */
  datatype Value = Null | Bool(b: bool) | Int(i: int) | Str(s: string)

  /**
   * One asset's data as `Arrays::getValueByPath` sees it: every value under
   * its dotted path ("size", "extmetadata.Artist.value", ...).
   */
  type Record = map<string, Value>

  /** `Arrays::getValueByPath($record, $path)`: the value, or null when absent. */
  function Property(r: Record, path: string): Value {
    if path in r then r[path] else Null
  }

  /** `(int)$v`. */
  function IntCast(v: Value): int {
    match v
    case Null => 0
    case Bool(b) => if b then 1 else 0
    case Int(i) => i
    case Str(s) => StrToInt(s)
  }

  /** `(string)$v`. */
  function StringCast(v: Value): string {
    match v
    case Null => ""
    case Bool(b) => if b then "1" else ""
    case Int(i) => IntToString(i)
    case Str(s) => s
  }

  /** `(int)(string)$v` gives back every integer and every boolean as 0 or 1. */
  lemma IntCastOfStringCast(v: Value)
    requires !v.Str?
    ensures IntCast(Str(StringCast(v))) == IntCast(v)
  {
    match v
    case Null =>
    case Bool(b) =>
      if b {
        assert StringCast(v) == IntToString(1);
        IntToStringRoundTrip(1);
      }
    case Int(i) => IntToStringRoundTrip(i);
  }
}
