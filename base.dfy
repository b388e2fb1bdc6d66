/** Small value types shared by the model: optional values, results, Go's int32 and strings.Join. */
module Base {

  /** A value that may be absent (a Go nil pointer). */
  datatype Option<+T> = None | Some(value: T)

  /** The outcome of an external lookup: a value, or the error the lookup returned. */
  datatype Result<+T, +E> = Success(value: T) | Failure(error: E)

  const MAX_INT32: int := 0x7fff_ffff
  const TWO_32: int := 0x1_0000_0000

  /** Go's 32-bit signed integer. */
  newtype int32 = x: int | -0x8000_0000 <= x <= 0x7fff_ffff

  /**
   * Go's conversion `int32(n)` of a non-negative length: the value is kept when it fits,
   * otherwise it wraps around modulo 2^32 (two's complement).
   */
  function Int32(n: nat): (r: int32)
    ensures n <= MAX_INT32 ==> r as int == n
    ensures (n - r as int) % TWO_32 == 0
  {
    var m := n % TWO_32;
    if m <= MAX_INT32 then m as int32 else (m - TWO_32) as int32
  }

  /** Go's `strings.Join`: the parts with `sep` between consecutive ones. */
  function Join(parts: seq<string>, sep: string): (s: string)
    ensures parts == [] ==> s == ""
    ensures |parts| == 1 ==> s == parts[0]
    ensures |parts| == 2 ==> s == parts[0] + sep + parts[1]
  {
    if |parts| == 0 then ""
    else if |parts| == 1 then parts[0]
    else parts[0] + sep + Join(parts[1..], sep)
  }
}
