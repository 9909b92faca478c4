/** Small value types shared by every component of the model. */
module Core {

  datatype Option<+T> = None | Some(value: T)

  datatype Result<+T, +E> = Ok(value: T) | Err(error: E)

  /** A SHA-256 digest, taken to be collision free: it is a constructor applied to the hashed value. */
  datatype Sha256<+T> = Sha256(preimage: T)

  /** The range of Go's int64, used for Unix seconds and milliseconds. */
  type int64 = x: int | -0x8000_0000_0000_0000 <= x < 0x8000_0000_0000_0000

  const MAX_CLOCK_SKEW := 30

  /** Addition on int64 wraps around. */
  function Wrap64(x: int): (r: int64)
    ensures -0x8000_0000_0000_0000 <= x < 0x8000_0000_0000_0000 ==> r == x
  {
    (x + 0x8000_0000_0000_0000) % 0x1_0000_0000_0000_0000 - 0x8000_0000_0000_0000
  }

  function Max(a: int, b: int): (m: int)
    ensures m >= a && m >= b && (m == a || m == b)
  {
    if a < b then b else a
  }

  function Min(a: int, b: int): (m: int)
    ensures m <= a && m <= b && (m == a || m == b)
  {
    if a < b then a else b
  }

  predicate HexDigit(c: char) {
    '0' <= c <= '9' || 'a' <= c <= 'f'
  }

  /** identity.Hex: exactly n lower-case hexadecimal digits. */
  predicate Hex(s: string, n: nat) {
    |s| == n && forall i :: 0 <= i < |s| ==> HexDigit(s[i])
  }
}
