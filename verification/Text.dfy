/** Text as validators measure it, in UTF-8 bytes without control characters, and as tables order it. */
module Text {

  /** Hexadecimal digits of an ID; a digest has twice as many. */
  const ID_SIZE: nat := 32

  function Repeat(c: char, n: nat): (s: string)
    ensures |s| == n && forall i :: 0 <= i < n ==> s[i] == c
  {
    if n == 0 then "" else Repeat(c, n - 1) + [c]
  }

  /** unicode.IsControl. */
  predicate IsControl(c: char) {
    c < ' ' || '\U{7f}' <= c <= '\U{9f}'
  }

  function Utf8Size(c: char): (n: nat)
    ensures 1 <= n <= 4
  {
    if c < '\U{80}' then 1 else if c < '\U{800}' then 2 else if c < '\U{10000}' then 3 else 4
  }

  /** Length in bytes of the UTF-8 encoding. */
  function ByteSize(s: string): (n: nat)
    ensures n >= |s|
  {
    if s == [] then 0 else ByteSize(s[..|s| - 1]) + Utf8Size(s[|s| - 1])
  }

  /** protocol.CleanText. */
  predicate CleanText(s: string, max: nat) {
    ByteSize(s) <= max && forall i :: 0 <= i < |s| ==> !IsControl(s[i])
  }

  /** The order of text columns. */
  predicate TextBefore(a: string, b: string) {
    b != "" && (a == "" || a[0] < b[0] || (a[0] == b[0] && TextBefore(a[1..], b[1..])))
  }

  lemma {:induction false} TextOrder(a: string, b: string, c: string)
    ensures TextBefore(a, b) && TextBefore(b, c) ==> TextBefore(a, c)
    ensures !TextBefore(a, a)
    ensures TextBefore(a, b) || TextBefore(b, a) || a == b
  {
    if a != "" && b != "" && c != "" {
      TextOrder(a[1..], b[1..], c[1..]);
      assert a == [a[0]] + a[1..] && b == [b[0]] + b[1..];
    } else if a != "" && b != "" {
      TextOrder(a[1..], b[1..], "");
      assert a == [a[0]] + a[1..] && b == [b[0]] + b[1..];
    } else if a != "" {
      TextOrder(a[1..], "", "");
    }
  }
}
