/** The guard in front of the D-Bus decoder (internal/service/guard.go): a bounded, restricted reading of
    the D-Bus Specification, sections "Marshaling (Wire Format)" and "Message Format". */
module Guard {
  import opened Core

  type byte = x: int | 0 <= x < 256
  type Bytes = seq<byte>

  const MAX_PART := 4096
  const MAX_FRAME := 8192
  const MAX_TOTAL := 65536
  const MAX_TEXT := 256
  const AUTH_BYTES := 4096

  // ---- Marshalling, the reference ----

  /** Bytes up to the next multiple of n. */
  function Pad(pos: nat, n: nat): (k: nat)
    requires n == 4 || n == 8
    ensures k < n
  {
    if n == 4 then 3 - (pos + 3) % 4 else 7 - (pos + 7) % 8
  }

  function Zeros(k: nat): (z: Bytes)
    ensures |z| == k && forall i :: 0 <= i < k ==> z[i] == 0
  {
    if k == 0 then [] else Zeros(k - 1) + [0]
  }

  function U32(v: int, little: bool): (r: Bytes)
    requires 0 <= v < 0x1_0000_0000
    ensures |r| == 4
  {
    var a, b, c, d := v % 256, v / 256 % 256, v / 65536 % 256, v / 16777216;
    if little then [a, b, c, d] else [d, c, b, a]
  }

  function PutNumber(pos: nat, v: int, little: bool): (r: Bytes)
    requires 0 <= v < 0x1_0000_0000
    ensures |r| == Pad(pos, 4) + 4
  {
    Zeros(Pad(pos, 4)) + U32(v, little)
  }

  function PutSignature(s: Bytes): (r: Bytes)
    requires |s| <= 1
    ensures |r| == |s| + 2
  {
    [|s| as int] + s + [0]
  }

  /** Text that the guard lets through: short, valid UTF-8, no NUL. */
  predicate TextOk(s: Bytes) {
    |s| <= 256 && ValidUtf8(s) && forall i :: 0 <= i < |s| ==> s[i] != 0
  }

  predicate Continuation(s: Bytes, i: nat) {
    i < |s| && 0x80 <= s[i] <= 0xBF
  }

  /** Well-formed UTF-8 (RFC 3629): shortest forms, no surrogates, nothing above U+10FFFF. */
  predicate ValidUtf8(s: Bytes) {
    s == [] ||
    (var a := s[0];
     if a < 0x80 then ValidUtf8(s[1..])
     else if 0xC2 <= a <= 0xDF then Continuation(s, 1) && ValidUtf8(s[2..])
     else if 0xE0 <= a <= 0xEF then
       && Continuation(s, 1) && Continuation(s, 2)
       && (a == 0xE0 ==> s[1] >= 0xA0) && (a == 0xED ==> s[1] <= 0x9F)
       && ValidUtf8(s[3..])
     else if 0xF0 <= a <= 0xF4 then
       && Continuation(s, 1) && Continuation(s, 2) && Continuation(s, 3)
       && (a == 0xF0 ==> s[1] >= 0x90) && (a == 0xF4 ==> s[1] <= 0x8F)
       && ValidUtf8(s[4..])
     else false)
  }

  function PutText(pos: nat, s: Bytes, little: bool): (r: Bytes)
    requires |s| <= MAX_TEXT
    ensures |r| == Pad(pos, 4) + 5 + |s|
  {
    PutNumber(pos, |s|, little) + s + [0]
  }

  datatype Value = Text(text: Bytes) | Number(number: int) | Signature(signature: Bytes)

  datatype Field = Field(code: byte, value: Value)

  /** The type each header field must have. */
  function Want(code: int): byte {
    if code == 1 then 'o' as int
    else if code == 5 || code == 9 then 'u' as int
    else if code == 8 then 'g' as int
    else 's' as int
  }

  predicate ValueOk(v: Value) {
    match v
    case Text(s) => TextOk(s)
    case Number(n) => 0 <= n < 0x1_0000_0000
    case Signature(s) => |s| <= 1
  }

  /** A header field the guard lets through: known code, its own type, and no file descriptors. */
  predicate FieldOk(f: Field) {
    && 1 <= f.code <= 9 && ValueOk(f.value)
    && (Want(f.code) in {'s' as int, 'o' as int} <==> f.value.Text?)
    && (Want(f.code) == 'u' as int <==> f.value.Number?)
    && (Want(f.code) == 'g' as int <==> f.value.Signature?)
    && (f.code == 9 ==> f.value == Number(0))
  }

  function PutValue(pos: nat, v: Value, little: bool): Bytes
    requires ValueOk(v)
  {
    match v
    case Text(s) => PutText(pos, s, little)
    case Number(n) => PutNumber(pos, n, little)
    case Signature(s) => PutSignature(s)
  }

  /** A field at an aligned position. */
  function FieldBytes(pos: nat, f: Field, little: bool): (r: Bytes)
    requires FieldOk(f)
    ensures |r| >= 4
  {
    [f.code] + PutSignature([Want(f.code)]) + PutValue(pos + 4, f.value, little)
  }

  function PutField(pos: nat, f: Field, little: bool): (r: Bytes)
    requires FieldOk(f)
    ensures |r| >= 4 + Pad(pos, 8)
  {
    Zeros(Pad(pos, 8)) + FieldBytes(pos + Pad(pos, 8), f, little)
  }

  predicate FieldsOk(fields: seq<Field>, seen: set<byte>)
    decreases |fields|
  {
    fields == [] || (FieldOk(fields[0]) && fields[0].code !in seen && FieldsOk(fields[1..], seen + {fields[0].code}))
  }

  function PutFields(pos: nat, fields: seq<Field>, seen: set<byte>, little: bool): Bytes
    requires FieldsOk(fields, seen)
    decreases |fields|
  {
    if fields == [] then []
    else
      var first := PutField(pos, fields[0], little);
      first + PutFields(pos + |first|, fields[1..], seen + {fields[0].code}, little)
  }

  /** `e` is written in b at pos. */
  predicate At(b: Bytes, pos: nat, e: Bytes) {
    pos + |e| <= |b| && b[pos..pos + |e|] == e
  }

  lemma AtParts(b: Bytes, pos: nat, x: Bytes, y: Bytes)
    ensures At(b, pos, x + y) <==> At(b, pos, x) && At(b, pos + |x|, y)
  {
    if pos + |x| + |y| <= |b| {
      var all := b[pos..pos + |x + y|];
      assert all == b[pos..pos + |x|] + b[pos + |x|..pos + |x| + |y|];
      if all == x + y {
        assert b[pos..pos + |x|] == all[..|x|] == x;
        assert b[pos + |x|..pos + |x| + |y|] == all[|x|..] == y;
      }
    }
  }

  // ---- The cursor's reads as functions ----

  predicate AllZero(b: Bytes, from: nat, to: nat)
    requires from <= to <= |b|
  {
    forall i :: from <= i < to ==> b[i] == 0
  }

  function Align(b: Bytes, pos: nat, n: nat): Option<nat>
    requires n == 4 || n == 8
  {
    var end := pos + Pad(pos, n);
    if end <= |b| && AllZero(b, pos, end) then Some(end) else None
  }

  function Weighted(a: int, b: int, c: int, d: int): int {
    a + 256 * b + 65536 * c + 16777216 * d
  }

  function Uint32(b: Bytes, little: bool): (v: int)
    requires |b| == 4
    ensures 0 <= v < 0x1_0000_0000
  {
    if little then Weighted(b[0], b[1], b[2], b[3]) else Weighted(b[3], b[2], b[1], b[0])
  }

  function ReadNumber(b: Bytes, pos: nat, little: bool): (r: Option<(int, nat)>)
    ensures r.Some? ==> 0 <= r.value.0 < 0x1_0000_0000 && pos < r.value.1 <= |b|
  {
    match Align(b, pos, 4)
    case None => None
    case Some(p) => if |b| - p < 4 then None else Some((Uint32(b[p..p + 4], little), p + 4))
  }

  function ReadSignature(b: Bytes, pos: nat): (r: Option<(Bytes, nat)>)
    ensures r.Some? ==> |r.value.0| <= 1 && pos < r.value.1 <= |b|
  {
    if |b| - pos < 2 then None
    else
      var n := b[pos];
      if n > 1 || |b| - (pos + 1) < n + 1 || b[pos + 1 + n] != 0 then None
      else Some((b[pos + 1..pos + 1 + n], pos + n + 2))
  }

  function ReadText(b: Bytes, pos: nat, little: bool): (r: Option<(Bytes, nat)>)
    ensures r.Some? ==> TextOk(r.value.0) && pos < r.value.1 <= |b|
  {
    match ReadNumber(b, pos, little)
    case None => None
    case Some((n, p)) =>
      if n > MAX_TEXT || |b| - p < n + 1 || b[p + n] != 0 || !TextOk(b[p..p + n]) then None
      else Some((b[p..p + n], p + n + 1))
  }

  lemma AlignIff(b: Bytes, pos: nat, n: nat)
    requires n == 4 || n == 8
    ensures Align(b, pos, n).Some? <==> At(b, pos, Zeros(Pad(pos, n)))
  {
    var k := Pad(pos, n);
    if pos + k <= |b| {
      var part := b[pos..pos + k];
      assert forall i :: 0 <= i < k ==> part[i] == b[pos + i];
      if AllZero(b, pos, pos + k) {
        assert part == Zeros(k);
      } else {
        var i :| pos <= i < pos + k && b[i] != 0;
        assert part[i - pos] != Zeros(k)[i - pos];
      }
    }
  }

  lemma NumberRoundTrip(v: int, b: Bytes, little: bool)
    requires 0 <= v < 0x1_0000_0000 && |b| == 4
    ensures Uint32(b, little) == v <==> b == U32(v, little)
  {
    Reassembled(v);
    if little { Digits(b[0], b[1], b[2], b[3]); } else { Digits(b[3], b[2], b[1], b[0]); }
  }

  lemma Digits(a: int, b: int, c: int, d: int)
    requires 0 <= a < 256 && 0 <= b < 256 && 0 <= c < 256 && 0 <= d < 256
    ensures var v := Weighted(a, b, c, d);
            v % 256 == a && v / 256 % 256 == b && v / 65536 % 256 == c && v / 16777216 == d
  {
    var v := Weighted(a, b, c, d);
    assert v / 256 == b + 256 * c + 65536 * d;
    assert v / 65536 == c + 256 * d;
    assert v / 16777216 == d;
  }

  lemma Reassembled(v: int)
    requires 0 <= v < 0x1_0000_0000
    ensures v == Weighted(v % 256, v / 256 % 256, v / 65536 % 256, v / 16777216)
  {
    assert v / 256 / 256 == v / 65536;
    assert v / 65536 / 256 == v / 16777216;
  }

  /** Reading succeeds exactly on marshalled numbers, and consumes exactly them. */
  lemma NumberIff(b: Bytes, pos: nat, v: int, p: nat, little: bool)
    requires 0 <= v < 0x1_0000_0000
    ensures ReadNumber(b, pos, little) == Some((v, p)) <==>
              At(b, pos, PutNumber(pos, v, little)) && p == pos + |PutNumber(pos, v, little)|
  {
    hide U32, Uint32;
    AlignIff(b, pos, 4);
    var q := pos + Pad(pos, 4);
    AtParts(b, pos, Zeros(Pad(pos, 4)), U32(v, little));
    if q + 4 <= |b| { NumberRoundTrip(v, b[q..q + 4], little); }
  }

  lemma SignatureIff(b: Bytes, pos: nat, s: Bytes, p: nat)
    requires |s| <= 1
    ensures ReadSignature(b, pos) == Some((s, p)) <==> At(b, pos, PutSignature(s)) && p == pos + |PutSignature(s)|
  {
    assert PutSignature(s) == [|s|] + (s + [0]);
    AtParts(b, pos, [|s|], s + [0]);
    AtParts(b, pos + 1, s, [0]);
    AtOne(b, pos, |s|);
    AtOne(b, pos + 1 + |s|, 0);
  }

  lemma AtOne(b: Bytes, pos: nat, v: byte)
    ensures At(b, pos, [v]) <==> pos < |b| && b[pos] == v
  {
  }

  lemma {:induction false} TextIff(b: Bytes, pos: nat, s: Bytes, p: nat, little: bool)
    requires TextOk(s)
    ensures ReadText(b, pos, little) == Some((s, p)) <==>
              At(b, pos, PutText(pos, s, little)) && p == pos + |PutText(pos, s, little)|
  {
    hide PutNumber, ReadNumber, ValidUtf8;
    var n := PutNumber(pos, |s|, little);
    var q := pos + |n|;
    NumberIff(b, pos, |s|, q, little);
    assert PutText(pos, s, little) == n + (s + [0]);
    AtParts(b, pos, n, s + [0]);
    AtParts(b, q, s, [0]);
    AtOne(b, q + |s|, 0);
    if ReadText(b, pos, little) == Some((s, p)) {
      var x := ReadNumber(b, pos, little).value;
      assert x.0 == |s|;
      NumberIff(b, pos, x.0, x.1, little);
    }
  }

  // ---- Header fields ----

  function ReadValue(b: Bytes, pos: nat, want: byte, little: bool): (r: Option<(Value, nat)>)
    ensures r.Some? ==> pos < r.value.1 <= |b|
  {
    if want == 'u' as int then
      match ReadNumber(b, pos, little) case None => None case Some((n, p)) => Some((Number(n), p))
    else if want == 'g' as int then
      match ReadSignature(b, pos) case None => None case Some((s, p)) => Some((Signature(s), p))
    else
      match ReadText(b, pos, little) case None => None case Some((s, p)) => Some((Text(s), p))
  }

  /** One turn of the field loop, from an aligned position inside the header. */
  function ReadField(b: Bytes, pos: nat, little: bool): (r: Option<(Field, nat)>)
    requires pos < |b|
    ensures r.Some? ==> pos < r.value.1 <= |b|
  {
    var code := b[pos];
    if code < 1 || code > 9 then None
    else
      match ReadSignature(b, pos + 1)
      case None => None
      case Some((sig, p)) =>
        if sig != [Want(code)] then None
        else
          match ReadValue(b, p, Want(code), little)
          case None => None
          case Some((v, q)) => if code == 9 && v != Number(0) then None else Some((Field(code, v), q))
  }

  /** The type that a value of this shape has in a field of this code. */
  predicate Shaped(want: byte, v: Value) {
    && ValueOk(v)
    && (want == 'u' as int ==> v.Number?)
    && (want == 'g' as int ==> v.Signature?)
    && (want != 'u' as int && want != 'g' as int ==> v.Text?)
  }

  lemma ValueIff(b: Bytes, pos: nat, want: byte, v: Value, p: nat, little: bool)
    requires Shaped(want, v)
    ensures ReadValue(b, pos, want, little) == Some((v, p)) <==>
              At(b, pos, PutValue(pos, v, little)) && p == pos + |PutValue(pos, v, little)|
  {
    hide ReadNumber, ReadSignature, ReadText, PutNumber, PutSignature, PutText, TextOk;
    match v
    case Text(s) => TextIff(b, pos, s, p, little);
    case Number(n) => NumberIff(b, pos, n, p, little);
    case Signature(s) => SignatureIff(b, pos, s, p);
  }

  lemma ReadValueShaped(b: Bytes, pos: nat, want: byte, little: bool)
    ensures ReadValue(b, pos, want, little).Some? ==> Shaped(want, ReadValue(b, pos, want, little).value.0)
  {
    hide ReadNumber, ReadSignature, ReadText, ValidUtf8;
  }

  lemma FieldShape(f: Field)
    ensures FieldOk(f) <==> 1 <= f.code <= 9 && Shaped(Want(f.code), f.value) && (f.code == 9 ==> f.value == Number(0))
  {
    hide TextOk;
  }

  /** A field is read exactly where an acceptable one is marshalled, and exactly its bytes are consumed. */
  lemma {:induction false} FieldIff(b: Bytes, pos: nat, f: Field, p: nat, little: bool)
    requires pos < |b|
    ensures ReadField(b, pos, little) == Some((f, p)) <==>
              FieldOk(f) && At(b, pos, FieldBytes(pos, f, little)) && p == pos + |FieldBytes(pos, f, little)|
  {
    hide ReadSignature, ReadValue, PutSignature, PutValue, FieldOk, Shaped, Want;
    FieldShape(f);
    var code := b[pos];
    if ReadField(b, pos, little) == Some((f, p)) {
      var q := ReadSignature(b, pos + 1).value.1;
      SignatureIff(b, pos + 1, [Want(code)], q);
      ReadValueShaped(b, q, Want(code), little);
      ValueIff(b, q, Want(code), f.value, p, little);
      FieldParts(b, pos, f, little);
    } else if FieldOk(f) && At(b, pos, FieldBytes(pos, f, little)) && p == pos + |FieldBytes(pos, f, little)| {
      FieldParts(b, pos, f, little);
      SignatureIff(b, pos + 1, [Want(f.code)], pos + 4);
      ValueIff(b, pos + 4, Want(f.code), f.value, p, little);
    }
  }

  lemma {:induction false} FieldParts(b: Bytes, pos: nat, f: Field, little: bool)
    requires FieldOk(f)
    ensures At(b, pos, FieldBytes(pos, f, little)) <==>
              && pos < |b| && b[pos] == f.code && At(b, pos + 1, PutSignature([Want(f.code)]))
              && At(b, pos + 4, PutValue(pos + 4, f.value, little))
    ensures |FieldBytes(pos, f, little)| == 4 + |PutValue(pos + 4, f.value, little)|
  {
    hide PutSignature, PutValue, TextOk, Want;
    var sig, value := PutSignature([Want(f.code)]), PutValue(pos + 4, f.value, little);
    assert FieldBytes(pos, f, little) == [f.code] + (sig + value);
    AtParts(b, pos, [f.code], sig + value);
    AtParts(b, pos + 1, sig, value);
    AtOne(b, pos, f.code);
  }

  /** The field loop of validateFrame over the header bytes. */
  function ReadFields(b: Bytes, pos: nat, seen: set<byte>, little: bool): (r: Option<seq<Field>>)
    requires pos <= |b|
    decreases |b| - pos
  {
    if pos == |b| then Some([])
    else
      match Align(b, pos, 8)
      case None => None
      case Some(p) =>
        if p == |b| then Some([])
        else
          match ReadField(b, p, little)
          case None => None
          case Some((f, q)) =>
            if f.code in seen then None
            else
              match ReadFields(b, q, seen + {f.code}, little)
              case None => None
              case Some(rest) => Some([f] + rest)
  }

  /** The rest of b from pos on holds these fields, with or without zeros up to the next 8-byte boundary. */
  ghost predicate Holds(b: Bytes, pos: nat, fields: seq<Field>, seen: set<byte>, little: bool)
    requires FieldsOk(fields, seen)
  {
    var e := PutFields(pos, fields, seen, little);
    At(b, pos, e) && Tail(b, pos + |e|)
  }

  predicate Tail(b: Bytes, end: nat) {
    end == |b| || (end < |b| == end + Pad(end, 8) && At(b, end, Zeros(Pad(end, 8))))
  }

  lemma {:induction false} HoldsNothing(b: Bytes, pos: nat, seen: set<byte>, little: bool)
    requires pos <= |b|
    ensures Holds(b, pos, [], seen, little) <==> pos == |b| || (Align(b, pos, 8).Some? && Align(b, pos, 8).value == |b|)
  {
    AlignIff(b, pos, 8);
  }

  lemma {:induction false} HoldsFirst(b: Bytes, pos: nat, fields: seq<Field>, seen: set<byte>, little: bool)
    requires fields != [] && FieldsOk(fields, seen) && pos <= |b|
    ensures var p := pos + Pad(pos, 8);
            var q := p + |FieldBytes(p, fields[0], little)|;
            Holds(b, pos, fields, seen, little) <==>
              && Align(b, pos, 8) == Some(p) && At(b, p, FieldBytes(p, fields[0], little))
              && Holds(b, q, fields[1..], seen + {fields[0].code}, little)
  {
    hide FieldBytes, FieldOk, Align, Pad, Zeros, At, Tail;
    var p := pos + Pad(pos, 8);
    var first := PutField(pos, fields[0], little);
    var rest := PutFields(pos + |first|, fields[1..], seen + {fields[0].code}, little);
    AtParts(b, pos, first, rest);
    AtParts(b, pos, Zeros(Pad(pos, 8)), FieldBytes(p, fields[0], little));
    AlignIff(b, pos, 8);
    AlignEnd(b, pos);
  }

  lemma AlignEnd(b: Bytes, pos: nat)
    ensures Align(b, pos, 8).Some? ==> Align(b, pos, 8).value == pos + Pad(pos, 8)
  {
  }

  /** The field loop accepts exactly the marshalled sequences of acceptable, distinct fields. */
  lemma {:induction false} FieldsIff(b: Bytes, pos: nat, fields: seq<Field>, seen: set<byte>, little: bool)
    requires pos <= |b|
    ensures ReadFields(b, pos, seen, little) == Some(fields) <==>
              FieldsOk(fields, seen) && Holds(b, pos, fields, seen, little)
    decreases |b| - pos, |fields|
  {
    hide FieldBytes, FieldOk, Align, ReadField, Holds, At;
    AlignEnd(b, pos);
    if fields == [] {
      HoldsNothing(b, pos, seen, little);
    } else {
      var f, p := fields[0], pos + Pad(pos, 8);
      assert fields == [f] + fields[1..];
      if FieldsOk(fields, seen) {
        HoldsFirst(b, pos, fields, seen, little);
        AtInside(b, p, FieldBytes(p, f, little));
      }
      if p < |b| {
        var q := if ReadField(b, p, little).Some? then ReadField(b, p, little).value.1 else p;
        FieldIff(b, p, f, q, little);
        if ReadField(b, p, little) == Some((f, q)) {
          FieldsIff(b, q, fields[1..], seen + {f.code}, little);
        } else if FieldOk(f) {
          FieldIff(b, p, f, p + |FieldBytes(p, f, little)|, little);
        }
      }
    }
  }

  lemma AtInside(b: Bytes, pos: nat, e: Bytes)
    ensures At(b, pos, e) && e != [] ==> pos < |b|
  {
  }

  // ---- Frames ----

  datatype Body = NoBody | TextBody(path: bool, text: Bytes) | NumberBody(number: int) | VariantBody(text: Bytes)

  predicate BodyOk(body: Body) {
    match body
    case NoBody => true
    case NumberBody(n) => 0 <= n < 0x1_0000_0000
    case TextBody(_, text) => TextOk(text)
    case VariantBody(text) => TextOk(text)
  }

  function BodySignature(body: Body): Bytes {
    match body
    case NoBody => []
    case TextBody(path, _) => [if path then 'o' as int else 's' as int]
    case NumberBody(_) => ['u' as int]
    case VariantBody(_) => ['v' as int]
  }

  function PutBody(body: Body, little: bool): Bytes
    requires BodyOk(body)
  {
    match body
    case NoBody => []
    case TextBody(_, text) => PutText(0, text, little)
    case NumberBody(n) => PutNumber(0, n, little)
    case VariantBody(text) => PutSignature(['s' as int]) + PutText(3, text, little)
  }

  /** The switch at the end of validateFrame: the body has the announced type and nothing after it. */
  predicate ReadBody(b: Bytes, signature: Bytes, little: bool) {
    if signature == [] then b == []
    else if signature == ['s' as int] || signature == ['o' as int] then
      match ReadText(b, 0, little) case None => false case Some((_, p)) => p == |b|
    else if signature == ['u' as int] then
      match ReadNumber(b, 0, little) case None => false case Some((_, p)) => p == |b|
    else if signature == ['v' as int] then
      match ReadSignature(b, 0)
      case None => false
      case Some((inner, p)) =>
        inner == ['s' as int] && match ReadText(b, p, little) case None => false case Some((_, q)) => q == |b|
    else false
  }

  lemma AtWhole(b: Bytes, e: Bytes)
    ensures At(b, 0, e) && |e| == |b| <==> b == e
  {
    assert b[0..|b|] == b;
  }

  /** A body that is read is the marshalling of some body with that signature. */
  lemma BodySound(b: Bytes, signature: Bytes, little: bool) returns (body: Body)
    requires ReadBody(b, signature, little)
    ensures BodyOk(body) && BodySignature(body) == signature && b == PutBody(body, little)
  {
    hide ReadText, ReadNumber, ReadSignature, PutText, PutNumber, PutSignature, ValidUtf8, At;
    if signature == [] {
      body := NoBody;
    } else if signature == ['s' as int] || signature == ['o' as int] {
      var (text, p) := ReadText(b, 0, little).value;
      body := TextBody(signature == ['o' as int], text);
      TextIff(b, 0, text, p, little);
      AtWhole(b, PutText(0, text, little));
    } else if signature == ['u' as int] {
      var (n, p) := ReadNumber(b, 0, little).value;
      body := NumberBody(n);
      NumberIff(b, 0, n, p, little);
      AtWhole(b, PutNumber(0, n, little));
    } else {
      var (inner, p) := ReadSignature(b, 0).value;
      var (text, q) := ReadText(b, p, little).value;
      body := VariantBody(text);
      SignatureIff(b, 0, inner, p);
      TextIff(b, p, text, q, little);
      AtParts(b, 0, PutSignature(inner), PutText(3, text, little));
      AtWhole(b, PutSignature(inner) + PutText(3, text, little));
    }
  }

  lemma BodyComplete(body: Body, little: bool)
    requires BodyOk(body)
    ensures ReadBody(PutBody(body, little), BodySignature(body), little)
  {
    hide ReadText, ReadNumber, ReadSignature, PutText, PutNumber, PutSignature, ValidUtf8, At;
    var b := PutBody(body, little);
    AtWhole(b, b);
    match body
    case NoBody =>
    case TextBody(_, text) => TextIff(b, 0, text, |b|, little);
    case NumberBody(n) => NumberIff(b, 0, n, |b|, little);
    case VariantBody(text) =>
      AtParts(b, 0, PutSignature(['s' as int]), PutText(3, text, little));
      SignatureIff(b, 0, ['s' as int], 3);
      TextIff(b, 3, text, |b|, little);
  }

  function Sender(fields: seq<Field>): Bytes {
    if fields == [] then []
    else
      var f := fields[|fields| - 1];
      if f.code == 7 && f.value.Text? then f.value.text else Sender(fields[..|fields| - 1])
  }

  function SignatureOf(fields: seq<Field>): Bytes {
    if fields == [] then []
    else
      var f := fields[|fields| - 1];
      if f.code == 8 && f.value.Signature? then f.value.signature else SignatureOf(fields[..|fields| - 1])
  }

  /** "org.freedesktop.DBus" */
  function BusName(): Bytes {
    [111, 114, 103, 46, 102, 114, 101, 101, 100, 101, 115, 107, 116, 111, 112, 46, 68, 66, 117, 115]
  }

  /** Only the bus daemon and, once known, the verified owner may send. */
  predicate SenderOk(sender: Bytes, owner: Bytes) {
    sender == BusName() || (owner != [] && sender == owner)
  }

  datatype Message = Message(
    little: bool, kind: byte, flags: byte, serial: Bytes, fields: seq<Field>, padded: bool, body: Body)

  /** Header length as announced, which may or may not include the padding before the body. */
  function HeaderLength(m: Message): nat
    requires FieldsOk(m.fields, {})
  {
    var n := |PutFields(16, m.fields, {}, m.little)|;
    if m.padded then n + Pad(16 + n, 8) else n
  }

  /** A message the guard means to let through: a reply, error or signal from an allowed sender, with
      known header fields and a body that is absent or a single string, number or string variant. */
  ghost predicate Allowed(m: Message, owner: Bytes) {
    && 2 <= m.kind <= 4 && |m.serial| == 4 && FieldsOk(m.fields, {}) && BodyOk(m.body)
    && HeaderLength(m) <= 4096 && |PutBody(m.body, m.little)| <= 4096
    && SenderOk(Sender(m.fields), owner) && SignatureOf(m.fields) == BodySignature(m.body)
  }

  function Order(little: bool): byte {
    if little then 'l' as int else 'B' as int
  }

  function Head(little: bool, kind: byte, flags: byte, serial: Bytes, hlen: nat, blen: nat): (h: Bytes)
    requires |serial| == 4 && hlen <= MAX_PART && blen <= MAX_PART
    ensures |h| == 16
  {
    [Order(little), kind, flags, 1] + U32(blen, little) + serial + U32(hlen, little)
  }

  function Marshal(m: Message): Bytes
    requires |m.serial| == 4 && FieldsOk(m.fields, {}) && BodyOk(m.body)
    requires HeaderLength(m) <= MAX_PART && |PutBody(m.body, m.little)| <= MAX_PART
  {
    var f := PutFields(16, m.fields, {}, m.little);
    var body := PutBody(m.body, m.little);
    Head(m.little, m.kind, m.flags, m.serial, HeaderLength(m), |body|) + f + Zeros(Pad(16 + |f|, 8)) + body
  }

  predicate KnownOrder(b: byte) {
    b == 'l' as int || b == 'B' as int
  }

  function BodyAt(hlen: nat): nat {
    16 + hlen + Pad(16 + hlen, 8)
  }

  /** validateFrame. */
  predicate Accepts(frame: Bytes, owner: Bytes) {
    && |frame| >= 16 && frame[3] == 1 && 2 <= frame[1] <= 4 && KnownOrder(frame[0])
    && (var little := frame[0] == 'l' as int;
        var hlen, blen := Uint32(frame[12..16], little), Uint32(frame[4..8], little);
        && hlen <= MAX_PART && blen <= MAX_PART && BodyAt(hlen) + blen == |frame|
        && (match ReadFields(frame[..16 + hlen], 16, {}, little)
            case None => false
            case Some(fields) =>
              && SenderOk(Sender(fields), owner) && AllZero(frame, 16 + hlen, BodyAt(hlen))
              && ReadBody(frame[BodyAt(hlen)..], SignatureOf(fields), little)))
  }

  /** Read computes the same frame length from the header as validateFrame does. */
  lemma SameLength(hlen: nat, blen: nat)
    ensures 16 + (hlen + 7) / 8 * 8 + blen == BodyAt(hlen) + blen
  {
  }

  lemma HeadParts(little: bool, kind: byte, flags: byte, serial: Bytes, hlen: nat, blen: nat)
    requires |serial| == 4 && hlen <= MAX_PART && blen <= MAX_PART
    ensures var h := Head(little, kind, flags, serial, hlen, blen);
            && h[0] == Order(little) && h[1] == kind && h[2] == flags && h[3] == 1 && h[8..12] == serial
            && Uint32(h[4..8], little) == blen && Uint32(h[12..16], little) == hlen
  {
    hide U32, Uint32;
    var h := Head(little, kind, flags, serial, hlen, blen);
    assert h[4..8] == U32(blen, little) && h[12..16] == U32(hlen, little) && h[8..12] == serial;
    NumberRoundTrip(blen, h[4..8], little);
    NumberRoundTrip(hlen, h[12..16], little);
  }

  lemma HeadIs(frame: Bytes, little: bool, hlen: nat, blen: nat)
    requires |frame| >= 16 && frame[3] == 1 && frame[0] == Order(little) && hlen <= MAX_PART && blen <= MAX_PART
    requires Uint32(frame[4..8], little) == blen && Uint32(frame[12..16], little) == hlen
    ensures frame[..16] == Head(little, frame[1], frame[2], frame[8..12], hlen, blen)
  {
    hide U32, Uint32;
    NumberRoundTrip(blen, frame[4..8], little);
    NumberRoundTrip(hlen, frame[12..16], little);
    assert frame[..16] == [frame[0], frame[1], frame[2], frame[3]] + frame[4..8] + frame[8..12] + frame[12..16];
  }

  lemma ZerosAre(b: Bytes, from: nat, to: nat)
    requires from <= to <= |b|
    ensures AllZero(b, from, to) <==> b[from..to] == Zeros(to - from)
  {
    var part := b[from..to];
    assert forall i :: 0 <= i < to - from ==> part[i] == b[from + i];
    if part == Zeros(to - from) {
      forall i | from <= i < to ensures b[i] == 0 { assert part[i - from] == 0; }
    }
  }

  /** Padding that is already there is not added again. */
  lemma PaddedOnce(end: nat)
    ensures Pad(end + Pad(end, 8), 8) == 0
  {
  }

  /** The header of a frame: announced length, field bytes, and zeros up to the body. */
  lemma {:induction false} HeaderZone(frame: Bytes, hlen: nat, e: Bytes, padded: bool)
    requires BodyAt(hlen) <= |frame| && padded == (|e| < hlen)
    ensures At(frame[..16 + hlen], 16, e) && Tail(frame[..16 + hlen], 16 + |e|)
            && AllZero(frame, 16 + hlen, BodyAt(hlen)) <==>
              && hlen == (if padded then |e| + Pad(16 + |e|, 8) else |e|)
              && frame[16..BodyAt(hlen)] == e + Zeros(Pad(16 + |e|, 8))
  {
    hide Pad, Zeros;
    var b, n, at := frame[..16 + hlen], |e|, BodyAt(hlen);
    var z := Pad(16 + n, 8);
    PaddedOnce(16 + n);
    ZerosAre(frame, 16 + hlen, at);
    var zone := frame[16..at];
    if hlen == (if padded then n + z else n) {
      assert at == 16 + n + z;
      assert zone == frame[16..16 + n] + frame[16 + n..at];
      assert b[16..16 + n] == frame[16..16 + n];
      assert zone == e + Zeros(z) <==> frame[16..16 + n] == e && frame[16 + n..at] == Zeros(z) by {
        SplitEqual(frame[16..16 + n], frame[16 + n..at], e, Zeros(z));
      }
      if padded {
        assert b[16 + n..16 + hlen] == frame[16 + n..at];
        assert frame[16 + hlen..at] == [] == Zeros(0);
      }
    }
  }

  lemma SplitEqual(a: Bytes, b: Bytes, x: Bytes, y: Bytes)
    requires |a| == |x|
    ensures a + b == x + y <==> a == x && b == y
  {
    if a + b == x + y {
      assert a == (a + b)[..|a|] && x == (x + y)[..|x|];
      assert b == (a + b)[|a|..] && y == (x + y)[|x|..];
    }
  }

  lemma Assemble(frame: Bytes, at: nat, head: Bytes, zone: Bytes, body: Bytes)
    requires 16 <= at <= |frame| && |head| == 16 && |zone| == at - 16
    ensures frame == head + zone + body <==> frame[..16] == head && frame[16..at] == zone && frame[at..] == body
  {
    assert frame == frame[..16] + (frame[16..at] + frame[at..]);
    assert head + zone + body == head + (zone + body);
    SplitEqual(frame[..16], frame[16..at] + frame[at..], head, zone + body);
    SplitEqual(frame[16..at], frame[at..], zone, body);
  }

  lemma {:induction false} MarshalIs(m: Message, frame: Bytes, at: nat)
    requires |m.serial| == 4 && FieldsOk(m.fields, {}) && BodyOk(m.body) && HeaderLength(m) <= MAX_PART
             && |PutBody(m.body, m.little)| <= MAX_PART
    requires at == BodyAt(HeaderLength(m)) <= |frame|
    ensures var e := PutFields(16, m.fields, {}, m.little);
            frame == Marshal(m) <==>
              && frame[..16] == Head(m.little, m.kind, m.flags, m.serial, HeaderLength(m), |PutBody(m.body, m.little)|)
              && frame[16..at] == e + Zeros(Pad(16 + |e|, 8)) && frame[at..] == PutBody(m.body, m.little)
    ensures |Marshal(m)| == at + |PutBody(m.body, m.little)|
  {
    hide Pad, Zeros, PutFields, PutBody, Head;
    var e := PutFields(16, m.fields, {}, m.little);
    var head := Head(m.little, m.kind, m.flags, m.serial, HeaderLength(m), |PutBody(m.body, m.little)|);
    PaddedOnce(16 + |e|);
    var zone := e + Zeros(Pad(16 + |e|, 8));
    assert Marshal(m) == head + zone + PutBody(m.body, m.little);
    Assemble(frame, at, head, zone, PutBody(m.body, m.little));
  }

  /** Whatever the guard accepts is the marshalling of an allowed message: fields, padding and body are consumed
      exactly. */
  lemma {:induction false} AcceptedIsMarshalled(frame: Bytes, owner: Bytes) returns (m: Message)
    requires Accepts(frame, owner)
    ensures Allowed(m, owner) && frame == Marshal(m)
  {
    hide ReadFields, ReadBody, PutFields, PutBody, Holds, Uint32, Pad, Zeros, Sender, SignatureOf, SenderOk, Head,
         At, AllZero, Tail, FieldsOk, BodyOk;
    var little := frame[0] == 'l' as int;
    var hlen, blen := Uint32(frame[12..16], little), Uint32(frame[4..8], little);
    var at := BodyAt(hlen);
    var fields := ReadFields(frame[..16 + hlen], 16, {}, little).value;
    FieldsIff(frame[..16 + hlen], 16, fields, {}, little);
    var e := PutFields(16, fields, {}, little);
    HoldsParts(frame[..16 + hlen], fields, little);
    HeaderZone(frame, hlen, e, |e| < hlen);
    var body := BodySound(frame[at..], SignatureOf(fields), little);
    m := Message(little, frame[1], frame[2], frame[8..12], fields, |e| < hlen, body);
    HeadIs(frame, little, hlen, blen);
    MarshalIs(m, frame, at);
  }

  lemma {:induction false} HoldsParts(b: Bytes, fields: seq<Field>, little: bool)
    requires FieldsOk(fields, {})
    ensures var e := PutFields(16, fields, {}, little);
            Holds(b, 16, fields, {}, little) <==> At(b, 16, e) && Tail(b, 16 + |e|)
  {
    hide PutFields, At, Tail, FieldsOk;
  }

  lemma {:induction false} MarshalHead(m: Message, owner: Bytes)
    requires Allowed(m, owner)
    ensures var frame, hlen, blen := Marshal(m), HeaderLength(m), |PutBody(m.body, m.little)|;
            && BodyAt(hlen) + blen == |frame| && frame[0] == Order(m.little) && frame[1] == m.kind && frame[3] == 1
            && Uint32(frame[4..8], m.little) == blen && Uint32(frame[12..16], m.little) == hlen
  {
    hide PutFields, PutBody, Uint32, Pad, Zeros, Head, Sender, SignatureOf, SenderOk, BodySignature, FieldsOk, BodyOk;
    var frame, hlen, blen := Marshal(m), HeaderLength(m), |PutBody(m.body, m.little)|;
    LongEnough(m, owner);
    MarshalIs(m, frame, BodyAt(hlen));
    HeadParts(m.little, m.kind, m.flags, m.serial, hlen, blen);
    var head := frame[..16];
    assert frame[4..8] == head[4..8] && frame[12..16] == head[12..16] && frame[0] == head[0] && frame[1] == head[1]
           && frame[3] == head[3];
  }

  lemma {:induction false} LongEnough(m: Message, owner: Bytes)
    requires Allowed(m, owner)
    ensures BodyAt(HeaderLength(m)) <= |Marshal(m)|
  {
    hide PutFields, PutBody, Pad, Zeros, Head, Sender, SignatureOf, SenderOk, BodySignature, FieldsOk, BodyOk;
    var e := PutFields(16, m.fields, {}, m.little);
    PaddedOnce(16 + |e|);
    assert |Marshal(m)| == 16 + |e| + Pad(16 + |e|, 8) + |PutBody(m.body, m.little)|;
  }

  /** Every allowed message passes the guard. */
  lemma {:induction false} MarshalledIsAccepted(m: Message, owner: Bytes)
    requires Allowed(m, owner)
    ensures Accepts(Marshal(m), owner)
  {
    hide ReadFields, ReadBody, PutFields, PutBody, Holds, Uint32, Pad, Zeros, Sender, SignatureOf, SenderOk, Head,
         At, AllZero, Tail, FieldsOk, BodyOk, Marshal;
    var frame, hlen, blen, little := Marshal(m), HeaderLength(m), |PutBody(m.body, m.little)|, m.little;
    var at := BodyAt(hlen);
    MarshalHead(m, owner);
    MarshalIs(m, frame, at);
    var e := PutFields(16, m.fields, {}, little);
    PadWhenPadded(m);
    HeaderZone(frame, hlen, e, |e| < hlen);
    HoldsParts(frame[..16 + hlen], m.fields, little);
    FieldsIff(frame[..16 + hlen], 16, m.fields, {}, little);
    BodyComplete(m.body, little);
  }

  lemma {:induction false} PadWhenPadded(m: Message)
    requires FieldsOk(m.fields, {})
    ensures var n := |PutFields(16, m.fields, {}, m.little)|;
            HeaderLength(m) == if n < HeaderLength(m) then n + Pad(16 + n, 8) else n
  {
    hide PutFields, Pad;
  }
}
