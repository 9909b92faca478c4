/** The cursor, frame validation and guarded connection as the code runs them (internal/service/guard.go). */
module GuardConn {
  import opened Core
  import opened Guard

  class Cursor {
    const b: Bytes
    const little: bool
    var pos: nat

    constructor (b: Bytes, pos: nat, little: bool)
      requires pos <= |b|
      ensures this.b == b && this.pos == pos && this.little == little && Valid()
    {
      this.b := b;
      this.pos := pos;
      this.little := little;
    }

    predicate Valid()
      reads this
    {
      pos <= |b|
    }

    /** Skip zero bytes up to a multiple of n. */
    method Align(n: nat) returns (ok: bool)
      requires Valid() && (n == 4 || n == 8)
      modifies this
      ensures Valid() && ok == Guard.Align(b, old(pos), n).Some?
      ensures pos == if ok then Guard.Align(b, old(pos), n).value else old(pos)
    {
      var end := pos + Pad(pos, n);
      if end > |b| {
        return false;
      }
      for i := pos to end
        invariant pos == old(pos) && AllZero(b, pos, i)
      {
        if b[i] != 0 {
          return false;
        }
      }
      pos := end;
      return true;
    }

    method Number() returns (v: int, ok: bool)
      requires Valid()
      modifies this
      ensures Valid() && ok == ReadNumber(b, old(pos), little).Some?
      ensures ok ==> ReadNumber(b, old(pos), little) == Some((v, pos))
    {
      v := 0;
      ok := Align(4);
      if !ok || |b| - pos < 4 {
        return v, false;
      }
      v := Uint32(b[pos..pos + 4], little);
      pos := pos + 4;
    }

    method Signature() returns (s: Bytes, ok: bool)
      requires Valid()
      modifies this
      ensures Valid() && ok == ReadSignature(b, old(pos)).Some?
      ensures ok ==> ReadSignature(b, old(pos)) == Some((s, pos))
    {
      s := [];
      if |b| - pos < 2 {
        return s, false;
      }
      var n: int := b[pos];
      pos := pos + 1;
      if n > 1 || |b| - pos < n + 1 || b[pos + n] != 0 {
        return s, false;
      }
      s := b[pos..pos + n];
      pos := pos + n + 1;
      return s, true;
    }

    method Text() returns (s: Bytes, ok: bool)
      requires Valid()
      modifies this
      ensures Valid() && ok == ReadText(b, old(pos), little).Some?
      ensures ok ==> ReadText(b, old(pos), little) == Some((s, pos))
    {
      hide ReadNumber, TextOk;
      s := [];
      var n: int;
      n, ok := Number();
      if !ok || n > MAX_TEXT || |b| - pos < n + 1 {
        return s, false;
      }
      if b[pos + n] != 0 || !TextOk(b[pos..pos + n]) {
        return s, false;
      }
      s := b[pos..pos + n];
      pos := pos + n + 1;
    }

    /** One header field from an aligned position. */
    method NextField() returns (f: Field, ok: bool)
      requires Valid() && pos < |b|
      modifies this
      ensures Valid() && ok == ReadField(b, old(pos), little).Some?
      ensures ok ==> ReadField(b, old(pos), little) == Some((f, pos))
    {
      hide ReadNumber, ReadSignature, ReadText;
      var code := b[pos];
      f := Field(code, Value.Number(0));
      pos := pos + 1;
      if code < 1 || code > 9 {
        return f, false;
      }
      var sig: Bytes;
      sig, ok := Signature();
      if !ok || sig != [Want(code)] {
        return f, false;
      }
      if Want(code) == 'u' as int {
        var v: int;
        v, ok := Number();
        if !ok || (code == 9 && v != 0) {
          return f, false;
        }
        f := Field(code, Value.Number(v));
      } else if Want(code) == 'g' as int {
        var v: Bytes;
        v, ok := Signature();
        f := Field(code, Value.Signature(v));
      } else {
        var v: Bytes;
        v, ok := Text();
        f := Field(code, Value.Text(v));
      }
    }
  }

  /** The field loop: it terminates, stays in bounds, and finds sender and body signature. */
  method CheckFields(b: Bytes, little: bool) returns (ok: bool, sender: Bytes, signature: Bytes)
    requires |b| >= 16
    ensures ok == ReadFields(b, 16, {}, little).Some?
    ensures ok ==>
              sender == Sender(ReadFields(b, 16, {}, little).value)
                && signature == SignatureOf(ReadFields(b, 16, {}, little).value)
  {
    hide ReadField, Guard.Align, ReadFields, Continues, Sender, SignatureOf;
    var c := new Cursor(b, 16, little);
    var fields: set<byte> := {};
    sender, signature := [], [];
    ghost var found: seq<Field> := [];
    NothingFound(b, little);
    while c.pos < |b|
      invariant c.Valid() && c.b == b && c.little == little
      invariant Continues(b, c.pos, fields, found, little)
      invariant sender == Sender(found) && signature == SignatureOf(found)
      decreases |b| - c.pos
    {
      ghost var at := c.pos;
      AlignEnd(b, at);
      HeaderCases(b, at, fields, found, little);
      var aligned := c.Align(8);
      if !aligned {
        return false, sender, signature;
      }
      if c.pos == |b| {
        return true, sender, signature;
      }
      var f, good := c.NextField();
      if !good || f.code in fields {
        return false, sender, signature;
      }
      FieldFound(b, at, fields, found, f, c.pos, little);
      fields := fields + {f.code};
      if f.code == 7 && f.value.Text? {
        sender := f.value.text;
      }
      if f.code == 8 && f.value.Signature? {
        signature := f.value.signature;
      }
      found := found + [f];
    }
    HeaderCases(b, c.pos, fields, found, little);
    ok := true;
  }

  lemma NothingFound(b: Bytes, little: bool)
    requires |b| >= 16
    ensures Continues(b, 16, {}, [], little) && Sender([]) == [] && SignatureOf([]) == []
  {
    hide ReadFields;
    var all := ReadFields(b, 16, {}, little);
    if all.Some? { assert [] + all.value == all.value; }
  }

  /** How the loop can stop at a position: at the end, or at something that is not a new field. */
  lemma {:induction false} HeaderCases(b: Bytes, pos: nat, seen: set<byte>, found: seq<Field>, little: bool)
    requires |b| >= 16 && Continues(b, pos, seen, found, little)
    ensures var all := ReadFields(b, 16, {}, little);
            var p := Guard.Align(b, pos, 8);
            && (pos == |b| || (p.Some? && p.value == |b|) ==> all == Some(found))
            && (pos < |b| && p.None? ==> all == None)
            && (pos < |b| && p.Some? && p.value < |b| ==>
                  (ReadField(b, p.value, little).None? || ReadField(b, p.value, little).value.0.code in seen ==>
                      all == None))
  {
    hide ReadField, Guard.Align;
    assert found + [] == found;
  }

  /** Reading the whole header amounts to what was found so far followed by reading the rest. */
  ghost predicate Continues(b: Bytes, pos: nat, seen: set<byte>, found: seq<Field>, little: bool) {
    && 16 <= pos <= |b|
    && (var rest := ReadFields(b, pos, seen, little);
        var all := ReadFields(b, 16, {}, little);
        all == if rest.Some? then Some(found + rest.value) else None)
  }

  lemma {:induction false} FieldFound(
      b: Bytes, pos: nat, seen: set<byte>, found: seq<Field>, f: Field, q: nat, little: bool)
    requires pos < |b| && Continues(b, pos, seen, found, little) && Guard.Align(b, pos, 8).Some?
             && Guard.Align(b, pos, 8).value < |b|
    requires ReadField(b, Guard.Align(b, pos, 8).value, little) == Some((f, q)) && f.code !in seen && pos < q <= |b|
    ensures Continues(b, q, seen + {f.code}, found + [f], little)
    ensures Sender(found + [f]) == (if f.code == 7 && f.value.Text? then f.value.text else Sender(found))
    ensures SignatureOf(found + [f]) ==
            (if f.code == 8 && f.value.Signature? then f.value.signature else SignatureOf(found))
  {
    hide ReadField, Guard.Align;
    var rest := ReadFields(b, q, seen + {f.code}, little);
    if rest.Some? { assert found + ([f] + rest.value) == found + [f] + rest.value; }
    assert (found + [f])[..|found|] == found;
  }

  /** The body switch. */
  method CheckBody(b: Bytes, signature: Bytes, little: bool) returns (ok: bool)
    ensures ok == ReadBody(b, signature, little)
  {
    hide ReadNumber, ReadSignature, ReadText;
    var c := new Cursor(b, 0, little);
    ok := true;
    if signature == ['s' as int] || signature == ['o' as int] {
      var text: Bytes;
      text, ok := c.Text();
    } else if signature == ['u' as int] {
      var n: int;
      n, ok := c.Number();
    } else if signature == ['v' as int] {
      var inner: Bytes;
      inner, ok := c.Signature();
      if !ok || inner != ['s' as int] {
        return false;
      }
      var text: Bytes;
      text, ok := c.Text();
    } else if signature != [] {
      return false;
    }
    return ok && c.pos == |b|;
  }

  method ValidateFrame(frame: Bytes, owner: Bytes) returns (ok: bool)
    ensures ok == Accepts(frame, owner)
  {
    hide ReadFields, ReadBody, Uint32, Pad;
    if |frame| < 16 || frame[3] != 1 || frame[1] < 2 || frame[1] > 4 || !KnownOrder(frame[0]) {
      return false;
    }
    var little := frame[0] == 'l' as int;
    var hlen, blen := Uint32(frame[12..16], little), Uint32(frame[4..8], little);
    var bodyAt := 16 + hlen + Pad(16 + hlen, 8);
    if hlen > MAX_PART || blen > MAX_PART || bodyAt + blen != |frame| {
      return false;
    }
    var sender, signature: Bytes;
    ok, sender, signature := CheckFields(frame[..16 + hlen], little);
    if !ok {
      return false;
    }
    if !SenderOk(sender, owner) {
      return false;
    }
    for i := 16 + hlen to bodyAt
      invariant AllZero(frame, 16 + hlen, i)
    {
      if frame[i] != 0 {
        return false;
      }
    }
    ok := CheckBody(frame[bodyAt..], signature, little);
  }

  function Concat(frames: seq<(Bytes, Bytes)>): Bytes {
    if frames == [] then [] else Concat(frames[..|frames| - 1]) + frames[|frames| - 1].0
  }

  /** A frame together with the owner known when it arrived. */
  predicate Passed(f: (Bytes, Bytes)) {
    |f.0| <= 8192 && Accepts(f.0, f.1)
  }

  lemma ConcatAppend(frames: seq<(Bytes, Bytes)>, f: (Bytes, Bytes))
    ensures Concat(frames + [f]) == Concat(frames) + f.0
  {
    assert (frames + [f])[..|frames|] == frames;
  }

  /** The frame length that Read computes from a header, if it is within the limits. */
  function Announced(header: Bytes): (r: Option<nat>)
    requires |header| == 16
    ensures r.Some? ==> 16 <= r.value <= 8192
  {
    if !KnownOrder(header[0]) then None
    else
      var little := header[0] == 'l' as int;
      var body, hdr := Uint32(header[4..8], little), Uint32(header[12..16], little);
      var size := 16 + (hdr + 7) / 8 * 8 + body;
      if hdr > MAX_PART || body > MAX_PART || size > MAX_FRAME then None else Some(size)
  }

  /** The peer's next bytes hold a whole frame within the limits. */
  predicate Whole(input: Bytes, total: nat) {
    && |input| >= 16
    && (var size := Announced(input[..16]); size.Some? && total + size.value <= 65536 && size.value <= |input|)
  }

  /** The peer's next bytes are a whole frame that the guard lets through. */
  predicate FrameReady(input: Bytes, owner: Bytes, total: nat) {
    Whole(input, total) && Accepts(input[..Announced(input[..16]).value], owner)
  }

  predicate Suffix(part: Bytes, whole: Bytes) {
    |part| <= |whole| && part == whole[|whole| - |part|..]
  }

  lemma SuffixTransitive(a: Bytes, b: Bytes, c: Bytes)
    requires Suffix(a, b) && Suffix(b, c)
    ensures Suffix(a, c)
  {
  }

  /** The frame starts at this position of the peer's stream and ends by `end`. */
  predicate PlacedAt(frame: Bytes, start: nat, sent: Bytes, end: int) {
    start + |frame| <= end <= |sent| && sent[start..start + |frame|] == frame
  }

  /** The frames are segments of the peer's stream, in order and without overlap, in its first `end` bytes. */
  predicate Placed(frames: seq<(Bytes, Bytes)>, starts: seq<nat>, sent: Bytes, end: nat) {
    && |starts| == |frames| && end <= |sent|
    && (forall i :: 0 <= i < |frames| ==> PlacedAt(frames[i].0, starts[i], sent, end))
    && (forall i, j :: 0 <= i < j < |frames| ==> starts[i] + |frames[i].0| <= starts[j])
  }

  lemma PlacedNext(frames: seq<(Bytes, Bytes)>, starts: seq<nat>, sent: Bytes, end: nat, f: (Bytes, Bytes))
    requires Placed(frames, starts, sent, end) && end + |f.0| <= |sent| && sent[end..end + |f.0|] == f.0
    ensures Placed(frames + [f], starts + [end], sent, end + |f.0|)
  {
    var fs, ss := frames + [f], starts + [end];
    forall i | 0 <= i < |fs| ensures PlacedAt(fs[i].0, ss[i], sent, end + |f.0|) {
      if i < |frames| { assert PlacedAt(frames[i].0, starts[i], sent, end); }
    }
    forall i, j | 0 <= i < j < |fs| ensures ss[i] + |fs[i].0| <= ss[j] {
      assert PlacedAt(frames[i].0, starts[i], sent, end);
    }
  }

  class GuardedConn {
    /** Everything the peer sends. */
    ghost const sent: Bytes
    /** What of it the guard has not read yet. */
    var input: Bytes
    var binary: bool
    var owner: Bytes
    var authLeft: nat
    var total: nat
    var frame: Bytes
    ghost var frames: seq<(Bytes, Bytes)>
    ghost var starts: seq<nat>
    ghost var delivered: Bytes

    constructor (input: Bytes)
      ensures Valid() && delivered == [] && !binary && sent == this.input == input && authLeft == 4096 && total == 0
    {
      sent, this.input, starts := input, input, [];
      binary, owner, authLeft, total, frame := false, [], AUTH_BYTES, 0, [];
      frames, delivered := [], [];
    }

    /** What was handed on since the handshake, and the rest of the current frame, are exactly the
        accepted frames one after the other; each is small, and so are all of them together; and they are segments
        of what the peer sent, in the order it sent them. */
    ghost predicate Valid()
      reads this
    {
      && authLeft <= 4096
      && (forall i :: 0 <= i < |frames| ==> Passed(frames[i]))
      && total == |Concat(frames)| <= 65536
      && delivered + frame == Concat(frames)
      && Suffix(input, sent) && Placed(frames, starts, sent, |sent| - |input|)
    }

    /** Reading on keeps the earlier frames where they are. */
    lemma StillPlaced(was: Bytes)
      requires Suffix(was, sent) && Suffix(input, was) && Placed(frames, starts, sent, |sent| - |was|)
      ensures Suffix(input, sent) && Placed(frames, starts, sent, |sent| - |input|)
    {
      SuffixTransitive(input, was, sent);
      forall i | 0 <= i < |frames| ensures PlacedAt(frames[i].0, starts[i], sent, |sent| - |input|) {
        assert PlacedAt(frames[i].0, starts[i], sent, |sent| - |was|);
      }
    }

    /** Write notices the end of the handshake. */
    method Write(begin: bool)
      requires Valid()
      modifies this`binary
      ensures Valid() && binary == (old(binary) || begin)
    {
      if begin {
        binary := true;
      }
    }

    method SetOwner(owner: Bytes)
      requires Valid()
      modifies this`owner
      ensures Valid() && this.owner == owner
    {
      this.owner := owner;
    }

    /** io.ReadFull: exactly n bytes, or an error that may have used up part of the input. */
    method ReadFull(n: nat) returns (data: Bytes, ok: bool)
      modifies this`input
      ensures ok <==> n <= |old(input)|
      ensures Suffix(input, old(input))
      ensures ok ==> data == old(input)[..n] && input == old(input)[n..]
    {
      if |input| < n {
        data, input := [], [];
        return data, false;
      }
      data, input := input[..n], input[n..];
      return data, true;
    }

    /** Read a header and, if its lengths are within the limits, the rest of the frame. */
    method Fetch() returns (next: Bytes, ok: bool)
      modifies this`input
      ensures ok <==> Whole(old(input), total)
      ensures Suffix(input, old(input))
      ensures ok ==> next == old(input)[..Announced(old(input)[..16]).value] && next + input == old(input)
    {
      hide Uint32;
      ghost var start := input;
      next := [];
      var header, fetched := ReadFull(16);
      if !fetched || !KnownOrder(header[0]) {
        return next, false;
      }
      var little := header[0] == 'l' as int;
      var body, hdr := Uint32(header[4..8], little), Uint32(header[12..16], little);
      var size := 16 + (hdr + 7) / 8 * 8 + body;
      if hdr > MAX_PART || body > MAX_PART || size > MAX_FRAME || total + size > MAX_TOTAL {
        return next, false;
      }
      var rest: Bytes;
      rest, ok := ReadFull(size - 16);
      SuffixTransitive(input, start[16..], start);
      next := header + rest;
      if ok {
        assert next == start[..size] && next + input == start;
      }
    }

    /** Take the next frame, or fail without handing anything on. */
    method NextFrame() returns (ok: bool)
      requires Valid() && frame == []
      modifies this
      ensures Valid() && delivered == old(delivered) && authLeft == old(authLeft) && binary == old(binary)
              && owner == old(owner)
      ensures ok <==> FrameReady(old(input), owner, old(total))
      ensures if ok then
                && frame != [] && frame + input == old(input) && frames == old(frames) + [(frame, owner)]
              else frames == old(frames) && frame == [] && total == old(total)
      ensures Suffix(input, old(input))
    {
      hide Accepts, Announced, Placed, Suffix;
      ghost var was := input;
      var next: Bytes;
      next, ok := Fetch();
      StillPlaced(was);
      if !ok {
        return;
      }
      ok := ValidateFrame(next, owner);
      if ok {
        NextIsPlaced(was, next, owner);
        ConcatAppend(frames, (next, owner));
        assert delivered + next == Concat(frames + [(next, owner)]);
        total := total + |next|;
        frame := next;
        frames := frames + [(next, owner)];
        starts := starts + [|sent| - |was|];
      }
    }

    lemma NextIsPlaced(was: Bytes, next: Bytes, owner: Bytes)
      requires Suffix(was, sent) && next + input == was && Placed(frames, starts, sent, |sent| - |was|)
      ensures Suffix(input, sent) && |was| <= |sent|
      ensures Placed(frames + [(next, owner)], starts + [|sent| - |was|], sent, |sent| - |input|)
    {
      var end := |sent| - |was|;
      assert sent[end..end + |next|] == was[..|next|] == next;
      assert input == was[|next|..];
      PlacedNext(frames, starts, sent, end, (next, owner));
    }

    /** Read with a buffer of n bytes; `chunk` is how much the peer has ready during the handshake. */
    method Read(n: nat, chunk: nat) returns (data: Bytes, ok: bool)
      requires Valid()
      modifies this
      ensures Valid() && |data| <= n && binary == old(binary)
      ensures !old(binary) ==>
                && |data| + authLeft == old(authLeft) && data + input == old(input)
                && frames == old(frames) && delivered == old(delivered)
      ensures old(binary) ==> delivered == old(delivered) + data && authLeft == old(authLeft)
      ensures old(binary) && n > 0 ==> (ok <==> old(frame) != [] || FrameReady(old(input), owner, old(total)))
      ensures old(binary) && ok ==> data + (frame + input) == old(frame) + old(input) && (n > 0 ==> data != [])
      ensures old(binary) && !ok ==> data == [] && frame == []
      ensures Suffix(input, old(input))
    {
      hide Concat, Passed, FrameReady, Placed;
      if n == 0 {
        assert [] + (frame + input) == frame + input;
        return [], true;
      }
      if !binary {
        data, ok := ReadHandshake(n, chunk);
        return;
      }
      if frame == [] {
        ok := NextFrame();
        if !ok {
          return [], false;
        }
      }
      var size := if n < |frame| then n else |frame|;
      Cut(frame, size, delivered, input);
      data := frame[..size];
      frame := frame[size..];
      delivered := delivered + data;
      ok := true;
    }

    /** Before the handshake ends, bytes pass through unread up to a fixed budget. */
    method ReadHandshake(n: nat, chunk: nat) returns (data: Bytes, ok: bool)
      requires Valid() && !binary
      modifies this`input, this`authLeft
      ensures Valid() && |data| <= n && |data| + authLeft == old(authLeft) && data + input == old(input)
      ensures Suffix(input, old(input))
    {
      hide Concat, Passed, Placed;
      ghost var was := input;
      if authLeft == 0 {
        return [], false;
      }
      var size := if n > authLeft then authLeft else n;
      var got := if chunk < size then chunk else size;
      if got > |input| {
        got := |input|;
      }
      data, ok := ReadFull(got);
      StillPlaced(was);
      authLeft := authLeft - got;
    }
  }

  lemma Cut(frame: Bytes, size: nat, delivered: Bytes, input: Bytes)
    requires size <= |frame|
    ensures delivered + frame == delivered + frame[..size] + frame[size..]
    ensures frame[..size] + (frame[size..] + input) == frame + input
  {
    assert frame == frame[..size] + frame[size..];
  }
}
