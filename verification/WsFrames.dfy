/** The frame layout of the hand-written WebSocket client (sections 5.2 and 5.3 of
    RFC 6455): what is put on the wire, what is read back, and when it is too early to tell. */
module WsFrames {
  import opened Prelude

  type Opcode = n: int | 0 <= n < 16

  datatype Frame = Frame(fin: bool, opcode: Opcode, payload: seq<Byte>)

  /** The three ways to write a payload length: 7 bits, 16 bits or 64 bits. */
  datatype Form = Short | Medium | Long

  datatype Decoded = NotYet | TooLarge | Whole(frame: Frame, rest: seq<Byte>)

  const MaxSafeInteger := 9007199254740991

  // ---- masking ----

  /** Exclusive or of two n-bit numbers, bit by bit. */
  function XorBits(a: nat, b: nat, n: nat): nat {
    if n == 0 then 0 else 2 * XorBits(a / 2, b / 2, n - 1) + (if a % 2 == b % 2 then 0 else 1)
  }

  lemma {:induction false} XorBitsBound(a: nat, b: nat, n: nat)
    ensures XorBits(a, b, n) < Power(2, n)
  {
    if n > 0 { XorBitsBound(a / 2, b / 2, n - 1); }
  }

  lemma {:induction false} XorBitsTwice(a: nat, b: nat, n: nat)
    requires a < Power(2, n)
    ensures XorBits(XorBits(a, b, n), b, n) == a
  {
    if n > 0 {
      var high, low := XorBits(a / 2, b / 2, n - 1), if a % 2 == b % 2 then 0 else 1;
      assert (2 * high + low) / 2 == high && (2 * high + low) % 2 == low;
      XorBitsTwice(a / 2, b / 2, n - 1);
    }
  }

  function Xor(a: Byte, b: Byte): (c: Byte)
    ensures XorBits(c, b, 8) == a
  {
    XorBitsBound(a, b, 8);
    assert Power(2, 8) == 256 by { assert Power(2, 4) == 16; }
    XorBitsTwice(a, b, 8);
    XorBits(a, b, 8)
  }

  /** Bit `k` of a number: its last binary digit once it was halved k times. */
  function Bit(x: nat, k: nat): nat { if k == 0 then x % 2 else Bit(x / 2, k - 1) }

  function Halved(x: nat, k: nat): nat { if k == 0 then x else Halved(x / 2, k - 1) }

  lemma {:induction false} BitOfHalved(x: nat, k: nat)
    ensures Bit(x, k) == Halved(x, k) % 2 && Halved(x, k + 1) == Halved(x, k) / 2
  {
    if k > 0 { BitOfHalved(x / 2, k - 1); }
  }

  lemma HalvedIsDigits(x: nat, k: nat)
    ensures Halved(x, k) == Bit(x, k) + 2 * Halved(x, k + 1)
  {
    BitOfHalved(x, k);
  }

  /** The eight bits of a byte are its binary digits. */
  lemma BitsMakeTheByte(x: Byte)
    ensures x == Bit(x, 0) + 2 * Bit(x, 1) + 4 * Bit(x, 2) + 8 * Bit(x, 3)
                 + 16 * Bit(x, 4) + 32 * Bit(x, 5) + 64 * Bit(x, 6) + 128 * Bit(x, 7)
  {
    HalvedIsDigits(x, 0);
    HalvedIsDigits(x, 1);
    HalvedIsDigits(x, 2);
    HalvedIsDigits(x, 3);
    HalvedIsDigits(x, 4);
    HalvedIsDigits(x, 5);
    HalvedIsDigits(x, 6);
    HalvedIsDigits(x, 7);
    HalvedAway(x, 8);
    assert Power(2, 8) == 256 by { assert Power(2, 4) == 16; }
  }

  lemma {:induction false} HalvedAway(x: nat, n: nat)
    ensures x < Power(2, n) ==> Halved(x, n) == 0
  {
    if n > 0 { HalvedAway(x / 2, n - 1); }
  }

  lemma {:induction false} XorBitsBitwise(a: nat, b: nat, n: nat, k: nat)
    requires k < n
    ensures Bit(XorBits(a, b, n), k) == if Bit(a, k) == Bit(b, k) then 0 else 1
  {
    var high, low := XorBits(a / 2, b / 2, n - 1), if a % 2 == b % 2 then 0 else 1;
    assert (2 * high + low) / 2 == high && (2 * high + low) % 2 == low;
    if k > 0 { XorBitsBitwise(a / 2, b / 2, n - 1, k - 1); }
  }

  /** Exclusive or: the bits that are set are those in which the two bytes differ. */
  lemma XorIsBitwise(a: Byte, b: Byte, k: nat)
    requires k < 8
    ensures Bit(Xor(a, b), k) == 1 <==> Bit(a, k) != Bit(b, k)
  {
    XorBitsBitwise(a, b, 8, k);
  }

  /** `sent` has exactly the bits in which `plain` and `mask` differ. */
  ghost predicate IsMasked(plain: Byte, mask: Byte, sent: Byte) {
    forall k :: 0 <= k < 8 ==> (Bit(sent, k) == 1 <==> Bit(plain, k) != Bit(mask, k))
  }

  lemma {:induction false} BitIsDigit(x: nat, k: nat)
    ensures Bit(x, k) == 0 || Bit(x, k) == 1
  {
    if k > 0 { BitIsDigit(x / 2, k - 1); }
  }

  lemma XorIsMasked(a: Byte, mask: Byte)
    ensures IsMasked(a, mask, Xor(a, mask)) && IsMasked(Xor(a, mask), mask, a)
  {
    forall k | 0 <= k < 8
      ensures Bit(Xor(a, mask), k) == 1 <==> Bit(a, k) != Bit(mask, k)
      ensures Bit(a, k) == 1 <==> Bit(Xor(a, mask), k) != Bit(mask, k)
    {
      XorIsBitwise(a, mask, k);
      BitIsDigit(a, k);
      BitIsDigit(mask, k);
      BitIsDigit(Xor(a, mask), k);
    }
  }

  function Masked(payload: seq<Byte>, mask: seq<Byte>): (r: seq<Byte>)
    requires |mask| == 4
    ensures |r| == |payload|
  {
    seq(|payload|, i requires 0 <= i < |payload| => Xor(payload[i], mask[i % 4]))
  }

  /** The same four bytes put the mask on and take it off. */
  lemma UnmaskedAgain(payload: seq<Byte>, mask: seq<Byte>)
    requires |mask| == 4
    ensures Masked(Masked(payload, mask), mask) == payload
  {
    forall i | 0 <= i < |payload| ensures Masked(Masked(payload, mask), mask)[i] == payload[i] {
      assert Masked(payload, mask)[i] == Xor(payload[i], mask[i % 4]);
    }
  }

  lemma Sizes()
    ensures Power(256, 2) == 65536 && Power(256, 8) == 18446744073709551616
  {
    assert Power(256, 4) == 4294967296;
  }

  // ---- what goes on the wire ----

  predicate Fits(form: Form, length: nat) {
    match form
    case Short => length < 126
    case Medium => length < 65536
    case Long => length < 18446744073709551616
  }

  function Lengths(form: Form, length: nat): (r: (Byte, seq<Byte>))
    requires Fits(form, length)
    ensures r.0 < 128
  {
    match form
    case Short => (length, [])
    case Medium => (126, BigEndian(length, 2))
    case Long => (127, BigEndian(length, 8))
  }

  predicate IsMask(mask: Option<seq<Byte>>) { mask.Some? ==> |mask.value| == 4 }

  function Header(frame: Frame, form: Form, mask: Option<seq<Byte>>): seq<Byte>
    requires Fits(form, |frame.payload|) && IsMask(mask)
  {
    var (seven, more) := Lengths(form, |frame.payload|);
    [(if frame.fin then 128 else 0) + frame.opcode, (if mask.Some? then 128 else 0) + seven]
    + more + (if mask.Some? then mask.value else [])
  }

  /** Every well-formed frame: either length form that fits, masked or not. */
  function Wire(frame: Frame, form: Form, mask: Option<seq<Byte>>): seq<Byte>
    requires Fits(form, |frame.payload|) && IsMask(mask)
  {
    Header(frame, form, mask) + (if mask.Some? then Masked(frame.payload, mask.value) else frame.payload)
  }

  function FormOf(length: nat): Form {
    if length < 126 then Short else if length < 65536 then Medium else Long
  }

  /** What `encodeFrame` sends: final, masked, the shortest form. */
  function Encoded(opcode: Opcode, payload: seq<Byte>, mask: seq<Byte>): seq<Byte>
    requires |mask| == 4 && Fits(Long, |payload|)
  {
    Wire(Frame(true, opcode, payload), FormOf(|payload|), Some(mask))
  }

  function Pair(high: int, low: int): int { 256 * high + low }

  /** Where a client's payload starts: two bytes, the longer length, the mask. */
  function PayloadAt(length: nat): nat { if length < 126 then 6 else if length < 65536 then 8 else 14 }

  /** A client's frame byte by byte: the header of section 5.2 of RFC 6455 in its shortest
      form, the mask, and the payload with the mask on. */
  ghost predicate IsClientFrame(wire: seq<Byte>, opcode: Opcode, payload: seq<Byte>, mask: seq<Byte>)
    requires |mask| == 4
  {
    var at := PayloadAt(|payload|);
    && |wire| == at + |payload| && wire[0] == 128 + opcode && wire[at - 4..at] == mask
    && (at == 6 ==> wire[1] == 128 + |payload|)
    && (at == 8 ==> wire[1] == 128 + 126 && Pair(wire[2], wire[3]) == |payload|)
    && (at == 14 ==> wire[1] == 128 + 127 && Number(wire[2..10]) == |payload|)
    && forall i :: 0 <= i < |payload| ==> IsMasked(payload[i], mask[i % 4], wire[at + i])
  }

  lemma HeaderLayout(opcode: Opcode, payload: seq<Byte>, mask: seq<Byte>)
    requires |mask| == 4 && Fits(Long, |payload|)
    ensures var header := Header(Frame(true, opcode, payload), FormOf(|payload|), Some(mask));
      var at := PayloadAt(|payload|);
      && |header| == at && header[0] == 128 + opcode && header[at - 4..] == mask
      && (at == 6 ==> header[1] == 128 + |payload|)
      && (at == 8 ==> header[1] == 254 && Pair(header[2], header[3]) == |payload|)
      && (at == 14 ==> header[1] == 255 && Number(header[2..10]) == |payload|)
  {
    Sizes();
    if 126 <= |payload| < 65536 {
      assert BigEndian(|payload|, 2) == BigEndian(|payload| / 256, 1) + [|payload| % 256];
      assert BigEndian(|payload| / 256, 1) == [|payload| / 256];
    } else if |payload| >= 65536 {
      NumberOfBigEndian(|payload|, 8);
      assert Header(Frame(true, opcode, payload), Long, Some(mask))[2..10] == BigEndian(|payload|, 8);
    }
  }

  /** Every frame the client sends is one. */
  lemma EncodedIsClientFrame(opcode: Opcode, payload: seq<Byte>, mask: seq<Byte>)
    requires |mask| == 4 && Fits(Long, |payload|)
    ensures IsClientFrame(Encoded(opcode, payload, mask), opcode, payload, mask)
  {
    HeaderLayout(opcode, payload, mask);
    var header := Header(Frame(true, opcode, payload), FormOf(|payload|), Some(mask));
    BehindHeader(header, opcode, payload, mask, header + Masked(payload, mask));
  }

  lemma BehindHeader(header: seq<Byte>, opcode: Opcode, payload: seq<Byte>, mask: seq<Byte>, wire: seq<Byte>)
    requires |mask| == 4 && wire == header + Masked(payload, mask)
    requires var at := PayloadAt(|payload|);
      && |header| == at && header[0] == 128 + opcode && header[at - 4..] == mask
      && (at == 6 ==> header[1] == 128 + |payload|)
      && (at == 8 ==> header[1] == 254 && Pair(header[2], header[3]) == |payload|)
      && (at == 14 ==> header[1] == 255 && Number(header[2..10]) == |payload|)
    ensures IsClientFrame(wire, opcode, payload, mask)
  {
    var at := PayloadAt(|payload|);
    assert at == 14 ==> wire[2..10] == header[2..10];
    assert wire[at - 4..at] == header[at - 4..];
    forall i | 0 <= i < |payload| ensures IsMasked(payload[i], mask[i % 4], wire[at + i]) {
      ByteBehind(header, payload, mask, i);
    }
  }

  lemma ByteBehind(header: seq<Byte>, payload: seq<Byte>, mask: seq<Byte>, i: nat)
    requires |mask| == 4 && i < |payload|
    ensures IsMasked(payload[i], mask[i % 4], (header + Masked(payload, mask))[|header| + i])
  {
    XorIsMasked(payload[i], mask[i % 4]);
    assert (header + Masked(payload, mask))[|header| + i] == Masked(payload, mask)[i];
  }

  /** The encoder as the program runs it: a payload buffer masked byte by byte. */
  method EncodeFrame(opcode: Opcode, payload: seq<Byte>, mask: seq<Byte>) returns (wire: seq<Byte>)
    requires |mask| == 4 && Fits(Long, |payload|)
    ensures wire == Encoded(opcode, payload, mask) && IsClientFrame(wire, opcode, payload, mask)
  {
    var masked := new Byte[|payload|];
    for index := 0 to |payload|
      invariant masked[..index] == Masked(payload, mask)[..index]
    {
      masked[index] := Xor(payload[index], mask[index % 4]);
    }
    var length := |payload|;
    var header;
    if length < 126 {
      header := [128 + opcode, 128 + length];
    } else if length < 65536 {
      header := [128 + opcode, 254, length / 256, length % 256];
      assert BigEndian(length, 2) == [length / 256, length % 256] by {
        assert BigEndian(length / 256, 1) == [length / 256];
      }
    } else {
      header := [128 + opcode, 255] + BigEndian(length, 8);
    }
    wire := header + mask + masked[..];
    assert masked[..] == Masked(payload, mask);
    assert header + mask == Header(Frame(true, opcode, payload), FormOf(length), Some(mask));
    EncodedIsClientFrame(opcode, payload, mask);
  }

  // ---- what is read back ----

  /** The header once it is all there: `size` bytes of it, then `length` of payload. */
  datatype Head = Partial | Oversized | Head(fin: bool, opcode: Opcode, length: nat, size: nat, mask: Option<seq<Byte>>)

  function HeadAfter(buffer: seq<Byte>, length: nat, offset: nat): Head
    requires 2 <= offset <= |buffer|
  {
    var fin, opcode := buffer[0] >= 128, buffer[0] % 16;
    if buffer[1] < 128 then Head(fin, opcode, length, offset, None)
    else if |buffer| < offset + 4 then Partial
    else Head(fin, opcode, length, offset + 4, Some(buffer[offset..offset + 4]))
  }

  function HeadOf(buffer: seq<Byte>): Head {
    if |buffer| < 2 then Partial
    else
      var seven := buffer[1] % 128;
      if seven == 126 then
        if |buffer| < 4 then Partial else HeadAfter(buffer, Number(buffer[2..4]), 4)
      else if seven == 127 then
        if |buffer| < 10 then Partial
        else if Number(buffer[2..10]) > MaxSafeInteger then Oversized
        else HeadAfter(buffer, Number(buffer[2..10]), 10)
      else HeadAfter(buffer, seven, 2)
  }

  function Unmasked(bytes: seq<Byte>, mask: Option<seq<Byte>>): (r: seq<Byte>)
    requires IsMask(mask)
    ensures |r| == |bytes|
  {
    if mask.Some? then Masked(bytes, mask.value) else bytes
  }

  function Decode(buffer: seq<Byte>): Decoded {
    var head := HeadOf(buffer);
    if head.Partial? then NotYet
    else if head.Oversized? then TooLarge
    else if |buffer| < head.size + head.length then NotYet
    else
      HeadIsThere(buffer);
      var end := head.size + head.length;
      Whole(Frame(head.fin, head.opcode, Unmasked(buffer[head.size..end], head.mask)), buffer[end..])
  }

  lemma HeadIsThere(buffer: seq<Byte>)
    ensures HeadOf(buffer).Head? ==> 2 <= HeadOf(buffer).size <= |buffer| && IsMask(HeadOf(buffer).mask)
  {
  }

  /** A whole frame is never longer than what was buffered, and at least two bytes. */
  lemma RestIsShorter(buffer: seq<Byte>)
    ensures Decode(buffer).Whole? ==> |Decode(buffer).rest| < |buffer|
  {
    HeadIsThere(buffer);
  }

  /** The frame at the head of a buffer, byte by byte: both flags, the length in one of its
      three forms, and the payload with the mask taken off. */
  ghost predicate IsFrameOf(buffer: seq<Byte>, frame: Frame, rest: seq<Byte>) {
    |rest| + |frame.payload| <= |buffer| &&
    var at := |buffer| - |rest| - |frame.payload|;
    var seven, masked := if |buffer| > 1 then buffer[1] % 128 else 0, |buffer| > 1 && buffer[1] >= 128;
    && at == (if seven == 127 then 10 else if seven == 126 then 4 else 2) + (if masked then 4 else 0)
    && (frame.fin <==> buffer[0] >= 128) && frame.opcode == buffer[0] % 16
    && (seven < 126 ==> |frame.payload| == seven)
    && (seven == 126 ==> |frame.payload| == Pair(buffer[2], buffer[3]))
    && (seven == 127 ==> |frame.payload| == Number(buffer[2..10]))
    && rest == buffer[at + |frame.payload|..]
    && (!masked ==> frame.payload == buffer[at..at + |frame.payload|])
    && (masked ==> forall i :: 0 <= i < |frame.payload| ==> IsMasked(frame.payload[i], buffer[at - 4 + i % 4], buffer[at + i]))
  }

  lemma TwoByteNumber(s: seq<Byte>)
    requires |s| == 2
    ensures Number(s) == Pair(s[0], s[1])
  {
    assert s[..1] == [s[0]] && s[..1][..0] == [];
    assert Number(s[..1]) == s[0];
  }

  /** Whatever is decoded stands at the head of the buffer. */
  lemma DecodedIsFrame(buffer: seq<Byte>)
    requires Decode(buffer).Whole?
    ensures IsFrameOf(buffer, Decode(buffer).frame, Decode(buffer).rest)
  {
    HeadIsThere(buffer);
    var head, frame := HeadOf(buffer), Decode(buffer).frame;
    if buffer[1] % 128 == 126 { TwoByteNumber(buffer[2..4]); }
    if head.mask.Some? {
      forall i | 0 <= i < |frame.payload|
        ensures IsMasked(frame.payload[i], buffer[head.size - 4 + i % 4], buffer[head.size + i])
      {
        XorIsMasked(buffer[head.size + i], head.mask.value[i % 4]);
      }
    }
  }

  /** The decoder as the program runs it: the length fields in turn, then the payload
      unmasked in its own buffer. A cut-off mask is noticed only by the length check. */
  method DecodeFrame(buffer: seq<Byte>) returns (decoded: Decoded)
    ensures decoded == Decode(buffer) && (decoded.Whole? ==> IsFrameOf(buffer, decoded.frame, decoded.rest))
  {
    if |buffer| < 2 { return NotYet; }
    var fin, opcode, masked := buffer[0] >= 128, buffer[0] % 16, buffer[1] >= 128;
    var length, offset := buffer[1] % 128, 2;
    if length == 126 {
      if |buffer| < offset + 2 { return NotYet; }
      length := Number(buffer[offset..offset + 2]);
      offset := offset + 2;
    } else if length == 127 {
      if |buffer| < offset + 8 { return NotYet; }
      length := Number(buffer[offset..offset + 8]);
      if length > MaxSafeInteger { return TooLarge; }
      offset := offset + 8;
    }
    var mask := if masked then buffer[offset..Min(offset + 4, |buffer|)] else [];
    if masked { offset := offset + 4; }
    if |buffer| < offset + length { return NotYet; }
    var taken := if masked then Some(mask) else None;
    assert HeadOf(buffer) == Head(fin, opcode, length, offset, taken);
    WholeBehindHead(buffer);
    var payload := ReadPayload(buffer[offset..offset + length], taken);
    decoded := Whole(Frame(fin, opcode, payload), buffer[offset + length..]);
  }

  lemma WholeBehindHead(buffer: seq<Byte>)
    requires HeadOf(buffer).Head? && |buffer| >= HeadOf(buffer).size + HeadOf(buffer).length
    ensures var head := HeadOf(buffer); var end := head.size + head.length;
      && IsMask(head.mask) && head.size <= end
      && Decode(buffer) == Whole(Frame(head.fin, head.opcode, Unmasked(buffer[head.size..end], head.mask)), buffer[end..])
      && IsFrameOf(buffer, Decode(buffer).frame, Decode(buffer).rest)
  {
    HeadIsThere(buffer);
    DecodedIsFrame(buffer);
  }

  /** The payload in a buffer of its own, unmasked there. */
  method ReadPayload(bytes: seq<Byte>, mask: Option<seq<Byte>>) returns (payload: seq<Byte>)
    requires IsMask(mask)
    ensures payload == Unmasked(bytes, mask)
  {
    var own := new Byte[|bytes|](i requires 0 <= i < |bytes| => bytes[i]);
    assert own[..] == bytes;
    if mask.Some? { UnmaskInPlace(own, mask.value); }
    payload := own[..];
  }

  method UnmaskInPlace(payload: array<Byte>, mask: seq<Byte>)
    requires |mask| == 4
    modifies payload
    ensures payload[..] == Masked(old(payload[..]), mask)
  {
    for index := 0 to payload.Length
      invariant forall i :: 0 <= i < index ==> payload[i] == Xor(old(payload[i]), mask[i % 4])
      invariant forall i :: index <= i < payload.Length ==> payload[i] == old(payload[i])
    {
      payload[index] := Xor(payload[index], mask[index % 4]);
    }
  }

  // ---- the codec's laws ----

  /** A length field is read back as written, whichever bytes surround it. */
  lemma HeadFromLengths(buffer: seq<Byte>, form: Form, length: nat)
    requires Fits(form, length) && |buffer| >= 2 && Lengths(form, length).0 == buffer[1] % 128
    requires 2 + |Lengths(form, length).1| <= |buffer| && buffer[2..2 + |Lengths(form, length).1|] == Lengths(form, length).1
    ensures HeadOf(buffer) == if length > MaxSafeInteger then Oversized else HeadAfter(buffer, length, 2 + |Lengths(form, length).1|)
  {
    Sizes();
    match form
    case Short =>
    case Medium => NumberOfBigEndian(length, 2);
    case Long => NumberOfBigEndian(length, 8);
  }

  /** A header, complete with its mask, is read back as written, whatever follows. */
  lemma HeadOfHeader(frame: Frame, form: Form, mask: Option<seq<Byte>>, tail: seq<Byte>)
    requires Fits(form, |frame.payload|) && IsMask(mask)
    ensures HeadOf(Header(frame, form, mask) + tail) ==
      if |frame.payload| > MaxSafeInteger then Oversized
      else Head(frame.fin, frame.opcode, |frame.payload|, |Header(frame, form, mask)|, mask)
  {
    var buffer := Header(frame, form, mask) + tail;
    var (seven, more) := Lengths(form, |frame.payload|);
    var offset := 2 + |more|;
    assert buffer[2..offset] == more;
    assert buffer[1] == (if mask.Some? then 128 else 0) + seven;
    HeadFromLengths(buffer, form, |frame.payload|);
    if mask.Some? {
      assert buffer[offset..offset + 4] == mask.value;
    }
  }

  /** Round trip: any opcode, FIN, payload, length form and mask, followed by any bytes. */
  lemma DecodeOfWire(frame: Frame, form: Form, mask: Option<seq<Byte>>, tail: seq<Byte>)
    requires Fits(form, |frame.payload|) && IsMask(mask)
    ensures Decode(Wire(frame, form, mask) + tail) ==
      if |frame.payload| > MaxSafeInteger then TooLarge else Whole(frame, tail)
  {
    var header := Header(frame, form, mask);
    var body := Unmasked(frame.payload, mask);
    assert Wire(frame, form, mask) + tail == header + (body + tail);
    HeadOfHeader(frame, form, mask, body + tail);
    if |frame.payload| <= MaxSafeInteger {
      var buffer := header + (body + tail);
      assert buffer[|header|..|header| + |body|] == body;
      assert buffer[|header| + |body|..] == tail;
      if mask.Some? { UnmaskedAgain(frame.payload, mask.value); }
    }
  }

  lemma DecodeOfEncoded(opcode: Opcode, payload: seq<Byte>, mask: seq<Byte>, tail: seq<Byte>)
    requires |mask| == 4 && |payload| <= MaxSafeInteger
    ensures Decode(Encoded(opcode, payload, mask) + tail) == Whole(Frame(true, opcode, payload), tail)
  {
    DecodeOfWire(Frame(true, opcode, payload), FormOf(|payload|), Some(mask), tail);
  }

  lemma HeadIsStable(buffer: seq<Byte>, tail: seq<Byte>)
    requires !HeadOf(buffer).Partial?
    ensures HeadOf(buffer + tail) == HeadOf(buffer)
  {
    var longer := buffer + tail;
    assert longer[0] == buffer[0] && longer[1] == buffer[1];
    assert |buffer| >= 4 ==> longer[2..4] == buffer[2..4];
    assert |buffer| >= 10 ==> longer[2..10] == buffer[2..10];
    var head := HeadOf(buffer);
    if head.Head? && head.mask.Some? {
      assert longer[head.size - 4..head.size] == buffer[head.size - 4..head.size];
    }
  }

  function Extended(decoded: Decoded, tail: seq<Byte>): Decoded {
    if decoded.Whole? then decoded.(rest := decoded.rest + tail) else decoded
  }

  /** Once the decoder has an answer, more bytes do not change it. */
  lemma DecodeIsStable(buffer: seq<Byte>, tail: seq<Byte>)
    requires !Decode(buffer).NotYet?
    ensures Decode(buffer + tail) == Extended(Decode(buffer), tail)
  {
    HeadIsStable(buffer, tail);
    HeadIsThere(buffer);
    var head := HeadOf(buffer);
    if head.Head? {
      var end := head.size + head.length;
      assert (buffer + tail)[head.size..end] == buffer[head.size..end];
      assert (buffer + tail)[end..] == buffer[end..] + tail;
    }
  }

  /** Any strict prefix of a frame is "not yet". */
  lemma PrefixIsNotYet(frame: Frame, form: Form, mask: Option<seq<Byte>>, n: nat)
    requires Fits(form, |frame.payload|) && IsMask(mask) && |frame.payload| <= MaxSafeInteger
    requires n < |Wire(frame, form, mask)|
    ensures Decode(Wire(frame, form, mask)[..n]) == NotYet
  {
    var wire := Wire(frame, form, mask);
    DecodeOfWire(frame, form, mask, []);
    assert wire + [] == wire == wire[..n] + wire[n..];
    if !Decode(wire[..n]).NotYet? {
      DecodeIsStable(wire[..n], wire[n..]);
    }
  }

  /** The length form and the mask a buffer's frame was written with. */
  function FormIn(buffer: seq<Byte>): Form
    requires |buffer| >= 2
  {
    if buffer[1] % 128 == 126 then Medium else if buffer[1] % 128 == 127 then Long else Short
  }

  lemma HeadParts(buffer: seq<Byte>)
    requires HeadOf(buffer).Head?
    ensures var head := HeadOf(buffer);
      && Fits(FormIn(buffer), head.length)
      && var (seven, more) := Lengths(FormIn(buffer), head.length);
         && seven == buffer[1] % 128 && 2 + |more| <= head.size <= |buffer| && more == buffer[2..2 + |more|]
         && head.size == 2 + |more| + (if buffer[1] < 128 then 0 else 4)
         && head.mask == if buffer[1] < 128 then None else Some(buffer[2 + |more|..head.size])
  {
    Sizes();
    if FormIn(buffer).Medium? { BigEndianOfNumber(buffer[2..4]); }
    if FormIn(buffer).Long? { BigEndianOfNumber(buffer[2..10]); }
  }

  /** The converse: what decodes to a frame is that frame on the wire, in some form and
      with some mask, followed by the rest. The decoder does not look at the three
      reserved bits, so this needs them clear. */
  lemma OnlyWiresDecode(buffer: seq<Byte>) returns (form: Form, mask: Option<seq<Byte>>)
    requires Decode(buffer).Whole? && buffer[0] % 128 < 16
    ensures IsMask(mask) && Fits(form, |Decode(buffer).frame.payload|)
    ensures buffer == Wire(Decode(buffer).frame, form, mask) + Decode(buffer).rest
  {
    var head := HeadOf(buffer);
    HeadIsThere(buffer);
    HeadParts(buffer);
    form, mask := FormIn(buffer), head.mask;
    var frame, body := Decode(buffer).frame, buffer[head.size..head.size + head.length];
    HeaderBytes(buffer, frame);
    if mask.Some? { UnmaskedAgain(body, mask.value); }
    assert Wire(frame, form, mask) == Header(frame, form, mask) + body;
    InThree(buffer, head.size, head.size + head.length);
  }

  lemma InThree<T>(s: seq<T>, i: nat, j: nat)
    requires i <= j <= |s|
    ensures s == s[..i] + s[i..j] + s[j..]
  {
  }

  lemma HeaderBytes(buffer: seq<Byte>, frame: Frame)
    requires var head := HeadOf(buffer);
      && head.Head? && IsMask(head.mask) && buffer[0] % 128 < 16
      && head.fin == frame.fin && head.opcode == frame.opcode && head.length == |frame.payload|
      && Fits(FormIn(buffer), head.length)
    ensures HeadOf(buffer).size <= |buffer|
    ensures buffer[..HeadOf(buffer).size] == Header(frame, FormIn(buffer), HeadOf(buffer).mask)
  {
    HeadParts(buffer);
    HeadIsThere(buffer);
    var size := HeadOf(buffer).size;
    var (seven, more) := Lengths(FormIn(buffer), |frame.payload|);
    InThree(buffer[..size], 2, 2 + |more|);
    FirstTwo(buffer[0], buffer[1], frame);
  }

  lemma FirstTwo(first: Byte, second: Byte, frame: Frame)
    requires first % 128 < 16 && frame.fin == (first >= 128) && frame.opcode == first % 16
    ensures first == (if frame.fin then 128 else 0) + frame.opcode
    ensures second == (if second >= 128 then 128 else 0) + second % 128
  {
  }
}
