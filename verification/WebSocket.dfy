/**
 The RFC 6455 client framing of the Home Assistant connection: the masked frames it sends, and the
 buffered reader that joins fragments, answers pings and works on whatever chunks `recv` returns.
 Integers stand for bytes; a message is its bytes, JSON is not part of this model.
 */
module WebSocket {
  import opened Options

  type Byte = b: int | 0 <= b < 256
  type Bytes = seq<Byte>

  const POW16: int := 0x1_0000
  const POW63: int := 0x8000_0000_0000_0000
  const POW64: int := 0x1_0000_0000_0000_0000

  /** The exclusive or of the low `bits` bits. */
  function XorBits(a: nat, b: nat, bits: nat): (r: nat) {
    if bits == 0 then 0 else (a % 2 + b % 2) % 2 + 2 * XorBits(a / 2, b / 2, bits - 1)
  }

  function Pow2(bits: nat): nat { if bits == 0 then 1 else 2 * Pow2(bits - 1) }

  lemma {:induction false} XorBitsTwice(a: nat, b: nat, bits: nat)
    requires a < Pow2(bits)
    ensures XorBits(a, b, bits) < Pow2(bits)
    ensures XorBits(XorBits(a, b, bits), b, bits) == a
  {
    if bits > 0 {
      var bit, high := (a % 2 + b % 2) % 2, XorBits(a / 2, b / 2, bits - 1);
      XorBitsTwice(a / 2, b / 2, bits - 1);
      LowBit(bit, high);
      BitTwice(a % 2, b % 2);
      calc {
        XorBits(bit + 2 * high, b, bits);
        ((bit + 2 * high) % 2 + b % 2) % 2 + 2 * XorBits((bit + 2 * high) / 2, b / 2, bits - 1);
        a % 2 + 2 * (a / 2);
        a;
      }
    }
  }

  lemma BitTwice(x: nat, y: nat)
    requires x < 2 && y < 2
    ensures ((x + y) % 2 + y) % 2 == x
  {
  }

  lemma LowBit(bit: nat, high: nat)
    requires bit < 2
    ensures (bit + 2 * high) % 2 == bit && (bit + 2 * high) / 2 == high
  {
  }

  lemma {:induction false} XorBitsBound(a: nat, b: nat, bits: nat)
    ensures XorBits(a, b, bits) < Pow2(bits)
  {
    if bits > 0 {
      XorBitsBound(a / 2, b / 2, bits - 1);
    }
  }

  lemma Pow2Of8()
    ensures Pow2(8) == 256
  {
    assert Pow2(4) == 16;
  }

  function Xor(a: Byte, b: Byte): Byte {
    XorBitsBound(a, b, 8);
    Pow2Of8();
    XorBits(a, b, 8)
  }

  lemma XorTwice(a: Byte, b: Byte)
    ensures Xor(Xor(a, b), b) == a
  {
    Pow2Of8();
    XorBitsTwice(a, b, 8);
  }

  /** The `k`-th bit of a number. */
  function Bit(n: nat, k: nat): nat { if k == 0 then n % 2 else Bit(n / 2, k - 1) }

  /** Exclusive or, bit by bit: a bit is set exactly when it differs. */
  lemma {:induction false} XorIsBitwise(a: nat, b: nat, bits: nat, k: nat)
    requires k < bits
    ensures Bit(XorBits(a, b, bits), k) == 1 <==> Bit(a, k) != Bit(b, k)
  {
    LowBit((a % 2 + b % 2) % 2, XorBits(a / 2, b / 2, bits - 1));
    if k > 0 {
      XorIsBitwise(a / 2, b / 2, bits - 1, k - 1);
    }
  }

  // ----- Network byte order -----

  function Pow256(width: nat): nat { if width == 0 then 1 else 256 * Pow256(width - 1) }

  /** `struct.pack` of an unsigned integer in network order. */
  function BigEndian(n: nat, width: nat): (bs: Bytes)
    ensures |bs| == width
  {
    if width == 0 then [] else BigEndian(n / 256, width - 1) + [n % 256]
  }

  function FromBigEndian(bs: Bytes): nat {
    if bs == [] then 0 else 256 * FromBigEndian(bs[..|bs| - 1]) + bs[|bs| - 1]
  }

  lemma {:induction false} BigEndianRoundTrip(n: nat, width: nat)
    requires n < Pow256(width)
    ensures FromBigEndian(BigEndian(n, width)) == n
  {
    if width > 0 {
      BigEndianRoundTrip(n / 256, width - 1);
      assert BigEndian(n, width)[..width - 1] == BigEndian(n / 256, width - 1);
    }
  }

  lemma {:induction false} FromBigEndianRoundTrip(bs: Bytes)
    ensures FromBigEndian(bs) < Pow256(|bs|)
    ensures BigEndian(FromBigEndian(bs), |bs|) == bs
  {
    if bs != [] {
      var n, high := FromBigEndian(bs), bs[..|bs| - 1];
      FromBigEndianRoundTrip(high);
      assert n / 256 == FromBigEndian(high) && n % 256 == bs[|bs| - 1];
      assert BigEndian(n, |bs|) == BigEndian(FromBigEndian(high), |bs| - 1) + [n % 256];
      assert bs == high + [bs[|bs| - 1]];
    }
  }

  lemma Powers()
    ensures Pow256(2) == POW16 && Pow256(8) == POW64
  {
    assert Pow256(4) == 256 * 256 * 256 * 256;
    assert Pow256(8) == 256 * 256 * 256 * 256 * Pow256(4);
  }

  // ----- The three length forms -----

  datatype Form = Short | Medium | Long

  predicate Fits(form: Form, length: nat) {
    match form
    case Short => length < 126
    case Medium => length < POW16
    case Long => length < POW64
  }

  function Minimal(length: nat): Form {
    if length < 126 then Short else if length < POW16 then Medium else Long
  }

  /** The second header byte without its top bit, and the extended length after it. */
  function LengthBytes(form: Form, length: nat, top: bool): Bytes
    requires Fits(form, length)
  {
    var bit := if top then 128 else 0;
    match form
    case Short => [bit + length]
    case Medium => [bit + 126] + BigEndian(length, 2)
    case Long => [bit + 127] + BigEndian(length, 8)
  }

  /** How a receiver reads a length: the form its first byte announces, the length, and what follows. */
  datatype Length = Length(form: Form, length: nat, rest: Bytes)

  function ReadLength(s: Bytes): Option<Length> {
    if |s| < 1 then None
    else
      var b := s[0] % 128;
      if b < 126 then Some(Length(Short, b, s[1..]))
      else if b == 126 then if |s| < 3 then None else Some(Length(Medium, FromBigEndian(s[1..3]), s[3..]))
      else if |s| < 9 then None else Some(Length(Long, FromBigEndian(s[1..9]), s[9..]))
  }

  lemma LengthRoundTrip(form: Form, length: nat, top: bool, suffix: Bytes)
    requires Fits(form, length)
    ensures ReadLength(LengthBytes(form, length, top) + suffix) == Some(Length(form, length, suffix))
  {
    match form
    case Short =>
    case Medium => ExtendedLength(126, length, 2, top, suffix);
    case Long => ExtendedLength(127, length, 8, top, suffix);
  }

  lemma ExtendedLength(announced: nat, length: nat, width: nat, top: bool, suffix: Bytes)
    requires announced < 128 && ((width == 2 && length < POW16) || (width == 8 && length < POW64))
    ensures var first := (if top then 128 else 0) + announced;
            var s := [first] + BigEndian(length, width) + suffix;
            s[0] % 128 == announced && FromBigEndian(s[1..1 + width]) == length && s[1 + width..] == suffix
  {
    var s := [(if top then 128 else 0) + announced] + BigEndian(length, width) + suffix;
    Powers();
    BigEndianRoundTrip(length, width);
    assert s[1..1 + width] == BigEndian(length, width);
  }

  lemma LengthReadBack(s: Bytes)
    requires ReadLength(s).Some?
    ensures var l := ReadLength(s).value;
            Fits(l.form, l.length) && s == LengthBytes(l.form, l.length, s[0] >= 128) + l.rest
  {
    Powers();
    if s[0] % 128 == 126 {
      FromBigEndianRoundTrip(s[1..3]);
    } else if s[0] % 128 == 127 {
      FromBigEndianRoundTrip(s[1..9]);
    }
  }

  /** The minimal form is the shortest the length fits: 125 and 65535 are the last lengths of the first two. */
  lemma MinimalIsShortest(length: nat)
    requires length < POW63
    ensures Minimal(length) == Short <==> length <= 125
    ensures Minimal(length) == Medium <==> 126 <= length <= 65535
    ensures Fits(Minimal(length), length) && 2 * POW63 == POW64 == Pow256(8)
  {
    Powers();
  }

  // ----- What the client sends -----

  function Masked(payload: Bytes, mask: Bytes): (r: Bytes)
    requires |mask| == 4
    ensures |r| == |payload|
  {
    seq(|payload|, i requires 0 <= i < |payload| => Xor(payload[i], mask[i % 4]))
  }

  /** One final, masked text frame (sections 5.2 and 5.3 of RFC 6455) in the minimal length form. */
  function ClientFrame(payload: Bytes, mask: Bytes): Bytes
    requires |payload| < POW63 && |mask| == 4
  {
    [0x81] + LengthBytes(Minimal(|payload|), |payload|, true) + mask + Masked(payload, mask)
  }

  datatype Decoded = Decoded(fin: bool, opcode: int, payload: Bytes, rest: Bytes)

  /** The receiving side of sections 5.2 and 5.3, as a server must do it: reserved bits zero, the frame
      masked, the length in its minimal form and below 2^63. */
  function DecodeClientFrame(s: Bytes): Option<Decoded> {
    if s == [] then None
    else
      match ReadLength(s[1..])
      case None => None
      case Some(l) => Unframe(s[0], s[1] >= 128, l)
  }

  function Unframe(first: Byte, masked: bool, l: Length): Option<Decoded> {
    if first / 16 % 8 != 0 || !masked || l.form != Minimal(l.length) || l.length >= POW63 || |l.rest| < 4 + l.length
    then None
    else Some(Decoded(first >= 128, first % 16, Masked(l.rest[4..4 + l.length], l.rest[..4]), l.rest[4 + l.length..]))
  }

  lemma UnmaskMask(payload: Bytes, mask: Bytes)
    requires |mask| == 4
    ensures Masked(Masked(payload, mask), mask) == payload
  {
    forall i | 0 <= i < |payload| ensures Masked(Masked(payload, mask), mask)[i] == payload[i] {
      XorTwice(payload[i], mask[i % 4]);
    }
  }

  /** A server reads back exactly the payload, as one final text frame, and leaves the bytes after it. */
  lemma ClientFrameRoundTrip(payload: Bytes, mask: Bytes, suffix: Bytes)
    requires |payload| < POW63 && |mask| == 4
    ensures DecodeClientFrame(ClientFrame(payload, mask) + suffix) == Some(Decoded(true, 1, payload, suffix))
  {
    var header := LengthBytes(Minimal(|payload|), |payload|, true);
    var body := mask + Masked(payload, mask) + suffix;
    LengthRoundTrip(Minimal(|payload|), |payload|, true, body);
    UnframeMasked(payload, mask, suffix);
    TopBitIsSet(Minimal(|payload|), |payload|);
    MaskedLayout(0x81, header, mask, Masked(payload, mask), suffix);
  }

  lemma TopBitIsSet(form: Form, length: nat)
    requires Fits(form, length)
    ensures LengthBytes(form, length, true) != [] && LengthBytes(form, length, true)[0] >= 128
  {
  }

  lemma MaskedLayout(first: Byte, header: Bytes, mask: Bytes, masked: Bytes, suffix: Bytes)
    requires header != []
    ensures var s := [first] + header + mask + masked + suffix;
            s[0] == first && s[1] == header[0] && s[1..] == header + (mask + masked + suffix)
  {
  }

  lemma UnframeMasked(payload: Bytes, mask: Bytes, suffix: Bytes)
    requires |payload| < POW63 && |mask| == 4
    ensures var body := mask + Masked(payload, mask) + suffix;
            Unframe(0x81, true, Length(Minimal(|payload|), |payload|, body)) == Some(Decoded(true, 1, payload, suffix))
  {
    var body := mask + Masked(payload, mask) + suffix;
    assert body[..4] == mask && body[4..4 + |payload|] == Masked(payload, mask) && body[4 + |payload|..] == suffix;
    UnmaskMask(payload, mask);
  }

  /** The frame byte by byte (section 5.2 of RFC 6455): final text, the mask bit with the shortest length form in
      network order, the mask, and the masked payload. */
  lemma ClientFrameBytes(payload: Bytes, mask: Bytes)
    requires |payload| < POW63 && |mask| == 4
    ensures var f, n, head := ClientFrame(payload, mask), |payload|, HeadSize(|payload|);
            && |f| == head + 4 + n && f[0] == 0x81
            && f[1] == 128 + (if n <= 125 then n else if n <= 65535 then 126 else 127)
            && (n > 125 ==> f[2..head] == BigEndian(n, head - 2))
            && f[head..head + 4] == mask && f[head + 4..] == Masked(payload, mask)
  {
    HeaderBytes(|payload|);
    FrameSlices(0x81, LengthBytes(Minimal(|payload|), |payload|, true), mask, Masked(payload, mask));
  }

  /** The header in front of the mask: two bytes, and two or eight more for a length over 125 or 65535. */
  function HeadSize(n: nat): nat { if n <= 125 then 2 else if n <= 65535 then 4 else 10 }

  lemma HeaderBytes(n: nat)
    requires n < POW63
    ensures Fits(Minimal(n), n)
    ensures var h := LengthBytes(Minimal(n), n, true);
            && |h| == HeadSize(n) - 1
            && h[0] == 128 + (if n <= 125 then n else if n <= 65535 then 126 else 127)
            && (n > 125 ==> h[1..] == BigEndian(n, HeadSize(n) - 2))
  {
    MinimalIsShortest(n);
  }

  /** Masking flips in byte i of the payload the bits set in mask byte i modulo 4 (section 5.3 of RFC 6455). */
  lemma MaskedBit(payload: Bytes, mask: Bytes, i: nat, k: nat)
    requires |mask| == 4 && i < |payload| && k < 8
    ensures Bit(Masked(payload, mask)[i], k) == 1 <==> Bit(payload[i], k) != Bit(mask[i % 4], k)
  {
    XorIsBitwise(payload[i], mask[i % 4], 8, k);
  }

  lemma FrameSlices(first: Byte, header: Bytes, mask: Bytes, masked: Bytes)
    requires header != []
    ensures var f, h := [first] + header + mask + masked, 1 + |header|;
            && |f| == h + |mask| + |masked| && f[0] == first && f[1] == header[0] && f[2..h] == header[1..]
            && f[h..h + |mask|] == mask && f[h + |mask|..] == masked
  {
  }

  /** And no other byte string is read as that message: the frames sent are all a server accepts as final text. */
  lemma ClientFrameIsTheOnlyEncoding(s: Bytes)
    requires DecodeClientFrame(s).Some? && DecodeClientFrame(s).value.fin && DecodeClientFrame(s).value.opcode == 1
    ensures var d := DecodeClientFrame(s).value;
            |d.payload| < POW63 && exists mask | |mask| == 4 :: s == ClientFrame(d.payload, mask) + d.rest
  {
    var d := DecodeClientFrame(s).value;
    var mask, wire := FrameParts(s);
    UnmaskMask(wire, mask);
    assert s == ClientFrame(d.payload, mask) + d.rest;
  }

  lemma Spliced(first: Byte, s: Bytes, header: Bytes, rest: Bytes, n: nat)
    requires s == header + rest && n <= |rest|
    ensures [first] + s == [first] + header + rest[..n] + rest[n..]
  {
  }

  lemma UnframeParts(first: Byte, l: Length) returns (mask: Bytes, wire: Bytes)
    requires Unframe(first, true, l).Some?
    ensures var d := Unframe(first, true, l).value;
            && |mask| == 4 && d.payload == Masked(wire, mask) && |wire| == l.length && l.rest == mask + wire + d.rest
  {
    mask, wire := l.rest[..4], l.rest[4..4 + l.length];
  }

  lemma FrameParts(s: Bytes) returns (mask: Bytes, wire: Bytes)
    requires DecodeClientFrame(s).Some?
    ensures var d := DecodeClientFrame(s).value;
            && |mask| == 4 && d.payload == Masked(wire, mask) && |wire| < POW63
            && s == [s[0]] + LengthBytes(Minimal(|wire|), |wire|, true) + mask + wire + d.rest
            && s[0] == (if d.fin then 128 else 0) + d.opcode
  {
    var l := ReadLength(s[1..]).value;
    mask, wire := UnframeParts(s[0], l);
    FirstByte(s[0]);
    LengthReadBack(s[1..]);
    Assembled(s, LengthBytes(l.form, l.length, true), mask, wire, Unframe(s[0], true, l).value.rest);
  }

  lemma Assembled(s: Bytes, header: Bytes, mask: Bytes, wire: Bytes, rest: Bytes)
    requires s != [] && s[1..] == header + (mask + wire + rest)
    ensures s == [s[0]] + header + mask + wire + rest
  {
    assert s == [s[0]] + s[1..];
  }

  lemma FirstByte(b: Byte)
    requires b / 16 % 8 == 0
    ensures b == (if b >= 128 then 128 else 0) + b % 16
  {
  }
}
