/**
 * The drone's MAVLink 2 frame extractor (`MavMessageDecoder::decode`): find
 * the start-of-frame marker, work out the frame length from the payload
 * length and the incompatibility flags, consume the frame and check its
 * CRC-16/MCRF4XX checksum. The message-specific CRC seed (`extra_crc`) and
 * the payload parser (`parse`) come from the mavlink crate; they are
 * parameters here.
 */
module MavCodec {
  import opened Wrappers
  import opened Bytes

  /** MAVLink 2 start-of-frame marker (`MAV_STX_V2`). */
  const MAV_STX_V2: byte := 0xFD
  /** Bit 0 of the incompatibility flags: the frame carries a signature. */
  const MAVLINK_IFLAG_SIGNED: byte := 0x01
  /** Length of the signature trailer. */
  const SIGNATURE_LEN: nat := 13
  /** Marker, nine header bytes and the two checksum bytes. */
  const FRAME_OVERHEAD: nat := 12
  /** Initial value of CRC-16/MCRF4XX. */
  const CRC_INIT: bv16 := 0xFFFF

  // ---------------------------------------------------------------------
  // CRC-16/MCRF4XX: reflected polynomial 0x8408, initial value 0xFFFF, no
  // final xor (`CRCu16::crc16mcrf4cc`).
  // ---------------------------------------------------------------------

  /**
   * One byte into the checksum, bit by bit: xor it into the low byte, then
   * shift right eight times, xoring the polynomial in whenever a 1 is shifted
   * out (`0 - (c & 1)` is all ones exactly when the low bit is set).
   */
  function CrcByte(crc: bv16, b: byte): bv16
  {
    var c0 := crc ^ (b as bv8 as bv16);
    var c1 := (c0 >> 1) ^ ((0 - (c0 & 1)) & 0x8408);
    var c2 := (c1 >> 1) ^ ((0 - (c1 & 1)) & 0x8408);
    var c3 := (c2 >> 1) ^ ((0 - (c2 & 1)) & 0x8408);
    var c4 := (c3 >> 1) ^ ((0 - (c3 & 1)) & 0x8408);
    var c5 := (c4 >> 1) ^ ((0 - (c4 & 1)) & 0x8408);
    var c6 := (c5 >> 1) ^ ((0 - (c5 & 1)) & 0x8408);
    var c7 := (c6 >> 1) ^ ((0 - (c6 & 1)) & 0x8408);
    (c7 >> 1) ^ ((0 - (c7 & 1)) & 0x8408)
  }

  /** The state after feeding the bytes of s, in order, to a step function. */
  function Fold(step: (bv16, byte) -> bv16, crc: bv16, s: seq<byte>): bv16
  {
    if s == [] then crc else step(Fold(step, crc, s[..|s| - 1]), s[|s| - 1])
  }

  /** Feeding one more byte is one more step. */
  lemma FoldSnoc(step: (bv16, byte) -> bv16, crc: bv16, s: seq<byte>, b: byte)
    ensures Fold(step, crc, s + [b]) == step(Fold(step, crc, s), b)
  {
    assert (s + [b])[..|s|] == s;
  }

  /** Feeding in pieces is feeding the concatenation. */
  lemma {:induction false} FoldAppend(step: (bv16, byte) -> bv16, crc: bv16, a: seq<byte>, b: seq<byte>)
    ensures Fold(step, crc, a + b) == Fold(step, Fold(step, crc, a), b)
    decreases |b|
  {
    if b == [] {
      assert a + b == a;
    } else {
      assert (a + b)[..|a + b| - 1] == a + b[..|b| - 1];
      FoldAppend(step, crc, a, b[..|b| - 1]);
    }
  }

  /** The checksum after digesting the bytes of s, in order, starting from crc. */
  function Crc(crc: bv16, s: seq<byte>): bv16
  {
    Fold(CrcByte, crc, s)
  }

  /** Digesting in pieces is digesting the concatenation (`digest` called repeatedly). */
  lemma CrcAppend(crc: bv16, a: seq<byte>, b: seq<byte>)
    ensures Crc(crc, a + b) == Crc(Crc(crc, a), b)
  {
    FoldAppend(CrcByte, crc, a, b);
  }

  /** The catalogued check value of CRC-16/MCRF4XX: "123456789" gives 0x6F91. */
  lemma CrcCheckValue()
    ensures Crc(CRC_INIT, [0x31, 0x32, 0x33, 0x34, 0x35, 0x36, 0x37, 0x38, 0x39]) == 0x6F91
  {
    CheckSteps();
    var s: seq<byte> := [0x31, 0x32, 0x33, 0x34, 0x35, 0x36, 0x37, 0x38, 0x39];
    assert Crc(CRC_INIT, []) == CRC_INIT;
    CrcSnoc(CRC_INIT, s[..0], 0x31);
    assert s[..0] + [0x31] == s[..1];
    CrcSnoc(CRC_INIT, s[..1], 0x32);
    assert s[..1] + [0x32] == s[..2];
    CrcSnoc(CRC_INIT, s[..2], 0x33);
    assert s[..2] + [0x33] == s[..3];
    CrcSnoc(CRC_INIT, s[..3], 0x34);
    assert s[..3] + [0x34] == s[..4];
    CrcSnoc(CRC_INIT, s[..4], 0x35);
    assert s[..4] + [0x35] == s[..5];
    CrcSnoc(CRC_INIT, s[..5], 0x36);
    assert s[..5] + [0x36] == s[..6];
    CrcSnoc(CRC_INIT, s[..6], 0x37);
    assert s[..6] + [0x37] == s[..7];
    CrcSnoc(CRC_INIT, s[..7], 0x38);
    assert s[..7] + [0x38] == s[..8];
    CrcSnoc(CRC_INIT, s[..8], 0x39);
    assert s[..8] + [0x39] == s[..9];
    assert s[..9] == s;
  }

  /** Digesting one more byte. */
  lemma CrcSnoc(crc: bv16, s: seq<byte>, b: byte)
    ensures Crc(crc, s + [b]) == CrcByte(Crc(crc, s), b)
  {
    FoldSnoc(CrcByte, crc, s, b);
  }

  /** The checksum after each byte of "123456789". */
  lemma CheckSteps()
    ensures CrcByte(0xFFFF, 0x31) == 0x2F8D
    ensures CrcByte(0x2F8D, 0x32) == 0x4D53
    ensures CrcByte(0x4D53, 0x33) == 0x634B
    ensures CrcByte(0x634B, 0x34) == 0x8B13
    ensures CrcByte(0x8B13, 0x35) == 0x44BF
    ensures CrcByte(0x44BF, 0x36) == 0x198D
    ensures CrcByte(0x198D, 0x37) == 0x1AC8
    ensures CrcByte(0x1AC8, 0x38) == 0xF795
    ensures CrcByte(0xF795, 0x39) == 0x6F91
  {
  }

  // ---------------------------------------------------------------------
  // The frame extractor as a function of the buffered bytes.
  // ---------------------------------------------------------------------

  datatype MavHeader = MavHeader(sequence: byte, systemId: byte, componentId: byte)

  /** What `decode` returns, and the bytes left in the buffer afterwards. */
  datatype Outcome<M, E> = Outcome(result: Result<Option<(MavHeader, M)>, E>, rest: seq<byte>)

  predicate Signed(incompatFlags: byte)
  {
    incompatFlags % 2 == MAVLINK_IFLAG_SIGNED
  }

  /** The whole frame's length from its payload length and incompatibility flags. */
  function FrameLength(payloadLen: byte, incompatFlags: byte): (n: nat)
    ensures n == FRAME_OVERHEAD + payloadLen + (if Signed(incompatFlags) then SIGNATURE_LEN else 0)
  {
    var n := FRAME_OVERHEAD + payloadLen;
    if Signed(incompatFlags) then n + SIGNATURE_LEN else n
  }

  /** The 24-bit little-endian message id in bytes 7..10 of a frame (`u32::from_le_bytes` with a zero high byte). */
  function MsgId(frame: seq<byte>): (id: nat)
    requires |frame| >= 10
    ensures id == FromLE(frame[7..10]) && id < 0x100_0000
  {
    FromLEZeroPad(frame[7..10]);
    assert Pow256(3) == 0x100_0000;
    FromLE(frame[7..10] + [0])
  }

  /** The checksum carried by a complete frame s matches the one computed over its header, payload and seed. */
  predicate ChecksumMatches(s: seq<byte>, extraCrc: nat -> byte)
    requires |s| >= 3 && |s| >= FrameLength(s[1], s[2])
  {
    Crc(CRC_INIT, s[1..10] + s[10..10 + s[1]] + [extraCrc(MsgId(s))]) as int == FromLE(s[10 + s[1]..12 + s[1]])
  }

  /**
   * A complete frame at the start of s is consumed whether or not its
   * checksum matches; only a matching one is handed to `parse`.
   */
  function DecodeFrame<M, E>(s: seq<byte>, extraCrc: nat -> byte, parse: (nat, seq<byte>) -> Result<M, E>): (o: Outcome<M, E>)
    requires |s| >= 3 && |s| >= FrameLength(s[1], s[2])
    ensures o.rest == s[FrameLength(s[1], s[2])..]
    ensures !ChecksumMatches(s, extraCrc) ==> o.result == Ok(None)
  {
    var rest := s[FrameLength(s[1], s[2])..];
    if !ChecksumMatches(s, extraCrc) then Outcome(Ok(None), rest)
    else
      match parse(MsgId(s), s[10..10 + s[1]])
      case Ok(m) => Outcome(Ok(Some((MavHeader(s[4], s[5], s[6]), m))), rest)
      case Err(e) => Outcome(Err(e), rest)
  }

  /** From the marker on: a frame not yet complete leaves the buffer as it is. */
  function DecodeAt<M, E>(s: seq<byte>, extraCrc: nat -> byte, parse: (nat, seq<byte>) -> Result<M, E>): Outcome<M, E>
  {
    if |s| < 3 || |s| < FrameLength(s[1], s[2]) then Outcome(Ok(None), s)
    else DecodeFrame(s, extraCrc, parse)
  }

  /** One call of `decode` on the buffered bytes src: the bytes before the first marker are dropped. */
  function Decode<M, E>(src: seq<byte>, extraCrc: nat -> byte, parse: (nat, seq<byte>) -> Result<M, E>): Outcome<M, E>
  {
    match FirstIndex(src, MAV_STX_V2)
    case None => Outcome(Ok(None), src)
    case Some(index) => DecodeAt(src[index..], extraCrc, parse)
  }

  // ---------------------------------------------------------------------
  // What the extractor promises.
  // ---------------------------------------------------------------------

  /** Without a marker nothing is returned and the buffer is left alone. */
  lemma NoMarkerNoChange<M, E>(src: seq<byte>, extraCrc: nat -> byte, parse: (nat, seq<byte>) -> Result<M, E>)
    requires MAV_STX_V2 !in src
    ensures Decode(src, extraCrc, parse) == Outcome(Ok(None), src)
  {
  }

  /**
   * The bytes before the first marker are discarded before anything else is
   * examined: prefixing marker-free bytes changes nothing but what is dropped.
   */
  lemma {:induction false} JunkIgnored<M, E>(junk: seq<byte>, s: seq<byte>, extraCrc: nat -> byte, parse: (nat, seq<byte>) -> Result<M, E>)
    requires MAV_STX_V2 !in junk && MAV_STX_V2 in s
    ensures Decode(junk + s, extraCrc, parse) == Decode(s, extraCrc, parse)
  {
    FirstIndexAfter(junk, s, MAV_STX_V2);
    var i := FirstIndex(s, MAV_STX_V2).value;
    var t := junk + s;
    assert t[|junk| + i..] == s[i..];
    DecodeFromMarker(t, |junk| + i, s[i..], extraCrc, parse);
    DecodeFromMarker(s, i, s[i..], extraCrc, parse);
  }

  /** With the first marker at index i, `decode` works on the bytes from i on. */
  lemma DecodeFromMarker<M, E>(src: seq<byte>, i: nat, tail: seq<byte>, extraCrc: nat -> byte, parse: (nat, seq<byte>) -> Result<M, E>)
    requires FirstIndex(src, MAV_STX_V2) == Some(i) && tail == src[i..]
    ensures Decode(src, extraCrc, parse) == DecodeAt(tail, extraCrc, parse)
  {
  }

  /**
   * A frame not yet complete (fewer than three bytes from the marker, or
   * fewer than the frame length) yields nothing and leaves the buffer
   * starting at the marker; a complete one consumes exactly its length.
   */
  lemma Consumption<M, E>(src: seq<byte>, extraCrc: nat -> byte, parse: (nat, seq<byte>) -> Result<M, E>)
    requires MAV_STX_V2 in src
    ensures var i := FirstIndex(src, MAV_STX_V2).value;
      var s := src[i..];
      var d := Decode(src, extraCrc, parse);
      (|s| < 3 || |s| < FrameLength(s[1], s[2]) ==> d == Outcome(Ok(None), s)) &&
      (|s| >= 3 && |s| >= FrameLength(s[1], s[2]) ==> d.rest == s[FrameLength(s[1], s[2])..])
  {
  }

  /** A complete frame whose checksum does not match is dropped: nothing is returned. */
  lemma BadChecksumDropped<M, E>(src: seq<byte>, extraCrc: nat -> byte, parse: (nat, seq<byte>) -> Result<M, E>)
    requires MAV_STX_V2 in src
    requires var s := src[FirstIndex(src, MAV_STX_V2).value..];
      |s| >= 3 && |s| >= FrameLength(s[1], s[2]) && !ChecksumMatches(s, extraCrc)
    ensures Decode(src, extraCrc, parse).result == Ok(None)
  {
  }

  // ---------------------------------------------------------------------
  // Building a frame, and reading it back.
  // ---------------------------------------------------------------------

  /** The fields of one MAVLink 2 frame. */
  datatype Fields = Fields(incompatFlags: byte, compatFlags: byte, header: MavHeader,
                           msgid: nat, payload: seq<byte>, signature: seq<byte>)

  predicate ValidFields(f: Fields)
  {
    |f.payload| < 256 && f.msgid < 0x100_0000 &&
    |f.signature| == (if Signed(f.incompatFlags) then SIGNATURE_LEN else 0)
  }

  /** The nine header bytes after the marker. */
  function HeaderBytes(f: Fields): (h: seq<byte>)
    requires ValidFields(f)
    ensures |h| == 9 && h[0] == |f.payload| && h[1] == f.incompatFlags && h[2] == f.compatFlags
    ensures h[3] == f.header.sequence && h[4] == f.header.systemId && h[5] == f.header.componentId
    ensures FromLE(h[6..]) == f.msgid
  {
    FromToLE(f.msgid, 3);
    [|f.payload|, f.incompatFlags, f.compatFlags, f.header.sequence, f.header.systemId, f.header.componentId]
      + ToLE(f.msgid, 3)
  }

  /** The bytes of a frame as a sender puts them on the wire, with the checksum it computes. */
  function EncodeFrame(f: Fields, extraCrc: nat -> byte): (s: seq<byte>)
    requires ValidFields(f)
    ensures |s| == FrameLength(|f.payload|, f.incompatFlags)
  {
    var crc := Crc(CRC_INIT, HeaderBytes(f) + f.payload + [extraCrc(f.msgid)]);
    assert Pow256(2) == 0x1_0000;
    [MAV_STX_V2] + HeaderBytes(f) + f.payload + ToLE(crc as int, 2) + f.signature
  }

  /** The pieces of an encoded frame, where the extractor reads them. */
  lemma EncodeFrameLayout(f: Fields, extraCrc: nat -> byte, rest: seq<byte>)
    requires ValidFields(f)
    ensures var s := EncodeFrame(f, extraCrc) + rest;
      var n := |f.payload|;
      s[0] == MAV_STX_V2 && s[1] == n && s[2] == f.incompatFlags &&
      s[1..10] == HeaderBytes(f) && s[10..10 + n] == f.payload &&
      s[4] == f.header.sequence && s[5] == f.header.systemId && s[6] == f.header.componentId &&
      FromLE(s[10 + n..12 + n]) == Crc(CRC_INIT, HeaderBytes(f) + f.payload + [extraCrc(f.msgid)]) as int &&
      MsgId(s) == f.msgid && s[FrameLength(s[1], s[2])..] == rest
  {
    var h := HeaderBytes(f);
    var n := |f.payload|;
    var crc := Crc(CRC_INIT, h + f.payload + [extraCrc(f.msgid)]);
    assert Pow256(2) == 0x1_0000;
    var c := ToLE(crc as int, 2);
    FromToLE(crc as int, 2);
    var s := [MAV_STX_V2] + h + f.payload + c + f.signature + rest;
    assert s == EncodeFrame(f, extraCrc) + rest;
    assert s[1..10] == h;
    assert s[7..10] == h[6..];
    assert s[10..10 + n] == f.payload;
    assert s[10 + n..12 + n] == c;
    assert s[FrameLength(s[1], s[2])..] == rest;
  }

  /**
   * Reading back: marker-free junk, then an encoded frame, then anything
   * else is decoded into the frame's header and whatever `parse` makes of
   * its id and payload, and exactly the junk and the frame are consumed.
   */
  lemma FrameRoundTrip<M, E>(junk: seq<byte>, f: Fields, rest: seq<byte>,
                             extraCrc: nat -> byte, parse: (nat, seq<byte>) -> Result<M, E>)
    requires MAV_STX_V2 !in junk && ValidFields(f)
    ensures Decode(junk + EncodeFrame(f, extraCrc) + rest, extraCrc, parse) ==
      match parse(f.msgid, f.payload)
      case Ok(m) => Outcome(Ok(Some((f.header, m))), rest)
      case Err(e) => Outcome(Err(e), rest)
  {
    var s := EncodeFrame(f, extraCrc) + rest;
    EncodeFrameLayout(f, extraCrc, rest);
    FirstIndexAt(s, MAV_STX_V2, 0);
    assert s[0..] == s;
    assert junk + EncodeFrame(f, extraCrc) + rest == junk + s;
    JunkIgnored(junk, s, extraCrc, parse);
  }

  // ---------------------------------------------------------------------
  // The decoder working on the codec's buffer.
  // ---------------------------------------------------------------------

  /** `MavMessageDecoder::decode`: advances and splits the buffer in place. */
  method DecodeMessage<M, E>(src: Buffer, extraCrc: nat -> byte, parse: (nat, seq<byte>) -> Result<M, E>)
      returns (r: Result<Option<(MavHeader, M)>, E>)
    modifies src
    ensures Outcome(r, src.data) == Decode(old(src.data), extraCrc, parse)
  {
    var position := Position(src.data, MAV_STX_V2);
    if position.None? {
      return Ok(None);
    }
    src.Advance(position.value);
    if |src.data| < 2 {
      return Ok(None);
    }
    var payloadLen := src.data[1];
    if |src.data| < 3 {
      return Ok(None);
    }
    var hasSignature := src.data[2] % 2 == MAVLINK_IFLAG_SIGNED;
    var messageLen := FRAME_OVERHEAD + payloadLen;
    if hasSignature {
      messageLen := messageLen + SIGNATURE_LEN;
    }
    if |src.data| < messageLen {
      return Ok(None);
    }
    r := ReadFrame(src, hasSignature, extraCrc, parse);
  }

  /** The complete frame at the marker: skip the marker, read the header, split off the payload, check the checksum. */
  method ReadFrame<M, E>(src: Buffer, hasSignature: bool, extraCrc: nat -> byte, parse: (nat, seq<byte>) -> Result<M, E>)
      returns (r: Result<Option<(MavHeader, M)>, E>)
    requires |src.data| >= 3 && |src.data| >= FrameLength(src.data[1], src.data[2])
    requires hasSignature == Signed(src.data[2])
    modifies src
    ensures Outcome(r, src.data) == DecodeFrame(old(src.data), extraCrc, parse)
  {
    ghost var s := src.data;
    src.Advance(1);
    var header := ReadHeader(src);
    assert header == s[1..10] && src.data == s[10..];
    var payloadLen := header[0];
    var msgid := FromLE(header[6..] + [0]);
    assert msgid == MsgId(s);
    ghost var body := src.data;
    var payload, crc := ReadBody(src, payloadLen, hasSignature);
    assert body[..payloadLen] == s[10..10 + payloadLen];
    assert body[payloadLen..payloadLen + 2] == s[10 + payloadLen..12 + payloadLen];
    assert src.data == s[FrameLength(s[1], s[2])..] by {
      assert src.data == body[payloadLen + 2 + (if hasSignature then SIGNATURE_LEN else 0)..];
    }
    var digest := Crc(CRC_INIT, header);
    digest := Crc(digest, payload);
    digest := Crc(digest, [extraCrc(msgid)]);
    CrcAppend(CRC_INIT, header, payload);
    CrcAppend(CRC_INIT, header + payload, [extraCrc(msgid)]);
    if digest as int == crc {
      match parse(msgid, payload)
      case Ok(m) => r := Ok(Some((MavHeader(header[3], header[4], header[5]), m)));
      case Err(e) => r := Err(e);
    } else {
      r := Ok(None);
    }
  }

  /** The payload (`split_to`), the checksum (`get_u16_le`) and, when signed, the skipped signature. */
  method ReadBody(src: Buffer, payloadLen: nat, hasSignature: bool) returns (payload: seq<byte>, crc: nat)
    requires |src.data| >= payloadLen + 2 + (if hasSignature then SIGNATURE_LEN else 0)
    modifies src
    ensures payload == old(src.data)[..payloadLen]
    ensures crc == FromLE(old(src.data)[payloadLen..payloadLen + 2])
    ensures src.data == old(src.data)[payloadLen + 2 + (if hasSignature then SIGNATURE_LEN else 0)..]
  {
    payload := src.SplitTo(payloadLen);
    crc := src.GetU16Le();
    if hasSignature {
      src.Advance(SIGNATURE_LEN);
    }
  }

  /** The nine `get_u8` reads after the marker, collected into `header_buf`. */
  method ReadHeader(src: Buffer) returns (header: seq<byte>)
    requires |src.data| >= 9
    modifies src
    ensures header == old(src.data)[..9] && src.data == old(src.data)[9..]
  {
    ghost var s := src.data;
    var payloadLen := src.GetU8();
    assert payloadLen == s[0] && src.data == s[1..];
    var incompatFlags := src.GetU8();
    assert incompatFlags == s[1] && src.data == s[2..];
    var compatFlags := src.GetU8();
    assert compatFlags == s[2] && src.data == s[3..];
    var sequence := src.GetU8();
    assert sequence == s[3] && src.data == s[4..];
    var systemId := src.GetU8();
    assert systemId == s[4] && src.data == s[5..];
    var componentId := src.GetU8();
    assert componentId == s[5] && src.data == s[6..];
    var m0 := src.GetU8();
    assert m0 == s[6] && src.data == s[7..];
    var m1 := src.GetU8();
    assert m1 == s[7] && src.data == s[8..];
    var m2 := src.GetU8();
    assert m2 == s[8] && src.data == s[9..];
    header := [payloadLen, incompatFlags, compatFlags, sequence, systemId, componentId, m0, m1, m2];
  }
}
