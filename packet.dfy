/** The Bilibili live frame codec of src/live/packet.rs: a 16-byte big-endian
    header (total length, header length, version, operation, sequence)
    followed by the body. Version-2 frames carry a zlib-compressed run of
    further frames; zlib itself is the `inflate` parameter. */
module Packet {
  import opened Wrappers
  import opened Bytes

  const HEADER_LEN: u16 := 16

  const OP_HEARTBEAT: u32 := 2
  const OP_HEARTBEAT_REPLY: u32 := 3
  const OP_SEND_EVENT: u32 := 5
  const OP_AUTH: u32 := 7
  const OP_AUTH_REPLY: u32 := 8

  datatype BiliPacket = BiliPacket(
    packetLen: u32,
    headerLen: u16,
    version: u16,
    operation: u32,
    sequence: u32,
    body: seq<byte>)

  /** Why decoding gives up: the inflater failed (an I/O error in the code),
      the body slice would panic because `header_len > packet_len`, or
      compressed frames are nested beyond the `depth` allowed to the model. */
  datatype DecodeError =
    | InflateFailed
    | SlicePanic(headerLen: u16, packetLen: u32)
    | NestingTooDeep

  /** zlib decompression of a whole body; None when the stream is corrupt. */
  type Inflater = seq<byte> -> Option<seq<byte>>

  type Decoded = Result<seq<BiliPacket>, DecodeError>

  /** `to_be_bytes` of a u16. */
  function BE16(n: u16): seq<byte> {
    var hi := n as int / 0x100;
    assert hi * 0x100 <= n;
    [hi, n % 0x100]
  }

  /** `to_be_bytes` of a u32. */
  function BE32(n: u32): seq<byte> {
    var hi := n as int / 0x1_0000;
    assert hi * 0x1_0000 <= n;
    BE16(hi) + BE16(n % 0x1_0000)
  }

  /** `u16::from_be_bytes` of `s[i..i + 2]`. */
  function ReadU16(s: seq<byte>, i: nat): u16
    requires i + 2 <= |s|
  {
    s[i] as int * 0x100 + s[i + 1] as int
  }

  /** `u32::from_be_bytes` of `s[i..i + 4]`. */
  function ReadU32(s: seq<byte>, i: nat): u32
    requires i + 4 <= |s|
  {
    ReadU16(s, i) as int * 0x1_0000 + ReadU16(s, i + 2) as int
  }

  /** The bytes of one frame with the given header fields and body. */
  function Frame(packetLen: u32, headerLen: u16, version: u16, operation: u32, sequence: u32, body: seq<byte>): seq<byte> {
    BE32(packetLen) + BE16(headerLen) + BE16(version) + BE32(operation) + BE32(sequence) + body
  }

  /** What `encode_packet` produces: version 1, sequence 1, a 16-byte header,
      and `packet_len as u32`, so the length field keeps the low 32 bits. */
  function Encoded(operation: u32, body: seq<byte>): seq<byte> {
    Frame((HEADER_LEN as int + |body|) % 0x1_0000_0000, HEADER_LEN, 1, operation, 1, body)
  }

  /** The packet an encoded frame stands for. */
  function PacketOf(operation: u32, body: seq<byte>): BiliPacket
    requires HEADER_LEN as int + |body| < 0x1_0000_0000
  {
    BiliPacket(HEADER_LEN as int + |body|, HEADER_LEN, 1, operation, 1, body)
  }

  /** `encode_packet`: the header fields and the body appended to a growing buffer. */
  method EncodePacket(operation: u32, body: seq<byte>) returns (buffer: seq<byte>)
    ensures buffer == Encoded(operation, body)
    ensures |buffer| == HEADER_LEN as int + |body|
  {
    var headerLen := HEADER_LEN;
    var packetLen := headerLen as int + |body|;
    buffer := [];
    buffer := buffer + BE32(packetLen % 0x1_0000_0000);
    buffer := buffer + BE16(headerLen);
    buffer := buffer + BE16(1);
    buffer := buffer + BE32(operation);
    buffer := buffer + BE32(1);
    buffer := buffer + body;
  }

  /** The packets from `offset` on, as `decode_packets` finds them: it stops at a
      short tail, a zero length or a frame running past the end; a version-2
      frame is replaced by the packets of its inflated body; any other frame is
      emitted with its body. The current frame is dealt with before the rest,
      so its error wins. */
  function DecodeFrom(data: seq<byte>, offset: nat, inflate: Inflater, depth: nat): Decoded
    requires offset <= |data|
    decreases depth, |data| - offset
  {
    if offset + HEADER_LEN as int > |data| then Ok([])
    else
      var packetLen := ReadU32(data, offset);
      if packetLen == 0 || offset + packetLen > |data| then Ok([])
      else
        var headerLen := ReadU16(data, offset + 4);
        var version := ReadU16(data, offset + 6);
        if headerLen > packetLen then Err(SlicePanic(headerLen, packetLen))
        else
          var body := data[offset + headerLen .. offset + packetLen];
          if version == 2 then
            var decoded :- OkOr(inflate(body), InflateFailed);
            if depth == 0 then Err(NestingTooDeep)
            else
              var inner :- DecodeFrom(decoded, 0, inflate, depth - 1);
              var rest :- DecodeFrom(data, offset + packetLen, inflate, depth);
              Ok(inner + rest)
          else
            var here := BiliPacket(packetLen, headerLen, version, ReadU32(data, offset + 8), ReadU32(data, offset + 12), body);
            var rest :- DecodeFrom(data, offset + packetLen, inflate, depth);
            Ok([here] + rest)
  }

  /** `decode_packets(data)`, compressed frames nested at most `depth` deep:
      no packet it yields is a compressed frame. */
  function Decode(data: seq<byte>, inflate: Inflater, depth: nat): (r: Decoded)
    ensures AllEmittable(r)
  {
    DecodedPacketsEmittable(data, 0, inflate, depth);
    DecodeFrom(data, 0, inflate, depth)
  }

  /** `packets` in front of whatever `r` holds; an error stays an error. */
  function Prepend(packets: seq<BiliPacket>, r: Decoded): Decoded {
    if r.Ok? then Ok(packets + r.value) else r
  }

  /** What one pass of the decoding loop does at `offset`: stop, fail, or
      contribute packets and move on to the next frame. */
  datatype FrameStep =
    | Stop
    | Failed(error: DecodeError)
    | Emitted(packets: seq<BiliPacket>, next: nat)

  /** `decode_packets`: a loop over `offset` that appends each frame's packets. */
  method DecodePackets(data: seq<byte>, inflate: Inflater, depth: nat) returns (r: Decoded)
    ensures r == Decode(data, inflate, depth)
    decreases depth, 2
  {
    var packets: seq<BiliPacket> := [];
    var offset: nat := 0;
    PrependNothing(DecodeFrom(data, 0, inflate, depth));
    while offset + HEADER_LEN as int <= |data|
      invariant offset <= |data|
      invariant Decode(data, inflate, depth) == Prepend(packets, DecodeFrom(data, offset, inflate, depth))
      decreases |data| - offset
    {
      var step := DecodeFrame(data, offset, inflate, depth);
      if step.Stop? {
        break;
      }
      if step.Failed? {
        return Err(step.error);
      }
      PrependAssoc(packets, step.packets, DecodeFrom(data, step.next, inflate, depth));
      packets := packets + step.packets;
      offset := step.next;
    }
    if offset + HEADER_LEN as int > |data| {
      StopStep(data, offset, inflate, depth);
    }
    assert packets + [] == packets;
    return Ok(packets);
  }

  /** The body of the loop for the frame at `offset`: a frame that is not
      complete stops the loop, a header longer than its frame is the slicing
      failure, a compressed frame gives the packets of its inflated body, and
      any other frame gives itself. */
  method DecodeFrame(data: seq<byte>, offset: nat, inflate: Inflater, depth: nat) returns (step: FrameStep)
    requires offset + HEADER_LEN as int <= |data|
    ensures step.Stop? ==> DecodeFrom(data, offset, inflate, depth) == Ok([])
    ensures step.Failed? ==> DecodeFrom(data, offset, inflate, depth) == Err(step.error)
    ensures step.Emitted? ==>
      && offset < step.next <= |data|
      && DecodeFrom(data, offset, inflate, depth) == Prepend(step.packets, DecodeFrom(data, step.next, inflate, depth))
    decreases depth, 1
  {
    var packetLen := ReadU32(data, offset);
    if packetLen == 0 || offset + packetLen > |data| {
      StopStep(data, offset, inflate, depth);
      return Stop;
    }
    var headerLen := ReadU16(data, offset + 4);
    var version := ReadU16(data, offset + 6);
    var operation := ReadU32(data, offset + 8);
    var sequence := ReadU32(data, offset + 12);
    if headerLen > packetLen {
      PanicStep(data, offset, inflate, depth);
      return Failed(SlicePanic(headerLen, packetLen));
    }
    var body := data[offset + headerLen .. offset + packetLen];
    if version == 2 {
      var inner := DecodeCompressed(body, inflate, depth);
      CompressedOutcome(data, offset, inflate, depth, inner);
      if inner.Err? {
        return Failed(inner.error);
      }
      return Emitted(inner.value, offset + packetLen);
    }
    PlainFrameStep(data, offset, inflate, depth);
    return Emitted([BiliPacket(packetLen, headerLen, version, operation, sequence, body)], offset + packetLen);
  }

  /** The packets inside a compressed frame's body: the body inflated and
      decoded one level deeper. */
  method DecodeCompressed(body: seq<byte>, inflate: Inflater, depth: nat) returns (r: Decoded)
    ensures r == match inflate(body)
      case None => Err(InflateFailed)
      case Some(inner) => if depth == 0 then Err(NestingTooDeep) else Decode(inner, inflate, depth - 1)
    decreases depth, 0
  {
    var decoded := inflate(body);
    if decoded.None? {
      return Err(InflateFailed);
    }
    if depth == 0 {
      return Err(NestingTooDeep);
    }
    r := DecodePackets(decoded.value, inflate, depth - 1);
  }

  /** Decoding stops, emitting nothing more, at a short tail, a zero length or a frame running past the end. */
  lemma StopStep(data: seq<byte>, offset: nat, inflate: Inflater, depth: nat)
    requires offset <= |data|
    requires offset + 16 > |data| || ReadU32(data, offset) == 0 || offset + ReadU32(data, offset) > |data|
    ensures DecodeFrom(data, offset, inflate, depth) == Ok([])
  {
  }

  /** A header longer than its frame is the slicing failure. */
  lemma PanicStep(data: seq<byte>, offset: nat, inflate: Inflater, depth: nat)
    requires offset + 16 <= |data|
    requires 0 < ReadU32(data, offset) && offset + ReadU32(data, offset) <= |data|
    requires ReadU16(data, offset + 4) > ReadU32(data, offset)
    ensures DecodeFrom(data, offset, inflate, depth) == Err(SlicePanic(ReadU16(data, offset + 4), ReadU32(data, offset)))
  {
  }

  lemma PrependNothing(r: Decoded)
    ensures Prepend([], r) == r
  {
    if r.Ok? {
      assert [] + r.value == r.value;
    }
  }

  lemma PrependAssoc(a: seq<BiliPacket>, b: seq<BiliPacket>, r: Decoded)
    ensures Prepend(a, Prepend(b, r)) == Prepend(a + b, r)
  {
    if r.Ok? {
      assert a + (b + r.value) == (a + b) + r.value;
    }
  }

  lemma ReadBE16(n: u16, s: seq<byte>, i: nat)
    requires i + 2 <= |s| && s[i..i + 2] == BE16(n)
    ensures ReadU16(s, i) == n
  {
    assert s[i] == s[i..i + 2][0] && s[i + 1] == s[i..i + 2][1];
  }

  lemma ReadBE32(n: u32, s: seq<byte>, i: nat)
    requires i + 4 <= |s| && s[i..i + 4] == BE32(n)
    ensures ReadU32(s, i) == n
  {
    assert s[i..i + 2] == s[i..i + 4][..2];
    assert s[i + 2..i + 4] == s[i..i + 4][2..];
    ReadBE16(n / 0x1_0000, s, i);
    ReadBE16(n % 0x1_0000, s, i + 2);
  }

  /** Every header field of a frame reads back from its position, and the body
      and whatever follows the frame sit right after the header. */
  lemma {:induction false} FrameFields(packetLen: u32, headerLen: u16, version: u16, operation: u32, sequence: u32, body: seq<byte>, rest: seq<byte>)
    ensures var f := Frame(packetLen, headerLen, version, operation, sequence, body) + rest;
      && |f| == 16 + |body| + |rest|
      && ReadU32(f, 0) == packetLen
      && ReadU16(f, 4) == headerLen
      && ReadU16(f, 6) == version
      && ReadU32(f, 8) == operation
      && ReadU32(f, 12) == sequence
      && f[16..16 + |body|] == body
      && f[16 + |body|..] == rest
  {
    var f := Frame(packetLen, headerLen, version, operation, sequence, body) + rest;
    assert f == BE32(packetLen) + BE16(headerLen) + BE16(version) + BE32(operation) + BE32(sequence) + (body + rest);
    assert f[0..4] == BE32(packetLen);
    assert f[4..6] == BE16(headerLen);
    assert f[6..8] == BE16(version);
    assert f[8..12] == BE32(operation);
    assert f[12..16] == BE32(sequence);
    ReadBE32(packetLen, f, 0);
    ReadBE16(headerLen, f, 4);
    ReadBE16(version, f, 6);
    ReadBE32(operation, f, 8);
    ReadBE32(sequence, f, 12);
  }

  /** The layout `encode_packet` writes: length, 16, 1, the operation, 1, the body. */
  lemma EncodedLayout(operation: u32, body: seq<byte>)
    ensures var e := Encoded(operation, body);
      && |e| == 16 + |body|
      && ReadU32(e, 0) == (16 + |body|) % 0x1_0000_0000
      && ReadU16(e, 4) == 16 && ReadU16(e, 6) == 1
      && ReadU32(e, 8) == operation && ReadU32(e, 12) == 1
      && e[16..] == body
  {
    var e := Encoded(operation, body);
    FrameFields((16 + |body|) % 0x1_0000_0000, 16, 1, operation, 1, body, []);
    assert e + [] == e;
  }

  /** Equal header bytes give equal header fields. */
  lemma HeaderSame(a: seq<byte>, i: nat, b: seq<byte>, j: nat)
    requires i + 16 <= |a| && j + 16 <= |b| && a[i..i + 16] == b[j..j + 16]
    ensures ReadU32(a, i) == ReadU32(b, j) && ReadU16(a, i + 4) == ReadU16(b, j + 4)
    ensures ReadU16(a, i + 6) == ReadU16(b, j + 6)
    ensures ReadU32(a, i + 8) == ReadU32(b, j + 8) && ReadU32(a, i + 12) == ReadU32(b, j + 12)
  {
    var w := a[i..i + 16];
    assert ReadU32(a, i) == ReadU32(w, 0) && ReadU16(a, i + 4) == ReadU16(w, 4) && ReadU16(a, i + 6) == ReadU16(w, 6);
    assert ReadU32(a, i + 8) == ReadU32(w, 8) && ReadU32(a, i + 12) == ReadU32(w, 12);
    assert ReadU32(b, j) == ReadU32(w, 0) && ReadU16(b, j + 4) == ReadU16(w, 4) && ReadU16(b, j + 6) == ReadU16(w, 6);
    assert ReadU32(b, j + 8) == ReadU32(w, 8) && ReadU32(b, j + 12) == ReadU32(w, 12);
  }

  /** Decoding looks only at the bytes from the offset on: two inputs that
      agree from their offsets to the end decode the same. */
  lemma {:induction false} DecodeSuffix(a: seq<byte>, i: nat, b: seq<byte>, j: nat, inflate: Inflater, depth: nat)
    requires i <= |a| && j <= |b| && a[i..] == b[j..]
    ensures DecodeFrom(a, i, inflate, depth) == DecodeFrom(b, j, inflate, depth)
    decreases |a| - i, 1
  {
    assert |a| - i == |b| - j;
    if i + 16 > |a| {
      StopStep(a, i, inflate, depth);
      StopStep(b, j, inflate, depth);
    } else {
      SuffixParts(a, i, b, j, 0, 16);
      HeaderSame(a, i, b, j);
      var packetLen := ReadU32(b, j);
      var headerLen := ReadU16(b, j + 4);
      if packetLen != 0 && j + packetLen <= |b| && headerLen <= packetLen {
        SuffixParts(a, i, b, j, headerLen, packetLen);
        if ReadU16(b, j + 6) == 2 {
          CompressedSuffix(a, i, b, j, inflate, depth);
        } else {
          PlainSuffix(a, i, b, j, inflate, depth);
        }
      } else if packetLen == 0 || j + packetLen > |b| {
        StopStep(a, i, inflate, depth);
        StopStep(b, j, inflate, depth);
      } else {
        PanicStep(a, i, inflate, depth);
        PanicStep(b, j, inflate, depth);
      }
    }
  }

  /** The step of `DecodeSuffix` at a complete uncompressed frame. */
  lemma {:induction false} PlainSuffix(a: seq<byte>, i: nat, b: seq<byte>, j: nat, inflate: Inflater, depth: nat)
    requires i + 16 <= |a| && j + 16 <= |b|
    requires ReadU32(a, i) == ReadU32(b, j) && ReadU16(a, i + 4) == ReadU16(b, j + 4)
    requires ReadU16(a, i + 6) == ReadU16(b, j + 6)
    requires ReadU32(a, i + 8) == ReadU32(b, j + 8) && ReadU32(a, i + 12) == ReadU32(b, j + 12)
    requires 0 < ReadU32(b, j) && j + ReadU32(b, j) <= |b| && ReadU16(b, j + 4) <= ReadU32(b, j)
    requires i + ReadU32(b, j) <= |a|
    requires a[i + ReadU16(b, j + 4) .. i + ReadU32(b, j)] == b[j + ReadU16(b, j + 4) .. j + ReadU32(b, j)]
    requires a[i + ReadU32(b, j)..] == b[j + ReadU32(b, j)..]
    requires ReadU16(b, j + 6) != 2
    ensures DecodeFrom(a, i, inflate, depth) == DecodeFrom(b, j, inflate, depth)
    decreases |a| - i, 0
  {
    var packetLen := ReadU32(b, j);
    DecodeSuffix(a, i + packetLen, b, j + packetLen, inflate, depth);
    PlainFrameStep(a, i, inflate, depth);
    PlainFrameStep(b, j, inflate, depth);
  }

  /** The step of `DecodeSuffix` at a complete compressed frame. */
  lemma {:induction false} CompressedSuffix(a: seq<byte>, i: nat, b: seq<byte>, j: nat, inflate: Inflater, depth: nat)
    requires i + 16 <= |a| && j + 16 <= |b|
    requires ReadU32(a, i) == ReadU32(b, j) && ReadU16(a, i + 4) == ReadU16(b, j + 4)
    requires ReadU16(a, i + 6) == ReadU16(b, j + 6)
    requires ReadU32(a, i + 8) == ReadU32(b, j + 8) && ReadU32(a, i + 12) == ReadU32(b, j + 12)
    requires 0 < ReadU32(b, j) && j + ReadU32(b, j) <= |b| && ReadU16(b, j + 4) <= ReadU32(b, j)
    requires i + ReadU32(b, j) <= |a|
    requires a[i + ReadU16(b, j + 4) .. i + ReadU32(b, j)] == b[j + ReadU16(b, j + 4) .. j + ReadU32(b, j)]
    requires a[i + ReadU32(b, j)..] == b[j + ReadU32(b, j)..]
    requires ReadU16(b, j + 6) == 2
    ensures DecodeFrom(a, i, inflate, depth) == DecodeFrom(b, j, inflate, depth)
    decreases |a| - i, 0
  {
    var packetLen := ReadU32(b, j);
    DecodeSuffix(a, i + packetLen, b, j + packetLen, inflate, depth);
    CompressedFrameStep(a, i, inflate, depth);
    CompressedFrameStep(b, j, inflate, depth);
  }

  /** Inputs that agree from their offsets on agree on every part after them. */
  lemma SuffixParts(a: seq<byte>, i: nat, b: seq<byte>, j: nat, lo: nat, hi: nat)
    requires i <= |a| && j <= |b| && a[i..] == b[j..] && lo <= hi <= |a| - i
    ensures a[i + lo .. i + hi] == b[j + lo .. j + hi] && a[i + hi..] == b[j + hi..]
  {
    var s := a[i..];
    assert forall k :: 0 <= k < hi - lo ==> a[i + lo .. i + hi][k] == s[lo..hi][k] == b[j + lo .. j + hi][k];
    assert forall k :: 0 <= k < |a| - i - hi ==> a[i + hi..][k] == s[hi..][k] == b[j + hi..][k];
  }

  /** Decoding after a prefix is decoding without it. */
  lemma DecodeShift(prefix: seq<byte>, data: seq<byte>, offset: nat, inflate: Inflater, depth: nat)
    requires offset <= |data|
    ensures DecodeFrom(prefix + data, |prefix| + offset, inflate, depth) == DecodeFrom(data, offset, inflate, depth)
  {
    assert (prefix + data)[|prefix| + offset..] == data[offset..];
    DecodeSuffix(prefix + data, |prefix| + offset, data, offset, inflate, depth);
  }

  /** One step of decoding at a complete uncompressed frame. */
  lemma PlainFrameStep(data: seq<byte>, offset: nat, inflate: Inflater, depth: nat)
    requires offset + 16 <= |data|
    requires 0 < ReadU32(data, offset) && offset + ReadU32(data, offset) <= |data|
    requires ReadU16(data, offset + 4) <= ReadU32(data, offset) && ReadU16(data, offset + 6) != 2
    ensures DecodeFrom(data, offset, inflate, depth)
         == Prepend([BiliPacket(ReadU32(data, offset), ReadU16(data, offset + 4), ReadU16(data, offset + 6),
                                ReadU32(data, offset + 8), ReadU32(data, offset + 12),
                                data[offset + ReadU16(data, offset + 4) .. offset + ReadU32(data, offset)])],
                    DecodeFrom(data, offset + ReadU32(data, offset), inflate, depth))
  {
  }

  /** What the loop does with a compressed frame: the packets of its body
      come first, and a failure inside the body is the failure of the whole. */
  lemma CompressedOutcome(data: seq<byte>, offset: nat, inflate: Inflater, depth: nat, inner: Decoded)
    requires offset + 16 <= |data|
    requires 0 < ReadU32(data, offset) && offset + ReadU32(data, offset) <= |data|
    requires ReadU16(data, offset + 4) <= ReadU32(data, offset) && ReadU16(data, offset + 6) == 2
    requires inner == match inflate(data[offset + ReadU16(data, offset + 4) .. offset + ReadU32(data, offset)])
      case None => Err(InflateFailed)
      case Some(x) => if depth == 0 then Err(NestingTooDeep) else Decode(x, inflate, depth - 1)
    ensures inner.Err? ==> DecodeFrom(data, offset, inflate, depth) == Err(inner.error)
    ensures inner.Ok? ==>
      DecodeFrom(data, offset, inflate, depth) == Prepend(inner.value, DecodeFrom(data, offset + ReadU32(data, offset), inflate, depth))
  {
    CompressedFrameStep(data, offset, inflate, depth);
  }

  /** One step of decoding at a complete compressed frame. */
  lemma CompressedFrameStep(data: seq<byte>, offset: nat, inflate: Inflater, depth: nat)
    requires offset + 16 <= |data|
    requires 0 < ReadU32(data, offset) && offset + ReadU32(data, offset) <= |data|
    requires ReadU16(data, offset + 4) <= ReadU32(data, offset) && ReadU16(data, offset + 6) == 2
    ensures DecodeFrom(data, offset, inflate, depth)
         == match inflate(data[offset + ReadU16(data, offset + 4) .. offset + ReadU32(data, offset)])
            case None => Err(InflateFailed)
            case Some(inner) =>
              if depth == 0 then Err(NestingTooDeep)
              else match DecodeFrom(inner, 0, inflate, depth - 1)
                case Err(e) => Err(e)
                case Ok(ps) => Prepend(ps, DecodeFrom(data, offset + ReadU32(data, offset), inflate, depth))
  {
  }

  /** An encoded frame decodes to its packet, followed by whatever comes after it. */
  lemma DecodeEncodedThen(operation: u32, body: seq<byte>, rest: seq<byte>, inflate: Inflater, depth: nat)
    requires HEADER_LEN as int + |body| < 0x1_0000_0000
    ensures Decode(Encoded(operation, body) + rest, inflate, depth)
         == Prepend([PacketOf(operation, body)], Decode(rest, inflate, depth))
  {
    var n := 16 + |body|;
    assert n % 0x1_0000_0000 == n;
    var e := Frame(n, 16, 1, operation, 1, body);
    assert e == Encoded(operation, body);
    var all := e + rest;
    FrameFields(n, 16, 1, operation, 1, body, rest);
    assert |e| == n;
    PlainFrameStep(all, 0, inflate, depth);
    assert all[16..n] == body;
    DecodeShift(e, rest, 0, inflate, depth);
    assert DecodeFrom(all, n, inflate, depth) == Decode(rest, inflate, depth);
    assert BiliPacket(ReadU32(all, 0), ReadU16(all, 4), ReadU16(all, 6), ReadU32(all, 8), ReadU32(all, 12), all[16..n])
        == PacketOf(operation, body);
  }

  /** Round trip: an encoded frame decodes to exactly the packet it encodes. */
  lemma RoundTrip(operation: u32, body: seq<byte>, inflate: Inflater, depth: nat)
    requires HEADER_LEN as int + |body| < 0x1_0000_0000
    ensures Decode(Encoded(operation, body), inflate, depth) == Ok([PacketOf(operation, body)])
  {
    DecodeEncodedThen(operation, body, [], inflate, depth);
    assert Encoded(operation, body) + [] == Encoded(operation, body);
    assert [PacketOf(operation, body)] + [] == [PacketOf(operation, body)];
  }

  /** Bytes after the last whole frame that cannot start another one are ignored:
      fewer than a header, a zero length, or a length running past the end. */
  lemma TrailingBytesIgnored(operation: u32, body: seq<byte>, tail: seq<byte>, inflate: Inflater, depth: nat)
    requires HEADER_LEN as int + |body| < 0x1_0000_0000
    requires |tail| < 16 || ReadU32(tail, 0) == 0 || ReadU32(tail, 0) > |tail|
    ensures Decode(Encoded(operation, body) + tail, inflate, depth) == Ok([PacketOf(operation, body)])
  {
    DecodeEncodedThen(operation, body, tail, inflate, depth);
    assert [PacketOf(operation, body)] + [] == [PacketOf(operation, body)];
  }

  /** A sequence of (operation, body) messages, each encoded, back to back. */
  function EncodeAll(msgs: seq<(u32, seq<byte>)>): seq<byte> {
    if msgs == [] then [] else Encoded(msgs[0].0, msgs[0].1) + EncodeAll(msgs[1..])
  }

  predicate Encodable(msgs: seq<(u32, seq<byte>)>) {
    forall i :: 0 <= i < |msgs| ==> HEADER_LEN as int + |msgs[i].1| < 0x1_0000_0000
  }

  function PacketsOf(msgs: seq<(u32, seq<byte>)>): seq<BiliPacket>
    requires Encodable(msgs)
  {
    if msgs == [] then [] else [PacketOf(msgs[0].0, msgs[0].1)] + PacketsOf(msgs[1..])
  }

  /** Concatenation: frames written back to back decode to their packets, in order. */
  lemma {:induction false} DecodeEncodeAll(msgs: seq<(u32, seq<byte>)>, inflate: Inflater, depth: nat)
    requires Encodable(msgs)
    ensures Decode(EncodeAll(msgs), inflate, depth) == Ok(PacketsOf(msgs))
  {
    if msgs != [] {
      DecodeEncodedThen(msgs[0].0, msgs[0].1, EncodeAll(msgs[1..]), inflate, depth);
      DecodeEncodeAll(msgs[1..], inflate, depth);
    }
  }

  /** Two frames in a row decode to the two packets, in order. */
  lemma DecodePair(op1: u32, body1: seq<byte>, op2: u32, body2: seq<byte>, inflate: Inflater, depth: nat)
    requires HEADER_LEN as int + |body1| < 0x1_0000_0000 && HEADER_LEN as int + |body2| < 0x1_0000_0000
    ensures Decode(Encoded(op1, body1) + Encoded(op2, body2), inflate, depth)
         == Ok([PacketOf(op1, body1), PacketOf(op2, body2)])
  {
    DecodeEncodedThen(op1, body1, Encoded(op2, body2), inflate, depth);
    RoundTrip(op2, body2, inflate, depth);
    assert [PacketOf(op1, body1)] + [PacketOf(op2, body2)] == [PacketOf(op1, body1), PacketOf(op2, body2)];
  }

  /** A compressed frame is replaced by the packets of its inflated body; an
      inflate failure or an error inside fails the whole decode. */
  lemma DecodeCompressedThen(operation: u32, sequence: u32, z: seq<byte>, rest: seq<byte>, inflate: Inflater, depth: nat)
    requires HEADER_LEN as int + |z| < 0x1_0000_0000
    ensures Decode(Frame(HEADER_LEN as int + |z|, HEADER_LEN, 2, operation, sequence, z) + rest, inflate, depth)
         == match inflate(z)
            case None => Err(InflateFailed)
            case Some(inner) =>
              if depth == 0 then Err(NestingTooDeep)
              else match Decode(inner, inflate, depth - 1)
                case Err(e) => Err(e)
                case Ok(ps) => Prepend(ps, Decode(rest, inflate, depth))
  {
    var f := Frame(16 + |z|, 16, 2, operation, sequence, z);
    FrameFields(16 + |z|, 16, 2, operation, sequence, z, rest);
    CompressedFrameStep(f + rest, 0, inflate, depth);
    DecodeShift(f, rest, 0, inflate, depth);
  }

  /** Flattening: a compressed frame whose body inflates to encoded frames
      decodes to those frames' packets. */
  lemma DecodeCompressedBatch(operation: u32, sequence: u32, z: seq<byte>, msgs: seq<(u32, seq<byte>)>, inflate: Inflater, depth: nat)
    requires HEADER_LEN as int + |z| < 0x1_0000_0000 && Encodable(msgs)
    requires inflate(z) == Some(EncodeAll(msgs)) && depth >= 1
    ensures Decode(Frame(HEADER_LEN as int + |z|, HEADER_LEN, 2, operation, sequence, z), inflate, depth) == Ok(PacketsOf(msgs))
  {
    var f := Frame(16 + |z|, 16, 2, operation, sequence, z);
    DecodeCompressedThen(operation, sequence, z, [], inflate, depth);
    assert f + [] == f;
    DecodeEncodeAll(msgs, inflate, depth - 1);
    assert PacketsOf(msgs) + [] == PacketsOf(msgs);
  }

  /** A frame whose header length exceeds its total length makes the body slice panic. */
  lemma HeaderPastPacketPanics(headerLen: u16, version: u16, operation: u32, sequence: u32, body: seq<byte>, rest: seq<byte>, inflate: Inflater, depth: nat)
    requires HEADER_LEN as int + |body| < 0x1_0000_0000 && headerLen > HEADER_LEN as int + |body|
    ensures Decode(Frame(HEADER_LEN as int + |body|, headerLen, version, operation, sequence, body) + rest, inflate, depth)
         == Err(SlicePanic(headerLen, HEADER_LEN as int + |body|))
  {
    FrameFields(16 + |body|, headerLen, version, operation, sequence, body, rest);
  }

  /** What every emitted packet satisfies: never version 2, a non-zero length
      that covers the header, and a body of exactly the remaining bytes. */
  predicate Emittable(p: BiliPacket) {
    p.version != 2 && p.packetLen > 0 && p.headerLen <= p.packetLen && |p.body| == p.packetLen - p.headerLen
  }

  /** Every packet a successful decoding holds is emittable. */
  predicate AllEmittable(r: Decoded) {
    r.Ok? ==> forall i :: 0 <= i < |r.value| ==> Emittable(r.value[i])
  }

  /** Decoding never emits a version-2 packet: compressed frames are always
      replaced by what they contain. */
  lemma {:induction false} DecodedPacketsEmittable(data: seq<byte>, offset: nat, inflate: Inflater, depth: nat)
    requires offset <= |data|
    ensures AllEmittable(DecodeFrom(data, offset, inflate, depth))
    decreases depth, |data| - offset
  {
    if offset + 16 > |data| || ReadU32(data, offset) == 0 || offset + ReadU32(data, offset) > |data| {
      StopStep(data, offset, inflate, depth);
    } else if ReadU16(data, offset + 4) > ReadU32(data, offset) {
      PanicStep(data, offset, inflate, depth);
    } else {
      var packetLen := ReadU32(data, offset);
      var body := data[offset + ReadU16(data, offset + 4) .. offset + packetLen];
      DecodedPacketsEmittable(data, offset + packetLen, inflate, depth);
      if ReadU16(data, offset + 6) == 2 {
        if inflate(body).Some? && depth > 0 {
          DecodedPacketsEmittable(inflate(body).value, 0, inflate, depth - 1);
        }
        CompressedEmittable(data, offset, inflate, depth);
      } else {
        PlainEmittable(data, offset, inflate, depth);
      }
    }
  }

  /** A plain frame in front of an emittable rest. */
  lemma PlainEmittable(data: seq<byte>, offset: nat, inflate: Inflater, depth: nat)
    requires offset + 16 <= |data|
    requires 0 < ReadU32(data, offset) && offset + ReadU32(data, offset) <= |data|
    requires ReadU16(data, offset + 4) <= ReadU32(data, offset) && ReadU16(data, offset + 6) != 2
    requires AllEmittable(DecodeFrom(data, offset + ReadU32(data, offset), inflate, depth))
    ensures AllEmittable(DecodeFrom(data, offset, inflate, depth))
  {
    PlainFrameStep(data, offset, inflate, depth);
    var packetLen, headerLen := ReadU32(data, offset), ReadU16(data, offset + 4);
    var here := BiliPacket(packetLen, headerLen, ReadU16(data, offset + 6), ReadU32(data, offset + 8),
                           ReadU32(data, offset + 12), data[offset + headerLen .. offset + packetLen]);
    PrependEmittable([here], DecodeFrom(data, offset + packetLen, inflate, depth));
  }

  /** A compressed frame whose inner packets and rest are emittable. */
  lemma CompressedEmittable(data: seq<byte>, offset: nat, inflate: Inflater, depth: nat)
    requires offset + 16 <= |data|
    requires 0 < ReadU32(data, offset) && offset + ReadU32(data, offset) <= |data|
    requires ReadU16(data, offset + 4) <= ReadU32(data, offset) && ReadU16(data, offset + 6) == 2
    requires AllEmittable(DecodeFrom(data, offset + ReadU32(data, offset), inflate, depth))
    requires var body := data[offset + ReadU16(data, offset + 4) .. offset + ReadU32(data, offset)];
      inflate(body).Some? && depth > 0 ==> AllEmittable(DecodeFrom(inflate(body).value, 0, inflate, depth - 1))
    ensures AllEmittable(DecodeFrom(data, offset, inflate, depth))
  {
    CompressedFrameStep(data, offset, inflate, depth);
    var body := data[offset + ReadU16(data, offset + 4) .. offset + ReadU32(data, offset)];
    if inflate(body).Some? && depth > 0 {
      var inner := DecodeFrom(inflate(body).value, 0, inflate, depth - 1);
      if inner.Ok? {
        PrependEmittable(inner.value, DecodeFrom(data, offset + ReadU32(data, offset), inflate, depth));
      }
    }
  }

  /** Emittable packets in front of an emittable result keep it emittable. */
  lemma PrependEmittable(packets: seq<BiliPacket>, r: Decoded)
    requires forall i :: 0 <= i < |packets| ==> Emittable(packets[i])
    requires AllEmittable(r)
    ensures AllEmittable(Prepend(packets, r))
  {
    if r.Ok? {
      var all := packets + r.value;
      forall i | 0 <= i < |all|
        ensures Emittable(all[i])
      {
        if i >= |packets| {
          assert all[i] == r.value[i - |packets|];
        }
      }
    }
  }

  /** More nesting allowance changes nothing unless the smaller one ran out. */
  lemma {:induction false} MoreDepthSameResult(data: seq<byte>, offset: nat, inflate: Inflater, d1: nat, d2: nat)
    requires offset <= |data| && d1 <= d2
    requires DecodeFrom(data, offset, inflate, d1) != Err(NestingTooDeep)
    ensures DecodeFrom(data, offset, inflate, d2) == DecodeFrom(data, offset, inflate, d1)
    decreases d1, |data| - offset, 1
  {
    if offset + 16 > |data| || ReadU32(data, offset) == 0 || offset + ReadU32(data, offset) > |data| {
      StopStep(data, offset, inflate, d1);
      StopStep(data, offset, inflate, d2);
    } else if ReadU16(data, offset + 4) > ReadU32(data, offset) {
      PanicStep(data, offset, inflate, d1);
      PanicStep(data, offset, inflate, d2);
    } else {
      FrameSameDepth(data, offset, inflate, d1, d2);
    }
  }

  /** The step of MoreDepthSameResult at a complete frame. */
  lemma {:induction false} FrameSameDepth(data: seq<byte>, offset: nat, inflate: Inflater, d1: nat, d2: nat)
    requires offset + 16 <= |data| && d1 <= d2
    requires 0 < ReadU32(data, offset) && offset + ReadU32(data, offset) <= |data|
    requires ReadU16(data, offset + 4) <= ReadU32(data, offset)
    requires DecodeFrom(data, offset, inflate, d1) != Err(NestingTooDeep)
    ensures DecodeFrom(data, offset, inflate, d2) == DecodeFrom(data, offset, inflate, d1)
    decreases d1, |data| - offset, 0
  {
    var next := offset + ReadU32(data, offset);
    var body := data[offset + ReadU16(data, offset + 4) .. next];
    if DecodeFrom(data, next, inflate, d1) != Err(NestingTooDeep) {
      MoreDepthSameResult(data, next, inflate, d1, d2);
    }
    if ReadU16(data, offset + 6) == 2 {
      if inflate(body).Some? && d1 > 0 && DecodeFrom(inflate(body).value, 0, inflate, d1 - 1) != Err(NestingTooDeep) {
        MoreDepthSameResult(inflate(body).value, 0, inflate, d1 - 1, d2 - 1);
      }
      CompressedSameDepth(data, offset, inflate, d1, d2);
    } else {
      PlainSameDepth(data, offset, inflate, d1, d2);
    }
  }

  /** A plain frame decodes alike at both allowances when its rest does. */
  lemma PlainSameDepth(data: seq<byte>, offset: nat, inflate: Inflater, d1: nat, d2: nat)
    requires offset + 16 <= |data|
    requires 0 < ReadU32(data, offset) && offset + ReadU32(data, offset) <= |data|
    requires ReadU16(data, offset + 4) <= ReadU32(data, offset) && ReadU16(data, offset + 6) != 2
    requires DecodeFrom(data, offset, inflate, d1) != Err(NestingTooDeep)
    requires var next := offset + ReadU32(data, offset);
      DecodeFrom(data, next, inflate, d1) != Err(NestingTooDeep) ==>
        DecodeFrom(data, next, inflate, d2) == DecodeFrom(data, next, inflate, d1)
    ensures DecodeFrom(data, offset, inflate, d2) == DecodeFrom(data, offset, inflate, d1)
  {
    PlainFrameStep(data, offset, inflate, d1);
    PlainFrameStep(data, offset, inflate, d2);
  }

  /** A compressed frame decodes alike at both allowances when its inner
      packets and its rest do. */
  lemma CompressedSameDepth(data: seq<byte>, offset: nat, inflate: Inflater, d1: nat, d2: nat)
    requires offset + 16 <= |data| && d1 <= d2
    requires 0 < ReadU32(data, offset) && offset + ReadU32(data, offset) <= |data|
    requires ReadU16(data, offset + 4) <= ReadU32(data, offset) && ReadU16(data, offset + 6) == 2
    requires DecodeFrom(data, offset, inflate, d1) != Err(NestingTooDeep)
    requires var next := offset + ReadU32(data, offset);
      DecodeFrom(data, next, inflate, d1) != Err(NestingTooDeep) ==>
        DecodeFrom(data, next, inflate, d2) == DecodeFrom(data, next, inflate, d1)
    requires var body := data[offset + ReadU16(data, offset + 4) .. offset + ReadU32(data, offset)];
      inflate(body).Some? && d1 > 0 && DecodeFrom(inflate(body).value, 0, inflate, d1 - 1) != Err(NestingTooDeep) ==>
        DecodeFrom(inflate(body).value, 0, inflate, d2 - 1) == DecodeFrom(inflate(body).value, 0, inflate, d1 - 1)
    ensures DecodeFrom(data, offset, inflate, d2) == DecodeFrom(data, offset, inflate, d1)
  {
    CompressedFrameStep(data, offset, inflate, d1);
    CompressedFrameStep(data, offset, inflate, d2);
  }

}
