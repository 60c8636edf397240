/** The CQL v4 frame codec of services/dual-writer/src/cql_server.cpp: the nine-byte header of
    section 2 of the CQL Binary Protocol v4, long strings of its section 3, and frame reading. */
module Codec {
  import opened MachineIntegers

  const HEADER_SIZE := 9
  const VERSION_RESPONSE: byte := 0x84
  const OP_QUERY: byte := 0x07
  const OP_RESULT: byte := 0x08
  const OP_PREPARE: byte := 0x09
  const OP_EXECUTE: byte := 0x0A
  const RESULT_VOID: int32 := 1
  const RESULT_PREPARED: int32 := 4

  datatype FrameHeader = FrameHeader(
    version: byte, flags: byte, streamId: int16, opcode: byte, bodyLength: int32)

  // ---------------------------------------------------------------------------
  // Big-endian integers
  // ---------------------------------------------------------------------------

  /** `(x >> (8 * k)) & 0xFF` on a signed value: an arithmetic shift floors, as `/` does here. */
  function Octet(x: int, k: nat): byte
    requires k < 4
  {
    (if k == 0 then x else if k == 1 then x / 0x100 else if k == 2 then x / 0x1_0000 else x / 0x100_0000) % 256
  }

  function Bytes16(x: int16): (bytes: seq<byte>)
    ensures |bytes| == 2
  {
    [Octet(x, 1), Octet(x, 0)]
  }

  function Bytes32(x: int32): (bytes: seq<byte>)
    ensures |bytes| == 4
  {
    [Octet(x, 3), Octet(x, 2), Octet(x, 1), Octet(x, 0)]
  }

  /** The bit pattern `u` read as two's complement in int16. */
  function AsInt16(u: int): int16
    requires 0 <= u < 0x1_0000
  {
    if u < 0x8000 then u else u - 0x1_0000
  }

  function AsInt32(u: int): int32
    requires 0 <= u < 0x1_0000_0000
  {
    if u < 0x8000_0000 then u else u - 0x1_0000_0000
  }

  function ReadI16(buf: seq<byte>, at: nat): int16
    requires at + 2 <= |buf|
  {
    var p: int, q: int := buf[at], buf[at + 1];
    AsInt16(p * 0x100 + q)
  }

  function ReadI32(buf: seq<byte>, at: nat): int32
    requires at + 4 <= |buf|
  {
    var p: int, q: int, r: int, s: int := buf[at], buf[at + 1], buf[at + 2], buf[at + 3];
    AsInt32(p * 0x100_0000 + q * 0x1_0000 + r * 0x100 + s)
  }

  lemma Read16OfBytes(pre: seq<byte>, x: int16, post: seq<byte>)
    ensures ReadI16(pre + Bytes16(x) + post, |pre|) == x
  {
    var buf := pre + Bytes16(x) + post;
    assert buf[|pre|] == Octet(x, 1) && buf[|pre| + 1] == Octet(x, 0);
  }

  lemma Digits32(x: int32)
    ensures Octet(x, 3) * 0x100_0000 + Octet(x, 2) * 0x1_0000 + Octet(x, 1) * 0x100 + Octet(x, 0)
            == if x < 0 then x + 0x1_0000_0000 else x
  {
    var a, b, c := x / 0x100, x / 0x1_0000, x / 0x100_0000;
    assert b == a / 0x100 && c == b / 0x100;
    assert x == a * 0x100 + x % 0x100 && a == b * 0x100 + a % 0x100 && b == c * 0x100 + b % 0x100;
    assert -0x80 <= c < 0x80;
  }

  lemma Digits16(x: int16)
    ensures Octet(x, 1) * 0x100 + Octet(x, 0) == if x < 0 then x + 0x1_0000 else x
  {
  }

  lemma Read32OfBytes(pre: seq<byte>, x: int32, post: seq<byte>)
    ensures ReadI32(pre + Bytes32(x) + post, |pre|) == x
  {
    var buf := pre + Bytes32(x) + post;
    assert forall k :: 0 <= k < 4 ==> buf[|pre| + k] == Bytes32(x)[k];
    assert buf[|pre|] == Octet(x, 3) && buf[|pre| + 1] == Octet(x, 2)
        && buf[|pre| + 2] == Octet(x, 1) && buf[|pre| + 3] == Octet(x, 0);
    Digits32(x);
  }

  lemma BytesOfRead16(buf: seq<byte>, at: nat)
    requires at + 2 <= |buf|
    ensures Bytes16(ReadI16(buf, at)) == buf[at..at + 2]
  {
  }

  lemma LowDigit(high: int, low: int)
    requires 0 <= low < 0x100
    ensures (high * 0x100 + low) / 0x100 == high && (high * 0x100 + low) % 0x100 == low
  {
  }

  lemma ShiftTwice(x: int)
    ensures x / 0x1_0000 == x / 0x100 / 0x100
    ensures x / 0x100_0000 == x / 0x1_0000 / 0x100
  {
  }

  lemma Bytes32Exact(p: int, q: int, r: int, s: int)
    requires 0 <= p < 256 && 0 <= q < 256 && 0 <= r < 256 && 0 <= s < 256
    ensures Bytes32(AsInt32(p * 0x100_0000 + q * 0x1_0000 + r * 0x100 + s)) == [p, q, r, s]
  {
    var u := p * 0x100_0000 + q * 0x1_0000 + r * 0x100 + s;
    var x := AsInt32(u);
    var top := if u < 0x8000_0000 then p else p - 0x100;
    var third := top * 0x100 + q;
    var second := third * 0x100 + r;
    assert x == second * 0x100 + s;
    LowDigit(second, s);
    LowDigit(third, r);
    LowDigit(top, q);
    ShiftTwice(x);
    assert top % 0x100 == p;
  }

  lemma BytesOfRead32(buf: seq<byte>, at: nat)
    requires at + 4 <= |buf|
    ensures Bytes32(ReadI32(buf, at)) == buf[at..at + 4]
  {
    Bytes32Exact(buf[at], buf[at + 1], buf[at + 2], buf[at + 3]);
  }

  // ---------------------------------------------------------------------------
  // The frame header
  // ---------------------------------------------------------------------------

  function HeaderBytes(h: FrameHeader): (bytes: seq<byte>)
    ensures |bytes| == HEADER_SIZE
  {
    [h.version, h.flags] + Bytes16(h.streamId) + [h.opcode] + Bytes32(h.bodyLength)
  }

  function ParseHeader(buf: seq<byte>): FrameHeader
    requires |buf| == HEADER_SIZE
  {
    FrameHeader(buf[0], buf[1], ReadI16(buf, 2), buf[4], ReadI32(buf, 5))
  }

  /** `to_bytes`: fills a nine-byte buffer. */
  method ToBytes(h: FrameHeader) returns (buf: array<byte>)
    ensures fresh(buf) && buf[..] == HeaderBytes(h)
  {
    buf := new byte[9](_ => 0);
    buf[0] := h.version;
    buf[1] := h.flags;
    buf[2] := Octet(h.streamId, 1);
    buf[3] := Octet(h.streamId, 0);
    buf[4] := h.opcode;
    buf[5] := Octet(h.bodyLength, 3);
    buf[6] := Octet(h.bodyLength, 2);
    buf[7] := Octet(h.bodyLength, 1);
    buf[8] := Octet(h.bodyLength, 0);
  }

  /** Parsing undoes printing, negative stream ids and lengths included. */
  lemma ParseOfHeader(h: FrameHeader)
    ensures ParseHeader(HeaderBytes(h)) == h
  {
    var bytes := HeaderBytes(h);
    Read16OfBytes([h.version, h.flags], h.streamId, [h.opcode] + Bytes32(h.bodyLength));
    assert bytes == [h.version, h.flags] + Bytes16(h.streamId) + ([h.opcode] + Bytes32(h.bodyLength));
    Read32OfBytes([h.version, h.flags] + Bytes16(h.streamId) + [h.opcode], h.bodyLength, []);
    assert bytes == [h.version, h.flags] + Bytes16(h.streamId) + [h.opcode] + Bytes32(h.bodyLength) + [];
  }

  /** Printing undoes parsing, for every nine-byte buffer. */
  lemma HeaderOfParse(buf: seq<byte>)
    requires |buf| == HEADER_SIZE
    ensures HeaderBytes(ParseHeader(buf)) == buf
  {
    BytesOfRead16(buf, 2);
    BytesOfRead32(buf, 5);
    assert buf == [buf[0], buf[1]] + buf[2..4] + [buf[4]] + buf[5..9];
  }

  /** Two's complement in `bits` 16 or 32 as an unsigned value. */
  function Unsigned(x: int, bits: nat): int
    requires bits == 16 || bits == 32
  {
    if x >= 0 then x else x + if bits == 16 then 0x1_0000 else 0x1_0000_0000
  }

  function BigEndian16(high: int, low: int): int {
    high * 0x100 + low
  }

  function BigEndian32(p: int, q: int, r: int, s: int): int {
    p * 0x100_0000 + q * 0x1_0000 + r * 0x100 + s
  }

  /** The layout of section 2 of the CQL Binary Protocol v4, byte by byte: version, flags, stream in two bytes, opcode,
      length in four, most significant byte first. */
  lemma HeaderLayout(h: FrameHeader)
    ensures var b := HeaderBytes(h);
            && b[0] == h.version && b[1] == h.flags && b[4] == h.opcode
            && BigEndian16(b[2], b[3]) == Unsigned(h.streamId, 16)
            && BigEndian32(b[5], b[6], b[7], b[8]) == Unsigned(h.bodyLength, 32)
  {
    hide Octet;
    Digits16(h.streamId);
    Digits32(h.bodyLength);
  }

  // ---------------------------------------------------------------------------
  // Frames on a stream
  // ---------------------------------------------------------------------------

  datatype Frame = Frame(header: FrameHeader, body: seq<byte>)

  /** The header announces the body it comes with. */
  predicate WellFormed(f: Frame) {
    f.header.bodyLength == |f.body|
  }

  function FrameBytes(f: Frame): seq<byte> {
    HeaderBytes(f.header) + f.body
  }

  function StreamOf(frames: seq<Frame>): seq<byte> {
    if frames == [] then [] else FrameBytes(frames[0]) + StreamOf(frames[1..])
  }

  datatype ReadResult = Incomplete | Got(frame: Frame, rest: seq<byte>)

  /** `read_full_frame`: nine header bytes, then as many body bytes as the header says. The read waits
      (Incomplete) while bytes are missing. A negative length is outside the model. */
  function ReadFrame(stream: seq<byte>): ReadResult
    requires |stream| >= HEADER_SIZE ==> ParseHeader(stream[..HEADER_SIZE]).bodyLength >= 0
  {
    if |stream| < HEADER_SIZE then Incomplete
    else
      var header := ParseHeader(stream[..HEADER_SIZE]);
      var end := HEADER_SIZE + header.bodyLength;
      if |stream| < end then Incomplete
      else Got(Frame(header, stream[HEADER_SIZE..end]), stream[end..])
  }

  lemma ReadOneFrame(f: Frame, rest: seq<byte>)
    requires WellFormed(f)
    ensures ParseHeader((FrameBytes(f) + rest)[..HEADER_SIZE]) == f.header
    ensures ReadFrame(FrameBytes(f) + rest) == Got(f, rest)
  {
    ParseOfHeader(f.header);
    var stream := FrameBytes(f) + rest;
    assert stream[..HEADER_SIZE] == HeaderBytes(f.header);
    assert stream[HEADER_SIZE..HEADER_SIZE + |f.body|] == f.body;
    assert stream[HEADER_SIZE + |f.body|..] == rest;
  }

  lemma StreamEmpty(frames: seq<Frame>)
    ensures StreamOf(frames) == [] <==> frames == []
  {
    if frames != [] {
      assert |FrameBytes(frames[0])| >= HEADER_SIZE;
    }
  }

  /** Reading frame after frame gives back what was written to the stream, in order and with nothing left over. */
  method ReadAll(bytes: seq<byte>, ghost written: seq<Frame>) returns (read: seq<Frame>)
    requires bytes == StreamOf(written)
    requires forall i :: 0 <= i < |written| ==> WellFormed(written[i])
    ensures read == written
  {
    read := [];
    var stream := bytes;
    while stream != []
      invariant |read| <= |written| && read == written[..|read|]
      invariant stream == StreamOf(written[|read|..])
      decreases |stream|
    {
      StreamEmpty(written[|read|..]);
      assert written[|read|..][1..] == written[|read| + 1..];
      ReadOneFrame(written[|read|], StreamOf(written[|read| + 1..]));
      var r := ReadFrame(stream);
      read := read + [r.frame];
      stream := r.rest;
    }
    StreamEmpty(written[|read|..]);
  }

  // ---------------------------------------------------------------------------
  // Long strings
  // ---------------------------------------------------------------------------

  function Text(bytes: seq<byte>): (s: string)
    ensures |s| == |bytes| && forall i :: 0 <= i < |s| ==> s[i] as int == bytes[i]
  {
    seq(|bytes|, i requires 0 <= i < |bytes| => bytes[i] as char)
  }

  predicate IsByteText(s: string) {
    forall i :: 0 <= i < |s| ==> s[i] as int < 256
  }

  function TextBytes(s: string): (bytes: seq<byte>)
    requires IsByteText(s)
    ensures |bytes| == |s| && forall i :: 0 <= i < |s| ==> bytes[i] == s[i] as int
  {
    seq(|s|, i requires 0 <= i < |s| => s[i] as int as byte)
  }

  function LongStringBytes(s: string): seq<byte>
    requires IsByteText(s) && |s| < 0x8000_0000
  {
    Bytes32(|s|) + TextBytes(s)
  }

  /** `parse_long_string`; a negative length prefix is outside the model. */
  function ParseLongString(body: seq<byte>, offset: nat): string
    requires offset + 4 <= |body| ==> ReadI32(body, offset) >= 0
  {
    if |body| < offset + 4 then ""
    else
      var len := ReadI32(body, offset);
      if |body| < offset + 4 + len then "" else Text(body[offset + 4..offset + 4 + len])
  }

  /** A long string is its length in four bytes, most significant first, and its characters (section 3). */
  lemma LongStringLayout(s: string)
    requires IsByteText(s) && |s| < 0x8000_0000
    ensures var b := LongStringBytes(s);
            && |b| == 4 + |s|
            && BigEndian32(b[0], b[1], b[2], b[3]) == |s|
            && forall i :: 0 <= i < |s| ==> b[4 + i] == s[i] as int
  {
    hide Octet;
    Digits32(|s|);
  }

  /** A long string is recovered at any offset, whatever surrounds it; cut short, it reads as empty. */
  lemma LongStringRoundTrip(pre: seq<byte>, s: string, post: seq<byte>)
    requires IsByteText(s) && |s| < 0x8000_0000
    ensures var body := pre + LongStringBytes(s) + post;
            && ReadI32(body, |pre|) == |s|
            && ParseLongString(body, |pre|) == s
  {
    var body := pre + LongStringBytes(s) + post;
    Read32OfBytes(pre, |s|, TextBytes(s) + post);
    assert body == pre + Bytes32(|s|) + (TextBytes(s) + post);
    assert body[|pre| + 4..|pre| + 4 + |s|] == TextBytes(s);
  }

  lemma TruncatedLongString(pre: seq<byte>, s: string, cut: nat)
    requires IsByteText(s) && |s| < 0x8000_0000
    requires |pre| <= cut < |pre + LongStringBytes(s)|
    ensures var body := (pre + LongStringBytes(s))[..cut];
            && (|pre| + 4 <= |body| ==> ReadI32(body, |pre|) == |s|)
            && ParseLongString(body, |pre|) == ""
  {
    var body := (pre + LongStringBytes(s))[..cut];
    if |pre| + 4 <= cut {
      Read32OfBytes(pre, |s|, TextBytes(s)[..cut - |pre| - 4]);
      assert body == pre + Bytes32(|s|) + TextBytes(s)[..cut - |pre| - 4];
    }
  }

  // ---------------------------------------------------------------------------
  // The VOID result
  // ---------------------------------------------------------------------------

  function ResponseHeader(opcode: byte, streamId: int16, length: int32): FrameHeader {
    FrameHeader(VERSION_RESPONSE, 0, streamId, opcode, length)
  }

  /** The VOID result of section 4.2.5.1: kind 1, on the request's stream. */
  function VoidResult(streamId: int16): Frame {
    Frame(ResponseHeader(OP_RESULT, streamId, 4), Bytes32(RESULT_VOID))
  }

  /** `build_void_result` builds one well-formed frame that reads back as the VOID result. */
  method BuildVoidResult(streamId: int16) returns (bytes: seq<byte>)
    ensures bytes == FrameBytes(VoidResult(streamId))
    ensures ParseHeader(bytes[..HEADER_SIZE]).bodyLength >= 0
    ensures ReadFrame(bytes) == Got(VoidResult(streamId), [])
    ensures |bytes| == 13 && bytes[..2] == [0x84, 0] && BigEndian16(bytes[2], bytes[3]) == Unsigned(streamId, 16)
    ensures bytes[4..] == [8, 0, 0, 0, 4, 0, 0, 0, 1]
  {
    var header := ToBytes(ResponseHeader(OP_RESULT, streamId, 4));
    var body: seq<byte> := [0, 0, 0, 1];
    assert body == Bytes32(RESULT_VOID);
    bytes := header[..] + body;
    ReadOneFrame(VoidResult(streamId), []);
    assert bytes + [] == bytes;
  }
}
