/**
The wire format as pure functions: `src/protocol/header.rs`, `src/protocol/codec.rs`.
A header is twelve bytes, big-endian: version, type, flags, stream id, length.
*/
module Codec {
  import opened Base
  import opened Frames

  const VERSION: u8 := 1
  const HEADER_LEN: nat := 12
  const ABSOLUTE_MAX: u32 := 16 * 1024 * 1024

  type bytes = seq<u8>

  // ---------------------------------------------------------------- integers

  function U16ToBytes(v: int): bytes
    requires 0 <= v < 0x1_0000
  {
    [v / 0x100, v % 0x100]
  }

  function U32ToBytes(v: u32): bytes {
    [v / 0x100_0000, v / 0x1_0000 % 0x100, v / 0x100 % 0x100, v % 0x100]
  }

  function U16FromBytes(b: bytes): (v: int)
    requires |b| == 2
    ensures 0 <= v < 0x1_0000
  {
    b[0] as int * 0x100 + b[1]
  }

  function U32FromBytes(b: bytes): u32
    requires |b| == 4
  {
    b[0] as int * 0x100_0000 + b[1] as int * 0x1_0000 + b[2] as int * 0x100 + b[3]
  }

  lemma IntegersRoundTrip(v: u32)
    ensures U32FromBytes(U32ToBytes(v)) == v
    ensures v < 0x1_0000 ==> U16FromBytes(U16ToBytes(v)) == v
  {
    assert v / 0x1_0000 == v / 0x100 / 0x100 && v / 0x100_0000 == v / 0x100 / 0x100 / 0x100;
  }

  // ---------------------------------------------------------------- header

  datatype Kind = DataKind | CreditKind | PingKind | GoAwayKind

  datatype WireError = BadVersion | BadType | BadFlags | TooLong

  datatype Result<+T> = Ok(value: T) | Err(error: WireError)

  function KindToByte(k: Kind): u8 {
    match k case DataKind => 0 case CreditKind => 1 case PingKind => 2 case GoAwayKind => 3
  }

  function KindFromByte(b: u8): Result<Kind> {
    match b
    case 0 => Ok(DataKind)
    case 1 => Ok(CreditKind)
    case 2 => Ok(PingKind)
    case 3 => Ok(GoAwayKind)
    case _ => Err(BadType)
  }

  function FlagsToBits(f: Flags): int {
    (if f.syn then 1 else 0) + (if f.ack then 2 else 0) + (if f.fin then 4 else 0) + (if f.rst then 8 else 0)
  }

  /** `Flags::from_bits`: bits outside the four known ones are refused. */
  function FlagsFromBits(b: int): Result<Flags>
    requires 0 <= b < 0x1_0000
  {
    if b >= 16 then Err(BadFlags)
    else Ok(Flags(b % 2 == 1, b / 2 % 2 == 1, b / 4 % 2 == 1, b / 8 % 2 == 1))
  }

  lemma FlagsRoundTrip(f: Flags)
    ensures FlagsFromBits(FlagsToBits(f)) == Ok(f)
  {
  }

  datatype Header = Header(kind: Kind, flags: Flags, id: u32, length: u32)

  function HeaderToBytes(h: Header): (b: bytes)
    ensures |b| == HEADER_LEN
  {
    [VERSION, KindToByte(h.kind)] + U16ToBytes(FlagsToBits(h.flags)) + U32ToBytes(h.id) + U32ToBytes(h.length)
  }

  function HeaderFromBytes(b: bytes): Result<Header>
    requires |b| == HEADER_LEN
  {
    if b[0] != VERSION then Err(BadVersion)
    else match KindFromByte(b[1])
      case Err(e) => Err(e)
      case Ok(kind) =>
        match FlagsFromBits(U16FromBytes(b[2..4]))
        case Err(e) => Err(e)
        case Ok(flags) => Ok(Header(kind, flags, U32FromBytes(b[4..8]), U32FromBytes(b[8..12])))
  }

  lemma HeaderRoundTrip(h: Header)
    ensures HeaderFromBytes(HeaderToBytes(h)) == Ok(h)
  {
    var b := HeaderToBytes(h);
    assert b[2..4] == U16ToBytes(FlagsToBits(h.flags)) && b[4..8] == U32ToBytes(h.id);
    assert b[8..12] == U32ToBytes(h.length);
    IntegersRoundTrip(FlagsToBits(h.flags));
    IntegersRoundTrip(h.id);
    IntegersRoundTrip(h.length);
    FlagsRoundTrip(h.flags);
  }

  // ---------------------------------------------------------------- frames

  /** The limit a codec built for `max` enforces. */
  function Limit(max: u32): u32 {
    Min(max, ABSOLUTE_MAX)
  }

  function HeaderOf(f: Frame): Header
    requires f.Data? ==> |f.payload| <= U32_MAX
  {
    match f
    case Data(id, flags, payload) => Header(DataKind, flags, id, |payload|)
    case WindowUpdate(id, flags, delta) => Header(CreditKind, flags, id, delta)
    case Ping(flags, n) => Header(PingKind, flags, 0, n)
    case GoAway(code) => Header(GoAwayKind, NoFlags, 0, CodeToWire(code))
  }

  /** `FrameCodec::encode` refuses only an oversized payload. */
  predicate Encodable(limit: u32, f: Frame) {
    |PayloadOf(f)| <= limit
  }

  function Encode(limit: u32, f: Frame): (b: bytes)
    requires Encodable(limit, f)
    ensures |b| == HEADER_LEN + |PayloadOf(f)|
  {
    HeaderToBytes(HeaderOf(f)) + PayloadOf(f)
  }

  function FrameFrom(h: Header, payload: bytes): Frame {
    match h.kind
    case DataKind => Data(h.id, h.flags, payload)
    case CreditKind => WindowUpdate(h.id, h.flags, h.length)
    case PingKind => Ping(h.flags, h.length)
    case GoAwayKind => GoAway(CodeFromWire(h.length))
  }

  datatype Decoded = NeedMore | Bad(error: WireError) | Parsed(frame: Frame, used: nat)

  /** One call of `FrameCodec::decode` on the bytes received so far. */
  function Decode(limit: u32, src: bytes): (d: Decoded)
    ensures d.Parsed? ==> HEADER_LEN <= d.used <= |src|
  {
    if |src| < HEADER_LEN then NeedMore
    else match HeaderFromBytes(src[..HEADER_LEN])
      case Err(e) => Bad(e)
      case Ok(h) =>
        var len := if h.kind.DataKind? then h.length else 0;
        if len > limit then Bad(TooLong)
        else if |src| < HEADER_LEN + len then NeedMore
        else Parsed(FrameFrom(h, src[HEADER_LEN..HEADER_LEN + len]), HEADER_LEN + len)
  }

  /** An error code that a decoder would also choose. */
  predicate CanonicalCode(f: Frame) {
    f.GoAway? && f.code.Unknown? ==> f.code.code > 6
  }

  lemma CodesRoundTrip(c: ErrorCode)
    ensures CodeFromWire(CodeToWire(c)) == c <==> (c.Unknown? ==> c.code > 6)
  {
  }

  /** Decoding the encoding gives the frame back, whatever follows it, exactly when its error code is canonical. */
  lemma FrameRoundTrip(limit: u32, limit': u32, f: Frame, rest: bytes)
    requires Encodable(limit, f) && Encodable(limit', f)
    ensures var d := Decode(limit', Encode(limit, f) + rest);
            && d.Parsed? && d.used == |Encode(limit, f)|
            && (d.frame == f <==> CanonicalCode(f))
  {
    var h := HeaderOf(f);
    var src := Encode(limit, f) + rest;
    HeaderRoundTrip(h);
    assert src[..HEADER_LEN] == HeaderToBytes(h);
    assert src[HEADER_LEN..HEADER_LEN + |PayloadOf(f)|] == PayloadOf(f);
    if f.GoAway? {
      CodesRoundTrip(f.code);
    }
  }

  // ---------------------------------------------------------------- the format in numbers

  function Be32(b: bytes, at: nat): int
    requires at + 4 <= |b|
  {
    b[at] as int * 0x100_0000 + b[at + 1] as int * 0x1_0000 + b[at + 2] as int * 0x100 + b[at + 3]
  }

  /** Twelve bytes: 1, the type, two bytes of flags, and two big-endian numbers. */
  lemma HeaderIs(h: Header)
    ensures var b := HeaderToBytes(h);
            && |b| == 12 && b[0] == 1
            && b[1] == (match h.kind case DataKind => 0 case CreditKind => 1 case PingKind => 2 case GoAwayKind => 3)
            && b[2] == 0
            && b[3] == (if h.flags.syn then 1 else 0) + (if h.flags.ack then 2 else 0)
                       + (if h.flags.fin then 4 else 0) + (if h.flags.rst then 8 else 0)
            && Be32(b, 4) == h.id && Be32(b, 8) == h.length
  {
    IntegersRoundTrip(h.id);
    IntegersRoundTrip(h.length);
  }

  /** Which twelve bytes are a header, which header they are, and what is wrong with the others. */
  lemma HeaderMeans(b: bytes)
    requires |b| == 12
    ensures HeaderFromBytes(b).Ok? <==> b[0] == 1 && b[1] <= 3 && b[2] == 0 && b[3] < 16
    ensures HeaderFromBytes(b).Ok? ==>
              var h := HeaderFromBytes(b).value;
              && h.kind == (match b[1] case 0 => DataKind case 1 => CreditKind case 2 => PingKind case _ => GoAwayKind)
              && h.flags == Flags(b[3] % 2 == 1, b[3] / 2 % 2 == 1, b[3] / 4 % 2 == 1, b[3] / 8 % 2 == 1)
              && h.id == Be32(b, 4) && h.length == Be32(b, 8)
    ensures HeaderFromBytes(b).Err? ==>
              HeaderFromBytes(b).error == (if b[0] != 1 then BadVersion else if b[1] > 3 then BadType else BadFlags)
  {
    assert U16FromBytes(b[2..4]) == b[2] as int * 0x100 + b[3];
  }

  /** The number of an error code on the wire. */
  lemma CodesAre(v: u32)
    ensures CodeToWire(Normal) == 0 && CodeToWire(ProtocolError) == 1 && CodeToWire(InternalError) == 2
    ensures CodeToWire(FlowControlError) == 3 && CodeToWire(StreamLimit) == 4 && CodeToWire(InvalidVersion) == 5
    ensures CodeToWire(Timeout) == 6 && CodeToWire(Unknown(v)) == v
  {
  }

  /** A whole frame: what its header says, and that its payload follows. */
  lemma EncodingIs(limit: u32, f: Frame)
    requires Encodable(limit, f)
    ensures var b := Encode(limit, f);
            && |b| == 12 + |PayloadOf(f)| && b[12..] == PayloadOf(f) && b[0] == 1 && b[2] == 0
            && b[1] == (match f case Data(_, _, _) => 0 case WindowUpdate(_, _, _) => 1 case Ping(_, _) => 2
                        case GoAway(_) => 3)
            && b[3] == (if f.GoAway? then 0
                        else (if f.flags.syn then 1 else 0) + (if f.flags.ack then 2 else 0)
                             + (if f.flags.fin then 4 else 0) + (if f.flags.rst then 8 else 0))
            && Be32(b, 4) == (if f.Data? || f.WindowUpdate? then f.id else 0)
            && Be32(b, 8) == (match f
                              case Data(_, _, payload) => |payload|
                              case WindowUpdate(_, _, delta) => delta
                              case Ping(_, n) => n
                              case GoAway(code) => CodeToWire(code))
  {
    HeaderIs(HeaderOf(f));
  }

  /** And back: what bytes with a good header and enough behind it decode to. */
  lemma DecodingIs(limit: u32, b: bytes)
    requires |b| >= 12 && b[0] == 1 && b[1] <= 3 && b[2] == 0 && b[3] < 16
    ensures var d, len, flags := Decode(limit, b), Be32(b, 8),
                                 Flags(b[3] % 2 == 1, b[3] / 2 % 2 == 1, b[3] / 4 % 2 == 1, b[3] / 8 % 2 == 1);
            match b[1]
            case 0 =>
              if len > limit then d == Bad(TooLong)
              else if |b| < 12 + len then d == NeedMore
              else d == Parsed(Data(Be32(b, 4), flags, b[12..12 + len]), 12 + len)
            case 1 => d == Parsed(WindowUpdate(Be32(b, 4), flags, len), 12)
            case 2 => d == Parsed(Ping(flags, len), 12)
            case _ => d.Parsed? && d.used == 12 && d.frame.GoAway? && CodeToWire(d.frame.code) == len
                      && (d.frame.code.Unknown? <==> len > 6)
  {
    var h := b[..12];
    assert forall i :: 0 <= i < 12 ==> h[i] == b[i];
    HeaderMeans(h);
  }

  /** For instance the SYN of a client's first stream. */
  lemma FirstSyn(limit: u32)
    ensures Encode(limit, Syn(1)) == [1, 0, 0, 1, 0, 0, 0, 1, 0, 0, 0, 0]
    ensures Decode(limit, [1, 0, 0, 1, 0, 0, 0, 1, 0, 0, 0, 0]) == Parsed(Syn(1), 12)
  {
    var b := Encode(limit, Syn(1));
    assert b == [1, 0, 0, 1, 0, 0, 0, 1, 0, 0, 0, 0];
    DecodingIs(limit, b);
    assert b[12..12] == [];
  }

  // ---------------------------------------------------------------- a whole byte stream

  datatype Reading = Reading(frames: seq<Frame>, rest: bytes, error: Option<WireError>)

  const Nothing := Reading([], [], None)

  /** Decode until more bytes are needed or the first error. */
  function DecodeAll(limit: u32, src: bytes): Reading
    decreases |src|
  {
    match Decode(limit, src)
    case NeedMore => Reading([], src, None)
    case Bad(e) => Reading([], src, Some(e))
    case Parsed(f, used) => Prepend(f, DecodeAll(limit, src[used..]))
  }

  function Prepend(f: Frame, s: Reading): Reading {
    s.(frames := [f] + s.frames)
  }

  /** More bytes arrive; after an error nothing is decoded any more. */
  function Feed(limit: u32, s: Reading, chunk: bytes): Reading {
    if s.error.Some? then s.(rest := s.rest + chunk)
    else
      var more := DecodeAll(limit, s.rest + chunk);
      Reading(s.frames + more.frames, more.rest, more.error)
  }

  function FeedAll(limit: u32, s: Reading, chunks: seq<bytes>): Reading
    decreases |chunks|
  {
    if chunks == [] then s else FeedAll(limit, Feed(limit, s, chunks[0]), chunks[1..])
  }

  /** What `decode` has settled on, later bytes do not change. */
  lemma DecodeStable(limit: u32, a: bytes, b: bytes)
    ensures !Decode(limit, a).NeedMore? ==> Decode(limit, a + b) == Decode(limit, a)
  {
    if |a| >= HEADER_LEN {
      assert (a + b)[..HEADER_LEN] == a[..HEADER_LEN];
      if Decode(limit, a).Parsed? {
        var used := Decode(limit, a).used;
        assert (a + b)[HEADER_LEN..used] == a[HEADER_LEN..used];
      }
    }
  }

  /** Decoding in one go, or with a pause anywhere, is the same. */
  lemma {:induction false} DecodePause(limit: u32, a: bytes, b: bytes)
    ensures DecodeAll(limit, a + b) == Feed(limit, DecodeAll(limit, a), b)
    decreases |a|
  {
    hide Decode;
    DecodeStable(limit, a, b);
    match Decode(limit, a)
    case NeedMore =>
      var more := DecodeAll(limit, a + b);
      assert [] + more.frames == more.frames;
    case Bad(_) =>
    case Parsed(f, used) =>
      assert (a + b)[used..] == a[used..] + b;
      DecodePause(limit, a[used..], b);
      var s := DecodeAll(limit, a[used..]);
      assert ([f] + s.frames) + DecodeAll(limit, s.rest + b).frames ==
             [f] + (s.frames + DecodeAll(limit, s.rest + b).frames);
  }

  lemma {:induction false} FeedAllFrom(limit: u32, a: bytes, chunks: seq<bytes>)
    ensures FeedAll(limit, DecodeAll(limit, a), chunks) == DecodeAll(limit, a + Flatten(chunks))
    decreases |chunks|
  {
    hide DecodeAll, Feed;
    if chunks == [] {
      assert a + [] == a;
    } else {
      DecodePause(limit, a, chunks[0]);
      FeedAllFrom(limit, a + chunks[0], chunks[1..]);
      assert (a + chunks[0]) + Flatten(chunks[1..]) == a + (chunks[0] + Flatten(chunks[1..]));
    }
  }

  /**
  Chunking independence: for every byte stream, valid or not, and every way of cutting it
  into chunks, the frames, the first error and the bytes left over are the same.
  */
  lemma ChunkingIndependence(limit: u32, chunks: seq<bytes>)
    ensures FeedAll(limit, Nothing, chunks) == DecodeAll(limit, Flatten(chunks))
  {
    FeedAllFrom(limit, [], chunks);
    assert [] + Flatten(chunks) == Flatten(chunks);
  }

  function EncodeAll(limit: u32, fs: seq<Frame>): bytes
    requires forall f :: f in fs ==> Encodable(limit, f)
  {
    if fs == [] then [] else Encode(limit, fs[0]) + EncodeAll(limit, fs[1..])
  }

  /** How many of the frames a decoder with this limit takes before the first one that is too long for it. */
  function Readable(limit: u32, fs: seq<Frame>): (k: nat)
    ensures k <= |fs| && (k < |fs| ==> !Encodable(limit, fs[k]))
    ensures forall f :: f in fs[..k] ==> Encodable(limit, f)
  {
    if fs == [] || !Encodable(limit, fs[0]) then 0
    else
      var k := Readable(limit, fs[1..]);
      assert fs[..k + 1] == [fs[0]] + fs[1..][..k];
      k + 1
  }

  /** A frame that is too long is refused on its header. */
  lemma TooLongIsBad(limit: u32, limit': u32, f: Frame, rest: bytes)
    requires Encodable(limit, f) && !Encodable(limit', f)
    ensures Decode(limit', Encode(limit, f) + rest) == Bad(TooLong)
  {
    var src := Encode(limit, f) + rest;
    HeaderRoundTrip(HeaderOf(f));
    assert src[..HEADER_LEN] == HeaderToBytes(HeaderOf(f));
  }

  lemma DecodeFirst(limit: u32, limit': u32, f: Frame, rest: bytes)
    requires Encodable(limit, f) && Encodable(limit', f) && CanonicalCode(f)
    ensures DecodeAll(limit', Encode(limit, f) + rest) == Prepend(f, DecodeAll(limit', rest))
  {
    hide Decode, Encode, Encodable, CanonicalCode;
    FrameRoundTrip(limit, limit', f, rest);
    assert (Encode(limit, f) + rest)[|Encode(limit, f)|..] == rest;
  }

  lemma NoBytes(limit: u32)
    ensures DecodeAll(limit, []) == Nothing
  {
  }

  lemma {:induction false} StreamRoundTrip(limit: u32, limit': u32, fs: seq<Frame>)
    requires forall f :: f in fs ==> Encodable(limit, f) && CanonicalCode(f)
    ensures var k := Readable(limit', fs);
            DecodeAll(limit', EncodeAll(limit, fs)) ==
            Reading(fs[..k], EncodeAll(limit, fs[k..]), if k < |fs| then Some(TooLong) else None)
  {
    hide Decode, Encode, Encodable, CanonicalCode;
    if fs == [] {
      NoBytes(limit');
    } else {
      var rest := EncodeAll(limit, fs[1..]);
      assert fs[0] in fs;
      if Encodable(limit', fs[0]) {
        StreamRoundTrip(limit, limit', fs[1..]);
        DecodeFirst(limit, limit', fs[0], rest);
        var k := Readable(limit', fs[1..]);
        assert fs[..k + 1] == [fs[0]] + fs[1..][..k] && fs[k + 1..] == fs[1..][k..];
      } else {
        TooLongIsBad(limit, limit', fs[0], rest);
        assert fs[..0] == [] && fs[0..] == fs;
      }
    }
  }

  /**
  Frames encoded one after the other and delivered in any chunks come out as they went in, up to the first
  one that is too long for the decoder; that one is an error, and if there is none, nothing is left.
  */
  lemma WireRoundTrip(limit: u32, limit': u32, fs: seq<Frame>, chunks: seq<bytes>)
    requires forall f :: f in fs ==> Encodable(limit, f) && CanonicalCode(f)
    requires Flatten(chunks) == EncodeAll(limit, fs)
    ensures var k := Readable(limit', fs);
            FeedAll(limit', Nothing, chunks) ==
            Reading(fs[..k], EncodeAll(limit, fs[k..]), if k < |fs| then Some(TooLong) else None)
  {
    ChunkingIndependence(limit', chunks);
    StreamRoundTrip(limit, limit', fs);
  }
}
