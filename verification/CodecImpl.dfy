/** The codec as the source runs it: a growing byte buffer, advanced and split in place. */
module CodecImpl {
  import opened Base
  import opened Frames
  import opened Codec

  /** The part of `BytesMut` that the codec uses. */
  class ByteBuffer {
    var data: bytes

    constructor ()
      ensures data == []
    {
      data := [];
    }

    method Advance(n: nat)
      requires n <= |data|
      modifies this
      ensures data == old(data)[n..]
    {
      data := data[n..];
    }

    method SplitTo(n: nat) returns (front: bytes)
      requires n <= |data|
      modifies this
      ensures front == old(data)[..n] && data == old(data)[n..]
    {
      front, data := data[..n], data[n..];
    }

    method PutSlice(more: bytes)
      modifies this
      ensures data == old(data) + more
    {
      data := data + more;
    }
  }

  /** `copy_from_slice` into `out[at..]`. */
  method CopyInto(out: array<u8>, at: nat, part: bytes)
    requires at + |part| <= out.Length
    modifies out
    ensures out[..] == old(out[..at]) + part + old(out[at + |part|..])
  {
    var i := 0;
    while i < |part|
      invariant 0 <= i <= |part|
      invariant out[..at] == old(out[..at]) && out[at..at + i] == part[..i]
      invariant out[at + i..] == old(out[at + i..])
    {
      out[at + i] := part[i];
      i := i + 1;
    }
    assert part[..i] == part;
    assert out[..] == out[..at] + out[at..at + i] + out[at + i..];
  }

  method EncodeHeader(h: Header, out: array<u8>)
    requires out.Length == HEADER_LEN
    modifies out
    ensures out[..] == HeaderToBytes(h)
  {
    out[0] := VERSION;
    out[1] := KindToByte(h.kind);
    assert out[..2] == [VERSION, KindToByte(h.kind)];
    CopyInto(out, 2, U16ToBytes(FlagsToBits(h.flags)));
    CopyInto(out, 4, U32ToBytes(h.id));
    CopyInto(out, 8, U32ToBytes(h.length));
  }

  datatype Outcome = Incomplete | Failed(error: WireError) | Item(frame: Frame)

  class FrameCodec {
    const maxPayload: u32

    constructor (max: u32)
      ensures maxPayload == Limit(max) == Min(max, 16 * 1024 * 1024)
    {
      maxPayload := Min(max, ABSOLUTE_MAX);
    }

    /** Takes one frame off the front of `src`; on an incomplete or bad frame the buffer is left as it was. */
    method DecodeFrom(src: ByteBuffer) returns (r: Outcome)
      modifies src
      ensures match Decode(maxPayload, old(src.data))
              case NeedMore => r == Incomplete && src.data == old(src.data)
              case Bad(e) => r == Failed(e) && src.data == old(src.data)
              case Parsed(f, used) => r == Item(f) && src.data == old(src.data)[used..]
    {
      if |src.data| < HEADER_LEN {
        return Incomplete;
      }
      var parsed := HeaderFromBytes(src.data[..HEADER_LEN]);
      if parsed.Err? {
        return Failed(parsed.error);
      }
      var h := parsed.value;
      var len := if h.kind.DataKind? then h.length else 0;
      if len > maxPayload {
        return Failed(TooLong);
      }
      if |src.data| < HEADER_LEN + len {
        return Incomplete;
      }
      src.Advance(HEADER_LEN);
      var payload := [];
      if len != 0 {
        payload := src.SplitTo(len);
      }
      assert payload == old(src.data)[HEADER_LEN..HEADER_LEN + len];
      assert src.data == old(src.data)[HEADER_LEN + len..];
      return Item(FrameFrom(h, payload));
    }

    /** Appends the encoding of `f` to `dst`, or leaves `dst` alone and reports an oversized payload. */
    method EncodeTo(f: Frame, dst: ByteBuffer) returns (r: Option<WireError>)
      modifies dst
      ensures Encodable(maxPayload, f) ==> r == None && dst.data == old(dst.data) + Encode(maxPayload, f)
      ensures !Encodable(maxPayload, f) ==> r == Some(TooLong) && dst.data == old(dst.data)
    {
      if f.Data? && |f.payload| > maxPayload {
        return Some(TooLong);
      }
      var out := new u8[HEADER_LEN];
      EncodeHeader(HeaderOf(f), out);
      dst.PutSlice(out[..]);
      if f.Data? {
        dst.PutSlice(f.payload);
      }
      assert dst.data == old(dst.data) + Encode(maxPayload, f);
      return None;
    }
  }

  lemma FeedSplits(limit: u32, s: Reading, chunk: bytes)
    ensures Feed(limit, s, chunk) ==
            if s.error.Some? then s.(rest := s.rest + chunk) else Feed(limit, s.(rest := s.rest + chunk), [])
  {
    assert (s.rest + chunk) + [] == s.rest + chunk;
  }

  /** Decoding what is buffered, one frame at a time. */
  lemma FeedTurns(limit: u32, s: Reading)
    requires s.error == None
    ensures Feed(limit, s, []) ==
            match Decode(limit, s.rest)
            case NeedMore => s
            case Bad(e) => s.(error := Some(e))
            case Parsed(f, used) => Feed(limit, s.(frames := s.frames + [f], rest := s.rest[used..]), [])
  {
    hide Decode;
    assert s.rest + [] == s.rest && s.frames + [] == s.frames;
    match Decode(limit, s.rest)
    case Parsed(f, used) =>
      var more := DecodeAll(limit, s.rest[used..]);
      assert s.rest[used..] + [] == s.rest[used..];
      assert s.frames + ([f] + more.frames) == (s.frames + [f]) + more.frames;
    case _ =>
  }

  /** The reader's half of the connection: bytes come in chunks, frames go out. */
  class FramedReader {
    const codec: FrameCodec
    const buffer: ByteBuffer
    var frames: seq<Frame>
    var error: Option<WireError>

    function View(): Reading
      reads this, buffer
    {
      Reading(frames, buffer.data, error)
    }

    constructor (max: u32)
      ensures View() == Nothing && codec.maxPayload == Limit(max) && fresh(buffer)
    {
      codec := new FrameCodec(max);
      buffer := new ByteBuffer();
      frames, error := [], None;
    }

    /** Appends a chunk and decodes as far as possible. */
    method OnBytes(chunk: bytes)
      modifies this, buffer
      ensures View() == Feed(codec.maxPayload, old(View()), chunk)
    {
      hide Decode, DecodeAll, Feed;
      FeedSplits(codec.maxPayload, View(), chunk);
      buffer.PutSlice(chunk);
      if error.Some? {
        return;
      }
      ghost var goal := Feed(codec.maxPayload, View(), []);
      var going := true;
      while going
        invariant if going then error == None && Feed(codec.maxPayload, View(), []) == goal else View() == goal
        decreases going, |buffer.data|
      {
        FeedTurns(codec.maxPayload, View());
        var r := codec.DecodeFrom(buffer);
        match r
        case Item(f) => frames := frames + [f];
        case Incomplete => going := false;
        case Failed(e) => going, error := false, Some(e);
      }
    }

    method OnAllBytes(chunks: seq<bytes>)
      modifies this, buffer
      ensures View() == FeedAll(codec.maxPayload, old(View()), chunks)
    {
      var i := 0;
      while i < |chunks|
        invariant 0 <= i <= |chunks|
        invariant FeedAll(codec.maxPayload, View(), chunks[i..]) == FeedAll(codec.maxPayload, old(View()), chunks)
      {
        assert chunks[i..][1..] == chunks[i + 1..];
        OnBytes(chunks[i]);
        i := i + 1;
      }
    }
  }
}
