/** The loops of the writer and reader tasks: `src/session/writer.rs` and `src/session/reader.rs`. */
module TasksImpl {
  import opened Base
  import opened Frames
  import opened Codec
  import opened CodecImpl
  import E = Endpoints
  import opened Guarantees
  import opened StreamImpl
  import opened RegistryImpl
  import opened SessionImpl

  /** The bytes written for a queue: its frames in order, up to one the codec refuses. */
  function Written(limit: u32, fs: seq<Frame>): bytes {
    if fs == [] || !Encodable(limit, fs[0]) then [] else Encode(limit, fs[0]) + Written(limit, fs[1..])
  }

  lemma WrittenOne(limit: u32, f: Frame)
    ensures Written(limit, [f]) == if Encodable(limit, f) then Encode(limit, f) else []
  {
    hide Encode, Encodable;
    assert [f][1..] == [] && Written(limit, []) == [];
    if Encodable(limit, f) {
      assert Encode(limit, f) + [] == Encode(limit, f);
    }
  }

  /** What is left of the queue then, and the error. */
  function Leftover(limit: u32, fs: seq<Frame>): (seq<Frame>, Option<WireError>) {
    if fs == [] then ([], None)
    else if !Encodable(limit, fs[0]) then (fs[1..], Some(TooLong))
    else Leftover(limit, fs[1..])
  }

  /** A queue within the limit goes out whole. */
  lemma {:induction false} WritesAll(limit: u32, fs: seq<Frame>)
    requires forall f :: f in fs ==> Encodable(limit, f)
    ensures Written(limit, fs) == EncodeAll(limit, fs) && Leftover(limit, fs) == ([], None)
  {
    if fs != [] {
      WritesAll(limit, fs[1..]);
    }
  }

  /**
  Framed writing: encodings collect in `pending` and reach the wire when flushed, or when too many have
  collected.
  */
  class Sink {
    const codec: FrameCodec
    const boundary: nat
    const pending: ByteBuffer
    const wire: ByteBuffer

    constructor (max: u32, boundary: nat)
      ensures codec.maxPayload == Limit(max) && pending != wire && fresh(pending) && fresh(wire)
      ensures pending.data == [] && wire.data == []
    {
      codec := new FrameCodec(max);
      this.boundary := boundary;
      pending := new ByteBuffer();
      wire := new ByteBuffer();
    }

    method Flush()
      requires pending != wire
      modifies pending, wire
      ensures wire.data == old(wire.data) + old(pending.data) && pending.data == []
    {
      var out := pending.SplitTo(|pending.data|);
      wire.PutSlice(out);
    }

    /** The frame joins what is pending, unless the codec refuses it; earlier bytes may reach the wire either way. */
    method Feed(f: Frame) returns (error: Option<WireError>)
      requires pending != wire
      modifies pending, wire
      ensures old(wire.data) <= wire.data
      ensures error == if Encodable(codec.maxPayload, f) then None else Some(TooLong)
      ensures wire.data + pending.data == old(wire.data + pending.data) + Written(codec.maxPayload, [f])
    {
      hide Encode, Encodable;
      if |pending.data| >= boundary {
        Flush();
        assert wire.data + [] == wire.data;
      }
      ghost var before, more := pending.data, Written(codec.maxPayload, [f]);
      error := codec.EncodeTo(f, pending);
      WrittenOne(codec.maxPayload, f);
      assert before + [] == before;
      assert pending.data == before + more;
      assert wire.data + (before + more) == (wire.data + before) + more;
    }
  }

  class Writer {
    const sink: Sink
    const out: Channel<Frame>

    constructor (sink: Sink, out: Channel<Frame>)
      ensures this.sink == sink && this.out == out
    {
      this.sink, this.out := sink, out;
    }

    ghost predicate Valid() {
      && sink.pending != sink.wire && (out as object) != sink.wire && (out as object) != sink.pending
    }

    /**
    Without an error the whole queue is on the wire. A refused frame ends the loop before the
    flush: what was fed since the last flush is then still pending, and stays there.
    */
    method Drain() returns (error: Option<WireError>)
      requires Valid()
      modifies out, sink.pending, sink.wire
      ensures sink.wire.data + sink.pending.data ==
              old(sink.wire.data + sink.pending.data) + Written(sink.codec.maxPayload, old(out.items))
      ensures old(sink.wire.data) <= sink.wire.data && (error == None ==> sink.pending.data == [])
      ensures (out.items, error) == Leftover(sink.codec.maxPayload, old(out.items))
      ensures out.isOpen == old(out.isOpen) && out.sent == old(out.sent)
    {
      hide Encode, Encodable;
      var limit := sink.codec.maxPayload;
      while true
        invariant out.isOpen == old(out.isOpen) && out.sent == old(out.sent) && old(sink.wire.data) <= sink.wire.data
        invariant Leftover(limit, out.items) == Leftover(limit, old(out.items))
        invariant sink.wire.data + sink.pending.data + Written(limit, out.items) ==
                  old(sink.wire.data + sink.pending.data) + Written(limit, old(out.items))
        decreases |out.items|
      {
        ghost var q, bytes := out.items, sink.wire.data + sink.pending.data;
        var next := out.TryRecv();
        if next == None {
          sink.Flush();
          assert bytes + [] == bytes && sink.wire.data + [] == sink.wire.data;
          return None;
        }
        assert q[0] == next.value && q[1..] == out.items;
        error := sink.Feed(next.value);
        WrittenOne(limit, next.value);
        if error.Some? {
          assert bytes + [] == bytes;
          return;
        }
        ghost var first, more := Encode(limit, next.value), Written(limit, out.items);
        assert bytes + (first + more) == (bytes + first) + more;
      }
    }

    /** The writer belongs to `session`, and shares nothing else with it. */
    ghost predicate Serves(session: Session)
      reads session, session.registry
    {
      && session.out == out && sink.codec.maxPayload == Limit(session.cfg.maxFrame)
      && {sink.pending, sink.wire} !! {session, session.registry, session.ids.next, out as object, session.closer}
      && {sink.pending, sink.wire} !! session.registry.parts
    }

    /**
    One round of the main loop: the oldest frame is written and flushed. A frame the codec refuses is
    lost, and the session shuts down.
    */
    method Turn(session: Session)
      requires Valid() && session.Valid() && Serves(session) && out.items != [] && sink.pending.data == []
      modifies out, sink.pending, sink.wire, session`isClosing, session.registry`inner, session.registry.parts
      ensures session.Valid() && Serves(session) && sink.pending.data == []
      ensures var e, f := old(session.View()), old(out.items[0]);
              if E.Passes(e.cfg, f) then
                session.View() == e.(outQ := e.outQ[1..]) &&
                sink.wire.data == old(sink.wire.data) + Encode(sink.codec.maxPayload, f)
              else session.View() == E.WriteFailed(e) && sink.wire.data == old(sink.wire.data)
    {
      hide Session.View, StreamRegistry.Valid, StreamRegistry.Recorded, Encode, E.Forget, E.InitiateShutdown;
      session.Configured();
      ghost var start := sink.wire.data;
      assert start + [] == start;
      var f := session.WriterTake();
      var error := sink.Feed(f);
      WrittenOne(sink.codec.maxPayload, f);
      sink.Flush();
      if error.Some? {
        session.InitiateShutdown(InternalError);
      }
    }
  }

  /**
  What the writer task puts on the wire for a queue: its frames, up to one that the codec refuses; that one is
  lost, and after it the rest goes out with the GoAway of the shutdown, up to a second one.
  */
  function Emission(limit: u32, q: seq<Frame>): bytes {
    if q == [] then []
    else if Encodable(limit, q[0]) then Encode(limit, q[0]) + Emission(limit, q[1..])
    else Written(limit, q[1..] + [GoAway(InternalError)])
  }

  /** All frames of a queue that fits go out. */
  lemma {:induction false} EmitsAll(limit: u32, q: seq<Frame>)
    requires forall f :: f in q ==> Encodable(limit, f)
    ensures Emission(limit, q) == EncodeAll(limit, q)
  {
    hide Encode, Encodable;
    if q != [] {
      assert q[0] in q;
      EmitsAll(limit, q[1..]);
    }
  }

  /** A queue behind a refused frame goes out without it. */
  lemma {:induction false} EmitsAround(limit: u32, a: seq<Frame>, f: Frame, b: seq<Frame>)
    requires forall g :: g in a + b ==> Encodable(limit, g)
    requires !Encodable(limit, f)
    ensures Emission(limit, a + [f] + b) == EncodeAll(limit, a + b + [GoAway(InternalError)])
  {
    hide Encode;
    var end: seq<Frame> := [GoAway(InternalError)];
    var q := a + [f] + b;
    if a == [] {
      assert q[0] == f && q[1..] == b && a + b + end == b + end;
      WritesAll(limit, b + end);
    } else {
      assert q[0] == a[0] && a[0] in a + b && q[1..] == a[1..] + [f] + b;
      assert (a + b + end)[0] == a[0] && (a + b + end)[1..] == a[1..] + b + end;
      EmitsAround(limit, a[1..], f, b);
    }
  }

  /** What a batch of frames does to a session: each is dispatched unless an earlier one has shut it down. */
  function ReadAll(e: E.Endpoint, fs: seq<Frame>): E.Endpoint
    decreases |fs|
  {
    if e.closing || fs == [] then e else ReadAll(E.ReaderStep(e, fs[0]), fs[1..])
  }

  method ReaderRun(session: Session, fs: seq<Frame>, hiccups: nat)
    requires session.Valid()
    modifies session, session.registry, session.registry.parts, session.out, session.closer
    ensures session.Valid() && session.View() == ReadAll(old(session.View()), fs)
    ensures fresh(session.registry.parts - old(session.registry.parts))
  {
    hide Session.Valid, StreamRegistry.Entries, E.ReaderStep;
    var i := 0;
    while i < |fs| && !session.isClosing
      invariant 0 <= i <= |fs| && session.Valid() && fresh(session.registry.parts - old(session.registry.parts))
      invariant ReadAll(session.View(), fs[i..]) == ReadAll(old(session.View()), fs)
    {
      assert fs[i..][1..] == fs[i + 1..];
      var _ := session.ReaderTurn(fs[i], hiccups);
      i := i + 1;
    }
  }

  /** What the bytes of a connection do to a session: its frames, and then the first error, if there is one. */
  function Heard(e: E.Endpoint, got: Reading): E.Endpoint {
    var e1 := ReadAll(e, got.frames);
    if got.error.Some? then E.InitiateShutdown(e1, ProtocolError) else e1
  }

  /**
  The reader task on any bytes, cut anywhere. An error in decoding, be it a bad version, a bad type, unknown
  flags or an oversized payload, shuts the session down with `ProtocolError`.
  */
  method Listen(r: FramedReader, chunks: seq<bytes>, session: Session, hiccups: nat)
    requires session.Valid() && r.View() == Nothing
    requires {r, r.buffer} !!
             {session, session.registry, session.ids.next, session.out as object, session.closer} +
             session.registry.parts
    modifies r, r.buffer
    modifies session, session.registry, session.registry.parts, session.out, session.closer
    ensures session.Valid()
    ensures session.View() == Heard(old(session.View()), FeedAll(r.codec.maxPayload, Nothing, chunks))
  {
    hide Session.Valid, StreamRegistry.Entries, ReadAll, E.InitiateShutdown;
    r.OnAllBytes(chunks);
    ReaderRun(session, r.frames, hiccups);
    if r.error.Some? {
      session.InitiateShutdown(ProtocolError);
    }
  }

  /** The frames of a wire, taken one by one as the transition system takes them. */
  function DeliverAll(e: E.Endpoint, fs: seq<Frame>): E.Endpoint
    decreases |fs|
  {
    if e.closing || fs == [] then e
    else if E.Passes(e.cfg, fs[0]) then DeliverAll(E.ReaderStep(e, fs[0]), fs[1..])
    else E.InitiateShutdown(e, ProtocolError)
  }

  lemma AlreadyClosed(e: E.Endpoint, code: ErrorCode)
    requires e.closing
    ensures E.InitiateShutdown(e, code) == e
  {
  }

  /** Decoding and dispatching is delivering. */
  lemma {:induction false} HearingIsDelivering(e: E.Endpoint, fs: seq<Frame>, rest: bytes)
    ensures var k := Readable(Limit(e.cfg.maxFrame), fs);
            Heard(e, Reading(fs[..k], rest, if k < |fs| then Some(TooLong) else None)) == DeliverAll(e, fs)
    decreases |fs|
  {
    hide E.ReaderStep, E.InitiateShutdown;
    var k := Readable(Limit(e.cfg.maxFrame), fs);
    if e.closing {
      AlreadyClosed(e, ProtocolError);
    } else if fs != [] && E.Passes(e.cfg, fs[0]) {
      var e1 := E.ReaderStep(e, fs[0]);
      ReaderConfig(e, fs[0]);
      assert fs[..k][0] == fs[0] && fs[..k][1..] == fs[1..][..k - 1];
      HearingIsDelivering(e1, fs[1..], rest);
    } else {
      assert fs[..k] == [];
    }
  }

  /**
  One hop from queue to peer: the writer empties its queue, the connection cuts the bytes wherever it
  likes, and the peer ends as if it had been handed the queued frames one by one, up to one that it cannot decode.
  */
  method Hop(w: Writer, chunks: seq<bytes>, r: FramedReader, peer: Session, hiccups: nat)
    requires forall f :: f in w.out.items ==> Encodable(w.sink.codec.maxPayload, f) && CanonicalCode(f)
    requires w.Valid() && w.sink.wire.data == [] && w.sink.pending.data == [] && r.View() == Nothing
    requires Flatten(chunks) == Written(w.sink.codec.maxPayload, w.out.items)
    requires peer.Valid() && {w.sink.wire, w.sink.pending} !! {r.buffer}
    requires r.codec.maxPayload == Limit(peer.cfg.maxFrame)
    requires {w.out as object, w.sink.wire, w.sink.pending, r, r.buffer} !!
             {peer, peer.registry, peer.ids.next, peer.out as object, peer.closer} + peer.registry.parts
    modifies w.out, w.sink.wire, w.sink.pending, r, r.buffer
    modifies peer, peer.registry, peer.registry.parts, peer.out, peer.closer
    ensures w.out.items == [] && w.sink.wire.data == Flatten(chunks) && peer.Valid()
    ensures peer.View() == DeliverAll(old(peer.View()), old(w.out.items))
  {
    hide Session.Valid, StreamRegistry.Entries, Heard, DeliverAll, Written, Encodable;
    var own, limit := w.sink.codec.maxPayload, r.codec.maxPayload;
    ghost var q := w.out.items;
    peer.Configured();
    WritesAll(own, q);
    WireRoundTrip(own, limit, q, chunks);
    HearingIsDelivering(peer.View(), q, FeedAll(limit, Nothing, chunks).rest);
    assert w.sink.wire.data + w.sink.pending.data == [];
    var _ := w.Drain();
    assert w.sink.wire.data + [] == w.sink.wire.data;
    Listen(r, chunks, peer, hiccups);
  }

  /**
  The writer task, from a queue on: rounds of the main loop until the queue is empty or a write fails, and after
  a failure the drain.
  */
  method WriterRun(w: Writer, session: Session)
    requires w.Valid() && session.Valid() && w.Serves(session) && !session.isClosing && w.out.isOpen
    requires w.sink.pending.data == []
    modifies w.out, w.sink.pending, w.sink.wire
    modifies session`isClosing, session.registry`inner, session.registry.parts
    ensures session.Valid()
    ensures w.sink.wire.data + w.sink.pending.data ==
            old(w.sink.wire.data) + Emission(w.sink.codec.maxPayload, old(w.out.items))
    ensures old(w.sink.wire.data) <= w.sink.wire.data
    ensures session.isClosing <==> exists f :: f in old(w.out.items) && !Encodable(w.sink.codec.maxPayload, f)
  {
    hide Session.View, StreamRegistry.Valid, StreamRegistry.Recorded, Encode, Encodable, E.WriteFailed;
    ghost var limit, q0, start := w.sink.codec.maxPayload, w.out.items, w.sink.wire.data;
    ghost var i := 0;
    session.Configured();
    while w.out.items != []
      invariant session.Valid() && w.Serves(session) && !session.isClosing && w.out.isOpen
      invariant w.sink.pending.data == [] && 0 <= i <= |q0| && w.out.items == q0[i..]
      invariant forall f :: f in q0[..i] ==> Encodable(limit, f)
      invariant start <= w.sink.wire.data
      invariant w.sink.wire.data + Emission(limit, w.out.items) == start + Emission(limit, q0)
      decreases |w.out.items|
    {
      ghost var e, bytes := session.View(), w.sink.wire.data;
      session.Configured();
      assert q0[i..][0] == q0[i] && q0[i..][1..] == q0[i + 1..] && q0[..i + 1] == q0[..i] + [q0[i]];
      w.Turn(session);
      session.Configured();
      FailedShape(e);
      if session.isClosing {
        assert q0[i] in q0 && !Encodable(limit, q0[i]);
        assert w.sink.wire.data + w.sink.pending.data == w.sink.wire.data;
        var _ := w.Drain();
        return;
      }
      assert bytes + (Encode(limit, q0[i]) + Emission(limit, q0[i + 1..])) ==
             (bytes + Encode(limit, q0[i])) + Emission(limit, q0[i + 1..]);
      i := i + 1;
    }
    assert q0[..i] == q0;
  }

  /** A failed write shuts the session down, its GoAway behind the rest of the queue. */
  lemma FailedShape(e: E.Endpoint)
    requires e.outQ != [] && e.outOpen && !e.closing
    ensures E.WriteFailed(e).outQ == e.outQ[1..] + [GoAway(InternalError)] && E.WriteFailed(e).closing
    ensures E.WriteFailed(e).outOpen
  {
  }
}
