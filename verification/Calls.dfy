/**
What each call does and returns, field by field and in plain numbers, for every argument and every state. The
theorems about runs build on the functions of `Streams` and `Endpoints`; here is what those functions mean.
*/
module Calls {
  import opened Base
  import opened Frames
  import opened Ids
  import opened Streams
  import opened Endpoints

  /** The frames the library builds, flag by flag: SYN, ACK, FIN, RST. */
  lemma FramesAre(id: u32, n: u32)
    ensures Syn(id) == Data(id, Flags(true, false, false, false), [])
    ensures Ack(id) == Data(id, Flags(false, true, false, false), [])
    ensures Fin(id) == Data(id, Flags(false, false, true, false), [])
    ensures Rst(id) == Data(id, Flags(false, false, false, true), [])
    ensures Credit(id, n) == WindowUpdate(id, Flags(false, false, false, false), n)
    ensures PingRequest(n) == Ping(Flags(false, false, false, false), n)
    ensures Pong(n) == Ping(Flags(false, true, false, false), n)
  {
  }

  /** Saturating and wrapping addition of 32-bit numbers. */
  lemma SumsAre(a: u32, b: u32)
    ensures SatAdd(a, b) == Min(a + b, 0xFFFF_FFFF)
    ensures WrapAdd(a, b) == (a + b) % 0x1_0000_0000
  {
  }

  // ---------------------------------------------------------------- reading

  /** What `poll_read` returns, and when: all four outcomes, whatever the write half is doing. */
  lemma ReadOutcomes(s: Stream, cap: nat)
    ensures var r := PollRead(s, cap).1;
            && (r == ReadReset <==> cap > 0 && s.state.reset)
            && (r == Eof <==> cap > 0 && !s.state.reset && s.buffer == [] && !s.state.readOpen)
            && (r == ReadPending <==> cap > 0 && !s.state.reset && s.buffer == [] && s.state.readOpen)
            && (r.Got? <==> cap == 0 || (!s.state.reset && s.buffer != []))
            && (r.Got? ==> r.bytes == s.buffer[..Min(cap, |s.buffer|)])
  {
  }

  /** What was returned has left the buffer, at its front, and nothing else has. */
  lemma ReadTakes(s: Stream, cap: nat)
    ensures var (o, r) := PollRead(s, cap);
            var got := if r.Got? then r.bytes else [];
            && s.buffer == got + o.stream.buffer && o.stream.log.read == s.log.read + got
            && o.stream.state == s.state && o.stream.tx == s.tx && o.signals == []
  {
    var n := Min(cap, |s.buffer|);
    assert s.buffer == s.buffer[..n] + s.buffer[n..];
    assert s.log.read + [] == s.log.read;
  }

  /**
  Within 32 bits, consuming bytes announces credit exactly when half the window, and at least one byte, has been
  consumed since the last time, and then announces all of it.
  */
  lemma ConsumeAnnounces(initial: u32, pending: u32, bytes: u32)
    requires pending + bytes <= U32_MAX
    ensures var (left, delta) := OnConsume(initial, pending, bytes);
            && (delta.Some? <==> bytes > 0 && pending + bytes >= Max(initial / 2, 1))
            && (delta.Some? ==> delta.value == pending + bytes && left == 0)
            && (delta.None? ==> left == pending + bytes)
  {
  }

  /** So a read announces credit for its stream exactly then, and never sends anything else. */
  lemma ReadAnnounces(s: Stream, cap: nat)
    requires s.rx.pending + |s.buffer| <= U32_MAX
    ensures var (o, r) := PollRead(s, cap);
            var total := s.rx.pending + if r.Got? then |r.bytes| else 0;
            if r.Got? && r.bytes != [] && total >= Max(s.rx.initial / 2, 1)
            then o.frames == [WindowUpdate(s.id, NoFlags, total)] && o.stream.rx.pending == 0
            else o.frames == [] && o.stream.rx.pending == total
  {
    var n := Min(cap, |s.buffer|);
    if cap > 0 && !s.state.reset && n > 0 {
      ConsumeAnnounces(s.rx.initial, s.rx.pending, n);
    }
  }

  // ---------------------------------------------------------------- writing

  /** A write gets through. */
  predicate Writable(s: Stream, data: seq<u8>, outOpen: bool) {
    !s.state.reset && s.state.writeOpen && !s.tx.closed && s.tx.credit > 0 && data != [] && outOpen
  }

  /** What `poll_write` returns, and when. */
  lemma WriteOutcomes(s: Stream, maxFrame: u32, data: seq<u8>, outOpen: bool)
    requires maxFrame > 0
    ensures var r := PollWrite(s, maxFrame, data, outOpen).1;
            && (r == WriteReset <==> s.state.reset)
            && (r.Accepted? && r.n > 0 <==> Writable(s, data, outOpen))
            && (r.Accepted? && r.n > 0 ==> r.n == Min(s.tx.credit, Min(|data|, maxFrame)))
            && (r == Accepted(0) <==> !s.state.reset && s.state.writeOpen && data == [])
            && (r == WritePending <==>
                  !s.state.reset && s.state.writeOpen && data != [] && !s.tx.closed && s.tx.credit == 0)
  {
  }

  /** The count returned is exactly what was queued, logged and paid for; any other result leaves nothing behind. */
  lemma WriteTakes(s: Stream, maxFrame: u32, data: seq<u8>, outOpen: bool)
    requires maxFrame > 0
    ensures var (o, r) := PollWrite(s, maxFrame, data, outOpen);
            var k := if r.Accepted? then r.n else 0;
            && 0 <= k <= |data| && k <= s.tx.credit
            && o.stream.log.wrote == s.log.wrote + data[..k] && o.stream.log.kept == s.log.kept + data[..k]
            && o.frames == (if k == 0 then [] else [Data(s.id, NoFlags, data[..k])])
            && o.stream.tx.credit == s.tx.credit - k
            && o.stream.buffer == s.buffer && o.stream.log.read == s.log.read && o.signals == []
            && (r != BrokenPipe ==> o.stream.state == s.state)
  {
    var none: seq<u8> := data[..0];
    assert s.log.wrote + none == s.log.wrote && s.log.kept + none == s.log.kept;
  }

  // ---------------------------------------------------------------- ending

  /** `poll_shutdown`: the write half ends, and the peer is told exactly once. */
  lemma FinDoes(s: Stream)
    ensures var o := LocalFin(s);
            && (s.state.reset || !o.stream.state.writeOpen)
            && o.frames == (if !s.state.reset && s.state.writeOpen && !s.finSent then [Fin(s.id)] else [])
            && o.signals == [] && o.stream.state.readOpen == s.state.readOpen && o.stream.buffer == s.buffer
  {
  }

  /** `reset`: both halves end at once. The peer is told unless it has been told of an end before. */
  lemma ResetDoes(s: Stream)
    ensures var o := LocalReset(s);
            && o.stream.state == State(false, false, true)
            && o.frames == (if !s.state.reset && !s.finSent then [Rst(s.id)] else [])
            && o.signals == (if s.state.reset then [] else [s.id])
            && (!s.state.reset ==> o.stream.tx.closed && o.stream.finSent)
            && o.stream.buffer == s.buffer
  {
  }

  /** `drop`: the FIN of a write half still open, and in any case word to the closer. */
  lemma DropDoes(s: Stream)
    ensures var o := UserDrop(s);
            && o.frames == (if !s.state.reset && s.state.writeOpen && !s.finSent then [Fin(s.id)] else [])
            && o.signals == [s.id]
            && o.stream.state.readOpen == s.state.readOpen && o.stream.state.reset == s.state.reset
            && (!s.state.reset ==> !o.stream.state.writeOpen)
  {
  }

  /** The peer's RST: both halves end, writers and readers are released, the closer is told, and nothing is sent. */
  lemma RemoteResetDoes(s: Stream)
    ensures var o := RemoteReset(s);
            && o.stream.state == State(false, false, true) && o.stream.tx.closed
            && o.frames == [] && o.signals == [s.id] && o.stream.buffer == s.buffer
            && o.stream.log == s.log
  {
  }

  // ---------------------------------------------------------------- a data frame

  /** Where a frame without SYN finds its stream. */
  predicate Takes(e: Endpoint, id: u32, payload: seq<u8>)
    requires Lookup(e, id)
  {
    payload == [] || (e.entries[id].stream.state.readOpen && !e.entries[id].stream.state.reset)
  }

  /** A SYN that is let in. */
  predicate Admits(e: Endpoint, id: u32) {
    id != 0 && !e.role.Owns(id) && !e.peerGone && |Registered(e)| < e.cfg.maxStreams && !Lookup(e, id)
  }

  /** When a data frame, from any peer, is a protocol error. */
  lemma DataFaultIff(e: Endpoint, id: u32, flags: Flags, payload: seq<u8>)
    ensures HandleData(e, id, flags, payload).1 == Fault <==>
            || id == 0
            || (flags.syn && e.role.Owns(id))
            || (flags.syn && !e.peerGone && |Registered(e)| < e.cfg.maxStreams && Lookup(e, id))
            || (!flags.syn && Lookup(e, id) && !Takes(e, id, payload))
  {
  }

  /** What a data frame of a known stream does to it, flag by flag, when it is not an error. */
  lemma DataDoes(e: Endpoint, id: u32, flags: Flags, payload: seq<u8>)
    requires id != 0 && !flags.syn && Lookup(e, id) && Takes(e, id, payload)
    ensures var e1, s := HandleData(e, id, flags, payload).0, e.entries[id].stream;
            && id in e1.entries && e1.entries == e.entries[id := e1.entries[id]]
            && e1.entries[id].registered && e1.entries[id].holder == e.entries[id].holder
            && var s1 := e1.entries[id].stream;
            && s1.acked == (s.acked || flags.ack)
            && s1.buffer == s.buffer + payload
            && s1.state.readOpen == (s.state.readOpen && !flags.fin && !flags.rst)
            && s1.state.writeOpen == (s.state.writeOpen && !flags.rst)
            && s1.state.reset == (s.state.reset || flags.rst)
            && s1.tx.closed == (s.tx.closed || flags.rst) && s1.tx.credit == s.tx.credit
            && s1.log == s.log && s1.rx == s.rx && s1.finSent == s.finSent
            && e1.outQ == e.outQ && e1.closerQ == e.closerQ + (if flags.rst then [s.id] else [])
  {
    assert e.outQ + [] == e.outQ && e.closerQ + [] == e.closerQ;
  }

  /** Payload for a read half that has ended resets the stream. */
  lemma DataFaultDoes(e: Endpoint, id: u32, flags: Flags, payload: seq<u8>)
    requires id != 0 && !flags.syn && Lookup(e, id) && !Takes(e, id, payload) && e.outOpen
    ensures var e1, s := HandleData(e, id, flags, payload).0, e.entries[id].stream;
            && id in e1.entries && e1.entries == e.entries[id := e1.entries[id]]
            && e1.entries[id].stream.state == State(false, false, true) && e1.entries[id].stream.buffer == s.buffer
            && e1.outQ == e.outQ + (if !s.state.reset && !s.finSent then [Rst(s.id)] else [])
            && e1.closerQ == e.closerQ + (if s.state.reset then [] else [s.id])
  {
  }

  /** A stream nobody knows: RST, unless the frame only answers or only ends. */
  lemma StrayDoes(e: Endpoint, id: u32, flags: Flags, payload: seq<u8>)
    requires id != 0 && !flags.syn && !Lookup(e, id) && e.outOpen
    ensures var e1 := HandleData(e, id, flags, payload).0;
            && e1.entries == e.entries && e1.closerQ == e.closerQ
            && e1.outQ == e.outQ + (if flags.ack || flags.rst then [] else [Rst(id)])
  {
    assert e.outQ + [] == e.outQ;
  }

  /**
  A SYN is let in, with a stream of its own, waiting to be accepted, and the rest of its frame counts as well; or it is
  refused with a RST.
  */
  lemma SynDoes(e: Endpoint, id: u32, flags: Flags, payload: seq<u8>)
    requires id != 0 && flags.syn && !e.role.Owns(id) && e.outOpen
    ensures var (e1, v) := HandleData(e, id, flags, payload);
            if Admits(e, id) then
              && v == Fine && id in e1.entries && e1.entries == e.entries[id := e1.entries[id]]
              && e1.entries[id].registered && e1.entries[id].holder == Queued
              && e1.acceptQ == e.acceptQ + [id] && e1.outQ == e.outQ
              && e1.closerQ == e.closerQ + (if flags.rst then [id] else [])
              && var s := e1.entries[id].stream;
              && s.id == id && s.tx.credit == e.cfg.window && s.rx == RecvWindow(e.cfg.window, 0)
              && s.state == State(!flags.fin && !flags.rst, !flags.rst, flags.rst) && s.tx.closed == flags.rst
              && s.buffer == payload && s.acked && !s.finSent && s.log == History([], [], [], false)
            else
              && e1.entries == e.entries && e1.acceptQ == e.acceptQ
              && (v == Fine ==> e1.outQ == e.outQ + [Rst(id)])
  {
    if Admits(e, id) {
      var e2 := Put(e, id, Entry(New(id, Remote, e.cfg.window), true, Queued)).(acceptQ := e.acceptQ + [id]);
      assert [] + payload == payload;
      DataDoes(e2, id, flags.(syn := false), payload);
      SynAside(e2, id, flags, payload);
    }
  }

  /** Once the stream is known, the SYN itself says nothing more. */
  lemma SynAside(e: Endpoint, id: u32, flags: Flags, payload: seq<u8>)
    ensures HandleKnown(e, id, flags, payload) == HandleKnown(e, id, flags.(syn := false), payload)
  {
  }

  // ---------------------------------------------------------------- the other frames

  /** Credit reaches its stream and is added up, short of 32 bits; nothing else changes. */
  lemma CreditDoes(e: Endpoint, id: u32, flags: Flags, delta: u32)
    ensures var (e1, v) := Dispatch(e, WindowUpdate(id, flags, delta));
            && v == Fine && e1 == e.(entries := e1.entries) && e1.entries.Keys == e.entries.Keys
            && (forall k :: k in e.entries && (k != id || !e.entries[k].registered) ==> e1.entries[k] == e.entries[k])
            && (Lookup(e, id) ==>
                  var s, s1 := e.entries[id].stream, e1.entries[id].stream;
                  && s1.tx.credit == Min(s.tx.credit + delta, U32_MAX)
                  && s1 == s.(tx := s1.tx) && s1.tx.closed == s.tx.closed)
  {
  }

  /** A ping is answered with its own value, and an answer is not answered. */
  lemma PingDoes(e: Endpoint, flags: Flags, n: u32)
    requires e.outOpen
    ensures var (e1, v) := Dispatch(e, Ping(flags, n));
            && v == Fine && e1 == e.(outQ := e1.outQ, sent := e1.sent)
            && e1.outQ == e.outQ + (if flags.ack then [] else [Ping(AckFlag, n)])
  {
    assert e.outQ + [] == e.outQ;
  }

  /** A GoAway shuts the session down with the code it brought, and is remembered. */
  lemma GoAwayDoes(e: Endpoint, code: ErrorCode)
    requires !e.closing && e.outOpen
    ensures var (e1, v) := Dispatch(e, GoAway(code));
            && v == Fine && e1.closing && e1.peerGone && e1.outQ == e.outQ + [GoAway(code)]
            && e1.entries == InitiateShutdown(e, code).entries
  {
  }

  /** Shutdown: the GoAway is last in the queue, and exactly the registered streams end, without a reset. */
  lemma ShutdownDoes(e: Endpoint, code: ErrorCode)
    ensures e.closing ==> InitiateShutdown(e, code) == e
    ensures !e.closing ==>
              var e1 := InitiateShutdown(e, code);
              && e1.closing && e1.entries.Keys == e.entries.Keys
              && e1.outQ == (if e.outOpen then e.outQ + [GoAway(code)] else e.outQ)
              && (forall id :: id in e.entries && !e.entries[id].registered ==> e1.entries[id] == e.entries[id])
              && (forall id :: id in e.entries && e.entries[id].registered ==>
                    var s, s1 := e.entries[id].stream, e1.entries[id].stream;
                    && !e1.entries[id].registered && e1.entries[id].holder == e.entries[id].holder
                    && !s1.state.readOpen && !s1.state.writeOpen && s1.tx.closed
                    && s1.state.reset == s.state.reset && s1.buffer == s.buffer && s1.log == s.log)
  {
  }

  // ---------------------------------------------------------------- opening and accepting

  /** `open` takes the next id, registers a writable stream with a full window, and sends its SYN; or does nothing. */
  lemma OpenDoes(e: Endpoint)
    requires e.nextId !in e.entries && e.outOpen
    ensures var e1 := Endpoints.Open(e);
            if !e.closing && !e.peerGone && |Registered(e)| < e.cfg.maxStreams && e.nextId + 2 <= 0xFFFF_FFFF then
              && e1.nextId == e.nextId + 2 && e.nextId in e1.entries
              && e1.entries == e.entries[e.nextId := e1.entries[e.nextId]] && e1.outQ == e.outQ + [Syn(e.nextId)]
              && e1.entries[e.nextId] == Entry(e1.entries[e.nextId].stream, true, Opening)
              && var s := e1.entries[e.nextId].stream;
              && s.id == e.nextId && s.tx.credit == e.cfg.window && s.rx.initial == e.cfg.window && s.rx.pending == 0
              && s.state == State(true, true, false) && s.buffer == [] && !s.acked && !s.finSent
              && s.log == History([], [], [], false)
            else e1 == e
  {
  }

  /** `accept` hands out the oldest waiting stream and sends its ACK. */
  lemma AcceptDoes(e: Endpoint)
    requires !e.closing && e.acceptQ != [] && e.acceptQ[0] in e.entries && e.outOpen
    ensures var e1, id := Endpoints.Accept(e), e.acceptQ[0];
            && e1.acceptQ == e.acceptQ[1..] && e1.accepted == e.accepted + [id] && e1.outQ == e.outQ + [Ack(id)]
            && id in e1.entries && e1.entries == e.entries[id := e.entries[id].(holder := User)]
  {
  }

  /** An `open` that gives up takes the stream out and tells the peer; one that was refused just takes it out. */
  lemma GivingUpDoes(e: Endpoint, id: u32, what: UserAct)
    requires id in e.entries && Allowed(e.entries[id], what) && (what.OpenTimeout? || what.OpenFailed?) && e.outOpen
    ensures var e1 := UserStep(e, id, what);
            && id in e1.entries && !e1.entries[id].registered && e1.entries[id].holder == Nobody
            && e1.entries[id].stream == e.entries[id].stream && e1.entries == e.entries[id := e1.entries[id]]
            && e1.outQ == e.outQ + (if what.OpenTimeout? then [Rst(e.entries[id].stream.id)] else [])
            && e1.closerQ == e.closerQ
  {
    assert e.outQ + [] == e.outQ && e.closerQ + [] == e.closerQ;
  }

  /** When a pending `open` succeeds, when it fails, and when it may give up. */
  lemma OpenOutcomes(en: Entry)
    ensures Allowed(en, Opened) <==> en.holder == Opening && en.stream.acked
    ensures Allowed(en, OpenFailed) <==>
            en.holder == Opening && !en.stream.acked && (en.stream.state.reset || !en.stream.state.writeOpen)
    ensures Allowed(en, OpenTimeout) <==> en.holder == Opening
  {
  }

  /** The ACK of the peer makes `open` return the stream to its user, and nothing else. */
  lemma OpenedDoes(e: Endpoint, id: u32)
    requires id in e.entries && Allowed(e.entries[id], Opened)
    ensures e.entries[id].stream.acked
    ensures UserStep(e, id, Opened) == Put(e, id, e.entries[id].(holder := User))
  {
    assert e.outQ + [] == e.outQ && e.sent + [] == e.sent && e.closerQ + [] == e.closerQ;
  }

  /** One turn of the closer takes one stream out of the registry and leaves the stream itself alone. */
  lemma CloserDoes(e: Endpoint)
    requires e.closerQ != []
    ensures var e1, id := CloserStep(e), e.closerQ[0];
            && e1.closerQ == e.closerQ[1..] && !Lookup(e1, id) && e1.entries.Keys == e.entries.Keys
            && (forall k :: k in e.entries && k != id ==> e1.entries[k] == e.entries[k])
            && (id in e.entries ==> e1.entries[id] == e.entries[id].(registered := false))
            && e1.outQ == e.outQ
  {
  }

  /** Ids: odd from 1 for a client, even from 2 for a server, in steps of two up to the last that fits 32 bits. */
  lemma IdsAre(next: u32)
    ensures Client.FirstId() == 1 && Server.FirstId() == 2
    ensures Client.Owns(next) <==> next % 2 == 1
    ensures Server.Owns(next) <==> next % 2 == 0 && next != 0
    ensures Advance(next) == if next <= 0xFFFF_FFFD then Some(next + 2) else None
  {
  }
}
