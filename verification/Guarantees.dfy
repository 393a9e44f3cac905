/** What every run of two conforming endpoints guarantees, stream by stream. */
module Guarantees {
  import opened Base
  import opened Frames
  import opened Ids
  import opened Streams
  import opened Endpoints
  import opened Channels
  import opened Pairs
  import opened Network
  import opened Delivering

  /** A state some run of two well-configured endpoints reaches. */
  ghost predicate Reachable(c: Config, s: Config, n: Net) {
    ValidConfig(c) && ValidConfig(s) && exists t: Trace :: Legal(Init(c, s), t) && Run(Init(c, s), t) == n
  }

  lemma Invariant(c: Config, s: Config, n: Net)
    requires Reachable(c, s, n)
    ensures NetOk(n) && n.client.cfg == c && n.server.cfg == s
  {
    hide NetOk;
    var t: Trace :| Legal(Init(c, s), t) && Run(Init(c, s), t) == n;
    ReachableOk(c, s, t);
    RunConfig(Init(c, s), t);
  }

  lemma ReaderConfig(e: Endpoint, f: Frame)
    ensures ReaderStep(e, f).cfg == e.cfg
  {
    hide Receive;
  }

  lemma StepConfig(n: Net, ev: Event)
    requires Enabled(n, ev)
    ensures Step(n, ev).client.cfg == n.client.cfg && Step(n, ev).server.cfg == n.server.cfg
  {
    hide ReaderStep, UserStep, InitiateShutdown, Endpoints.Open, Endpoints.Accept, CloserStep, WriteFailed, WriterExit,
      Passes, Allowed;
    var e := End(n, ev.who);
    match ev.act
    case Deliver =>
      ReaderConfig(e, Wire(n, ev.who.Peer())[0]);
      LocalConfig(e, ProtocolError);
    case Use(id, what) => UseConfig(e, id, what);
    case Close(code) => LocalConfig(e, code);
    case Accept => AcceptConfig(e);
    case _ => LocalConfig(e, InternalError);
  }

  lemma UseConfig(e: Endpoint, id: u32, what: UserAct)
    requires id in e.entries && Allowed(e.entries[id], what)
    ensures UserStep(e, id, what).cfg == e.cfg
  {
    hide Apply;
  }

  lemma AcceptConfig(e: Endpoint)
    requires !e.closing && e.acceptQ != [] && e.acceptQ[0] in e.entries
    ensures Endpoints.Accept(e).cfg == e.cfg
  {
  }

  lemma LocalConfig(e: Endpoint, code: ErrorCode)
    ensures Endpoints.Open(e).cfg == e.cfg && InitiateShutdown(e, code).cfg == e.cfg && WriterExit(e).cfg == e.cfg
    ensures e.closerQ != [] ==> CloserStep(e).cfg == e.cfg
    ensures e.outQ != [] ==> WriteFailed(e).cfg == e.cfg
  {
    hide Forgotten, CloseEntry;
  }

  lemma {:induction false} RunConfig(n: Net, t: Trace)
    requires Legal(n, t)
    ensures Run(n, t).client.cfg == n.client.cfg && Run(n, t).server.cfg == n.server.cfg
    decreases |t|
  {
    if t != [] {
      StepConfig(n, t[0]);
      RunConfig(Step(n, t[0]), t[1..]);
    }
  }

  /** The stream `id` as endpoint `r` has it. */
  function StreamAt(n: Net, r: Role, id: u32): Stream
    requires id in End(n, r).entries
  {
    End(n, r).entries[id].stream
  }

  /** The two sides of a stream as seen from `r`. */
  lemma Facts(c: Config, s: Config, n: Net, r: Role, id: u32)
    requires Reachable(c, s, n) && id != 0
    ensures NetOk(n) && EndOk(End(n, r)) && EndOk(End(n, r.Peer()))
    ensures PairOk(SideOf(End(n, r), id), SideOf(End(n, r.Peer()), id), Flight(n, r, id), Flight(n, r.Peer(), id),
                   End(n, r).cfg.window, End(n, r.Peer()).cfg.window, r == Opener(id))
  {
    hide PairOk;
    Invariant(c, s, n);
    assert StreamOk(n, Client, id);
    Flip(n, Client, id);
  }

  // ---------------------------------------------------------------- delivery

  /**
  End-to-end order. Whatever the other streams do and however writes are cut into
  frames, the reader at `r` has a prefix of what its peer wrote and its peer's writer did not
  throw away; as long as `r` would still keep arriving payload, nothing in between is missing;
  and as long as the peer's session is open, nothing has been thrown away.
  */
  lemma OrderedDelivery(c: Config, s: Config, n: Net, r: Role, id: u32)
    requires Reachable(c, s, n) && id in End(n, r).entries && id in End(n, r.Peer()).entries
    ensures StreamAt(n, r, id).log.read <= StreamAt(n, r.Peer(), id).log.kept
    ensures End(n, r).entries[id].registered ==>
              StreamAt(n, r.Peer(), id).log.kept ==
              StreamAt(n, r, id).log.read + StreamAt(n, r, id).buffer + Payload(Flight(n, r.Peer(), id))
    ensures !End(n, r.Peer()).closing ==> StreamAt(n, r.Peer(), id).log.kept == StreamAt(n, r.Peer(), id).log.wrote
  {
    assert id != 0 by { Invariant(c, s, n); assert EndOk(End(n, r)); }
    Facts(c, s, n, r, id);
    var x, y := SideOf(End(n, r), id), SideOf(End(n, r.Peer()), id);
    assert Bytes(y, x, Flight(n, r.Peer(), id));
    assert StreamAt(n, r, id).log.read <= Arrived(x);
    assert EntryOk(End(n, r.Peer()).entries[id], End(n, r.Peer()).closing, End(n, r.Peer()).cfg.window);
  }

  lemma EofShape(s: Stream, cap: nat)
    requires cap > 0 && PollRead(s, cap).1 == Eof
    ensures !s.state.reset && !s.state.readOpen && s.buffer == []
  {
  }

  /** End of file means the end: the last byte the peer's writer sent has been read, and the peer can write no more. */
  lemma EofIsComplete(c: Config, s: Config, n: Net, r: Role, id: u32, cap: nat)
    requires Reachable(c, s, n) && id in End(n, r).entries && End(n, r).entries[id].holder == User
    requires cap > 0 && PollRead(StreamAt(n, r, id), cap).1 == Eof
    requires !End(n, r).closing || End(n, r).peerGone
    ensures Payload(Flight(n, r.Peer(), id)) == []
    ensures id in End(n, r.Peer()).entries ==>
              && StreamAt(n, r, id).log.read == StreamAt(n, r.Peer(), id).log.kept
              && !CanWrite(SideOf(End(n, r.Peer()), id))
  {
    EofShape(StreamAt(n, r, id), cap);
    hide PollRead;
    assert id != 0 by { Invariant(c, s, n); assert EndOk(End(n, r)); }
    Facts(c, s, n, r, id);
    var x, y := SideOf(End(n, r), id), SideOf(End(n, r.Peer()), id);
    assert Finished(x);
    assert Bytes(y, x, Flight(n, r.Peer(), id)) && Ends(y, x, Flight(n, r.Peer(), id));
    assert StreamAt(n, r, id).log.read + [] == StreamAt(n, r, id).log.read;
  }

  /**
  Graceful close. When `r` went down because of its peer's GoAway, every byte the peer
  ever accepted on a stream still in use and not reset, and did not throw away, is at `r`,
  read or readable, and the peer's own session can accept no more.
  */
  lemma GracefulCloseLosesNothing(c: Config, s: Config, n: Net, r: Role, id: u32)
    requires Reachable(c, s, n) && id in End(n, r).entries && id in End(n, r.Peer()).entries
    requires End(n, r).closing && End(n, r).peerGone
    requires Live(End(n, r).entries[id]) && !StreamAt(n, r, id).state.reset
    ensures StreamAt(n, r, id).log.read + StreamAt(n, r, id).buffer == StreamAt(n, r.Peer(), id).log.kept
    ensures !CanWrite(SideOf(End(n, r.Peer()), id))
    ensures forall cap: nat :: cap > 0 && StreamAt(n, r, id).buffer != [] ==>
              PollRead(StreamAt(n, r, id), cap).1 ==
              Got(StreamAt(n, r, id).buffer[..Min(cap, |StreamAt(n, r, id).buffer|)])
  {
    hide Reachable, Flight;
    assert id != 0 by { Invariant(c, s, n); assert EndOk(End(n, r)); }
    Facts(c, s, n, r, id);
    var x, y := SideOf(End(n, r), id), SideOf(End(n, r.Peer()), id);
    assert EntryOk(End(n, r).entries[id], End(n, r).closing, End(n, r).cfg.window);
    assert Finished(x);
    assert Bytes(y, x, Flight(n, r.Peer(), id)) && Ends(y, x, Flight(n, r.Peer(), id));
  }

  /** In flight, no payload of any stream is behind a GoAway, nor behind that stream's FIN or RST. */
  lemma NothingBehindTheEnd(c: Config, s: Config, n: Net, r: Role, id: u32, i: nat, j: nat)
    requires Reachable(c, s, n) && id != 0
    requires i < j < |Flight(n, r, id)| && Terminal(Flight(n, r, id)[i])
    ensures PayloadOf(Flight(n, r, id)[j]) == []
    ensures !CanWrite(SideOf(End(n, r), id))
  {
    Facts(c, s, n, r, id);
    var ch := Flight(n, r, id);
    assert Ends(SideOf(End(n, r), id), SideOf(End(n, r.Peer()), id), ch);
    assert ch[i] in ch;
  }

  // ---------------------------------------------------------------- credit

  /** Credit held by the sender, on its way, buffered, pending and announced: together one window, never more. */
  lemma CreditConservation(c: Config, s: Config, n: Net, r: Role, id: u32)
    requires Reachable(c, s, n) && id in End(n, r).entries && id in End(n, r.Peer()).entries
    ensures var tx, rx := StreamAt(n, r, id), StreamAt(n, r.Peer(), id);
            var total := tx.tx.credit + |Payload(Flight(n, r, id))| + |rx.buffer| + rx.rx.pending
                         + CreditIn(Flight(n, r.Peer(), id));
            && total <= End(n, r).cfg.window
            && (End(n, r).entries[id].registered && End(n, r.Peer()).entries[id].registered ==>
                  total == End(n, r).cfg.window)
  {
    assert id != 0 by { Invariant(c, s, n); assert EndOk(End(n, r)); }
    Facts(c, s, n, r, id);
    var p := r.Peer();
    assert Ledger(SideOf(End(n, r), id), SideOf(End(n, p), id),
                  Flight(n, r, id), Flight(n, p, id), End(n, r).cfg.window);
  }

  lemma WindowBounds(c: Config, s: Config, n: Net, r: Role, id: u32)
    requires Reachable(c, s, n) && id in End(n, r).entries
    ensures StreamAt(n, r, id).rx.initial == End(n, r).cfg.window
    ensures StreamAt(n, r, id).rx.pending < Max(End(n, r).cfg.window / 2, 1)
    ensures |StreamAt(n, r, id).buffer| + StreamAt(n, r, id).rx.pending <= End(n, r.Peer()).cfg.window
    ensures StreamAt(n, r, id).tx.credit + CreditIn(Flight(n, r.Peer(), id)) <= End(n, r).cfg.window
  {
    assert id != 0 by { Invariant(c, s, n); assert EndOk(End(n, r)); }
    Facts(c, s, n, r, id);
    var p := r.Peer();
    var x, y := SideOf(End(n, r), id), SideOf(End(n, p), id);
    assert EntryOk(End(n, r).entries[id], End(n, r).closing, End(n, r).cfg.window);
    assert Ledger(x, y, Flight(n, r, id), Flight(n, p, id), End(n, r).cfg.window);
    assert Ledger(y, x, Flight(n, p, id), Flight(n, r, id), End(n, p).cfg.window);
  }

  /**
  So the fixed-width arithmetic of both windows is exact: no saturated grant, no wrapped counter, no truncated
  count.
  */
  lemma WindowsAreExact(c: Config, s: Config, n: Net, r: Role, id: u32, k: nat)
    requires Reachable(c, s, n) && id in End(n, r).entries && k <= |StreamAt(n, r, id).buffer|
    ensures k % (U32_MAX + 1) == k
    ensures WrapAdd(StreamAt(n, r, id).rx.pending, k) == StreamAt(n, r, id).rx.pending + k
    ensures forall f :: f in Flight(n, r.Peer(), id) && f.WindowUpdate? ==>
              SatAdd(StreamAt(n, r, id).tx.credit, f.delta) == StreamAt(n, r, id).tx.credit + f.delta
  {
    hide Reachable, Flight;
    WindowBounds(c, s, n, r, id);
    ConsumeExact(StreamAt(n, r, id).rx.initial, StreamAt(n, r, id).rx.pending, k);
    forall f | f in Flight(n, r.Peer(), id)
      ensures CreditOf(f) <= CreditIn(Flight(n, r.Peer(), id))
    {
      CreditBounds(Flight(n, r.Peer(), id), f);
    }
  }

  lemma {:induction false} CreditBounds(ch: seq<Frame>, f: Frame)
    requires f in ch
    ensures CreditOf(f) <= CreditIn(ch)
  {
    if f != ch[0] {
      CreditBounds(ch[1..], f);
    }
  }
}
