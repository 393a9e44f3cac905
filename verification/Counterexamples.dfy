/** Two things a reader of the documentation might expect, and runs in which they fail. */
module Counterexamples {
  import opened Base
  import opened Frames
  import opened Ids
  import opened Streams
  import opened Endpoints
  import opened Network
  import opened Guarantees
  import opened Faults
  import opened Scenarios

  /**
  `Stream::reset` can take the whole session down: a byte still on the wire when the
  server's user resets arrives before the closer has removed the stream, and the server
  blames the client.
  */
  lemma ResetCanFault(c: Config, s: Config) returns (n: Net)
    requires ValidConfig(c) && ValidConfig(s) && c.maxStreams > 0 && s.maxStreams > 0
    ensures Reachable(c, s, n) && Enabled(n, Event(Server, Deliver)) && Faulty(n, Server)
    ensures !Oversized(n, Server) && Step(n, Event(Server, Deliver)).server.closing
  {
    var n0 := EstablishRun(Client, c, s);
    var tx, rx := n0.client.entries[1].stream, n0.server.entries[1].stream;
    var n2 := SendByte(Client, c, s, tx, rx, [Syn(1)], 0);
    Chain(Init(c, s), n0, n2);
    ThenAny(c, s, n2, Event(Server, Use(1, Reset)));
    n := Step(n2, Event(Server, Use(1, Reset)));
  }

  // ---------------------------------------------------------------- a graceful drop that loses data

  /** The client wrote a byte and dropped its handle; the closer has run and the FIN is on the wire. */
  lemma DropRun(c: Config, s: Config, tx: Stream, rx: Stream, sent: seq<Frame>) returns (n: Net)
    requires tx.id == 1 && tx.state == State(true, true, false) && !tx.finSent
    ensures Leads(Calm(Client, c, s, tx, rx, sent), n)
    ensures n == Net(OpenerAt(Client, c, Entry(CloseWrite(tx).(finSent := true), false, Nobody), [], sent + [Fin(1)]),
                     AcceptorAt(Client, s, Entry(rx, true, User), [], [Ack(1)], []), [Fin(1)], [])
  {
    hide PollRead, PollWrite, LocalReset, ReaderStep, InitiateShutdown, Endpoints.Open, Endpoints.Accept;
    var n0 := Calm(Client, c, s, tx, rx, sent);
    Stay(n0);
    Then(n0, n0, Event(Client, Use(1, Drop)));
    var n1 := Step(n0, Event(Client, Use(1, Drop)));
    Then(n0, n1, Event(Client, Collect));
    var n2 := Step(n1, Event(Client, Collect));
    Then(n0, n2, Event(Client, Move));
    n := Step(n2, Event(Client, Move));
  }

  /** The server sees the FIN, shuts its own half and sends its FIN. */
  lemma AnswerRun(c: Config, s: Config, gone: Entry, rx: Stream, sent: seq<Frame>) returns (n: Net)
    requires rx.id == 1 && rx.state == State(true, true, false) && !rx.finSent
    ensures Leads(Net(OpenerAt(Client, c, gone, [], sent),
                      AcceptorAt(Client, s, Entry(rx, true, User), [], [Ack(1)], []), [Fin(1)], []), n)
    ensures n.client == OpenerAt(Client, c, gone, [], sent) && n.up == [] && n.down == [Fin(1)]
    ensures n.server.entries == map[1 := Entry(CloseWrite(CloseRead(rx)).(finSent := true), true, User)]
    ensures !n.server.closing && n.server.outOpen && n.server.outQ == []
  {
    hide PollRead, PollWrite, LocalReset, UserDrop, InitiateShutdown, Endpoints.Open, Endpoints.Accept, WriteFailed,
      WriterExit;
    var n0 := Net(OpenerAt(Client, c, gone, [], sent),
                  AcceptorAt(Client, s, Entry(rx, true, User), [], [Ack(1)], []), [Fin(1)], []);
    Stay(n0);
    assert rx.buffer + [] == rx.buffer;
    Then(n0, n0, Event(Server, Deliver));
    var n1 := Step(n0, Event(Server, Deliver));
    Then(n0, n1, Event(Server, Use(1, Finish)));
    var n2 := Step(n1, Event(Server, Use(1, Finish)));
    Then(n0, n2, Event(Server, Move));
    n := Step(n2, Event(Server, Move));
  }

  /** The FIN finds no stream at the client, which answers with a reset. */
  lemma StrayFinRun(n0: Net, c: Config, gone: Entry, sent: seq<Frame>, rx: Stream) returns (n: Net)
    requires n0.client == OpenerAt(Client, c, gone, [], sent) && !gone.registered && n0.up == [] && n0.down == [Fin(1)]
    requires n0.server.entries == map[1 := Entry(rx, true, User)] && !n0.server.closing
    ensures Leads(n0, n)
    ensures n.client.entries == map[1 := gone]
    ensures 1 in n.server.entries && n.server.entries[1].holder == User
    ensures n.server.entries[1].stream == CloseWindow(MarkReset(rx))
  {
    Stay(n0);
    Then(n0, n0, Event(Client, Deliver));
    var n1 := Step(n0, Event(Client, Deliver));
    Then(n0, n1, Event(Client, Move));
    var n2 := Step(n1, Event(Client, Move));
    assert n2.up == [Rst(1)];
    assert rx.buffer + [] == rx.buffer;
    Then(n0, n2, Event(Server, Deliver));
    n := Step(n2, Event(Server, Deliver));
  }

  /**
  Dropping a stream is documented to end it gracefully, yet the peer can lose bytes that
  had already arrived: its own FIN meets an unknown stream, the answer is a reset, and a
  reset stream refuses to be read. Nobody called `Stream::reset`.
  */
  lemma DropCanLoseData(c: Config, s: Config, b: u8) returns (n: Net)
    requires ValidConfig(c) && ValidConfig(s) && c.maxStreams > 0 && s.maxStreams > 0
    ensures Reachable(c, s, n) && Leads(Init(c, s), n)
    ensures 1 in n.client.entries && StreamAt(n, Client, 1).log.wrote == [b]
    ensures 1 in n.server.entries && n.server.entries[1].holder == User
    ensures StreamAt(n, Server, 1).log.read == [] && StreamAt(n, Server, 1).buffer == [b]
    ensures !StreamAt(n, Client, 1).log.localReset && !StreamAt(n, Server, 1).log.localReset
    ensures forall cap: nat :: cap > 0 ==> PollRead(StreamAt(n, Server, 1), cap).1 == ReadReset
  {
    var n0 := EstablishRun(Client, c, s);
    var tx, rx := n0.client.entries[1].stream, n0.server.entries[1].stream;
    var n1 := PassByte(Client, c, s, tx, rx, [Syn(1)], b);
    Chain(Init(c, s), n0, n1);
    var tx1, rx1, sent := Spent(tx, [b]), rx.(buffer := rx.buffer + [b]), [Syn(1)] + [Data(1, NoFlags, [b])];
    var n2 := DropRun(c, s, tx1, rx1, sent);
    Chain(Init(c, s), n1, n2);
    var gone := Entry(CloseWrite(tx1).(finSent := true), false, Nobody);
    var n3 := AnswerRun(c, s, gone, rx1, sent + [Fin(1)]);
    Chain(Init(c, s), n2, n3);
    n := StrayFinRun(n3, c, gone, sent + [Fin(1)], CloseWrite(CloseRead(rx1)).(finSent := true));
    Chain(Init(c, s), n3, n);
  }
}
