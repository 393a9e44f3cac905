/** Concrete runs: building blocks for the results that say something can happen. */
module Scenarios {
  import opened Base
  import opened Frames
  import opened Ids
  import opened Streams
  import opened Endpoints
  import opened Network
  import opened Guarantees
  import opened Faults

  /** `m` follows `n` by a run in which nobody calls `Stream::reset`. */
  ghost predicate Leads(n: Net, m: Net) {
    exists t: Trace :: Legal(n, t) && NoReset(t) && Run(n, t) == m
  }

  lemma {:induction false} RunConcat(n: Net, t: Trace, u: Trace)
    requires Legal(n, t) && Legal(Run(n, t), u)
    ensures Legal(n, t + u) && Run(n, t + u) == Run(Run(n, t), u)
    decreases |t|
  {
    if t == [] {
      assert t + u == u;
    } else {
      assert (t + u)[1..] == t[1..] + u;
      RunConcat(Step(n, t[0]), t[1..], u);
    }
  }

  lemma OneEvent(n: Net, ev: Event)
    requires Enabled(n, ev)
    ensures Legal(n, [ev]) && Run(n, [ev]) == Step(n, ev)
  {
    hide Step, Enabled;
    var t: Trace := [ev];
    assert t[1..] == [];
    assert Legal(Step(n, ev), t[1..]) && Run(Step(n, ev), t[1..]) == Step(n, ev);
  }

  lemma Then(n: Net, m: Net, ev: Event)
    requires Leads(n, m) && Enabled(m, ev) && !Resets(ev)
    ensures Leads(n, Step(m, ev))
  {
    hide Step, Enabled;
    var t: Trace :| Legal(n, t) && NoReset(t) && Run(n, t) == m;
    OneEvent(m, ev);
    RunConcat(n, t, [ev]);
    assert NoReset(t + [ev]);
  }

  /** The last step may be a reset. */
  lemma ThenAny(c: Config, s: Config, m: Net, ev: Event)
    requires Leads(Init(c, s), m) && Enabled(m, ev) && ValidConfig(c) && ValidConfig(s)
    ensures Reachable(c, s, Step(m, ev))
  {
    hide Step, Enabled;
    var t: Trace :| Legal(Init(c, s), t) && NoReset(t) && Run(Init(c, s), t) == m;
    OneEvent(m, ev);
    RunConcat(Init(c, s), t, [ev]);
  }

  lemma Stay(n: Net)
    ensures Leads(n, n)
  {
    var none: Trace := [];
    assert Legal(n, none) && NoReset(none) && Run(n, none) == n;
  }

  lemma Chain(n: Net, m: Net, k: Net)
    requires Leads(n, m) && Leads(m, k)
    ensures Leads(n, k)
  {
    var t: Trace :| Legal(n, t) && NoReset(t) && Run(n, t) == m;
    var u: Trace :| Legal(m, u) && NoReset(u) && Run(m, u) == k;
    RunConcat(n, t, u);
    assert NoReset(t + u);
  }

  // ---------------------------------------------------------------- opening one stream

  /** `r`, configured by `c`, and its peer, configured by `s`, before anything has happened. */
  function Start(r: Role, c: Config, s: Config): Net {
    if r == Client then Init(c, s) else Init(s, c)
  }

  /** `r` is `x`, its peer is `y`, and `mine` and `theirs` are on the wires of `r` and of the peer. */
  function Place(r: Role, x: Endpoint, y: Endpoint, mine: seq<Frame>, theirs: seq<Frame>): Net {
    if r == Client then Net(x, y, mine, theirs) else Net(y, x, theirs, mine)
  }

  function OpenerAt(r: Role, c: Config, en: Entry, outQ: seq<Frame>, sent: seq<Frame>): Endpoint {
    Endpoint(r, c, r.FirstId() + 2, map[r.FirstId() := en], [], [], outQ, true, false, false, sent, [])
  }

  function AcceptorAt(r: Role, s: Config, en: Entry, acceptQ: seq<u32>, sent: seq<Frame>, outQ: seq<Frame>): Endpoint {
    Endpoint(r.Peer(), s, r.Peer().FirstId(), map[r.FirstId() := en], acceptQ, [], outQ, true, false, false, sent,
             if sent == [] then [] else [r.FirstId()])
  }

  lemma OpenRun(r: Role, c: Config, s: Config) returns (n: Net)
    requires c.maxStreams > 0
    ensures Leads(Start(r, c, s), n)
    ensures var id := r.FirstId();
            n == Place(r, OpenerAt(r, c, Entry(New(id, Local, c.window), true, Opening), [], [Syn(id)]),
                       NewEndpoint(r.Peer(), s), [Syn(id)], [])
  {
    var n0 := Start(r, c, s);
    assert Registered(End(n0, r)) == {};
    Stay(n0);
    Then(n0, n0, Event(r, Open));
    var n1 := Step(n0, Event(r, Open));
    Then(n0, n1, Event(r, Move));
    n := Step(n1, Event(r, Move));
  }

  lemma ArriveRun(r: Role, c: Config, s: Config) returns (n: Net)
    requires c.maxStreams > 0 && s.maxStreams > 0
    ensures Leads(Start(r, c, s), n)
    ensures var id := r.FirstId();
            n == Place(r, OpenerAt(r, c, Entry(New(id, Local, c.window), true, Opening), [], [Syn(id)]),
                       AcceptorAt(r, s, Entry(New(id, Remote, s.window), true, Queued), [id], [], []), [], [])
  {
    hide ReaderStep, UserStep, InitiateShutdown, Endpoints.Open, Endpoints.Accept, CloserStep;
    var n2 := OpenRun(r, c, s);
    Then(Start(r, c, s), n2, Event(r.Peer(), Deliver));
    n := Step(n2, Event(r.Peer(), Deliver));
    SynTaken(r, s);
  }

  lemma SynTaken(r: Role, s: Config)
    requires s.maxStreams > 0
    ensures var id := r.FirstId();
            ReaderStep(NewEndpoint(r.Peer(), s), Syn(id)) ==
            AcceptorAt(r, s, Entry(New(id, Remote, s.window), true, Queued), [id], [], [])
  {
    var e, id := NewEndpoint(r.Peer(), s), r.FirstId();
    assert Registered(e) == {};
    var en := Entry(New(id, Remote, s.window), true, Queued);
    assert en.stream.buffer + [] == en.stream.buffer;
    assert Receive(en, SynFlag, []) == (EntryOut(en, [], []), Fine);
  }

  lemma AcceptRun(r: Role, c: Config, s: Config) returns (n: Net)
    requires c.maxStreams > 0 && s.maxStreams > 0
    ensures Leads(Start(r, c, s), n)
    ensures var id := r.FirstId();
            n == Place(r, OpenerAt(r, c, Entry(New(id, Local, c.window), true, Opening), [], [Syn(id)]),
                       AcceptorAt(r, s, Entry(New(id, Remote, s.window), true, User), [], [Ack(id)], [Ack(id)]), [], [])
  {
    var n3 := ArriveRun(r, c, s);
    Then(Start(r, c, s), n3, Event(r.Peer(), Accept));
    n := Step(n3, Event(r.Peer(), Accept));
  }

  lemma AckRun(r: Role, c: Config, s: Config) returns (n: Net)
    requires c.maxStreams > 0 && s.maxStreams > 0
    ensures Leads(Start(r, c, s), n)
    ensures var id := r.FirstId();
            n == Place(r, OpenerAt(r, c, Entry(New(id, Local, c.window).(acked := true), true, Opening), [], [Syn(id)]),
                       AcceptorAt(r, s, Entry(New(id, Remote, s.window), true, User), [], [Ack(id)], []), [], [])
  {
    hide ReaderStep, UserStep, InitiateShutdown, Endpoints.Open, Endpoints.Accept, CloserStep;
    var n4 := AcceptRun(r, c, s);
    Then(Start(r, c, s), n4, Event(r.Peer(), Move));
    var n5 := Step(n4, Event(r.Peer(), Move));
    Then(Start(r, c, s), n5, Event(r, Deliver));
    n := Step(n5, Event(r, Deliver));
    AckTaken(r, c, New(r.FirstId(), Local, c.window));
  }

  lemma AckTaken(r: Role, c: Config, s: Stream)
    requires s.id == r.FirstId()
    ensures var id := r.FirstId();
            ReaderStep(OpenerAt(r, c, Entry(s, true, Opening), [], [Syn(id)]), Ack(id)) ==
            OpenerAt(r, c, Entry(s.(acked := true), true, Opening), [], [Syn(id)])
  {
    var id, e := r.FirstId(), OpenerAt(r, c, Entry(s, true, Opening), [], [Syn(r.FirstId())]);
    assert s.buffer + [] == s.buffer;
    assert e.outQ + [] == e.outQ && e.sent + [] == e.sent && e.closerQ + [] == e.closerQ;
  }

  lemma EstablishRun(r: Role, c: Config, s: Config) returns (n: Net)
    requires c.maxStreams > 0 && s.maxStreams > 0
    ensures Leads(Start(r, c, s), n)
    ensures var id := r.FirstId();
            n == Calm(r, c, s, New(id, Local, c.window).(acked := true), New(id, Remote, s.window), [Syn(id)])
  {
    hide PollRead, PollWrite, LocalFin, LocalReset, UserDrop;
    var n6 := AckRun(r, c, s);
    var e := End(n6, r);
    assert e.outQ + [] == e.outQ && e.sent + [] == e.sent && e.closerQ + [] == e.closerQ;
    Then(Start(r, c, s), n6, Event(r, Use(r.FirstId(), Opened)));
    n := Step(n6, Event(r, Use(r.FirstId(), Opened)));
  }

  // ---------------------------------------------------------------- moving one byte

  /** The first stream of `r` is open at both ends, `tx` at `r` and `rx` at its peer, and nothing is under way. */
  function Calm(r: Role, c: Config, s: Config, tx: Stream, rx: Stream, sent: seq<Frame>): Net {
    Place(r, OpenerAt(r, c, Entry(tx, true, User), [], sent),
          AcceptorAt(r, s, Entry(rx, true, User), [], [Ack(r.FirstId())], []), [], [])
  }

  predicate CanPass(r: Role, c: Config, tx: Stream, rx: Stream) {
    && c.maxFrame > 0 && tx.id == r.FirstId() == rx.id
    && tx.state.writeOpen && !tx.state.reset && !tx.tx.closed && tx.tx.credit > 0
    && CanRecv(rx)
  }

  /** `r` writes one byte and it reaches the wire. */
  lemma SendByte(r: Role, c: Config, s: Config, tx: Stream, rx: Stream, sent: seq<Frame>, b: u8) returns (n: Net)
    requires CanPass(r, c, tx, rx)
    ensures Leads(Calm(r, c, s, tx, rx, sent), n)
    ensures var f := Data(r.FirstId(), NoFlags, [b]);
            n == Place(r, OpenerAt(r, c, Entry(Spent(tx, [b]), true, User), [], sent + [f]),
                       AcceptorAt(r, s, Entry(rx, true, User), [], [Ack(r.FirstId())], []), [f], [])
  {
    hide UserStep, ReaderStep, InitiateShutdown, Endpoints.Open, Endpoints.Accept, CloserStep;
    var n0, write := Calm(r, c, s, tx, rx, sent), Use(r.FirstId(), Write([b]));
    Stay(n0);
    Written(r, c, tx, [], sent, [b]);
    assert [] + [Data(r.FirstId(), NoFlags, [b])] == [Data(r.FirstId(), NoFlags, [b])];
    Then(n0, n0, Event(r, write));
    var n1 := Step(n0, Event(r, write));
    Then(n0, n1, Event(r, Move));
    n := Step(n1, Event(r, Move));
  }

  lemma Written(r: Role, c: Config, tx: Stream, outQ: seq<Frame>, sent: seq<Frame>, data: seq<u8>)
    requires tx.id == r.FirstId() && 0 < |data| <= Min(c.maxFrame, tx.tx.credit)
    requires tx.state.writeOpen && !tx.state.reset && !tx.tx.closed
    ensures var id, f := r.FirstId(), Data(r.FirstId(), NoFlags, data);
            UserStep(OpenerAt(r, c, Entry(tx, true, User), outQ, sent), id, Write(data)) ==
            OpenerAt(r, c, Entry(Spent(tx, data), true, User), outQ + [f], sent + [f])
  {
    hide PollRead, LocalFin, LocalReset, UserDrop;
    assert data[..|data|] == data;
    var e := OpenerAt(r, c, Entry(tx, true, User), outQ, sent);
    assert e.closerQ + [] == e.closerQ;
  }

  /** It then arrives in the peer's buffer. */
  lemma PassByte(r: Role, c: Config, s: Config, tx: Stream, rx: Stream, sent: seq<Frame>, b: u8) returns (n: Net)
    requires CanPass(r, c, tx, rx) && s.maxFrame > 0
    ensures Leads(Calm(r, c, s, tx, rx, sent), n)
    ensures var f := Data(r.FirstId(), NoFlags, [b]);
            n == Calm(r, c, s, Spent(tx, [b]), rx.(buffer := rx.buffer + [b]), sent + [f])
  {
    hide UserStep, ReaderStep, InitiateShutdown, Endpoints.Open, Endpoints.Accept, CloserStep;
    var n2 := SendByte(r, c, s, tx, rx, sent, b);
    ByteTaken(r, s, rx, b);
    Then(Calm(r, c, s, tx, rx, sent), n2, Event(r.Peer(), Deliver));
    n := Step(n2, Event(r.Peer(), Deliver));
  }

  lemma ByteTaken(r: Role, s: Config, rx: Stream, b: u8)
    requires rx.id == r.FirstId() && CanRecv(rx)
    ensures var id := r.FirstId();
            ReaderStep(AcceptorAt(r, s, Entry(rx, true, User), [], [Ack(id)], []), Data(id, NoFlags, [b])) ==
            AcceptorAt(r, s, Entry(rx.(buffer := rx.buffer + [b]), true, User), [], [Ack(id)], [])
  {
    var id := r.FirstId();
    var e := AcceptorAt(r, s, Entry(rx, true, User), [], [Ack(id)], []);
    assert e.outQ + [] == e.outQ && e.sent + [] == e.sent && e.closerQ + [] == e.closerQ;
  }
}
