/**
A frame that is too long jams everything behind it. So a stream out of credit can get some again, in every run, if
and only if the receiver's threshold is within the sender's window and neither side can write such a frame.
*/
module Jams {
  import opened Base
  import opened Frames
  import opened Ids
  import opened Streams
  import opened Endpoints
  import opened Network
  import opened Delivering
  import opened Guarantees
  import opened Termination
  import opened Scenarios
  import opened Deadlock
  import opened Drops
  import opened Settling
  import opened Progress
  import opened Sizes
  import opened Wires

  // ---------------------------------------------------------------- a frame that nobody gets past

  /** The `i`th frame of `q` under way is too long for a codec it still has to pass. */
  predicate Jam(n: Net, q: Role, i: nat) {
    && i < |Pipe(n, q)|
    && (|| !Passes(End(n, q.Peer()).cfg, Pipe(n, q)[i])
        || (i >= |Wire(n, q)| && !Passes(End(n, q).cfg, Pipe(n, q)[i])))
  }

  /** Turns of tasks, and reads. */
  predicate TaskOrRead(ev: Event, p: Role, id: u32) {
    Autonomous(ev.act) || (ev.who == p && On(ev, id) && ev.act.what.Read?)
  }

  lemma ReadQueue(e: Endpoint, id: u32, cap: nat)
    requires id in e.entries && Allowed(e.entries[id], Read(cap))
    ensures e.outQ <= UserStep(e, id, Read(cap)).outQ
  {
    hide PollRead;
  }

  /** While both sessions stay open, queues only grow at their end and shrink onto the wire. */
  lemma OwnPipeGrows(n: Net, ev: Event, p: Role, id: u32)
    requires Enabled(n, ev) && TaskOrRead(ev, p, id) && BothOpen(n) && BothOpen(Step(n, ev))
    ensures Pipe(n, ev.who) <= Pipe(Step(n, ev), ev.who)
    ensures Wire(Step(n, ev), ev.who) ==
            Wire(n, ev.who) + if ev.act.Move? then [End(n, ev.who).outQ[0]] else []
  {
    hide ReaderStep, CloserStep, UserStep, InitiateShutdown, WriteFailed;
    var r, e := ev.who, End(n, ev.who);
    OpenPasses(n, ev);
    match ev.act
    case Move => MovePipes(n, r);
    case Deliver => ReaderQueue(e, Wire(n, r.Peer())[0]);
    case Collect => CloserQueue(e); assert e.outQ + [] == e.outQ;
    case Use(k, what) => ReadQueue(e, k, what.cap);
    case _ =>
  }

  lemma OtherPipe(n: Net, ev: Event)
    requires Enabled(n, ev) && BothOpen(n) && BothOpen(Step(n, ev))
    ensures var p := ev.who.Peer();
            && (ev.act.Deliver? ==> Wire(n, p) != [])
            && Pipe(Step(n, ev), p) == (if ev.act.Deliver? then Pipe(n, p)[1..] else Pipe(n, p))
            && Wire(Step(n, ev), p) == (if ev.act.Deliver? then Wire(n, p)[1..] else Wire(n, p))
  {
    hide Endpoints.Open, UserStep, Endpoints.Accept, InitiateShutdown, ReaderStep, CloserStep, WriteFailed, WriterExit;
    OpenPasses(n, ev);
  }

  /** The jam stays where it is, or moves up by one; at the head it would end a session. */
  lemma JamStays(n: Net, ev: Event, p: Role, id: u32, q: Role, i: nat) returns (j: nat)
    requires Enabled(n, ev) && TaskOrRead(ev, p, id) && BothOpen(n) && BothOpen(Step(n, ev)) && Jam(n, q, i)
    ensures Jam(Step(n, ev), q, j)
    ensures ev == Event(q.Peer(), Deliver) ==> i > 0 && Wire(n, q) != []
    ensures Pipe(Step(n, ev), q)[..j] ==
            if ev == Event(q.Peer(), Deliver) then Pipe(n, q)[1..i] else Pipe(n, q)[..i]
  {
    hide Step, Enabled, BothOpen, Passes, TaskOrRead;
    var m := Step(n, ev);
    StepConfig(n, ev);
    OpenPasses(n, ev);
    OtherPipe(n, ev);
    OwnPipeGrows(n, ev, p, id);
    if ev.who == q {
      j := i;
      assert Pipe(m, q)[i] == Pipe(n, q)[i];
      if ev.act.Move? && i == |Wire(n, q)| {
        assert Pipe(n, q)[i] == End(n, q).outQ[0];
      }
    } else if ev.act.Deliver? {
      assert ev == Event(q.Peer(), Deliver);
      assert Pipe(n, q)[0] == Wire(n, q)[0];
      j := i - 1;
      assert Pipe(m, q)[j] == Pipe(n, q)[i];
    } else {
      j := i;
    }
  }

  // ---------------------------------------------------------------- no credit gets through

  /** The sender is out of credit, its first payload is jammed, and the receiver has nothing to give back. */
  ghost predicate JammedAhead(n: Net, r: Role, id: u32) {
    && id in End(n, r).entries && StreamAt(n, r, id).tx.credit == 0
    && id in End(n, r.Peer()).entries && StreamAt(n, r.Peer(), id).buffer == []
    && Stingy(Pipe(n, r.Peer()), id)
    && exists i: nat :: Jam(n, r, i) && Mute(Pipe(n, r)[..i], id)
  }

  /** The sender is out of credit, and what the receiver might give back is jammed. */
  ghost predicate JammedBack(n: Net, r: Role, id: u32) {
    && id in End(n, r).entries && StreamAt(n, r, id).tx.credit == 0
    && exists i: nat :: Jam(n, r.Peer(), i) && Stingy(Pipe(n, r.Peer())[..i], id)
  }

  lemma HeadOfPipe(n: Net, q: Role, i: nat)
    requires Wire(n, q) != [] && 0 < i <= |Pipe(n, q)|
    ensures Wire(n, q)[..1] == Pipe(n, q)[..1] && forall f :: f in Wire(n, q)[..1] ==> f in Pipe(n, q)[..i]
  {
    assert Wire(n, q)[0] == Pipe(n, q)[0] == Pipe(n, q)[..i][0];
  }

  lemma AheadStep(n: Net, ev: Event, r: Role, id: u32)
    requires NetOk(n) && Enabled(n, ev) && TaskOrRead(ev, r.Peer(), id) && BothOpen(n) && BothOpen(Step(n, ev))
    requires JammedAhead(n, r, id)
    ensures JammedAhead(Step(n, ev), r, id)
  {
    hide NetOk, Step, Enabled, Passes, TaskOrRead, BothOpen, Pipe, Wire;
    var p, m := r.Peer(), Step(n, ev);
    var i: nat :| Jam(n, r, i) && Mute(Pipe(n, r)[..i], id);
    var j := JamStays(n, ev, p, id, r, i);
    HeadWaits(n, ev);
    StepPipes(n, ev);
    QueueInPipe(n, p);
    if ev == Event(p, Deliver) {
      HeadOfPipe(n, r, i);
    }
    StepIdles(n, ev, id);
    assert Mute(Pipe(m, r)[..j], id);
  }

  lemma BackStep(n: Net, ev: Event, r: Role, id: u32)
    requires NetOk(n) && Enabled(n, ev) && TaskOrRead(ev, r.Peer(), id) && BothOpen(n) && BothOpen(Step(n, ev))
    requires JammedBack(n, r, id)
    ensures JammedBack(Step(n, ev), r, id)
  {
    hide NetOk, Step, Enabled, Passes, TaskOrRead, BothOpen, Pipe, Wire;
    var p, m := r.Peer(), Step(n, ev);
    var i: nat :| Jam(n, p, i) && Stingy(Pipe(n, p)[..i], id);
    var j := JamStays(n, ev, p, id, p, i);
    HeadWaits(n, ev);
    StepPipes(n, ev);
    if ev == Event(r, Deliver) {
      HeadOfPipe(n, p, i);
    }
    if ev.who == r {
      StepIdles(n, ev, id);
    }
    assert Stingy(Pipe(m, p)[..j], id);
  }

  // ---------------------------------------------------------------- for ever

  lemma ShutStays(n: Net, ev: Event)
    requires Enabled(n, ev) && !BothOpen(n)
    ensures !BothOpen(Step(n, ev))
  {
    hide Apply, Receive, Cut;
  }

  lemma {:induction false} ShutForGood(n: Net, t: Trace)
    requires Legal(n, t) && !BothOpen(n)
    ensures !BothOpen(Run(n, t))
    decreases |t|
  {
    hide Step, Enabled, BothOpen;
    if t != [] {
      ShutStays(n, t[0]);
      ShutForGood(Step(n, t[0]), t[1..]);
    }
  }

  lemma {:induction false} JammedForGood(n: Net, t: Trace, r: Role, id: u32)
    requires NetOk(n) && Legal(n, t) && TasksAndReads(t, r.Peer(), id) && BothOpen(Run(n, t))
    requires JammedAhead(n, r, id) || JammedBack(n, r, id)
    ensures id in End(Run(n, t), r).entries && StreamAt(Run(n, t), r, id).tx.credit == 0
    decreases |t|
  {
    hide NetOk, Step, Enabled, BothOpen;
    if t != [] {
      assert t[0] in t && forall ev :: ev in t[1..] ==> ev in t;
      if !BothOpen(n) {
        ShutForGood(n, t);
      }
      if !BothOpen(Step(n, t[0])) {
        ShutForGood(Step(n, t[0]), t[1..]);
      }
      StepKeeps(n, t[0]);
      if JammedAhead(n, r, id) {
        AheadStep(n, t[0], r, id);
      } else {
        BackStep(n, t[0], r, id);
      }
      JammedForGood(Step(n, t[0]), t[1..], r, id);
    }
  }

  // ---------------------------------------------------------------- the exact condition

  /** Turns of tasks and reads can give the sender credit again, with both sessions open. */
  ghost predicate Recovers(n: Net, r: Role, id: u32) {
    exists m: Net :: Works(n, m, r.Peer(), id) && BothOpen(m) && id in End(m, r).entries
                     && StreamAt(m, r, id).tx.credit > 0
  }

  /** Open sessions, handles held at both ends, no reset, and the sender out of credit. */
  predicate Waits(n: Net, r: Role, id: u32) {
    && BothOpen(n) && Well(n, id) && Starved(n, r, id)
    && End(n, r.Peer()).entries[id].holder == User
  }

  ghost predicate AlwaysRecovers(c: Config, s: Config, r: Role) {
    forall n: Net, id: u32 :: Reachable(c, s, n) && Waits(n, r, id) ==> Recovers(n, r, id)
  }

  /** The sender at `r` writes zeros until its credit is gone. */
  lemma {:induction false} Fill(r: Role, c: Config, y: Endpoint, tx: Stream, outQ: seq<Frame>, sent: seq<Frame>)
    returns (tx1: Stream, outQ1: seq<Frame>, sent1: seq<Frame>)
    requires tx.id == r.FirstId() && tx.state == State(true, true, false) && !tx.tx.closed && c.maxFrame > 0
    ensures Leads(Place(r, OpenerAt(r, c, Entry(tx, true, User), outQ, sent), y, [], []),
                  Place(r, OpenerAt(r, c, Entry(tx1, true, User), outQ1, sent1), y, [], []))
    ensures tx1.state == tx.state && tx1.tx.credit == 0 && outQ <= outQ1
    decreases tx.tx.credit
  {
    hide UserStep, ReaderStep, InitiateShutdown, Endpoints.Open, Endpoints.Accept, CloserStep, WriteFailed, WriterExit;
    var n := Place(r, OpenerAt(r, c, Entry(tx, true, User), outQ, sent), y, [], []);
    Stay(n);
    if tx.tx.credit == 0 {
      tx1, outQ1, sent1 := tx, outQ, sent;
    } else {
      var data := Zeros(Min(tx.tx.credit, c.maxFrame));
      var f: Frame := Data(r.FirstId(), NoFlags, data);
      Written(r, c, tx, outQ, sent, data);
      Then(n, n, Event(r, Use(r.FirstId(), Write(data))));
      tx1, outQ1, sent1 := Fill(r, c, y, Spent(tx, data), outQ + [f], sent + [f]);
      Chain(n, Step(n, Event(r, Use(r.FirstId(), Write(data)))),
            Place(r, OpenerAt(r, c, Entry(tx1, true, User), outQ1, sent1), y, [], []));
    }
  }

  lemma TooLong(c: Config, s: Config, f: Frame)
    requires !Carries(c, s) && |PayloadOf(f)| == Longest(c)
    ensures !Passes(c, f) || !Passes(s, f)
  {
  }

  lemma JamsAhead(n: Net, r: Role, id: u32)
    requires id in End(n, r).entries && StreamAt(n, r, id).tx.credit == 0
    requires id in End(n, r.Peer()).entries && StreamAt(n, r.Peer(), id).buffer == []
    requires Pipe(n, r.Peer()) == [] && Wire(n, r) == [] && Pipe(n, r) != []
    requires !Passes(End(n, r).cfg, Pipe(n, r)[0]) || !Passes(End(n, r.Peer()).cfg, Pipe(n, r)[0])
    ensures JammedAhead(n, r, id)
  {
    hide Passes, Pipe, Wire;
    assert Jam(n, r, 0) && Pipe(n, r)[..0] == [] && Mute(Pipe(n, r)[..0], id);
  }

  lemma AheadState(r: Role, c: Config, s: Config, tx: Stream, outQ: seq<Frame>, sent: seq<Frame>, f: Frame)
    requires !Carries(c, s) && tx.state == State(true, true, false) && tx.tx.credit == 0
    requires outQ != [] && outQ[0] == f && |PayloadOf(f)| == Longest(c)
    ensures var n := Place(r, OpenerAt(r, c, Entry(tx, true, User), outQ, sent), NewAcceptor(r, s), [], []);
            Waits(n, r, r.FirstId()) && JammedAhead(n, r, r.FirstId())
  {
    hide Passes, Carries, Longest, JammedAhead;
    var n := Place(r, OpenerAt(r, c, Entry(tx, true, User), outQ, sent), NewAcceptor(r, s), [], []);
    TooLong(c, s, f);
    assert Pipe(n, r) == outQ && Pipe(n, r.Peer()) == [];
    JamsAhead(n, r, r.FirstId());
  }

  /** The sender's first frame is too long for one of the codecs, and then its window is spent. */
  lemma AheadRun(r: Role, c: Config, s: Config) returns (n: Net)
    requires ValidConfig(c) && ValidConfig(s) && c.maxStreams > 0 && s.maxStreams > 0 && !Carries(c, s)
    ensures Leads(Start(r, c, s), n) && Waits(n, r, r.FirstId()) && JammedAhead(n, r, r.FirstId())
  {
    hide Leads, Waits, JammedAhead, Carries;
    var id, data := r.FirstId(), Zeros(Longest(c));
    var n1 := WriteRun(r, c, s, data);
    var f: Frame := Data(id, NoFlags, data);
    var tx, outQ, sent := Fill(r, c, NewAcceptor(r, s), Spent(NewTx(r, c), data), [f], [Syn(id)] + [f]);
    n := Place(r, OpenerAt(r, c, Entry(tx, true, User), outQ, sent), NewAcceptor(r, s), [], []);
    Chain(Start(r, c, s), n1, n);
    AheadState(r, c, s, tx, outQ, sent, f);
  }

  /** The acceptor once it has written `data` in one frame. */
  function Answered(r: Role, s: Config, data: seq<u8>): Endpoint
    requires |data| <= s.window
  {
    var id, f := r.FirstId(), Data(r.FirstId(), NoFlags, data);
    AcceptorAt(r, s, Entry(Spent(New(id, Remote, s.window), data), true, User), [], [Ack(id)] + [f], [f])
  }

  lemma AnswerWritten(r: Role, s: Config, data: seq<u8>)
    requires 0 < |data| <= Longest(s)
    ensures UserStep(NewAcceptor(r, s), r.FirstId(), Write(data)) == Answered(r, s, data)
  {
    hide PollRead, LocalFin, LocalReset, UserDrop;
    assert data[..|data|] == data;
    var e := NewAcceptor(r, s);
    assert e.closerQ + [] == e.closerQ && [] + [Data(r.FirstId(), NoFlags, data)] == [Data(r.FirstId(), NoFlags, data)];
  }

  /** The receiver writes `data` on the stream in one frame. */
  lemma AnswerRun(r: Role, c: Config, s: Config, data: seq<u8>) returns (n: Net)
    requires c.maxStreams > 0 && s.maxStreams > 0 && 0 < |data| <= Longest(s)
    ensures Leads(Start(r, c, s), n)
    ensures n == Place(r, OpenerAt(r, c, Entry(NewTx(r, c), true, User), [], [Syn(r.FirstId())]),
                       Answered(r, s, data), [], [])
  {
    hide UserStep, ReaderStep, InitiateShutdown, Endpoints.Open, Endpoints.Accept, CloserStep, WriteFailed, WriterExit;
    var write := Event(r.Peer(), Use(r.FirstId(), Write(data)));
    var n0 := EstablishRun(r, c, s);
    AnswerWritten(r, s, data);
    Then(Start(r, c, s), n0, write);
    n := Step(n0, write);
  }

  lemma BackState(r: Role, c: Config, s: Config, tx: Stream, outQ: seq<Frame>, sent: seq<Frame>, data: seq<u8>)
    requires !Carries(s, c) && tx.state == State(true, true, false) && tx.tx.credit == 0 && |data| == Longest(s)
    ensures var n := Place(r, OpenerAt(r, c, Entry(tx, true, User), outQ, sent), Answered(r, s, data), [], []);
            Waits(n, r, r.FirstId()) && JammedBack(n, r, r.FirstId())
  {
    hide Passes, Carries;
    var n := Place(r, OpenerAt(r, c, Entry(tx, true, User), outQ, sent), Answered(r, s, data), [], []);
    TooLong(s, c, Data(r.FirstId(), NoFlags, data));
    assert Pipe(n, r.Peer()) == [Data(r.FirstId(), NoFlags, data)];
    assert Jam(n, r.Peer(), 0) && Stingy(Pipe(n, r.Peer())[..0], r.FirstId());
  }

  /** The receiver's first frame is too long for one of the codecs, and then the sender's window is spent. */
  lemma BackRun(r: Role, c: Config, s: Config) returns (n: Net)
    requires ValidConfig(c) && ValidConfig(s) && c.maxStreams > 0 && s.maxStreams > 0 && !Carries(s, c)
    ensures Leads(Start(r, c, s), n) && Waits(n, r, r.FirstId()) && JammedBack(n, r, r.FirstId())
  {
    hide Leads, Waits, JammedBack, Carries;
    var id, data := r.FirstId(), Zeros(Longest(s));
    var n1 := AnswerRun(r, c, s, data);
    var tx, outQ, sent := Fill(r, c, Answered(r, s, data), NewTx(r, c), [], [Syn(id)]);
    n := Place(r, OpenerAt(r, c, Entry(tx, true, User), outQ, sent), Answered(r, s, data), [], []);
    Chain(Start(r, c, s), n1, n);
    BackState(r, c, s, tx, outQ, sent, data);
  }

  lemma StuckWaits(c: Config, s: Config, r: Role) returns (n: Net)
    requires ValidConfig(c) && ValidConfig(s) && c.maxStreams > 0 && s.maxStreams > 0
    requires Of(c, s, r).window < Max(Of(c, s, r.Peer()).window / 2, 1)
    ensures Reachable(c, s, n) && Waits(n, r, r.FirstId()) && Stuck(n, r, r.FirstId())
  {
    n := ReachStuck(c, s, r);
    assert InUse(End(n, r), r.FirstId()) && InUse(End(n, r.Peer()), r.FirstId());
  }

  lemma StuckStays(c: Config, s: Config, n: Net, r: Role, id: u32)
    requires Reachable(c, s, n) && Stuck(n, r, id)
    ensures !Recovers(n, r, id)
  {
    hide NetOk, Reachable, Step, Enabled, BothOpen;
    Invariant(c, s, n);
    StuckIsDead(n, r, id);
    if m: Net :| Works(n, m, r.Peer(), id) && BothOpen(m) && id in End(m, r).entries
                 && StreamAt(m, r, id).tx.credit > 0 {
      var t: Trace :| Legal(n, t) && TasksAndReads(t, r.Peer(), id) && Run(n, t) == m;
      DeadForever(n, t, r, id);
    }
  }

  lemma JammedStays(c: Config, s: Config, n: Net, r: Role, id: u32)
    requires Reachable(c, s, n) && (JammedAhead(n, r, id) || JammedBack(n, r, id))
    ensures !Recovers(n, r, id)
  {
    hide NetOk, Reachable, Step, Enabled, BothOpen, JammedAhead, JammedBack;
    Invariant(c, s, n);
    if m: Net :| Works(n, m, r.Peer(), id) && BothOpen(m) && id in End(m, r).entries
                 && StreamAt(m, r, id).tx.credit > 0 {
      var t: Trace :| Legal(n, t) && TasksAndReads(t, r.Peer(), id) && Run(n, t) == m;
      JammedForGood(n, t, r, id);
    }
  }

  /**
  The exact condition. A stream out of credit can always get some again, by turns of tasks and reads with both
  sessions open, if and only if the receiver's threshold is within the sender's window and every frame either
  side can write passes both codecs.
  */
  lemma RecoversIff(c: Config, s: Config, r: Role)
    requires ValidConfig(c) && ValidConfig(s) && c.maxStreams > 0 && s.maxStreams > 0
    ensures var a, b := Of(c, s, r), Of(c, s, r.Peer());
            AlwaysRecovers(c, s, r) <==>
            && Max(b.window / 2, 1) <= a.window
            && Min(a.maxFrame, a.window) <= Min(b.maxFrame, 16 * 1024 * 1024)
            && Min(b.maxFrame, b.window) <= Min(a.maxFrame, 16 * 1024 * 1024)
  {
    hide Reachable, Recovers, Leads, Carries, JammedAhead, JammedBack, Waits, Stuck;
    var a, b := Of(c, s, r), Of(c, s, r.Peer());
    CarriesIs(a, b);
    CarriesIs(b, a);
    if Max(b.window / 2, 1) > a.window {
      var n := StuckWaits(c, s, r);
      StuckStays(c, s, n, r, r.FirstId());
    } else if !Carries(a, b) {
      var n := AheadRun(r, a, b);
      ReachesFrom(r, c, s, n);
      JammedStays(c, s, n, r, r.FirstId());
    } else if !Carries(b, a) {
      var n := BackRun(r, a, b);
      ReachesFrom(r, c, s, n);
      JammedStays(c, s, n, r, r.FirstId());
    } else {
      forall n: Net, id: u32 | Reachable(c, s, n) && Waits(n, r, id)
        ensures Recovers(n, r, id)
      {
        AnyRecovers(c, s, n, r, id);
      }
    }
  }

  lemma AnyRecovers(c: Config, s: Config, n: Net, r: Role, id: u32)
    requires Reachable(c, s, n) && Waits(n, r, id) && Carries(c, s) && Carries(s, c)
    requires Max(Of(c, s, r.Peer()).window / 2, 1) <= Of(c, s, r).window
    ensures Recovers(n, r, id)
  {
    hide Reachable, Threshold, Carries, Works;
    Invariant(c, s, n);
    SmoothAlways(c, s, n);
    var m := StarvedRecovers(c, s, n, r, id);
  }
}
