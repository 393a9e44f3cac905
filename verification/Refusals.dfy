/**
What a frame that is too long for a codec does to the promises of the protocol. A reader that cannot decode it
accuses its peer; a writer that cannot encode it loses it, and sends what was queued behind it. Here are the
runs, and the exact configurations in which they exist.
*/
module Refusals {
  import opened Base
  import opened Frames
  import opened Ids
  import opened Streams
  import opened Endpoints
  import opened Channels
  import opened Pairs
  import opened Network
  import opened Delivering
  import opened Guarantees
  import opened Faults
  import opened Scenarios
  import opened Deadlock
  import opened Drops
  import opened Settling
  import opened Sizes
  import opened Wires
  import Codec

  const CEILING: u32 := Codec.ABSOLUTE_MAX

  // ---------------------------------------------------------------- a conforming peer is accused

  /** Some run without any reset makes the reader of `r` shut down with `ProtocolError`. */
  ghost predicate CanAccuse(c: Config, s: Config, r: Role) {
    exists t: Trace :: AccusedAfter(c, s, t, r)
  }

  predicate AccusedAfter(c: Config, s: Config, t: Trace, r: Role) {
    && Legal(Init(c, s), t) && NoReset(t)
    && Enabled(Run(Init(c, s), t), Event(r, Deliver)) && Faulty(Run(Init(c, s), t), r)
  }

  /** `r` writes one frame that its own codec takes and its peer's does not. */
  lemma AccusedRun(r: Role, c: Config, s: Config) returns (n: Net)
    requires c.maxStreams > 0 && s.maxStreams > 0 && s.maxFrame < Min(Longest(c), CEILING)
    ensures Leads(Start(r, c, s), n) && Enabled(n, Event(r.Peer(), Deliver)) && Oversized(n, r.Peer())
  {
    hide UserStep, ReaderStep, InitiateShutdown, Endpoints.Open, Endpoints.Accept, CloserStep, WriteFailed, WriterExit;
    var n1 := WriteRun(r, c, s, Zeros(s.maxFrame + 1));
    Then(Start(r, c, s), n1, Event(r, Move));
    n := Step(n1, Event(r, Move));
  }

  /**
  Conforming sessions whose users never call `Stream::reset` accuse each other in some run if and only if one can
  write a frame, within its own limits, that is longer than the other's frame size.
  */
  lemma AccusedIff(c: Config, s: Config, r: Role)
    requires ValidConfig(c) && ValidConfig(s) && c.maxStreams > 0 && s.maxStreams > 0
    ensures var a, b := Of(c, s, r.Peer()), Of(c, s, r);
            CanAccuse(c, s, r) <==> b.maxFrame < Min(Min(a.maxFrame, a.window), 16 * 1024 * 1024)
  {
    hide Step, Enabled, Faulty;
    var p := r.Peer();
    if t: Trace :| AccusedAfter(c, s, t, r) {
      var n := Run(Init(c, s), t);
      HonestPeersNeverFault(c, s, t, r);
      assert Reachable(c, s, n);
      Invariant(c, s, n);
      OnTheWire(n, r);
      FramesAreBounded(c, s, n, p, Wire(n, p)[0]);
    }
    if Of(c, s, r).maxFrame < Min(Longest(Of(c, s, p)), CEILING) {
      var n := AccusedRun(p, Of(c, s, p), Of(c, s, r));
      assert Start(p, Of(c, s, p), Of(c, s, r)) == Init(c, s);
      var t: Trace :| Legal(Init(c, s), t) && NoReset(t) && Run(Init(c, s), t) == n;
      assert Faulty(n, r) by { OversizedIsFaulty(n, r); }
      assert AccusedAfter(c, s, t, r);
    }
  }

  lemma OnTheWire(n: Net, r: Role)
    requires Enabled(n, Event(r, Deliver))
    ensures Wire(n, r.Peer()) != [] && Wire(n, r.Peer())[0] in Pipe(n, r.Peer())
  {
  }

  lemma OversizedIsFaulty(n: Net, r: Role)
    requires Enabled(n, Event(r, Deliver)) && Oversized(n, r)
    ensures Faulty(n, r)
  {
  }

  // ---------------------------------------------------------------- what a failed write leaves

  lemma CutNothing(b: seq<u8>, behind: nat)
    ensures Cut(b, 0, behind) == b
  {
  }

  lemma CutEnd(b: seq<u8>, n: nat)
    ensures Cut(b, n, 0) <= b
  {
  }

  lemma CutFront(a: seq<u8>, b: seq<u8>)
    ensures Cut(a + b, |a|, |b|) == b
  {
  }

  /** The opener after its writer failed on the first frame of its queue, which carried `data`. */
  function Failed(r: Role, c: Config, tx: Stream, rest: seq<Frame>, sent: seq<Frame>, more: seq<u8>): Endpoint {
    var tx1 := tx.(log := tx.log.(kept := more));
    OpenerAt(r, c, Entry(ForceClose(tx1), false, User), rest + [GoAway(InternalError)],
             sent + [GoAway(InternalError)]).(closing := true)
  }

  lemma WriteFails(r: Role, c: Config, tx: Stream, data: seq<u8>, rest: seq<Frame>, sent: seq<Frame>, more: seq<u8>)
    requires tx.id == r.FirstId() && tx.log.kept == data + more && Payload(Project(rest, r.FirstId())) == more
    ensures var f := Data(r.FirstId(), NoFlags, data);
            WriteFailed(OpenerAt(r, c, Entry(tx, true, User), [f] + rest, sent)) == Failed(r, c, tx, rest, sent, more)
  {
    hide Forget, Cut;
    ForgetFirst(r, c, tx, data, rest, sent, more);
    var e := OpenerAt(r, c, Entry(tx.(log := tx.log.(kept := more)), true, User), rest, sent);
    assert InitiateShutdown(e, InternalError) == Failed(r, c, tx, rest, sent, more);
  }

  lemma ForgetFirst(r: Role, c: Config, tx: Stream, data: seq<u8>, rest: seq<Frame>, sent: seq<Frame>, more: seq<u8>)
    requires tx.id == r.FirstId() && tx.log.kept == data + more && Payload(Project(rest, r.FirstId())) == more
    ensures var f := Data(r.FirstId(), NoFlags, data);
            Forget(OpenerAt(r, c, Entry(tx, true, User), [f] + rest, sent), 1) ==
            OpenerAt(r, c, Entry(tx.(log := tx.log.(kept := more)), true, User), rest, sent)
  {
    hide Cut, Payload, Project;
    var id, f := r.FirstId(), Data(r.FirstId(), NoFlags, data);
    var q := [f] + rest;
    assert q[..1] == [f] && q[1..] == rest;
    ProjectAll([f], id);
    Single(f);
    CutFront(data, more);
  }

  // ---------------------------------------------------------------- the end of a stream with bytes missing

  /** `r` went down by its peer's GoAway, holds the stream, has nothing left to read, and has not got everything. */
  ghost predicate CutShort(n: Net, r: Role, id: u32) {
    && id in End(n, r).entries && id in End(n, r.Peer()).entries && End(n, r).entries[id].holder == User
    && End(n, r).closing && End(n, r).peerGone
    && (forall cap: nat :: cap > 0 ==> PollRead(StreamAt(n, r, id), cap).1 == Eof)
    && StreamAt(n, r, id).log.read != StreamAt(n, r.Peer(), id).log.wrote
  }

  lemma GoAwayTaken(r: Role, s: Config)
    ensures var e := ReaderStep(NewAcceptor(r, s), GoAway(InternalError));
            && e.closing && e.peerGone && r.FirstId() in e.entries
            && e.entries[r.FirstId()] == Entry(ForceClose(New(r.FirstId(), Remote, s.window)), false, User)
  {
  }

  lemma EndOfNothing(id: u32, window: u32, cap: nat)
    requires cap > 0
    ensures PollRead(ForceClose(New(id, Remote, window)), cap).1 == Eof
  {
  }

  /** `r` writes one frame that its own codec refuses; the peer is told of the end and never of the bytes. */
  lemma CutShortRun(r: Role, c: Config, s: Config) returns (n: Net)
    requires c.maxStreams > 0 && s.maxStreams > 0 && Longest(c) > CEILING
    ensures Leads(Start(r, c, s), n) && CutShort(n, r.Peer(), r.FirstId())
  {
    hide UserStep, ReaderStep, InitiateShutdown, Endpoints.Open, Endpoints.Accept, CloserStep, WriteFailed, WriterExit,
      PollRead, ForceClose;
    var id, data := r.FirstId(), Zeros(CEILING + 1);
    var n1 := WriteRun(r, c, s, data);
    var tx := Spent(NewTx(r, c), data);
    var f: Frame := Data(id, NoFlags, data);
    assert [f] + [] == [f] && data + [] == data;
    WriteFails(r, c, tx, data, [], [Syn(id)] + [f], []);
    Then(Start(r, c, s), n1, Event(r, Move));
    var n2 := Step(n1, Event(r, Move));
    var e2 := Failed(r, c, tx, [], [Syn(id)] + [f], []);
    assert n2 == Place(r, e2, NewAcceptor(r, s), [], []);
    n := TellEnd(r, c, s, n2, e2);
    Chain(Start(r, c, s), n2, n);
    assert tx.log.wrote == data && StreamAt(n, r, id).log.wrote == data by { FailedKeepsWrote(r, c, tx, id); }
    forall cap: nat | cap > 0
      ensures PollRead(StreamAt(n, r.Peer(), id), cap).1 == Eof
    {
      EndOfNothing(id, s.window, cap);
    }
    assert StreamAt(n, r.Peer(), id).log.read == [] by { FreshLog(id, s.window); }
  }

  lemma FreshLog(id: u32, window: u32)
    ensures ForceClose(New(id, Remote, window)).log == History([], [], [], false)
  {
  }

  lemma FailedKeepsWrote(r: Role, c: Config, tx: Stream, id: u32)
    requires id == r.FirstId()
    ensures forall rest, sent, more ::
              var e := Failed(r, c, tx, rest, sent, more);
              id in e.entries && e.entries[id].stream.log.wrote == tx.log.wrote
  {
  }

  /** The GoAway of a failed writer reaches the peer. */
  lemma TellEnd(r: Role, c: Config, s: Config, n: Net, e: Endpoint) returns (m: Net)
    requires n == Place(r, e, NewAcceptor(r, s), [], []) && e.role == r && e.outOpen
    requires e.outQ == [GoAway(InternalError)]
    ensures Leads(n, m) && End(m, r).entries == e.entries
    ensures End(m, r.Peer()) == ReaderStep(NewAcceptor(r, s), GoAway(InternalError))
    ensures var y := End(m, r.Peer());
            && y.closing && y.peerGone && r.FirstId() in y.entries
            && y.entries[r.FirstId()] == Entry(ForceClose(New(r.FirstId(), Remote, s.window)), false, User)
  {
    hide UserStep, ReaderStep, InitiateShutdown, Endpoints.Open, Endpoints.Accept, CloserStep, WriteFailed, WriterExit;
    Stay(n);
    Then(n, n, Event(r, Move));
    var n1 := Step(n, Event(r, Move));
    assert Wire(n1, r) == [GoAway(InternalError)];
    Then(n, n1, Event(r.Peer(), Deliver));
    m := Step(n1, Event(r.Peer(), Deliver));
    GoAwayTaken(r, s);
  }

  // ---------------------------------------------------------------- a hole

  /** What the reader at `r` has is not the beginning of what was written. */
  predicate Scrambled(n: Net, r: Role, id: u32) {
    && id in End(n, r).entries && id in End(n, r.Peer()).entries
    && !(StreamAt(n, r, id).log.read <= StreamAt(n, r.Peer(), id).log.wrote)
  }

  /** `r` writes a frame that its codec refuses, then one byte: the byte arrives. */
  lemma HoleRun(r: Role, c: Config, s: Config) returns (n: Net)
    requires c.maxStreams > 0 && s.maxStreams > 0 && s.maxFrame > 0
    requires c.maxFrame > CEILING && c.window > CEILING + 1
    ensures Leads(Start(r, c, s), n) && Scrambled(n, r.Peer(), r.FirstId())
  {
    hide UserStep, ReaderStep, InitiateShutdown, Endpoints.Open, Endpoints.Accept, CloserStep, WriteFailed, WriterExit,
      ForceClose;
    var id, data := r.FirstId(), Zeros(CEILING + 1);
    var n1 := WriteRun(r, c, s, data);
    var f, g := Data(id, NoFlags, data), Data(id, NoFlags, [1]);
    var tx := Spent(NewTx(r, c), data);
    var tx1, sent := Spent(tx, [1]), ([Syn(id)] + [f]) + [g];
    Written(r, c, tx, [f], [Syn(id)] + [f], [1]);
    Then(Start(r, c, s), n1, Event(r, Use(id, Write([1]))));
    var n2 := Step(n1, Event(r, Use(id, Write([1]))));
    ProjectAll([g], id);
    Single(g);
    WriteFails(r, c, tx1, data, [g], sent, [1]);
    Then(Start(r, c, s), n2, Event(r, Move));
    var n3 := Step(n2, Event(r, Move));
    var e3 := Failed(r, c, tx1, [g], sent, [1]);
    assert n3 == Place(r, e3, NewAcceptor(r, s), [], []);
    n := HearByte(r, s, n3, e3);
    Chain(Start(r, c, s), n3, n);
    assert tx1.log.wrote == data + [1] && StreamAt(n, r, id).log.wrote == data + [1] by {
      FailedKeepsWrote(r, c, tx1, id);
    }
    assert (data + [1])[0] == 0;
  }

  lemma ByteRead(id: u32, s: Config, b: u8)
    ensures var rx := New(id, Remote, s.window);
            var e := Entry(rx.(buffer := rx.buffer + [b]), true, User);
            Apply(e, Read(1), s.maxFrame, true).entry.stream.log.read == [b]
  {
    hide OnConsume;
  }

  /** The byte behind the hole reaches the peer and is read. */
  lemma HearByte(r: Role, s: Config, n: Net, e: Endpoint) returns (m: Net)
    requires n == Place(r, e, NewAcceptor(r, s), [], []) && e.role == r && e.outOpen && s.maxFrame > 0
    requires e.cfg.maxFrame > 0 && e.outQ == [Data(r.FirstId(), NoFlags, [1])] + [GoAway(InternalError)]
    ensures Leads(n, m) && End(m, r).entries == e.entries
    ensures r.FirstId() in End(m, r.Peer()).entries && StreamAt(m, r.Peer(), r.FirstId()).log.read == [1]
  {
    hide ReaderStep, InitiateShutdown, Endpoints.Open, Endpoints.Accept, CloserStep, WriteFailed, WriterExit, Apply;
    var id, p := r.FirstId(), r.Peer();
    Stay(n);
    Then(n, n, Event(r, Move));
    var n1 := Step(n, Event(r, Move));
    assert Wire(n1, r) == [Data(id, NoFlags, [1])];
    ByteTaken(r, s, New(id, Remote, s.window), 1);
    Then(n, n1, Event(p, Deliver));
    var n2 := Step(n1, Event(p, Deliver));
    ByteRead(id, s, 1);
    Then(n, n2, Event(p, Use(id, Read(1))));
    m := Step(n2, Event(p, Use(id, Read(1))));
  }

  // ---------------------------------------------------------------- what a step does to the histories

  predicate SameLogs(e: Endpoint, e1: Endpoint, id: u32) {
    id in e1.entries ==>
      && id in e.entries && e1.entries[id].stream.log.wrote == e.entries[id].stream.log.wrote
      && e1.entries[id].stream.log.kept == e.entries[id].stream.log.kept
  }

  lemma ShutdownLogs(e: Endpoint, code: ErrorCode, id: u32)
    ensures SameLogs(e, InitiateShutdown(e, code), id)
  {
  }

  /** A closing session accepts no byte. */
  lemma UseLogsClosing(e: Endpoint, k: u32, what: UserAct, id: u32)
    requires EndOk(e) && e.closing && k in e.entries && Allowed(e.entries[k], what)
    ensures SameLogs(e, UserStep(e, k, what), id)
  {
    hide OnConsume;
    assert EntryOk(e.entries[k], e.closing, e.cfg.window);
  }

  /** A frame that ends the session changes no history. */
  lemma ReaderLogs(n: Net, r: Role, id: u32)
    requires NetOk(n) && Enabled(n, Event(r, Deliver)) && End(Step(n, Event(r, Deliver)), r).closing
    ensures SameLogs(End(n, r), End(Step(n, Event(r, Deliver)), r), id)
  {
    hide NetOk, Dispatch, InitiateShutdown;
    var e, f := End(n, r), Wire(n, r.Peer())[0];
    ShutdownLogs(e, ProtocolError, id);
    if !Oversized(n, r) {
      if f.GoAway? {
        GoAwayLogs(e, f.code, id);
      } else if Faulty(n, r) {
        FaultShuts(n, r);
      } else {
        StaysOpen(e, f);
      }
    }
  }

  lemma GoAwayLogs(e: Endpoint, code: ErrorCode, id: u32)
    ensures SameLogs(e, ReaderStep(e, GoAway(code)), id)
  {
  }

  /** The bytes of stream `id` that `r`'s writer throws away in this step, and those it still has behind them. */
  function Thrown(n: Net, ev: Event, r: Role, id: u32): (nat, nat) {
    var q := End(n, r).outQ;
    if ev == Event(r, Move) && q != [] && !Passes(End(n, r).cfg, q[0]) then
      (|Payload(Project(q[..1], id))|, |Payload(Project(q[1..], id))|)
    else if ev == Event(r, Exit) then (|Payload(Project(q, id))|, 0)
    else (0, 0)
  }

  lemma WriterLogs(n: Net, ev: Event, r: Role, id: u32)
    requires Enabled(n, ev) && ev.who == r && (ev.act.Move? || ev.act.Exit?) && id in End(Step(n, ev), r).entries
    ensures var e, e1, t := End(n, r), End(Step(n, ev), r), Thrown(n, ev, r, id);
            && id in e.entries && e1.entries[id].stream.log.wrote == e.entries[id].stream.log.wrote
            && e1.entries[id].stream.log.kept == Cut(e.entries[id].stream.log.kept, t.0, t.1)
  {
    hide Cut, Project, Payload, Passes;
    var e := End(n, r);
    if ev == Event(r, Exit) {
      var none: seq<Frame> := [];
      assert e.outQ[..|e.outQ|] == e.outQ && e.outQ[|e.outQ|..] == none;
      assert Payload(Project(none, id)) == [] by { NothingCarried(id); }
    } else if Passes(e.cfg, e.outQ[0]) {
      CutNothing(e.entries[id].stream.log.kept, 0);
    } else {
      ShutdownLogs(Forget(e, 1), InternalError, id);
    }
  }

  lemma NothingCarried(id: u32)
    ensures Payload(Project([], id)) == []
  {
  }

  /** Once the session is closing, only its writer touches what was kept. */
  lemma ClosingLogs(n: Net, ev: Event, r: Role, id: u32)
    requires NetOk(n) && Enabled(n, ev) && End(Step(n, ev), r).closing && id in End(Step(n, ev), r).entries
    ensures var e, e1, t := End(n, r), End(Step(n, ev), r), Thrown(n, ev, r, id);
            && id in e.entries && e1.entries[id].stream.log.wrote == e.entries[id].stream.log.wrote
            && e1.entries[id].stream.log.kept == Cut(e.entries[id].stream.log.kept, t.0, t.1)
  {
    hide NetOk, Endpoints.Open, UserStep, Endpoints.Accept, InitiateShutdown, ReaderStep, CloserStep, Forget, Cut,
      EntriesOk, QueuesOk;
    var e := End(n, r);
    EndIsOk(n, r);
    if id in e.entries {
      CutNothing(e.entries[id].stream.log.kept, 0);
    }
    if ev.who == r {
      match ev.act
      case Move => WriterLogs(n, ev, r, id);
      case Exit => WriterLogs(n, ev, r, id);
      case Deliver =>
        assert ev == Event(r, Deliver);
        ReaderLogs(n, r, id);
      case Close(code) => ShutdownLogs(e, code, id);
      case Use(k, what) =>
        assert e.closing by { UseKeepsOpen(e, k, what); }
        UseLogsClosing(e, k, what, id);
      case _ => LocalLogs(e, id);
    }
  }

  lemma UseKeepsOpen(e: Endpoint, k: u32, what: UserAct)
    requires k in e.entries && Allowed(e.entries[k], what)
    ensures UserStep(e, k, what).closing == e.closing
  {
    hide Apply;
  }

  lemma LocalLogs(e: Endpoint, id: u32)
    requires EndOk(e)
    ensures Endpoints.Open(e).closing ==> SameLogs(e, Endpoints.Open(e), id)
    ensures !e.closing && e.acceptQ != [] && e.acceptQ[0] in e.entries ==> !Endpoints.Accept(e).closing
    ensures !e.closing && e.closerQ != [] ==> !CloserStep(e).closing
  {
  }

  // ---------------------------------------------------------------- every run of a sender within the ceiling

  lemma ReachOn(c: Config, s: Config, n: Net, ev: Event)
    requires Reachable(c, s, n) && Enabled(n, ev)
    ensures Reachable(c, s, Step(n, ev))
  {
    hide Step, Enabled;
    var t: Trace :| Legal(Init(c, s), t) && Run(Init(c, s), t) == n;
    OneEvent(n, ev);
    RunConcat(Init(c, s), t, [ev]);
  }

  /** Nothing `r` accepted has been thrown away. */
  predicate AllKept(n: Net, r: Role) {
    forall id :: id in End(n, r).entries ==> StreamAt(n, r, id).log.kept == StreamAt(n, r, id).log.wrote
  }

  lemma OpenKeepsAll(n: Net, r: Role)
    requires NetOk(n) && !End(n, r).closing
    ensures AllKept(n, r)
  {
    assert EndOk(End(n, r));
  }

  /** The writer finds no frame it has to throw away. */
  lemma NothingThrown(c: Config, s: Config, n: Net, ev: Event, r: Role, id: u32)
    requires Reachable(c, s, n) && Enabled(n, ev) && Longest(End(n, r).cfg) <= CEILING
    ensures Thrown(n, ev, r, id) == (0, 0)
  {
    hide Reachable;
    var q := End(n, r).outQ;
    if q != [] {
      assert q[0] in Pipe(n, r);
      FramesAreBounded(c, s, n, r, q[0]);
      assert Passes(End(n, r).cfg, q[0]);
    } else {
      NothingCarried(id);
    }
  }

  lemma StepAllKept(c: Config, s: Config, n: Net, ev: Event, r: Role)
    requires Reachable(c, s, n) && Enabled(n, ev) && AllKept(n, r) && Longest(End(n, r).cfg) <= CEILING
    ensures AllKept(Step(n, ev), r)
  {
    hide Reachable, NetOk, Step, Enabled, Thrown, Cut;
    Invariant(c, s, n);
    StepKeeps(n, ev);
    var m := Step(n, ev);
    if End(m, r).closing {
      forall id | id in End(m, r).entries
        ensures StreamAt(m, r, id).log.kept == StreamAt(m, r, id).log.wrote
      {
        NothingThrown(c, s, n, ev, r, id);
        ClosingLogs(n, ev, r, id);
        CutNothing(StreamAt(n, r, id).log.kept, 0);
      }
    } else {
      OpenKeepsAll(m, r);
    }
  }

  lemma {:induction false} RunAllKept(c: Config, s: Config, n: Net, t: Trace, r: Role)
    requires Reachable(c, s, n) && Legal(n, t) && AllKept(n, r) && Longest(End(n, r).cfg) <= CEILING
    ensures AllKept(Run(n, t), r)
    decreases |t|
  {
    hide Reachable, AllKept, Step, Enabled;
    if t != [] {
      StepAllKept(c, s, n, t[0], r);
      ReachOn(c, s, n, t[0]);
      StepConfig(n, t[0]);
      RunAllKept(c, s, Step(n, t[0]), t[1..], r);
    }
  }

  lemma AlwaysAllKept(c: Config, s: Config, n: Net, r: Role)
    requires Reachable(c, s, n) && Longest(Of(c, s, r)) <= CEILING
    ensures AllKept(n, r)
  {
    hide Step, Enabled;
    var t: Trace :| Legal(Init(c, s), t) && Run(Init(c, s), t) == n;
    var none: Trace := [];
    assert Legal(Init(c, s), none) && Run(Init(c, s), none) == Init(c, s);
    RunAllKept(c, s, Init(c, s), t, r);
  }

  // ---------------------------------------------------------------- the exact conditions

  /** End of file at `r`, unless `r` began the shutdown, always means that everything has been read. */
  ghost predicate EofMeansAll(c: Config, s: Config, r: Role) {
    forall n: Net, id: u32, cap: nat ::
      && Reachable(c, s, n) && id in End(n, r).entries && id in End(n, r.Peer()).entries
      && End(n, r).entries[id].holder == User && cap > 0 && PollRead(StreamAt(n, r, id), cap).1 == Eof
      && (!End(n, r).closing || End(n, r).peerGone)
      ==> StreamAt(n, r, id).log.read == StreamAt(n, r.Peer(), id).log.wrote
  }

  /** `EofIsComplete` for all bytes written holds if and only if the peer's frames stay within the codec's ceiling. */
  lemma EofMeansAllIff(c: Config, s: Config, r: Role)
    requires ValidConfig(c) && ValidConfig(s) && c.maxStreams > 0 && s.maxStreams > 0
    ensures var a := Of(c, s, r.Peer()); EofMeansAll(c, s, r) <==> Min(a.maxFrame, a.window) <= 16 * 1024 * 1024
  {
    hide Reachable, PollRead, Leads;
    var p := r.Peer();
    if Longest(Of(c, s, p)) <= CEILING {
      forall n: Net, id: u32, cap: nat |
        && Reachable(c, s, n) && id in End(n, r).entries && id in End(n, p).entries
        && End(n, r).entries[id].holder == User && cap > 0 && PollRead(StreamAt(n, r, id), cap).1 == Eof
        && (!End(n, r).closing || End(n, r).peerGone)
        ensures StreamAt(n, r, id).log.read == StreamAt(n, p, id).log.wrote
      {
        EofIsComplete(c, s, n, r, id, cap);
        AlwaysAllKept(c, s, n, p);
      }
    } else {
      var n := CutShortRun(p, Of(c, s, p), Of(c, s, r));
      ReachesFrom(p, c, s, n);
      assert PollRead(StreamAt(n, r, p.FirstId()), 1).1 == Eof;
    }
  }

  /** When `r` goes down by its peer's GoAway, it always has, read or readable, all that was written for it. */
  ghost predicate CloseMeansAll(c: Config, s: Config, r: Role) {
    forall n: Net, id: u32 ::
      && Reachable(c, s, n) && id in End(n, r).entries && id in End(n, r.Peer()).entries
      && End(n, r).closing && End(n, r).peerGone
      && Live(End(n, r).entries[id]) && !StreamAt(n, r, id).state.reset
      ==> StreamAt(n, r, id).log.read + StreamAt(n, r, id).buffer == StreamAt(n, r.Peer(), id).log.wrote
  }

  /** So does `GracefulCloseLosesNothing`. */
  lemma CloseMeansAllIff(c: Config, s: Config, r: Role)
    requires ValidConfig(c) && ValidConfig(s) && c.maxStreams > 0 && s.maxStreams > 0
    ensures var a := Of(c, s, r.Peer()); CloseMeansAll(c, s, r) <==> Min(a.maxFrame, a.window) <= 16 * 1024 * 1024
  {
    hide Reachable, Leads;
    var p := r.Peer();
    if Longest(Of(c, s, p)) <= CEILING {
      forall n: Net, id: u32 |
        && Reachable(c, s, n) && id in End(n, r).entries && id in End(n, p).entries
        && End(n, r).closing && End(n, r).peerGone
        && Live(End(n, r).entries[id]) && !StreamAt(n, r, id).state.reset
        ensures StreamAt(n, r, id).log.read + StreamAt(n, r, id).buffer == StreamAt(n, p, id).log.wrote
      {
        GracefulCloseLosesNothing(c, s, n, r, id);
        AlwaysAllKept(c, s, n, p);
      }
    } else {
      var n := CutShortRun(p, Of(c, s, p), Of(c, s, r));
      ReachesFrom(p, c, s, n);
      var x := StreamAt(n, r, p.FirstId());
      assert PollRead(x, 1).1 == Eof;
      EofShape(x, 1);
      assert x.log.read + [] == x.log.read;
    }
  }

  // ---------------------------------------------------------------- order

  /** What `r` threw away was at the end of what it accepted. */
  predicate FrontKept(n: Net, r: Role) {
    forall id :: id in End(n, r).entries ==> StreamAt(n, r, id).log.kept <= StreamAt(n, r, id).log.wrote
  }

  /** A refused frame that took the whole window has nothing of its stream behind it. */
  lemma ThrownAtEnd(c: Config, s: Config, n: Net, ev: Event, r: Role, id: u32)
    requires Reachable(c, s, n) && Enabled(n, ev) && id != 0
    requires Longest(End(n, r).cfg) <= CEILING || End(n, r).cfg.window <= CEILING + 1
    ensures Thrown(n, ev, r, id).0 == 0 || Thrown(n, ev, r, id).1 == 0
  {
    hide Reachable;
    var e, q := End(n, r), End(n, r).outQ;
    if ev == Event(r, Move) && !Passes(e.cfg, q[0]) {
      assert q[0] in Pipe(n, r);
      FramesAreBounded(c, s, n, r, q[0]);
      assert q[..1] == [q[0]];
      if q[0].id == id {
        FlightBound(c, s, n, r, id);
        PipeParts(n, r, 1, id);
        var a, b, d := Project(Wire(n, r), id), Project(q[..1], id), Project(q[1..], id);
        PayloadAppend(a + b, d);
        PayloadAppend(a, b);
        ProjectAll([q[0]], id);
        Single(q[0]);
      } else {
        ProjectNone([q[0]], id);
      }
    }
  }

  lemma CutFrontKept(b: seq<u8>, n: nat, behind: nat)
    requires n == 0 || behind == 0
    ensures Cut(b, n, behind) <= b
  {
    CutNothing(b, behind);
    CutEnd(b, n);
  }

  lemma StepFrontKept(c: Config, s: Config, n: Net, ev: Event, r: Role)
    requires Reachable(c, s, n) && Enabled(n, ev) && FrontKept(n, r)
    requires Longest(End(n, r).cfg) <= CEILING || End(n, r).cfg.window <= CEILING + 1
    ensures FrontKept(Step(n, ev), r)
  {
    hide Reachable, NetOk, Step, Enabled, Thrown, Cut, EntriesOk, QueuesOk;
    Invariant(c, s, n);
    StepKeeps(n, ev);
    var m := Step(n, ev);
    EndIsOk(m, r);
    if End(m, r).closing {
      forall id | id in End(m, r).entries
        ensures StreamAt(m, r, id).log.kept <= StreamAt(m, r, id).log.wrote
      {
        ThrownAtEnd(c, s, n, ev, r, id);
        ClosingLogs(n, ev, r, id);
        CutFrontKept(StreamAt(n, r, id).log.kept, Thrown(n, ev, r, id).0, Thrown(n, ev, r, id).1);
      }
    } else {
      OpenKeepsAll(m, r);
    }
  }

  lemma {:induction false} RunFrontKept(c: Config, s: Config, n: Net, t: Trace, r: Role)
    requires Reachable(c, s, n) && Legal(n, t) && FrontKept(n, r)
    requires Longest(End(n, r).cfg) <= CEILING || End(n, r).cfg.window <= CEILING + 1
    ensures FrontKept(Run(n, t), r)
    decreases |t|
  {
    hide Reachable, FrontKept, Step, Enabled;
    if t != [] {
      StepFrontKept(c, s, n, t[0], r);
      ReachOn(c, s, n, t[0]);
      StepConfig(n, t[0]);
      RunFrontKept(c, s, Step(n, t[0]), t[1..], r);
    }
  }

  lemma AlwaysFrontKept(c: Config, s: Config, n: Net, r: Role)
    requires Reachable(c, s, n) && (Longest(Of(c, s, r)) <= CEILING || Of(c, s, r).window <= CEILING + 1)
    ensures FrontKept(n, r)
  {
    hide Step, Enabled;
    var t: Trace :| Legal(Init(c, s), t) && Run(Init(c, s), t) == n;
    var none: Trace := [];
    assert Legal(Init(c, s), none) && Run(Init(c, s), none) == Init(c, s);
    RunFrontKept(c, s, Init(c, s), t, r);
  }

  /** What is read at `r` is always the beginning of what its peer wrote. */
  ghost predicate AlwaysInOrder(c: Config, s: Config, r: Role) {
    forall n: Net, id: u32 :: Reachable(c, s, n) && id in End(n, r).entries ==> !Scrambled(n, r, id)
  }

  /**
  `OrderedDelivery` for all bytes written. A single refused frame that takes the whole window costs bytes at the
  end only; order breaks exactly when the peer can queue a frame beyond the codec's ceiling and a byte behind it.
  */
  lemma InOrderIff(c: Config, s: Config, r: Role)
    requires ValidConfig(c) && ValidConfig(s) && c.maxStreams > 0 && s.maxStreams > 0
    ensures var a := Of(c, s, r.Peer());
            AlwaysInOrder(c, s, r) <==> a.maxFrame <= 16 * 1024 * 1024 || a.window <= 16 * 1024 * 1024 + 1
  {
    hide Reachable, Leads;
    var p := r.Peer();
    if Of(c, s, p).maxFrame <= CEILING || Of(c, s, p).window <= CEILING + 1 {
      forall n: Net, id: u32 | Reachable(c, s, n) && id in End(n, r).entries
        ensures !Scrambled(n, r, id)
      {
        AlwaysFrontKept(c, s, n, p);
        if id in End(n, p).entries {
          OrderedDelivery(c, s, n, r, id);
        }
      }
    } else {
      var n := HoleRun(p, Of(c, s, p), Of(c, s, r));
      ReachesFrom(p, c, s, n);
    }
  }
}
