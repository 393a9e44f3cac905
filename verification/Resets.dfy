/**
A reset gets through. When a user resets a stream whose FIN has not been said, or an `open` gives up, a RST is queued;
while both sessions stay open it is under way until the peer has taken it, and from then on the stream is reset or
gone there.
*/
module Resets {
  import opened Base
  import opened Frames
  import opened Ids
  import opened Streams
  import opened Endpoints
  import opened Channels
  import opened Pairs
  import opened Network
  import opened Delivering
  import opened Guarantees
  import opened Drops
  import opened Settling
  import opened Losses
  import opened Jams
  import opened Calls

  /** The call tells the peer of the end of the stream with a RST. */
  predicate Tells(n: Net, ev: Event, r: Role, id: u32) {
    && ev.who == r && On(ev, id) && Enabled(n, ev)
    && (|| ev.act.what.OpenTimeout?
        || (ev.act.what.Reset? && !StreamAt(n, r, id).state.reset && !StreamAt(n, r, id).finSent))
  }

  /** At this end the stream is reset, or not registered, or not known at all. */
  predicate Down(e: Endpoint, id: u32) {
    id in e.entries ==> e.entries[id].stream.state.reset || !e.entries[id].registered
  }

  /** The RST of `r` is under way, or its peer has taken it. */
  predicate Told(n: Net, r: Role, id: u32) {
    && id in End(n, r).entries
    && (Rst(id) in Pipe(n, r) || (Down(End(n, r.Peer()), id) && Syn(id) !in Pipe(n, r)))
  }

  // ---------------------------------------------------------------- queues while the sessions are open

  lemma OwnQueueGrows(n: Net, ev: Event)
    requires NetOk(n) && Enabled(n, ev) && !ev.act.Move? && BothOpen(n) && BothOpen(Step(n, ev))
    ensures End(n, ev.who).outQ <= End(Step(n, ev), ev.who).outQ
  {
    hide NetOk, ReaderStep, CloserStep, Apply, InitiateShutdown;
    var r, e := ev.who, End(n, ev.who);
    match ev.act
    case Deliver =>
      OpenPasses(n, ev);
      ReaderQueue(e, Wire(n, r.Peer())[0]);
    case Collect => CloserQueue(e);
    case Close(_) => assert End(Step(n, ev), r).closing by { ShutsDown(e, ev.act.code); }
    case _ =>
  }

  /** What is under way from the acting side stays under way. */
  lemma OwnPipeStays(n: Net, ev: Event)
    requires NetOk(n) && Enabled(n, ev) && BothOpen(n) && BothOpen(Step(n, ev))
    ensures forall f :: f in Pipe(n, ev.who) ==> f in Pipe(Step(n, ev), ev.who)
  {
    hide NetOk, Endpoints.Open, UserStep, Endpoints.Accept, InitiateShutdown, ReaderStep, CloserStep, WriteFailed,
      WriterExit;
    var r, m := ev.who, Step(n, ev);
    if ev.act.Move? {
      assert ev == Event(r, Move);
      OpenPasses(n, ev);
      MovePipes(n, r);
    } else {
      OwnQueueGrows(n, ev);
      assert Wire(m, r) == Wire(n, r);
    }
  }

  // ---------------------------------------------------------------- no second SYN

  /** In the queue of an endpoint a SYN is new only for an id that it did not know. */
  lemma SynsAreNew(n: Net, ev: Event, id: u32)
    requires NetOk(n) && Enabled(n, ev) && id in End(n, ev.who).entries && Syn(id) !in Pipe(n, ev.who)
    ensures Syn(id) !in Pipe(Step(n, ev), ev.who)
  {
    hide NetOk, Step, Enabled;
    StepPipes(n, ev);
    QueueSyns(n, ev, id);
  }

  lemma QueueSyns(n: Net, ev: Event, id: u32)
    requires NetOk(n) && Enabled(n, ev) && id in End(n, ev.who).entries
    ensures Syn(id) in End(Step(n, ev), ev.who).outQ ==> Syn(id) in Pipe(n, ev.who)
  {
    hide NetOk, UserStep, ReaderStep, InitiateShutdown, CloserStep, WriteFailed, WriterExit;
    var e := End(n, ev.who);
    match ev.act
    case Open => FreshNext(n, ev.who);
    case Use(k, what) => UseSyns(e, k, what, id);
    case Deliver =>
      ReaderSyns(e, Wire(n, ev.who.Peer())[0], id);
      ShutdownSyns(e, ProtocolError, id);
    case Close(code) => ShutdownSyns(e, code, id);
    case Collect => CloserQueue(e);
    case Move => WriterSyns(e, id);
    case Exit => WriterSyns(e, id);
    case _ =>
  }

  lemma UseSyns(e: Endpoint, k: u32, what: UserAct, id: u32)
    requires k in e.entries && Allowed(e.entries[k], what)
    ensures Syn(id) in UserStep(e, k, what).outQ ==> Syn(id) in e.outQ
  {
    hide Apply;
    ApplyFrames(e.entries[k], what, e.cfg.maxFrame, e.outOpen);
  }

  lemma ShutdownSyns(e: Endpoint, code: ErrorCode, id: u32)
    ensures Syn(id) in InitiateShutdown(e, code).outQ ==> Syn(id) in e.outQ
  {
  }

  lemma KnownSyns(e: Endpoint, k: u32, flags: Flags, payload: seq<u8>, id: u32)
    ensures Syn(id) in HandleKnown(e, k, flags, payload).0.outQ ==> Syn(id) in e.outQ
  {
  }

  lemma ReaderSyns(e: Endpoint, f: Frame, id: u32)
    ensures Syn(id) in ReaderStep(e, f).outQ ==> Syn(id) in e.outQ
  {
    hide HandleKnown, InitiateShutdown;
    var e1 := Dispatch(e, f).0;
    ShutdownSyns(e1, ProtocolError, id);
    match f
    case Data(k, flags, payload) =>
      var e2 := Put(e, k, Entry(New(k, Remote, e.cfg.window), true, Queued)).(acceptQ := e.acceptQ + [k]);
      KnownSyns(e, k, flags, payload, id);
      KnownSyns(e2, k, flags, payload, id);
    case GoAway(code) => ShutdownSyns(e.(peerGone := true), code, id);
    case _ =>
  }

  lemma WriterSyns(e: Endpoint, id: u32)
    ensures Syn(id) in WriterExit(e).outQ ==> Syn(id) in e.outQ
    ensures e.outQ != [] ==> (Syn(id) in WriteFailed(e).outQ ==> Syn(id) in e.outQ)
  {
    hide Forgotten;
  }

  lemma SynOnlyFirst(n: Net, r: Role, id: u32, i: nat)
    requires NetOk(n) && id != 0 && i < |Flight(n, r, id)| && IsSyn(Flight(n, r, id)[i])
    ensures i == 0
  {
    hide Bytes, Ends, Ledger, EntriesOk, QueuesOk, Flight;
    assert StreamOk(n, Client, id);
    Flip(n, Client, id);
    assert Flight(n, r, id)[i] in Flight(n, r, id);
  }

  /** Behind any frame of its stream there is no SYN. */
  lemma NoSynBehind(n: Net, r: Role, id: u32)
    requires NetOk(n) && id != 0 && Wire(n, r) != [] && Wire(n, r)[0] == Rst(id)
    ensures Syn(id) !in Pipe(n, r)[1..]
  {
    hide NetOk;
    var q := Pipe(n, r);
    var rest := Project(q[1..], id);
    assert q[0] == Rst(id) && Flight(n, r, id) == [Rst(id)] + rest;
    ProjectElements(q[1..], id);
    if Syn(id) in q[1..] {
      var i :| 0 <= i < |rest| && rest[i] == Syn(id);
      assert Flight(n, r, id)[i + 1] == Syn(id);
      SynOnlyFirst(n, r, id, i + 1);
    }
  }

  // ---------------------------------------------------------------- down stays down

  lemma UseDown(e: Endpoint, k: u32, what: UserAct, id: u32)
    requires Down(e, id) && k in e.entries && Allowed(e.entries[k], what)
    ensures Down(UserStep(e, k, what), id)
  {
    hide Apply;
    ApplyDeclines(e.entries[k], what, e.cfg.maxFrame, e.outOpen);
  }

  lemma ShutdownDown(e: Endpoint, code: ErrorCode, id: u32)
    requires Down(e, id)
    ensures Down(InitiateShutdown(e, code), id)
  {
  }

  lemma KnownDown(e: Endpoint, k: u32, flags: Flags, payload: seq<u8>, id: u32)
    requires Down(e, id)
    ensures Down(HandleKnown(e, k, flags, payload).0, id)
  {
  }

  lemma ReaderDown(n: Net, r: Role, id: u32)
    requires NetOk(n) && Enabled(n, Event(r, Deliver)) && Down(End(n, r), id) && Wire(n, r.Peer())[0] != Syn(id)
    ensures Down(ReaderStep(End(n, r), Wire(n, r.Peer())[0]), id)
  {
    hide NetOk, HandleKnown, InitiateShutdown;
    var e, f := End(n, r), Wire(n, r.Peer())[0];
    if f.Data? {
      DataHead(n, r, f);
      if f.flags.syn {
        SynIsFirst(n, r, f);
        SynStep(e, f.id);
      } else {
        KnownDown(e, f.id, f.flags, f.payload, id);
        ShutdownDown(HandleKnown(e, f.id, f.flags, f.payload).0, ProtocolError, id);
      }
    } else if f.GoAway? {
      ShutdownDown(e.(peerGone := true), f.code, id);
    }
  }

  lemma WriterDown(e: Endpoint, id: u32)
    requires Down(e, id)
    ensures Down(WriterExit(e), id) && (e.outQ != [] ==> Down(WriteFailed(e), id))
  {
    hide Cut;
  }

  /** Unless its SYN is taken, or it is opened here, a stream that is down stays down. */
  lemma StepDown(n: Net, ev: Event, r: Role, id: u32)
    requires NetOk(n) && Enabled(n, ev) && Down(End(n, r), id)
    requires ev == Event(r, Deliver) ==> Wire(n, r.Peer())[0] != Syn(id)
    requires ev == Event(r, Open) ==> id != End(n, r).nextId
    ensures Down(End(Step(n, ev), r), id)
  {
    hide NetOk, UserStep, InitiateShutdown, ReaderStep, WriteFailed, WriterExit;
    if ev.who == r {
      match ev.act
      case Use(k, what) => UseDown(End(n, r), k, what, id);
      case Deliver =>
        assert ev == Event(r, Deliver);
        ReaderDown(n, r, id);
        ShutdownDown(End(n, r), ProtocolError, id);
      case Close(code) => ShutdownDown(End(n, r), code, id);
      case Move => WriterDown(End(n, r), id);
      case Exit => WriterDown(End(n, r), id);
      case _ =>
    }
  }

  // ---------------------------------------------------------------- the RST on its way

  /** A stream known here has been opened by the side whose id it is. */
  lemma OpenedByOpener(n: Net, r: Role, id: u32)
    requires NetOk(n) && id in End(n, r).entries && r.Peer() == Opener(id)
    ensures id in End(n, r.Peer()).entries
  {
    hide Dir, EntriesOk, QueuesOk;
    EndIsOk(n, r);
    assert StreamOk(n, Client, id);
    Flip(n, Client, id);
  }

  /** The peer takes the RST. */
  lemma RstTaken(n: Net, p: Role, id: u32)
    requires NetOk(n) && Enabled(n, Event(p, Deliver)) && Wire(n, p.Peer())[0] == Rst(id)
    ensures Down(End(Step(n, Event(p, Deliver)), p), id)
  {
    hide NetOk, HandleData, InitiateShutdown;
    var e := End(n, p);
    DataHead(n, p, Rst(id));
    DataFaultIff(e, id, RstFlag, []);
    if Lookup(e, id) {
      DataDoes(e, id, RstFlag, []);
    } else {
      StrayDoes(e, id, RstFlag, []);
    }
  }

  lemma StepToldMine(n: Net, ev: Event, r: Role, id: u32)
    requires NetOk(n) && Enabled(n, ev) && ev.who == r && BothOpen(n) && BothOpen(Step(n, ev)) && Told(n, r, id)
    ensures Told(Step(n, ev), r, id)
  {
    hide NetOk, Step, Enabled, BothOpen, Pipe;
    StepPipes(n, ev);
    OwnPipeStays(n, ev);
    StaysKnown(n, ev, r, id);
    if Syn(id) !in Pipe(n, r) {
      SynsAreNew(n, ev, id);
    }
  }

  lemma StaysKnown(n: Net, ev: Event, r: Role, id: u32)
    requires NetOk(n) && Enabled(n, ev) && id in End(n, r).entries
    ensures id in End(Step(n, ev), r).entries
  {
    hide NetOk, Step, Enabled;
    StepLogs(n, ev, r, id);
  }

  lemma StepToldTheirs(n: Net, ev: Event, r: Role, id: u32)
    requires NetOk(n) && Enabled(n, ev) && ev.who == r.Peer() && BothOpen(n) && BothOpen(Step(n, ev)) && Told(n, r, id)
    ensures Told(Step(n, ev), r, id)
  {
    hide NetOk, Step, Enabled, BothOpen, EndOk, Down;
    var p, m := r.Peer(), Step(n, ev);
    EndIsOk(n, r);
    OtherPipe(n, ev);
    StepPipes(n, ev);
    if ev.act.Deliver? {
      assert ev == Event(p, Deliver) && Pipe(n, r)[0] == Wire(n, r)[0];
      assert forall f :: f in Pipe(n, r) ==> f == Wire(n, r)[0] || f in Pipe(m, r);
      if Wire(n, r)[0] == Rst(id) {
        RstTaken(n, p, id);
        NoSynBehind(n, r, id);
      } else if Rst(id) !in Pipe(n, r) {
        StepDown(n, ev, p, id);
      }
    } else if Rst(id) !in Pipe(n, r) {
      assert ev == Event(p, Open) ==> id != End(n, p).nextId by { NotNext(n, r, id); }
      StepDown(n, ev, p, id);
    }
  }

  lemma NotNext(n: Net, r: Role, id: u32)
    requires NetOk(n) && id in End(n, r).entries
    ensures id != End(n, r.Peer()).nextId
  {
    hide PairOk, QueuesOk;
    var p := r.Peer();
    EndIsOk(n, p);
    EndIsOk(n, r);
    FreshNext(n, p);
    if id == End(n, p).nextId {
      OpenedByOpener(n, r, id);
    }
  }

  lemma {:induction false} RunTold(n: Net, t: Trace, r: Role, id: u32)
    requires NetOk(n) && Legal(n, t) && BothOpen(Run(n, t)) && Told(n, r, id)
    ensures NetOk(Run(n, t)) && Told(Run(n, t), r, id)
    decreases |t|
  {
    hide NetOk, Step, Enabled, BothOpen, Told;
    if t != [] {
      if !BothOpen(n) {
        ShutForGood(n, t);
      }
      if !BothOpen(Step(n, t[0])) {
        ShutForGood(Step(n, t[0]), t[1..]);
      }
      StepKeeps(n, t[0]);
      if t[0].who == r {
        StepToldMine(n, t[0], r, id);
      } else {
        StepToldTheirs(n, t[0], r, id);
      }
      RunTold(Step(n, t[0]), t[1..], r, id);
    }
  }

  /** The call queues the RST. */
  lemma RstQueued(n: Net, ev: Event, r: Role, id: u32)
    requires NetOk(n) && BothOpen(n) && Tells(n, ev, r, id)
    ensures Rst(id) in Pipe(Step(n, ev), r) && id in End(Step(n, ev), r).entries
  {
    hide NetOk, LocalReset, EntriesOk, QueuesOk;
    var e := End(n, r);
    EndIsOk(n, r);
    if ev.act.what.OpenTimeout? {
      GivingUpDoes(e, id, OpenTimeout);
    } else {
      ResetDoes(e.entries[id].stream);
    }
    assert Rst(id) in End(Step(n, ev), r).outQ;
  }

  /**
  In every run: after a reset of a stream whose FIN had not been said, or an `open` that gave up, and as long as both
  sessions are open, the RST is under way or the peer's end of the stream is reset or gone. At rest it is one of
  these; and a peer whose user still holds the stream finds it reset.
  */
  lemma ResetGetsThrough(c: Config, s: Config, n: Net, ev: Event, u: Trace, r: Role, id: u32)
    requires Reachable(c, s, n) && BothOpen(n) && Tells(n, ev, r, id) && Legal(Step(n, ev), u)
    requires BothOpen(Run(Step(n, ev), u))
    ensures var k := Run(Step(n, ev), u);
            && (Rst(id) in Pipe(k, r) || Down(End(k, r.Peer()), id))
            && (Resting(k) && id in End(k, r.Peer()).entries && Live(End(k, r.Peer()).entries[id]) ==>
                  StreamAt(k, r.Peer(), id).state.reset)
  {
    hide NetOk, Reachable, Step, Enabled;
    Invariant(c, s, n);
    RstQueued(n, ev, r, id);
    StepKeeps(n, ev);
    RunTold(Step(n, ev), u, r, id);
    var k, p := Run(Step(n, ev), u), r.Peer();
    if Resting(k) && id in End(k, p).entries && Live(End(k, p).entries[id]) {
      assert Pipe(k, Client) == [] && Pipe(k, Server) == [];
      StaysRegistered(k, p, id);
    }
  }
}
