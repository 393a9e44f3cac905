/** Can a stream run out of credit for good? Exactly when the sender's window is below the receiver's threshold. */
module Deadlock {
  import opened Base
  import opened Frames
  import opened Ids
  import opened Streams
  import opened Endpoints
  import opened Channels
  import opened Pairs
  import opened Network
  import opened Delivering
  import opened Guarantees
  import opened Scenarios

  /** Stream `id` from `r` to its peer is in use at both ends and `r` has no credit left. */
  predicate Starved(n: Net, r: Role, id: u32) {
    && Lookup(End(n, r), id) && Lookup(End(n, r.Peer()), id)
    && StreamAt(n, r, id).tx.credit == 0
  }

  /** The configuration of `r`. */
  function Of(c: Config, s: Config, r: Role): Config {
    if r == Client then c else s
  }

  /** Something is still under way that will bring credit back. */
  predicate Relief(n: Net, r: Role, id: u32)
    requires id in End(n, r.Peer()).entries
  {
    || Payload(Flight(n, r, id)) != []
    || StreamAt(n, r.Peer(), id).buffer != []
    || CreditIn(Flight(n, r.Peer(), id)) > 0
  }

  lemma StarvedHasRelief(c: Config, s: Config, n: Net, r: Role, id: u32)
    requires Reachable(c, s, n) && Starved(n, r, id)
    requires Max(End(n, r.Peer()).cfg.window / 2, 1) <= End(n, r).cfg.window
    ensures Relief(n, r, id)
  {
    hide Reachable, Threshold;
    ThresholdIs(End(n, r.Peer()).cfg.window);
    CreditConservation(c, s, n, r, id);
    WindowBounds(c, s, n, r.Peer(), id);
    Invariant(c, s, n);
    assert EntryOk(End(n, r.Peer()).entries[id], End(n, r.Peer()).closing, End(n, r.Peer()).cfg.window);
  }

  // ---------------------------------------------------------------- the stuck state

  /** `r` has no credit, and nothing exists that could return any. */
  predicate Stuck(n: Net, r: Role, id: u32) {
    Starved(n, r, id) && !Relief(n, r, id)
  }

  /** After `k` bytes, each read at once, the receiver owes `k` bytes of credit and has announced none. */
  lemma {:induction false} Drip(r: Role, c: Config, s: Config, k: nat) returns (tx: Stream, rx: Stream,
                                sent: seq<Frame>)
    requires ValidConfig(c) && ValidConfig(s) && c.maxStreams > 0 && s.maxStreams > 0
    requires k <= c.window < Threshold(s.window)
    ensures Leads(Start(r, c, s), Calm(r, c, s, tx, rx, sent))
    ensures tx.id == r.FirstId() == rx.id && tx.state.writeOpen && !tx.state.reset && !tx.tx.closed && CanRecv(rx)
    ensures tx.tx.credit == c.window - k && rx.rx.pending == k && rx.buffer == [] && rx.rx.initial == s.window
  {
    if k == 0 {
      var n := EstablishRun(r, c, s);
      tx, rx, sent := New(r.FirstId(), Local, c.window).(acked := true),
                      New(r.FirstId(), Remote, s.window), [Syn(r.FirstId())];
    } else {
      var tx0, rx0, sent0 := Drip(r, c, s, k - 1);
      tx, rx, sent := DripOne(r, c, s, tx0, rx0, sent0);
      Chain(Start(r, c, s), Calm(r, c, s, tx0, rx0, sent0), Calm(r, c, s, tx, rx, sent));
    }
  }

  lemma DripOne(r: Role, c: Config, s: Config, tx: Stream, rx: Stream, sent: seq<Frame>)
      returns (tx1: Stream, rx1: Stream, sent1: seq<Frame>)
    requires CanPass(r, c, tx, rx) && s.maxFrame > 0 && rx.buffer == [] && rx.rx.pending + 1 < Threshold(rx.rx.initial)
    ensures Leads(Calm(r, c, s, tx, rx, sent), Calm(r, c, s, tx1, rx1, sent1))
    ensures tx1 == tx.(tx := tx.tx.(credit := tx.tx.credit - 1), log := tx1.log)
    ensures rx1 == rx.(rx := rx.rx.(pending := rx.rx.pending + 1), log := rx1.log)
  {
    hide PollRead, UserStep, AcceptorAt, OpenerAt;
    var id, p := r.FirstId(), r.Peer();
    var n := PassByte(r, c, s, tx, rx, sent, 0);
    assert rx.buffer + [0] == [0];
    tx1, rx1 := Spent(tx, [0]), Drained(rx.(buffer := [0]), 1, rx.rx.pending + 1);
    sent1 := sent + [Data(id, NoFlags, [0])];
    ReadHere(r, s, rx);
    Then(Calm(r, c, s, tx, rx, sent), n, Event(p, Use(id, Read(1))));
  }

  /** The peer reads the one byte it has. */
  lemma ReadHere(r: Role, s: Config, rx: Stream)
    requires rx.id == r.FirstId() && CanRecv(rx) && rx.rx.pending + 1 < Threshold(rx.rx.initial)
    ensures var id, e := r.FirstId(),
                         AcceptorAt(r, s, Entry(rx.(buffer := [0]), true, User), [], [Ack(r.FirstId())], []);
            && id in e.entries && Allowed(e.entries[id], Read(1))
            && UserStep(e, id, Read(1)) ==
               AcceptorAt(r, s, Entry(Drained(rx.(buffer := [0]), 1, rx.rx.pending + 1), true, User), [], [Ack(id)], [])
  {
    hide PollRead;
    ReadOne(rx.(buffer := [0]));
  }

  lemma ReadOne(s: Stream)
    requires |s.buffer| == 1 && !s.state.reset && s.rx.pending + 1 < Threshold(s.rx.initial)
    ensures PollRead(s, 1).0 == Out(Drained(s, 1, s.rx.pending + 1), [], [])
  {
  }

  /** An open session in which a user holds the stream, and it is not reset. */
  predicate InUse(e: Endpoint, id: u32) {
    !e.closing && e.outOpen && id in e.entries && e.entries[id].holder == User && !e.entries[id].stream.state.reset
  }

  /** A sender whose window is below its receiver's threshold can run dry for good. */
  lemma ReachStuck(c: Config, s: Config, r: Role) returns (n: Net)
    requires ValidConfig(c) && ValidConfig(s) && c.maxStreams > 0 && s.maxStreams > 0
    requires Of(c, s, r).window < Max(Of(c, s, r.Peer()).window / 2, 1)
    ensures Reachable(c, s, n) && Stuck(n, r, r.FirstId())
    ensures forall q: Role :: InUse(End(n, q), r.FirstId())
  {
    var a, b := Of(c, s, r), Of(c, s, r.Peer());
    var tx, rx, sent := Drip(r, a, b, a.window);
    n := Calm(r, a, b, tx, rx, sent);
    assert Pipe(n, Client) == [] && Pipe(n, Server) == [];
  }

  // ---------------------------------------------------------------- and it stays stuck

  /** `Stuck` frame by frame, and without asking the ends to stay registered. */
  ghost predicate Dead(n: Net, r: Role, id: u32) {
    && id in End(n, r).entries && StreamAt(n, r, id).tx.credit == 0
    && id in End(n, r.Peer()).entries && StreamAt(n, r.Peer(), id).buffer == []
    && Mute(Pipe(n, r), id) && Stingy(Pipe(n, r.Peer()), id)
  }

  /** No payload for stream `id`. */
  ghost predicate Mute(fs: seq<Frame>, id: u32) {
    forall f :: f in fs && f.Data? && f.id == id ==> f.payload == []
  }

  /** No credit for stream `id`. */
  ghost predicate Stingy(fs: seq<Frame>, id: u32) {
    forall f :: f in fs && f.WindowUpdate? ==> f.id != id
  }

  /** `e1` follows `e`: a stream without credit stays without, and queues no payload. */
  ghost predicate TxIdles(e: Endpoint, e1: Endpoint, id: u32) {
    && id in e.entries && id in e1.entries
    && (e.entries[id].stream.tx.credit == 0 ==>
          && e1.entries[id].stream.tx.credit == 0 && e1.entries[id].stream.log.wrote == e.entries[id].stream.log.wrote
          && (forall f :: f in e1.outQ && f.Data? && f.id == id ==> f in e.outQ || f.payload == []))
  }

  /** `e1` follows `e`: a stream with an empty buffer keeps it empty, and announces no credit. */
  ghost predicate RxIdles(e: Endpoint, e1: Endpoint, id: u32) {
    && id in e.entries && id in e1.entries
    && (e.entries[id].stream.buffer == [] ==>
          && e1.entries[id].stream.buffer == []
          && (forall f :: f in e1.outQ && f.WindowUpdate? && f.id == id ==> f in e.outQ))
  }

  lemma ApplyTx(en: Entry, what: UserAct, maxFrame: u32, outOpen: bool)
    requires Allowed(en, what) && en.stream.tx.credit == 0
    ensures var o := Apply(en, what, maxFrame, outOpen);
            && o.entry.stream.tx.credit == 0 && o.entry.stream.log.wrote == en.stream.log.wrote
            && (forall f :: f in o.frames ==> PayloadOf(f) == [])
  {
    hide OnConsume;
  }

  lemma ApplyRx(en: Entry, what: UserAct, maxFrame: u32, outOpen: bool)
    requires Allowed(en, what) && en.stream.buffer == []
    ensures var o := Apply(en, what, maxFrame, outOpen);
            o.entry.stream.buffer == [] && forall f :: f in o.frames ==> !f.WindowUpdate?
  {
    hide PollWrite;
    if what.Write? {
      WriteRx(en.stream, maxFrame, what.data, outOpen);
    }
  }

  lemma WriteRx(s: Stream, maxFrame: u32, data: seq<u8>, outOpen: bool)
    ensures var o := PollWrite(s, maxFrame, data, outOpen).0;
            o.stream.buffer == s.buffer && forall f :: f in o.frames ==> f.Data?
  {
  }

  lemma UseTxIdles(e: Endpoint, k: u32, what: UserAct, id: u32)
    requires k in e.entries && Allowed(e.entries[k], what) && id in e.entries && e.entries[k].stream.id == k
    ensures TxIdles(e, UserStep(e, k, what), id)
  {
    hide Apply, Allowed;
    ApplyFrames(e.entries[k], what, e.cfg.maxFrame, e.outOpen);
    if e.entries[k].stream.tx.credit == 0 {
      ApplyTx(e.entries[k], what, e.cfg.maxFrame, e.outOpen);
    }
  }

  lemma UseRxIdles(e: Endpoint, k: u32, what: UserAct, id: u32)
    requires k in e.entries && Allowed(e.entries[k], what) && id in e.entries && e.entries[k].stream.id == k
    ensures RxIdles(e, UserStep(e, k, what), id)
  {
    hide Apply, Allowed;
    ApplyFrames(e.entries[k], what, e.cfg.maxFrame, e.outOpen);
    if e.entries[k].stream.buffer == [] {
      ApplyRx(e.entries[k], what, e.cfg.maxFrame, e.outOpen);
    }
  }

  lemma OpenIdles(e: Endpoint, id: u32)
    requires EndOk(e) && id in e.entries
    ensures TxIdles(e, Endpoints.Open(e), id) && RxIdles(e, Endpoints.Open(e), id)
  {
  }

  lemma ShutdownIdles(e: Endpoint, code: ErrorCode, id: u32)
    requires id in e.entries
    ensures TxIdles(e, InitiateShutdown(e, code), id) && RxIdles(e, InitiateShutdown(e, code), id)
  {
  }

  lemma QueueIdles(e: Endpoint, id: u32)
    requires id in e.entries
    ensures !e.closing && e.acceptQ != [] && e.acceptQ[0] in e.entries ==>
              TxIdles(e, Endpoints.Accept(e), id) && RxIdles(e, Endpoints.Accept(e), id)
    ensures e.closerQ != [] ==> TxIdles(e, CloserStep(e), id) && RxIdles(e, CloserStep(e), id)
  {
  }

  lemma ReceiveTx(en: Entry, flags: Flags, payload: seq<u8>)
    ensures var o := Receive(en, flags, payload).0;
            o.entry.stream.tx.credit == en.stream.tx.credit && o.entry.stream.log.wrote == en.stream.log.wrote
    ensures forall f :: f in Receive(en, flags, payload).0.frames ==> f.Data? && f.payload == []
  {
    var s0 := if flags.ack then en.stream.(acked := true) else en.stream;
    assert s0.tx.credit == en.stream.tx.credit && s0.log.wrote == en.stream.log.wrote;
    if payload != [] && !CanRecv(s0) {
      assert Receive(en, flags, payload).0 == Keep(en, LocalReset(s0));
    }
  }

  lemma ReceiveRx(en: Entry, flags: Flags)
    ensures Receive(en, flags, []).0.entry.stream.buffer == en.stream.buffer
  {
    assert en.stream.buffer + [] == en.stream.buffer;
  }

  lemma KnownIdles(e: Endpoint, k: u32, flags: Flags, payload: seq<u8>, id: u32)
    requires id in e.entries
    ensures TxIdles(e, HandleKnown(e, k, flags, payload).0, id)
    ensures k != id || payload == [] ==> RxIdles(e, HandleKnown(e, k, flags, payload).0, id)
  {
    hide Receive;
    if Lookup(e, k) {
      ReceiveTx(e.entries[k], flags, payload);
      ReceiveRx(e.entries[k], flags);
    }
  }

  lemma DataIdles(e: Endpoint, k: u32, flags: Flags, payload: seq<u8>, id: u32)
    requires id in e.entries && (k == id ==> !flags.syn)
    ensures TxIdles(e, HandleData(e, k, flags, payload).0, id)
    ensures k != id || payload == [] ==> RxIdles(e, HandleData(e, k, flags, payload).0, id)
  {
    hide HandleKnown;
    var e2 := Put(e, k, Entry(New(k, Remote, e.cfg.window), true, Queued)).(acceptQ := e.acceptQ + [k]);
    KnownIdles(e, k, flags, payload, id);
    KnownIdles(e2, k, flags, payload, id);
  }

  lemma DispatchIdles(e: Endpoint, f: Frame, id: u32)
    requires id in e.entries && !(IsSyn(f) && f.id == id)
    ensures Stingy([f], id) ==> TxIdles(e, Dispatch(e, f).0, id)
    ensures Mute([f], id) ==> RxIdles(e, Dispatch(e, f).0, id)
  {
    hide HandleData, InitiateShutdown;
    assert f in [f];
    if f.Data? {
      DataIdles(e, f.id, f.flags, f.payload, id);
    } else if f.GoAway? {
      ShutdownIdles(e.(peerGone := true), f.code, id);
    }
  }

  lemma ReaderIdles(e: Endpoint, f: Frame, id: u32)
    requires id in e.entries && !(IsSyn(f) && f.id == id)
    ensures Stingy([f], id) ==> TxIdles(e, ReaderStep(e, f), id)
    ensures Mute([f], id) ==> RxIdles(e, ReaderStep(e, f), id)
  {
    hide Dispatch, InitiateShutdown;
    DispatchIdles(e, f, id);
    var e1 := Dispatch(e, f).0;
    if id in e1.entries {
      ShutdownIdles(e1, ProtocolError, id);
    }
  }

  /** What one step of endpoint `r` does to its stream `id`, as sender and as receiver. */
  lemma StepIdles(n: Net, ev: Event, id: u32)
    requires NetOk(n) && Enabled(n, ev) && id in End(n, ev.who).entries
    requires ev.act.Deliver? ==> Wire(n, ev.who.Peer()) != []
    ensures var e, e1 := End(n, ev.who), End(Step(n, ev), ev.who);
            && ((ev.act.Deliver? ==> Stingy(Wire(n, ev.who.Peer())[..1], id)) ==> TxIdles(e, e1, id))
            && ((ev.act.Deliver? ==> Mute(Wire(n, ev.who.Peer())[..1], id)) ==> RxIdles(e, e1, id))
  {
    hide NetOk, Endpoints.Open, UserStep, Endpoints.Accept, InitiateShutdown, ReaderStep, CloserStep;
    hide WriterExit, WriteFailed;
    var e := End(n, ev.who);
    assert EndOk(e) && id != 0 by { EndIsOk(n, ev.who); }
    match ev.act
    case Open => OpenIdles(e, id);
    case Use(k, what) =>
      UseTxIdles(e, k, what, id);
      UseRxIdles(e, k, what, id);
    case Accept => QueueIdles(e, id);
    case Close(code) => ShutdownIdles(e, code, id);
    case Collect => QueueIdles(e, id);
    case Deliver =>
      var f := Wire(n, ev.who.Peer())[0];
      assert Wire(n, ev.who.Peer())[..1] == [f];
      assert !(IsSyn(f) && f.id == id) by { NoSecondSyn(n, ev.who, id); }
      ReaderIdles(e, f, id);
      ShutdownIdles(e, ProtocolError, id);
    case Move => WriterIdles(e, id);
    case Exit => WriterIdles(e, id);
    case Probe(_) =>
  }

  lemma ForgetIdles(e: Endpoint, k: nat, id: u32)
    requires id in e.entries && k <= |e.outQ|
    ensures TxIdles(e, Forget(e, k), id) && RxIdles(e, Forget(e, k), id)
  {
    ForgetShape(e, k);
    hide Forget;
  }

  lemma WriterIdles(e: Endpoint, id: u32)
    requires id in e.entries
    ensures TxIdles(e, WriterExit(e), id) && RxIdles(e, WriterExit(e), id)
    ensures e.outQ != [] ==> TxIdles(e, WriteFailed(e), id) && RxIdles(e, WriteFailed(e), id)
  {
    hide Forget, InitiateShutdown;
    ForgetIdles(e, |e.outQ|, id);
    if e.outQ != [] {
      ForgetIdles(e, 1, id);
      ShutdownIdles(Forget(e, 1), InternalError, id);
    }
  }

  lemma NoSecondSyn(n: Net, r: Role, id: u32)
    requires NetOk(n) && id in End(n, r).entries && Wire(n, r.Peer()) != []
    ensures !(IsSyn(Wire(n, r.Peer())[0]) && Wire(n, r.Peer())[0].id == id)
  {
    var f := Wire(n, r.Peer())[0];
    if IsSyn(f) && f.id == id {
      HeadFacts(n, r, id);
    }
  }

  /** A dead stream stays dead whatever anyone does next, and never accepts another byte. */
  lemma DeadStep(n: Net, ev: Event, r: Role, id: u32)
    requires NetOk(n) && Enabled(n, ev) && Dead(n, r, id)
    ensures Dead(Step(n, ev), r, id)
    ensures StreamAt(Step(n, ev), r, id).log.wrote == StreamAt(n, r, id).log.wrote
  {
    hide NetOk, Step, Enabled, Pipe, Wire;
    HeadWaits(n, ev);
    StepIdles(n, ev, id);
    StepPipes(n, ev);
    QueueInPipe(n, ev.who);
  }

  lemma QueueInPipe(n: Net, r: Role)
    ensures forall f :: f in End(n, r).outQ ==> f in Pipe(n, r)
  {
  }

  lemma HeadWaits(n: Net, ev: Event)
    requires Enabled(n, ev)
    ensures ev.act.Deliver? ==> Wire(n, ev.who.Peer()) != []
    ensures ev.act.Deliver? ==> forall f :: f in Wire(n, ev.who.Peer())[..1] ==> f in Pipe(n, ev.who.Peer())
  {
  }

  lemma {:induction false} DeadForever(n: Net, t: Trace, r: Role, id: u32)
    requires NetOk(n) && Legal(n, t) && Dead(n, r, id)
    ensures Dead(Run(n, t), r, id)
    ensures StreamAt(Run(n, t), r, id).log.wrote == StreamAt(n, r, id).log.wrote
    decreases |t|
  {
    hide NetOk;
    if t != [] {
      StepKeeps(n, t[0]);
      DeadStep(n, t[0], r, id);
      DeadForever(Step(n, t[0]), t[1..], r, id);
    }
  }

  /** From a stuck state, no continuation ever lets `r` write on that stream again. */
  lemma StuckForever(c: Config, s: Config, n: Net, r: Role, id: u32, t: Trace)
    requires Reachable(c, s, n) && Stuck(n, r, id) && Legal(n, t)
    ensures id in End(Run(n, t), r).entries
    ensures StreamAt(Run(n, t), r, id).log.wrote == StreamAt(n, r, id).log.wrote
  {
    hide NetOk, Reachable;
    Invariant(c, s, n);
    StuckIsDead(n, r, id);
    DeadForever(n, t, r, id);
  }

  lemma StuckIsDead(n: Net, r: Role, id: u32)
    requires NetOk(n) && Stuck(n, r, id)
    ensures Dead(n, r, id)
  {
    var p := r.Peer();
    forall f | f in Pipe(n, r) && f.Data? && f.id == id
      ensures f.payload == []
    {
      ProjectElements(Pipe(n, r), id);
      PayloadBounds(Flight(n, r, id), f);
    }
    forall f | f in Pipe(n, p) && f.WindowUpdate?
      ensures f.id != id
    {
      assert Canonical(f);
      if f.id == id {
        ProjectElements(Pipe(n, p), id);
        CreditBounds(Flight(n, p, id), f);
      }
    }
  }

  // ---------------------------------------------------------------- the exact condition

  /** No reachable state leaves a stream that `r` writes in use without credit and without relief. */
  ghost predicate NeverStuck(c: Config, s: Config, r: Role) {
    forall n: Net, id: u32 :: Reachable(c, s, n) && Starved(n, r, id) ==> Relief(n, r, id)
  }

  /**
  Flow control cannot deadlock exactly when the sender's window reaches the receiver's
  announcement threshold, half the receiver's own window but at least one byte.
  */
  lemma DeadlockFreeIff(c: Config, s: Config, r: Role)
    requires ValidConfig(c) && ValidConfig(s) && c.maxStreams > 0 && s.maxStreams > 0
    ensures NeverStuck(c, s, r) <==> Max(Of(c, s, r.Peer()).window / 2, 1) <= Of(c, s, r).window
  {
    hide Reachable, Threshold;
    if Max(Of(c, s, r.Peer()).window / 2, 1) <= Of(c, s, r).window {
      forall n: Net, id: u32 | Reachable(c, s, n) && Starved(n, r, id)
        ensures Relief(n, r, id)
      {
        Invariant(c, s, n);
        StarvedHasRelief(c, s, n, r, id);
      }
    } else {
      var n := ReachStuck(c, s, r);
    }
  }
}
