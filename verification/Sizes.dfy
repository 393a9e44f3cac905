/** How long frames get, and when none of those under way is too long for a codec it has to pass. */
module Sizes {
  import opened Base
  import opened Frames
  import opened Ids
  import opened Streams
  import opened Endpoints
  import opened Channels
  import opened Pairs
  import opened Network
  import opened Guarantees
  import Codec

  predicate Fits(fs: seq<Frame>, max: u32) {
    forall f :: f in fs ==> |PayloadOf(f)| <= max
  }

  lemma ApplyFits(en: Entry, what: UserAct, maxFrame: u32, outOpen: bool)
    requires Allowed(en, what)
    ensures Fits(Apply(en, what, maxFrame, outOpen).frames, if what.Write? then maxFrame else 0)
  {
  }

  lemma UseFits(e: Endpoint, id: u32, what: UserAct, max: u32)
    requires id in e.entries && Allowed(e.entries[id], what) && Fits(e.outQ, max)
    requires what.Write? ==> e.cfg.maxFrame <= max
    ensures Fits(UserStep(e, id, what).outQ, max)
  {
    hide Apply;
    ApplyFits(e.entries[id], what, e.cfg.maxFrame, e.outOpen);
  }

  lemma ReceiveFits(en: Entry, flags: Flags, payload: seq<u8>)
    ensures Fits(Receive(en, flags, payload).0.frames, 0)
  {
  }

  lemma KnownFits(e: Endpoint, id: u32, flags: Flags, payload: seq<u8>, max: u32)
    requires Fits(e.outQ, max)
    ensures Fits(HandleKnown(e, id, flags, payload).0.outQ, max)
  {
    hide Receive;
    if Lookup(e, id) {
      ReceiveFits(e.entries[id], flags, payload);
    }
  }

  lemma DispatchFits(e: Endpoint, f: Frame, max: u32)
    requires Fits(e.outQ, max)
    ensures Fits(Dispatch(e, f).0.outQ, max)
  {
    hide HandleKnown;
    if f.Data? {
      var e2 := Put(e, f.id, Entry(New(f.id, Remote, e.cfg.window), true, Queued)).(acceptQ := e.acceptQ + [f.id]);
      KnownFits(e, f.id, f.flags, f.payload, max);
      KnownFits(e2, f.id, f.flags, f.payload, max);
    }
  }

  lemma ReaderFits(e: Endpoint, f: Frame, max: u32)
    requires Fits(e.outQ, max)
    ensures Fits(ReaderStep(e, f).outQ, max)
  {
    hide Dispatch;
    DispatchFits(e, f, max);
  }

  lemma LocalFits(e: Endpoint, max: u32)
    requires Fits(e.outQ, max)
    ensures Fits(Endpoints.Open(e).outQ, max)
    ensures forall code :: Fits(InitiateShutdown(e, code).outQ, max)
    ensures forall k :: Fits(Push(e, [PingRequest(k)]).outQ, max)
    ensures !e.closing && e.acceptQ != [] && e.acceptQ[0] in e.entries ==> Fits(Endpoints.Accept(e).outQ, max)
    ensures e.closerQ != [] ==> Fits(CloserStep(e).outQ, max)
    ensures e.outQ != [] ==> Fits(e.outQ[1..], max)
  {
  }

  lemma WriterFits(e: Endpoint, max: u32)
    requires Fits(e.outQ, max)
    ensures Fits(WriterExit(e).outQ, max) && (e.outQ != [] ==> Fits(WriteFailed(e).outQ, max))
  {
    hide Cut;
  }

  predicate IsWrite(ev: Event) {
    ev.act.Use? && ev.act.what.Write?
  }

  /** Only a write queues payload. */
  lemma QueueFits(n: Net, ev: Event, max: u32)
    requires Enabled(n, ev) && Fits(End(n, ev.who).outQ, max)
    requires IsWrite(ev) ==> End(n, ev.who).cfg.maxFrame <= max
    ensures Fits(End(Step(n, ev), ev.who).outQ, max)
  {
    hide UserStep, ReaderStep, Endpoints.Open, InitiateShutdown, Push, Endpoints.Accept, CloserStep, Fits;
    hide WriterExit, WriteFailed;
    var e := End(n, ev.who);
    LocalFits(e, max);
    match ev.act
    case Use(id, what) => UseFits(e, id, what, max);
    case Deliver => ReaderFits(e, Wire(n, ev.who.Peer())[0], max);
    case Move => WriterFits(e, max);
    case Exit => WriterFits(e, max);
    case _ =>
  }

  /** A bound on the frames of `r`, wherever they are, is kept. */
  lemma PipeFits(n: Net, ev: Event, r: Role, max: u32)
    requires Enabled(n, ev) && Fits(Pipe(n, r), max)
    requires IsWrite(ev) && ev.who == r ==> End(n, r).cfg.maxFrame <= max
    ensures Fits(Pipe(Step(n, ev), r), max)
  {
    StepPipes(n, ev);
    if ev.who == r {
      assert forall f :: f in End(n, r).outQ ==> f in Pipe(n, r);
      QueueFits(n, ev, max);
    }
    hide Step;
  }

  // ---------------------------------------------------------------- every run

  ghost predicate AllFit(n: Net) {
    forall r: Role :: Fits(Pipe(n, r), End(n, r).cfg.maxFrame)
  }

  lemma StepFits(n: Net, ev: Event)
    requires Enabled(n, ev) && AllFit(n)
    ensures AllFit(Step(n, ev))
  {
    hide Step, Enabled, Fits;
    StepConfig(n, ev);
    forall r: Role
      ensures Fits(Pipe(Step(n, ev), r), End(Step(n, ev), r).cfg.maxFrame)
    {
      PipeFits(n, ev, r, End(n, r).cfg.maxFrame);
    }
  }

  lemma {:induction false} RunFits(n: Net, t: Trace)
    requires Legal(n, t) && AllFit(n)
    ensures AllFit(Run(n, t))
    decreases |t|
  {
    hide AllFit;
    if t != [] {
      StepFits(n, t[0]);
      RunFits(Step(n, t[0]), t[1..]);
    }
  }

  // ---------------------------------------------------------------- states without an oversized frame

  /** No frame under way is too long for a codec it still has to pass. */
  predicate SmoothFrom(n: Net, r: Role) {
    && (forall f :: f in End(n, r).outQ ==> Passes(End(n, r).cfg, f))
    && (forall f :: f in Pipe(n, r) ==> Passes(End(n, r.Peer()).cfg, f))
  }

  predicate Smooth(n: Net) {
    SmoothFrom(n, Client) && SmoothFrom(n, Server)
  }

  lemma StepSmoothFrom(n: Net, ev: Event, r: Role)
    requires Enabled(n, ev) && SmoothFrom(n, r) && !IsWrite(ev)
    ensures SmoothFrom(Step(n, ev), r)
  {
    hide Step, Enabled;
    StepConfig(n, ev);
    var own, peer := Codec.Limit(End(n, r).cfg.maxFrame), Codec.Limit(End(n, r.Peer()).cfg.maxFrame);
    assert Fits(End(n, r).outQ, own) && Fits(Pipe(n, r), peer);
    if ev.who == r {
      QueueFits(n, ev, own);
    }
    StepPipes(n, ev);
    PipeFits(n, ev, r, peer);
  }

  /** Without a write it stays so. */
  lemma StepSmooth(n: Net, ev: Event)
    requires Enabled(n, ev) && Smooth(n) && !IsWrite(ev)
    ensures Smooth(Step(n, ev))
  {
    hide Step, Enabled, SmoothFrom;
    StepSmoothFrom(n, ev, Client);
    StepSmoothFrom(n, ev, Server);
  }

  // ---------------------------------------------------------------- what every run puts on the wires

  /** What is on a wire has passed the codec of its sender. */
  predicate WiresPass(n: Net) {
    && (forall f :: f in n.up ==> Passes(n.client.cfg, f))
    && (forall f :: f in n.down ==> Passes(n.server.cfg, f))
  }

  lemma StepWires(n: Net, ev: Event)
    requires Enabled(n, ev) && WiresPass(n)
    ensures WiresPass(Step(n, ev))
  {
    StepConfig(n, ev);
    hide Endpoints.Open, UserStep, Endpoints.Accept, InitiateShutdown, ReaderStep, CloserStep, WriteFailed, WriterExit,
      Passes;
  }

  lemma {:induction false} RunWires(n: Net, t: Trace)
    requires Legal(n, t) && WiresPass(n)
    ensures WiresPass(Run(n, t))
    decreases |t|
  {
    hide WiresPass, Step, Enabled;
    if t != [] {
      StepWires(n, t[0]);
      RunWires(Step(n, t[0]), t[1..]);
    }
  }

  /** The longest frame a write can queue. */
  function Longest(cfg: Config): int {
    Min(cfg.maxFrame, cfg.window)
  }

  lemma FlightBound(c: Config, s: Config, n: Net, r: Role, id: u32)
    requires Reachable(c, s, n) && id != 0
    ensures |Payload(Flight(n, r, id))| <= End(n, r).cfg.window
  {
    hide Reachable, NetOk, EndOk, Flight, Bytes, Ends, Handshake;
    Facts(c, s, n, r, id);
  }

  /** In every run, frames are no longer than that, and on the wire no longer than the codec's ceiling either. */
  lemma FramesAreBounded(c: Config, s: Config, n: Net, r: Role, f: Frame)
    requires Reachable(c, s, n) && f in Pipe(n, r)
    ensures Canonical(f) && |PayloadOf(f)| <= Longest(End(n, r).cfg)
    ensures f in Wire(n, r) ==> Passes(End(n, r).cfg, f)
  {
    hide Reachable, PairOk;
    Invariant(c, s, n);
    assert AllFit(n) && WiresPass(n) by { Sized(c, s, n); }
    assert Fits(Pipe(n, r), End(n, r).cfg.maxFrame) && Canonical(f);
    if f.Data? {
      ProjectElements(Pipe(n, r), f.id);
      PayloadBounds(Flight(n, r, f.id), f);
      FlightBound(c, s, n, r, f.id);
    }
  }

  lemma Sized(c: Config, s: Config, n: Net)
    requires Reachable(c, s, n)
    ensures AllFit(n) && WiresPass(n)
  {
    hide Step, Enabled;
    var t: Trace :| Legal(Init(c, s), t) && Run(Init(c, s), t) == n;
    var n0 := Init(c, s);
    assert Pipe(n0, Client) == [] && Pipe(n0, Server) == [];
    RunFits(n0, t);
    RunWires(n0, t);
  }
}
