/** Left to themselves, all tasks of both endpoints fall silent: no reply loops. */
module Termination {
  import opened Base
  import opened Frames
  import opened Ids
  import opened Streams
  import opened Endpoints
  import opened Network
  import opened Guarantees

  /** Steps that tasks take on their own: no user call and no keepalive tick. */
  predicate Autonomous(act: Act) {
    act.Move? || act.Exit? || act.Deliver? || act.Collect?
  }

  /** A frame that may provoke an answer weighs more than any answer. */
  function Weight(f: Frame): nat {
    match f
    case Data(_, flags, _) => if flags.rst && !flags.syn then 1 else 2
    case Ping(flags, _) => if flags.ack then 1 else 2
    case _ => 1
  }

  function Load(fs: seq<Frame>): nat {
    if fs == [] then 0 else 2 * Weight(fs[0]) + Load(fs[1..])
  }

  lemma {:induction false} LoadAppend(a: seq<Frame>, b: seq<Frame>)
    ensures Load(a + b) == Load(a) + Load(b)
  {
    if a == [] {
      assert a + b == b;
    } else {
      assert (a + b)[1..] == a[1..] + b;
      LoadAppend(a[1..], b);
    }
  }

  lemma LoadOne(f: Frame)
    ensures Load([f]) == 2 * Weight(f)
  {
    assert [f][1..] == [];
  }

  /** Work left in one endpoint: queued frames, closer signals, and the shutdown still to come. */
  function Work(e: Endpoint): nat {
    Load(e.outQ) + |e.outQ| + |e.closerQ| + (if e.outOpen then 1 else 0) + (if e.closing then 0 else 8)
  }

  function Potential(n: Net): nat {
    Work(n.client) + Work(n.server) + Load(n.up) + Load(n.down)
  }

  lemma PushWork(e: Endpoint, fs: seq<Frame>)
    ensures Work(Push(e, fs)) <= Work(e) + Load(fs) + |fs|
  {
    LoadAppend(e.outQ, fs);
  }

  lemma ShutdownWork(e: Endpoint, code: ErrorCode)
    ensures !e.closing ==> Work(InitiateShutdown(e, code)) + 5 <= Work(e)
    ensures Work(InitiateShutdown(e, code)) <= Work(e)
  {
    PushWork(e, [GoAway(code)]);
    LoadOne(GoAway(code));
  }

  lemma ReceiveOutput(en: Entry, flags: Flags, payload: seq<u8>)
    ensures var (o, v) := Receive(en, flags, payload);
            && |o.signals| <= 1 && Load(o.frames) + |o.frames| <= 3
            && (v == Fine ==> o.frames == [] && |o.signals| <= if flags.rst then 1 else 0)
  {
    LoadOne(Rst(en.stream.id));
    var o := Receive(en, flags, payload).0;
    assert o.frames == [] || o.frames == [Rst(en.stream.id)];
  }

  /** Dispatching a frame costs less than the frame weighs, unless it faults. */
  lemma KnownWork(e: Endpoint, id: u32, flags: Flags, payload: seq<u8>)
    ensures var (e1, v) := HandleKnown(e, id, flags, payload);
            && e1.closing == e.closing
            && Work(e1) <= Work(e) + 4
            && (v == Fine ==> Work(e1) < Work(e) + if flags.rst then 2 else 4)
  {
    hide Receive;
    LoadOne(Rst(id));
    PushWork(e, [Rst(id)]);
    if Lookup(e, id) {
      ReceiveOutput(e.entries[id], flags, payload);
      var o := Receive(e.entries[id], flags, payload).0;
      PushWork(Put(e, id, o.entry), o.frames);
    }
  }

  lemma DataWork(e: Endpoint, id: u32, flags: Flags, payload: seq<u8>)
    ensures var (e1, v) := HandleData(e, id, flags, payload);
            && e1.closing == e.closing
            && Work(e1) <= Work(e) + 4
            && (v == Fine ==> Work(e1) < Work(e) + 2 * Weight(Data(id, flags, payload)))
  {
    hide HandleKnown;
    LoadOne(Rst(id));
    PushWork(e, [Rst(id)]);
    KnownWork(e, id, flags, payload);
    var e2 := Put(e, id, Entry(New(id, Remote, e.cfg.window), true, Queued)).(acceptQ := e.acceptQ + [id]);
    KnownWork(e2, id, flags, payload);
  }

  lemma ReaderWork(e: Endpoint, f: Frame)
    requires !e.closing
    ensures Work(ReaderStep(e, f)) < Work(e) + 2 * Weight(f)
  {
    hide HandleData, InitiateShutdown;
    var e1 := Dispatch(e, f).0;
    match f {
      case Data(id, flags, payload) => DataWork(e, id, flags, payload);
      case WindowUpdate(_, _, _) =>
      case Ping(_, k) =>
        PushWork(e, [Pong(k)]);
        LoadOne(Pong(k));
      case GoAway(code) => ShutdownWork(e.(peerGone := true), code);
    }
    ShutdownWork(e1, ProtocolError);
  }

  lemma MoveSpends(n: Net, r: Role)
    requires Enabled(n, Event(r, Move))
    ensures Potential(Step(n, Event(r, Move))) < Potential(n)
  {
    hide InitiateShutdown, Forget, Passes;
    var e := End(n, r);
    if Passes(e.cfg, e.outQ[0]) {
      LoadAppend(Wire(n, r), [e.outQ[0]]);
      LoadOne(e.outQ[0]);
    } else {
      ForgetWork(e, 1);
      ForgetShape(e, 1);
      ShutdownWork(Forget(e, 1), InternalError);
    }
  }

  lemma ExitSpends(e: Endpoint)
    requires e.outOpen
    ensures Work(WriterExit(e)) < Work(e)
  {
    hide Forget;
    ForgetWork(e, |e.outQ|);
    ForgetShape(e, |e.outQ|);
  }

  lemma StepSpends(n: Net, ev: Event)
    requires Enabled(n, ev) && Autonomous(ev.act)
    ensures Potential(Step(n, ev)) < Potential(n)
  {
    hide ReaderStep, InitiateShutdown, WriterExit, Passes;
    var e, p := End(n, ev.who), ev.who.Peer();
    match ev.act
    case Move =>
      assert ev == Event(ev.who, Move);
      MoveSpends(n, ev.who);
    case Deliver =>
      ReaderWork(e, Wire(n, p)[0]);
      ShutdownWork(e, ProtocolError);
    case Exit => ExitSpends(e);
    case Collect =>
  }

  lemma ForgetWork(e: Endpoint, k: nat)
    requires k <= |e.outQ|
    ensures Work(Forget(e, k)) <= Work(e)
  {
    LoadAppend(e.outQ[..k], e.outQ[k..]);
    assert e.outQ[..k] + e.outQ[k..] == e.outQ;
  }

  /**
  In any state, reachable or not, background tasks can take at most `Potential` steps on their own;
  so resets, pings and GoAways are never answered for ever.
  */
  lemma {:induction false} TasksFallSilent(n: Net, t: Trace)
    requires Legal(n, t) && forall ev :: ev in t ==> Autonomous(ev.act)
    ensures |t| <= Potential(n)
    decreases |t|
  {
    hide Potential;
    if t != [] {
      assert t[0] in t;
      assert forall ev :: ev in t[1..] ==> ev in t;
      StepSpends(n, t[0]);
      TasksFallSilent(Step(n, t[0]), t[1..]);
    }
  }

  /** Once silent, an open session has nothing left to send, to dispatch or to clean up. */
  lemma SilenceIsEmpty(n: Net, r: Role)
    requires forall act :: Autonomous(act) ==> !Enabled(n, Event(r, act))
    ensures End(n, r).outOpen ==> End(n, r).outQ == [] && !End(n, r).closing
    ensures !End(n, r).closing ==> Wire(n, r.Peer()) == [] && End(n, r).closerQ == []
  {
    assert !Enabled(n, Event(r, Move)) && !Enabled(n, Event(r, Exit));
    assert !Enabled(n, Event(r, Deliver)) && !Enabled(n, Event(r, Collect));
  }

  /**
  So once all tasks are silent, everything written on a registered stream has been read or can
  be read, and the window of its writer is split between the two ends.
  */
  lemma SilenceMeansDelivered(c: Config, s: Config, n: Net, r: Role, id: u32)
    requires Reachable(c, s, n) && id in End(n, r).entries && id in End(n, r.Peer()).entries
    requires forall who: Role, act :: Autonomous(act) ==> !Enabled(n, Event(who, act))
    requires End(n, r).entries[id].registered
    ensures StreamAt(n, r.Peer(), id).log.kept == StreamAt(n, r, id).log.read + StreamAt(n, r, id).buffer
    ensures !End(n, r.Peer()).closing ==> StreamAt(n, r.Peer(), id).log.kept == StreamAt(n, r.Peer(), id).log.wrote
    ensures End(n, r.Peer()).entries[id].registered ==>
              StreamAt(n, r.Peer(), id).tx.credit + |StreamAt(n, r, id).buffer| + StreamAt(n, r, id).rx.pending
              == End(n, r.Peer()).cfg.window
  {
    hide Reachable;
    var p := r.Peer();
    Invariant(c, s, n);
    assert EndOk(End(n, r)) && EndOk(End(n, p));
    SilenceIsEmpty(n, r);
    SilenceIsEmpty(n, p);
    assert Pipe(n, p) == [] && Flight(n, p, id) == [];
    OrderedDelivery(c, s, n, r, id);
    if End(n, p).entries[id].registered {
      assert Pipe(n, r) == [] && Flight(n, r, id) == [];
      CreditConservation(c, s, n, p, id);
    }
  }
}
