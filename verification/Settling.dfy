/**
Two open sessions left to their tasks come to rest, and still open: the tasks can always be run in
an order in which nobody is accused, if and only if no frame under way is too long for a codec. Needed are two
facts about every run, proved first: a stream that is reset or dropped waits for the closer, and a RST under way comes
from a stream that is reset or gone.
*/
module Settling {
  import opened Base
  import opened Frames
  import opened Ids
  import opened Streams
  import opened Endpoints
  import opened Channels
  import opened Pairs
  import opened Network
  import opened Delivering
  import opened Guarantees
  import opened Faults
  import opened Termination
  import opened Drops
  import opened Sizes

  // ---------------------------------------------------------------- every run is tidy

  predicate Doomed(en: Entry) {
    en.stream.state.reset || !en.registered
  }

  /** The registry is about to forget it: the stream is reset, or nobody holds it any more. */
  predicate Leaving(en: Entry) {
    en.stream.state.reset || en.holder == Nobody
  }

  /** The closer knows of every stream that is leaving, and a RST in `pipe` comes from one that is reset or gone. */
  predicate Tidy(e: Endpoint, pipe: seq<Frame>, id: u32) {
    && (Lookup(e, id) && Leaving(e.entries[id]) ==> id in e.closerQ)
    && (Rst(id) in pipe && id in e.entries ==> Doomed(e.entries[id]))
  }

  /** What an old entry may do in any step. */
  predicate Declines(e: Endpoint, e1: Endpoint, id: u32) {
    id in e.entries ==>
      && id in e1.entries
      && (Doomed(e.entries[id]) ==> Doomed(e1.entries[id]))
      && (Lookup(e1, id) && Leaving(e1.entries[id]) ==>
            if Lookup(e, id) && Leaving(e.entries[id])
            then id in e.closerQ ==> id in e1.closerQ else id in e1.closerQ)
  }

  /** One endpoint moves, `fs` being its new frames. */
  lemma TidyMoves(e: Endpoint, e1: Endpoint, pipe: seq<Frame>, fs: seq<Frame>, id: u32)
    requires Tidy(e, pipe, id) && Declines(e, e1, id)
    requires Rst(id) in fs && id in e1.entries ==> Doomed(e1.entries[id])
    requires id !in e.entries && id in e1.entries ==> Rst(id) !in pipe && !Leaving(e1.entries[id])
    ensures Tidy(e1, pipe + fs, id)
  {
  }

  lemma ApplyDeclines(en: Entry, what: UserAct, maxFrame: u32, outOpen: bool)
    requires Allowed(en, what)
    ensures var o := Apply(en, what, maxFrame, outOpen);
            && (Doomed(en) ==> Doomed(o.entry))
            && (o.entry.registered && Leaving(o.entry) && !Leaving(en) ==> en.stream.id in o.signals)
            && (Leaving(en) ==> Leaving(o.entry))
            && (o.entry.registered ==> en.registered)
            && (Rst(en.stream.id) in o.frames ==> Doomed(o.entry))
  {
  }

  lemma UseTidy(e: Endpoint, k: u32, what: UserAct, pipe: seq<Frame>, id: u32)
    requires Tidy(e, pipe, id) && k in e.entries && e.entries[k].stream.id == k && Allowed(e.entries[k], what)
    ensures var fs := if e.outOpen then Apply(e.entries[k], what, e.cfg.maxFrame, e.outOpen).frames else [];
            Tidy(UserStep(e, k, what), pipe + fs, id) && UserStep(e, k, what).outQ == e.outQ + fs
  {
    hide Apply, Allowed, Doomed;
    ApplyDeclines(e.entries[k], what, e.cfg.maxFrame, e.outOpen);
    ApplyFrames(e.entries[k], what, e.cfg.maxFrame, e.outOpen);
    var fs := if e.outOpen then Apply(e.entries[k], what, e.cfg.maxFrame, e.outOpen).frames else [];
    assert e.outQ + [] == e.outQ;
    TidyMoves(e, UserStep(e, k, what), pipe, fs, id);
  }

  lemma LocalTidy(e: Endpoint, pipe: seq<Frame>, id: u32)
    requires Tidy(e, pipe, id)
    ensures !e.closing && e.acceptQ != [] && e.acceptQ[0] in e.entries && e.outOpen ==>
              Tidy(Endpoints.Accept(e), pipe + [Ack(e.acceptQ[0])], id)
    ensures forall code :: Tidy(InitiateShutdown(e, code), pipe + [GoAway(code)], id)
    ensures forall code :: Tidy(InitiateShutdown(e, code), pipe, id)
    ensures forall k :: Tidy(Push(e, [PingRequest(k)]), pipe + [PingRequest(k)], id)
    ensures e.closerQ != [] ==> Tidy(CloserStep(e), pipe, id)
  {
  }

  lemma KnownTidy(e: Endpoint, id: u32, flags: Flags, payload: seq<u8>)
    requires HandleKnown(e, id, flags, payload).1 == Fine && (id in e.entries ==> e.entries[id].stream.id == id)
    ensures var e1 := HandleKnown(e, id, flags, payload).0;
            && Declines(e, e1, id) && (id in e1.entries ==> id in e.entries)
            && (e1.outQ != e.outQ && id in e1.entries ==> Doomed(e1.entries[id]))
  {
    assert e.outQ + [] == e.outQ;
  }

  lemma DispatchSignals(e: Endpoint, f: Frame)
    ensures forall k :: k in e.closerQ ==> k in Dispatch(e, f).0.closerQ
  {
    hide Receive;
  }

  /** Taking any frame without fault, for any stream. */
  lemma DispatchTidy(n: Net, r: Role, id: u32)
    requires NetOk(n) && Enabled(n, Event(r, Deliver)) && !Faulty(n, r)
    requires Tidy(End(n, r), Pipe(n, r), id)
    ensures var e, f := End(n, r), Wire(n, r.Peer())[0];
            Dispatch(e, f).0.outQ == e.outQ + Answer(e, f) && Tidy(Dispatch(e, f).0, Pipe(n, r) + Answer(e, f), id)
  {
    hide NetOk, HandleKnown, Doomed;
    var e, f := End(n, r), Wire(n, r.Peer())[0];
    var e1 := Dispatch(e, f).0;
    assert e.outQ + [] == e.outQ;
    DispatchSignals(e, f);
    if Elsewhere(f, id) {
      DispatchElsewhere(e, f, id);
    } else if f.Data? {
      DataHead(n, r, f);
      OwnTidy(n, r, f);
    } else if f.GoAway? {
      GoAwayTidy(e, f.code, Pipe(n, r), id);
    } else {
      CreditTidy(e, f, Pipe(n, r));
    }
  }

  lemma CreditTidy(e: Endpoint, f: Frame, pipe: seq<Frame>)
    requires f.WindowUpdate? && Tidy(e, pipe, f.id)
    ensures var e1, fs := Dispatch(e, f).0, Answer(e, f);
            e1.outQ == e.outQ + fs && Tidy(e1, pipe + fs, f.id)
  {
    assert e.outQ + [] == e.outQ;
  }

  lemma GoAwayTidy(e: Endpoint, code: ErrorCode, pipe: seq<Frame>, id: u32)
    requires Tidy(e, pipe, id)
    ensures var e1, fs := Dispatch(e, GoAway(code)).0, Answer(e, GoAway(code));
            e1.outQ == e.outQ + fs && Tidy(e1, pipe + fs, id)
  {
    assert e.outQ + [] == e.outQ;
  }

  lemma OwnTidy(n: Net, r: Role, f: Frame)
    requires NetOk(n) && Enabled(n, Event(r, Deliver)) && !Faulty(n, r) && f == Wire(n, r.Peer())[0] && f.Data?
    requires Tidy(End(n, r), Pipe(n, r), f.id)
    ensures var e1, fs := Dispatch(End(n, r), f).0, Answer(End(n, r), f);
            e1.outQ == End(n, r).outQ + fs && Tidy(e1, Pipe(n, r) + fs, f.id)
  {
    hide NetOk, HandleKnown, Doomed, EntriesOk, QueuesOk;
    var e := End(n, r);
    EndIsOk(n, r);
    DataHead(n, r, f);
    assert e.outQ + [] == e.outQ;
    if f.flags.syn {
      SynIsFirst(n, r, f);
      SynFresh(n, r, f.id);
      SynStep(e, f.id);
    } else {
      KnownTidy(e, f.id, f.flags, f.payload);
      KnownQueue(e, f.id, f.flags, f.payload);
    }
    TidyMoves(e, Dispatch(e, f).0, Pipe(n, r), Answer(e, f), f.id);
  }

  lemma KnownQueue(e: Endpoint, id: u32, flags: Flags, payload: seq<u8>)
    ensures e.outQ <= HandleKnown(e, id, flags, payload).0.outQ
  {
  }

  predicate TidyNet(n: Net, id: u32) {
    Tidy(n.client, Pipe(n, Client), id) && Tidy(n.server, Pipe(n, Server), id)
  }

  lemma Shrink(e: Endpoint, e1: Endpoint, pipe: seq<Frame>, pipe1: seq<Frame>, id: u32)
    requires Tidy(e, pipe, id) && e1.entries == e.entries && e1.closerQ == e.closerQ
    requires forall f :: f in pipe1 ==> f in pipe
    ensures Tidy(e1, pipe1, id)
  {
  }

  lemma UseMoverTidy(n: Net, r: Role, k: u32, what: UserAct, id: u32)
    requires NetOk(n) && Enabled(n, Event(r, Use(k, what))) && Tidy(End(n, r), Pipe(n, r), id)
    ensures var m := Step(n, Event(r, Use(k, what))); Tidy(End(m, r), Pipe(m, r), id)
  {
    hide NetOk, Tidy, UserStep, EntriesOk, QueuesOk;
    var e := End(n, r);
    EndIsOk(n, r);
    UseTidy(e, k, what, Pipe(n, r), id);
    var fs := if e.outOpen then Apply(e.entries[k], what, e.cfg.maxFrame, e.outOpen).frames else [];
    Queueing(n, r, UserStep(e, k, what), fs, 0);
  }

  /** The keepalive and the closer task, and `accept`. */
  lemma QuietMoverTidy(n: Net, ev: Event, id: u32)
    requires NetOk(n) && Enabled(n, ev) && Tidy(End(n, ev.who), Pipe(n, ev.who), id)
    requires ev.act.Accept? || ev.act.Probe? || ev.act.Collect?
    ensures Tidy(End(Step(n, ev), ev.who), Pipe(Step(n, ev), ev.who), id)
  {
    hide NetOk, Tidy, Endpoints.Accept, CloserStep, EntriesOk, QueuesOk;
    var r, e, m := ev.who, End(n, ev.who), Step(n, ev);
    EndIsOk(n, r);
    LocalTidy(e, Pipe(n, r), id);
    assert e.outQ + [] == e.outQ && Pipe(n, r) + [] == Pipe(n, r);
    match ev.act
    case Accept =>
      AcceptQueue(e);
      Queueing(n, r, Endpoints.Accept(e), [Ack(e.acceptQ[0])], 0);
    case Probe(k) => Queueing(n, r, Push(e, [PingRequest(k)]), [PingRequest(k)], 0);
    case Collect =>
      CloserQueue(e);
      Queueing(n, r, CloserStep(e), [], 0);
  }

  lemma ForgetTidy(n: Net, r: Role, k: nat, id: u32)
    requires Tidy(End(n, r), Pipe(n, r), id) && k <= |End(n, r).outQ|
    ensures Tidy(End(Forgetting(n, r, k), r), Pipe(Forgetting(n, r, k), r), id)
  {
    ForgetShape(End(n, r), k);
    ForgetPipes(n, r, k);
    hide Forget;
  }

  lemma WriterTidy(n: Net, ev: Event, id: u32)
    requires Enabled(n, ev) && Tidy(End(n, ev.who), Pipe(n, ev.who), id) && (ev.act.Move? || ev.act.Exit?)
    ensures Tidy(End(Step(n, ev), ev.who), Pipe(Step(n, ev), ev.who), id)
  {
    hide Tidy, Forget, InitiateShutdown;
    var r, e, m := ev.who, End(n, ev.who), Step(n, ev);
    if ev.act.Exit? {
      var n1 := Forgetting(n, r, |e.outQ|);
      ForgetTidy(n, r, |e.outQ|, id);
      ForgetShape(e, |e.outQ|);
      Shrink(End(n1, r), End(m, r), Pipe(n1, r), Pipe(m, r), id);
    } else if Passes(e.cfg, e.outQ[0]) {
      assert ev == Event(r, Move);
      MovePipes(n, r);
      Shrink(e, End(m, r), Pipe(n, r), Pipe(m, r), id);
    } else {
      assert ev == Event(r, Move);
      MoveFails(n, r);
      ShutdownTidy(n, r, InternalError, id);
      ForgetTidy(Step(n, Event(r, Close(InternalError))), r, 1, id);
    }
  }

  /** The endpoint that moves is still tidy. */
  lemma MoverTidy(n: Net, ev: Event, id: u32)
    requires NetOk(n) && Enabled(n, ev) && Tidy(End(n, ev.who), Pipe(n, ev.who), id)
    ensures Tidy(End(Step(n, ev), ev.who), Pipe(Step(n, ev), ev.who), id)
  {
    hide NetOk, Tidy, Endpoints.Open, UserStep, Endpoints.Accept, ReaderStep, CloserStep, InitiateShutdown;
    var r := ev.who;
    match ev.act
    case Open => OpenTidy(n, r, id);
    case Use(k, what) => UseMoverTidy(n, r, k, what, id);
    case Close(code) => ShutdownTidy(n, r, code, id);
    case Deliver => ReaderTidy(n, r, id);
    case Move => WriterTidy(n, ev, id);
    case Exit => WriterTidy(n, ev, id);
    case _ => QuietMoverTidy(n, ev, id);
  }

  lemma CloserQueue(e: Endpoint)
    requires e.closerQ != []
    ensures CloserStep(e).outQ == e.outQ + []
  {
    assert e.outQ + [] == e.outQ;
  }

  lemma AcceptQueue(e: Endpoint)
    requires EndOk(e) && !e.closing && e.acceptQ != [] && e.acceptQ[0] in e.entries
    ensures Endpoints.Accept(e).outQ == e.outQ + [Ack(e.acceptQ[0])]
  {
  }

  lemma ShutdownTidy(n: Net, r: Role, code: ErrorCode, id: u32)
    requires Tidy(End(n, r), Pipe(n, r), id)
    ensures var m := With(n, r, InitiateShutdown(End(n, r), code), Wire(n, r), Wire(n, r.Peer()));
            Tidy(End(m, r), Pipe(m, r), id)
  {
    hide Tidy;
    var e := End(n, r);
    LocalTidy(e, Pipe(n, r), id);
    assert e.outQ + [] == e.outQ && Pipe(n, r) + [] == Pipe(n, r);
    Queueing(n, r, InitiateShutdown(e, code), if e.closing || !e.outOpen then [] else [GoAway(code)], 0);
  }

  lemma OpenTidy(n: Net, r: Role, id: u32)
    requires NetOk(n) && Tidy(End(n, r), Pipe(n, r), id)
    ensures var m := Step(n, Event(r, Open)); Tidy(End(m, r), Pipe(m, r), id)
  {
    hide NetOk, EntriesOk, QueuesOk, Doomed;
    var e := End(n, r);
    EndIsOk(n, r);
    if CanOpen(e) {
      OpenFresh(n, r);
      Queueing(n, r, Endpoints.Open(e), [Syn(e.nextId)], 0);
      TidyMoves(e, Endpoints.Open(e), Pipe(n, r), [Syn(e.nextId)], id);
    } else {
      OpenRefused(e);
    }
  }

  lemma ReaderTidy(n: Net, r: Role, id: u32)
    requires NetOk(n) && Enabled(n, Event(r, Deliver)) && Tidy(End(n, r), Pipe(n, r), id)
    ensures var m := Step(n, Event(r, Deliver)); Tidy(End(m, r), Pipe(m, r), id)
  {
    hide NetOk, Tidy, Dispatch, InitiateShutdown, Answer;
    var e, f, m := End(n, r), Wire(n, r.Peer())[0], Step(n, Event(r, Deliver));
    if Oversized(n, r) {
      ShutdownTidy(n, r, ProtocolError, id);
    } else if Faulty(n, r) {
      FaultShuts(n, r);
      ShutdownTidy(n, r, ProtocolError, id);
    } else {
      DispatchTidy(n, r, id);
      TakenPipes(n, r, Dispatch(e, f).0, Answer(e, f), 0);
    }
  }

  lemma StepTidy(n: Net, ev: Event, id: u32)
    requires NetOk(n) && Enabled(n, ev) && TidyNet(n, id)
    ensures TidyNet(Step(n, ev), id)
  {
    hide NetOk, Tidy;
    var r, p, m := ev.who, ev.who.Peer(), Step(n, ev);
    MoverTidy(n, ev, id);
    StepPipes(n, ev);
    assert Tidy(End(m, p), Pipe(m, p), id) by { Shrink(End(n, p), End(m, p), Pipe(n, p), Pipe(m, p), id); }
  }

  lemma {:induction false} RunTidy(n: Net, t: Trace, id: u32)
    requires NetOk(n) && Legal(n, t) && TidyNet(n, id)
    ensures TidyNet(Run(n, t), id)
    decreases |t|
  {
    hide NetOk, TidyNet;
    if t != [] {
      StepKeeps(n, t[0]);
      StepTidy(n, t[0], id);
      RunTidy(Step(n, t[0]), t[1..], id);
    }
  }

  // ---------------------------------------------------------------- coming to rest

  predicate BothOpen(n: Net) {
    !n.client.closing && !n.server.closing && n.client.outOpen && n.server.outOpen
  }

  /** Nothing queued, under way or waiting for a closer. */
  predicate Resting(n: Net) {
    && n.client.closerQ == [] && n.client.outQ == [] && n.up == []
    && n.server.closerQ == [] && n.server.outQ == [] && n.down == []
  }

  ghost predicate AllTidy(n: Net) {
    forall id: u32 :: TidyNet(n, id)
  }

  /** A run of background tasks during which both sessions stay open. */
  predicate Peaceful(n: Net, t: Trace)
    decreases |t|
  {
    BothOpen(n) &&
    (t == [] || (Enabled(n, t[0]) && Autonomous(t[0].act) && Peaceful(Step(n, t[0]), t[1..])))
  }

  lemma {:induction false} PeacefulIsLegal(n: Net, t: Trace)
    requires Peaceful(n, t)
    ensures Legal(n, t) && BothOpen(Run(n, t))
    decreases |t|
  {
    hide Step, Enabled;
    if t != [] {
      PeacefulIsLegal(Step(n, t[0]), t[1..]);
    }
  }

  lemma NoGoAway(n: Net, r: Role)
    requires NetOk(n) && !End(n, r).closing
    ensures forall f :: f in Pipe(n, r) ==> !f.GoAway?
  {
    hide Bytes, Ledger, Handshake, EntriesOk, QueuesOk;
    assert StreamOk(n, Client, 1);
    Flip(n, Client, 1);
    assert Ends(SideOf(End(n, r), 1), SideOf(End(n, r.Peer()), 1), Flight(n, r, 1));
    ProjectElements(Pipe(n, r), 1);
  }

  /** With nothing left to its closer, an endpoint takes any frame of an open peer and stays open. */
  lemma TakesInPeace(n: Net, r: Role)
    requires NetOk(n) && AllTidy(n) && BothOpen(n) && Smooth(n)
    requires End(n, r).closerQ == [] && Wire(n, r.Peer()) != []
    ensures BothOpen(Step(n, Event(r, Deliver)))
  {
    hide NetOk, Dispatch;
    var e, f := End(n, r), Wire(n, r.Peer())[0];
    NoGoAway(n, r.Peer());
    assert f in Pipe(n, r.Peer());
    FaultIff(n, r);
    if f.Data? {
      assert TidyNet(n, f.id);
      if Lookup(e, f.id) {
        OwnResetIsReset(n, r, f.id);
      }
    }
    StaysOpen(e, f);
  }

  lemma OwnResetIsReset(n: Net, r: Role, id: u32)
    requires NetOk(n) && id in End(n, r).entries
    ensures End(n, r).entries[id].stream.log.localReset ==> End(n, r).entries[id].stream.state.reset
  {
    assert EndOk(End(n, r));
    assert EntryOk(End(n, r).entries[id], End(n, r).closing, End(n, r).cfg.window);
  }

  lemma StaysOpen(e: Endpoint, f: Frame)
    requires !f.GoAway?
    ensures Dispatch(e, f).0.closing == e.closing && Dispatch(e, f).0.outOpen == e.outOpen
  {
    hide Receive;
  }

  /** Closers first, then writers, then readers. */
  function Next(n: Net): Event {
    if n.client.closerQ != [] then Event(Client, Collect)
    else if n.server.closerQ != [] then Event(Server, Collect)
    else if n.client.outQ != [] then Event(Client, Move)
    else if n.server.outQ != [] then Event(Server, Move)
    else if n.up != [] then Event(Server, Deliver)
    else Event(Client, Deliver)
  }

  lemma NextInPeace(n: Net)
    requires NetOk(n) && AllTidy(n) && BothOpen(n) && Smooth(n) && !Resting(n)
    ensures Enabled(n, Next(n)) && Autonomous(Next(n).act) && BothOpen(Step(n, Next(n)))
  {
    hide NetOk, AllTidy, ReaderStep;
    if Next(n).act.Deliver? {
      TakesInPeace(n, Next(n).who);
    }
  }

  lemma TidyStep(n: Net, ev: Event)
    requires NetOk(n) && AllTidy(n) && Enabled(n, ev)
    ensures AllTidy(Step(n, ev))
  {
    hide NetOk, TidyNet, Step, Enabled;
    forall id: u32
      ensures TidyNet(Step(n, ev), id)
    {
      StepTidy(n, ev, id);
    }
  }

  /** Left to their tasks in this order, two open sessions come to rest open. */
  lemma {:induction false} Settle(n: Net) returns (t: Trace)
    requires NetOk(n) && AllTidy(n) && BothOpen(n) && Smooth(n)
    ensures Peaceful(n, t) && Legal(n, t)
    ensures NetOk(Run(n, t)) && AllTidy(Run(n, t)) && BothOpen(Run(n, t)) && Resting(Run(n, t)) && Smooth(Run(n, t))
    decreases Potential(n)
  {
    hide NetOk, AllTidy, Step, Enabled, Next, Potential, Resting, Smooth;
    if Resting(n) {
      t := [];
    } else {
      NextInPeace(n);
      StepKeeps(n, Next(n));
      StepSmooth(n, Next(n));
      TidyStep(n, Next(n));
      StepSpends(n, Next(n));
      var rest := Settle(Step(n, Next(n)));
      t := [Next(n)] + rest;
      assert t[1..] == rest;
    }
  }

  lemma ReaderQueue(e: Endpoint, f: Frame)
    ensures e.outQ <= ReaderStep(e, f).outQ
  {
    hide HandleKnown;
    if f.Data? {
      var k := f.id;
      KnownQueue(e, k, f.flags, f.payload);
      var e2 := Put(e, k, Entry(New(k, Remote, e.cfg.window), true, Queued)).(acceptQ := e.acceptQ + [k]);
      KnownQueue(e2, k, f.flags, f.payload);
    }
  }

  /** Frames wait in line, and an endpoint that stays open only adds to its own. */
  lemma PipesFlow(n: Net, ev: Event)
    requires Enabled(n, ev) && Autonomous(ev.act) && BothOpen(n) && BothOpen(Step(n, ev))
    ensures var m, r, p := Step(n, ev), ev.who, ev.who.Peer();
            && (forall f :: f in Pipe(n, r) ==> f in Pipe(m, r))
            && (forall f :: f in End(n, r).outQ ==> f in End(m, r).outQ || (ev.act.Move? && f == End(n, r).outQ[0]))
            && (forall f :: f in Pipe(n, p) ==> f in Pipe(m, p) || (ev.act.Deliver? && f == Wire(n, p)[0]))
  {
    hide ReaderStep, CloserStep;
    var m, r, p, e := Step(n, ev), ev.who, ev.who.Peer(), End(n, ev.who);
    match ev.act
    case Move => MovePipes(n, r);
    case Deliver =>
      ReaderQueue(e, Wire(n, p)[0]);
      assert Pipe(n, p) == [Wire(n, p)[0]] + Pipe(m, p);
    case Collect => CloserQueue(e);
    case _ =>
  }

  /** A frame whose turn leaves both sessions open was not too long. */
  lemma WasSmooth(n: Net, ev: Event)
    requires Enabled(n, ev) && Autonomous(ev.act) && BothOpen(n) && BothOpen(Step(n, ev)) && Smooth(Step(n, ev))
    ensures Smooth(n)
  {
    StepConfig(n, ev);
    StepPipes(n, ev);
    PipesFlow(n, ev);
    OpenPasses(n, ev);
    hide Step, Enabled, Passes;
  }

  lemma OpenPasses(n: Net, ev: Event)
    requires Enabled(n, ev) && BothOpen(n) && BothOpen(Step(n, ev))
    ensures ev.act.Move? ==> End(n, ev.who).outQ != [] && Passes(End(n, ev.who).cfg, End(n, ev.who).outQ[0])
    ensures ev.act.Deliver? ==>
              Wire(n, ev.who.Peer()) != [] && Passes(End(n, ev.who).cfg, Wire(n, ev.who.Peer())[0])
  {
  }

  lemma {:induction false} OnlySmoothSettles(n: Net, t: Trace)
    requires Peaceful(n, t) && Legal(n, t) && Resting(Run(n, t))
    ensures Smooth(n)
    decreases |t|
  {
    hide Step, Enabled, Smooth, Resting;
    if t == [] {
      RestingIsSmooth(n);
    } else {
      assert BothOpen(Step(n, t[0]));
      OnlySmoothSettles(Step(n, t[0]), t[1..]);
      WasSmooth(n, t[0]);
    }
  }

  lemma RestingIsSmooth(n: Net)
    requires Resting(n)
    ensures Smooth(n)
  {
    assert Pipe(n, Client) == [] && Pipe(n, Server) == [];
  }

  /**
  In every run: two open sessions can be brought to rest by their background tasks alone, and stay
  open, if and only if no frame under way is too long for a codec it still has to pass.
  */
  lemma SettlesIff(c: Config, s: Config, n: Net)
    requires Reachable(c, s, n) && BothOpen(n)
    ensures (exists t: Trace :: Peaceful(n, t) && Legal(n, t) && Resting(Run(n, t))) <==> Smooth(n)
  {
    hide NetOk, AllTidy, Step, Enabled, Smooth, Resting;
    if Smooth(n) {
      var t0: Trace :| Legal(Init(c, s), t0) && Run(Init(c, s), t0) == n;
      ReachableTidy(c, s, t0);
      var t := Settle(n);
      assert Peaceful(n, t) && Legal(n, t) && Resting(Run(n, t));
    }
    if t: Trace :| Peaceful(n, t) && Legal(n, t) && Resting(Run(n, t)) {
      OnlySmoothSettles(n, t);
    }
  }

  lemma ReachableTidy(c: Config, s: Config, t: Trace)
    requires ValidConfig(c) && ValidConfig(s) && Legal(Init(c, s), t)
    ensures NetOk(Run(Init(c, s), t)) && AllTidy(Run(Init(c, s), t))
  {
    hide NetOk, TidyNet;
    InitOk(c, s);
    RunKeeps(Init(c, s), t);
    forall id: u32
      ensures TidyNet(Run(Init(c, s), t), id)
    {
      StartsTidy(c, s, id);
      RunTidy(Init(c, s), t, id);
    }
  }

  /**
  Nothing leaks: in every run, a stream that is registered in an open session is held and not reset, or the closer is
  about to remove it. So once the closer is idle the registry holds exactly streams in use.
  */
  lemma NothingLeaks(c: Config, s: Config, n: Net, r: Role, id: u32)
    requires Reachable(c, s, n) && Lookup(End(n, r), id)
    ensures id in End(n, r).closerQ || (End(n, r).entries[id].holder != Nobody && !StreamAt(n, r, id).state.reset)
  {
    hide NetOk, Step, Enabled;
    var t: Trace :| Legal(Init(c, s), t) && Run(Init(c, s), t) == n;
    ReachableTidy(c, s, t);
    assert TidyNet(n, id);
  }

  lemma StartsTidy(c: Config, s: Config, id: u32)
    ensures TidyNet(Init(c, s), id)
  {
    assert Pipe(Init(c, s), Client) == [] && Pipe(Init(c, s), Server) == [];
  }

  // ---------------------------------------------------------------- what tasks leave alone

  /** What belongs to the users: who holds the stream, what they wrote and what they read. */
  predicate SameUser(en: Entry, en1: Entry) {
    && en1.holder == en.holder
    && en1.stream.log.wrote == en.stream.log.wrote && en1.stream.log.read == en.stream.log.read
    && |en1.stream.log.kept| <= |en.stream.log.kept|
    && (en.stream.state.reset ==> en1.stream.state.reset) && (en1.registered ==> en.registered)
    && (en.stream.acked ==> en1.stream.acked)
  }

  lemma KnownSameUser(e: Endpoint, k: u32, flags: Flags, payload: seq<u8>, id: u32)
    requires id in e.entries
    ensures var e1 := HandleKnown(e, k, flags, payload).0; id in e1.entries && SameUser(e.entries[id], e1.entries[id])
  {
    hide Receive;
    if Lookup(e, k) {
      ReceiveSameUser(e.entries[k], flags, payload);
    }
  }

  lemma ReceiveSameUser(en: Entry, flags: Flags, payload: seq<u8>)
    ensures SameUser(en, Receive(en, flags, payload).0.entry)
  {
  }

  lemma DispatchSameUser(e: Endpoint, f: Frame, id: u32)
    requires id in e.entries && (f.Data? && f.flags.syn ==> f.id !in e.entries)
    ensures var e1 := Dispatch(e, f).0; id in e1.entries && SameUser(e.entries[id], e1.entries[id])
  {
    hide HandleKnown;
    if f.Data? {
      var k := f.id;
      KnownSameUser(e, k, f.flags, f.payload, id);
      var e2 := Put(e, k, Entry(New(k, Remote, e.cfg.window), true, Queued)).(acceptQ := e.acceptQ + [k]);
      KnownSameUser(e2, k, f.flags, f.payload, id);
    }
  }

  lemma WriterSameUser(e: Endpoint, id: u32)
    requires id in e.entries
    ensures id in WriterExit(e).entries && SameUser(e.entries[id], WriterExit(e).entries[id])
    ensures e.outQ != [] ==> id in WriteFailed(e).entries && SameUser(e.entries[id], WriteFailed(e).entries[id])
  {
    hide Cut;
  }

  lemma TaskSameUser(n: Net, ev: Event, r: Role, id: u32)
    requires NetOk(n) && Enabled(n, ev) && Autonomous(ev.act) && id in End(n, r).entries
    ensures id in End(Step(n, ev), r).entries && SameUser(End(n, r).entries[id], End(Step(n, ev), r).entries[id])
  {
    hide NetOk, Dispatch, WriteFailed, WriterExit;
    if ev.who == r && (ev.act.Move? || ev.act.Exit?) {
      WriterSameUser(End(n, r), id);
    } else if ev.who == r && ev.act.Deliver? {
      var e, f := End(n, r), Wire(n, r.Peer())[0];
      if f.Data? && f.flags.syn {
        SynIsFirst(n, r, f);
      }
      DispatchSameUser(e, f, id);
    }
  }
}
