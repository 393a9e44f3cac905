/** When does the reader of one conforming endpoint accuse the other? */
module Faults {
  import opened Base
  import opened Frames
  import opened Ids
  import opened Streams
  import opened Endpoints
  import opened Pairs
  import opened Network
  import opened Delivering
  import opened Guarantees

  /** The next frame for `r` is too long for its codec. */
  predicate Oversized(n: Net, r: Role)
    requires Enabled(n, Event(r, Deliver))
  {
    !Passes(End(n, r).cfg, Wire(n, r.Peer())[0])
  }

  /** On the next frame the reader of `r` shuts down with `ProtocolError`: it cannot decode or not dispatch it. */
  predicate Faulty(n: Net, r: Role)
    requires Enabled(n, Event(r, Deliver))
  {
    Oversized(n, r) || Dispatch(End(n, r), Wire(n, r.Peer())[0]).1 == Fault
  }

  /** The next frame for `r` carries payload for a registered stream that `r`'s own user has reset. */
  predicate HitsOwnReset(n: Net, r: Role)
    requires Enabled(n, Event(r, Deliver))
  {
    var e, f := End(n, r), Wire(n, r.Peer())[0];
    f.Data? && f.payload != [] && Lookup(e, f.id) && e.entries[f.id].stream.log.localReset
  }

  lemma DispatchFaultIff(n: Net, r: Role)
    requires NetOk(n) && Enabled(n, Event(r, Deliver))
    ensures Dispatch(End(n, r), Wire(n, r.Peer())[0]).1 == Fault <==> HitsOwnReset(n, r)
  {
    var e, f := End(n, r), Wire(n, r.Peer())[0];
    if f.Data? {
      DataHead(n, r, f);
      if f.flags.syn {
        SynIsFirst(n, r, f);
        SynStep(e, f.id);
      } else if Lookup(e, f.id) {
        assert EntryOk(e.entries[f.id], e.closing, e.cfg.window);
        if Receive(e.entries[f.id], f.flags, f.payload).1 == Fault {
          FaultKeeps(n, r, f);
        }
      }
    }
  }

  lemma FaultIff(n: Net, r: Role)
    requires NetOk(n) && Enabled(n, Event(r, Deliver))
    ensures Faulty(n, r) <==> Oversized(n, r) || HitsOwnReset(n, r)
  {
    hide NetOk, Dispatch;
    DispatchFaultIff(n, r);
  }

  /**
  Exactly two things make a conforming peer look guilty: a frame longer than this side's codec takes, and
  data still under way to a stream reset on this side.
  */
  lemma FaultsOnlyAfterOwnReset(c: Config, s: Config, n: Net, r: Role)
    requires Reachable(c, s, n) && Enabled(n, Event(r, Deliver))
    ensures Faulty(n, r) <==> Oversized(n, r) || HitsOwnReset(n, r)
  {
    hide Faulty, Oversized, HitsOwnReset;
    Invariant(c, s, n);
    FaultIff(n, r);
  }

  // ---------------------------------------------------------------- runs without reset

  predicate Resets(ev: Event) {
    ev.act.Use? && ev.act.what.Reset?
  }

  predicate NoReset(t: Trace) {
    forall ev :: ev in t ==> !Resets(ev)
  }

  predicate Clean(e: Endpoint) {
    forall id :: id in e.entries ==> !e.entries[id].stream.log.localReset
  }

  predicate CleanNet(n: Net) {
    Clean(n.client) && Clean(n.server)
  }

  lemma ApplyClean(en: Entry, what: UserAct, maxFrame: u32, outOpen: bool)
    requires Allowed(en, what) && !what.Reset? && !en.stream.log.localReset
    ensures !Apply(en, what, maxFrame, outOpen).entry.stream.log.localReset
  {
  }

  lemma ReceiveClean(en: Entry, flags: Flags, payload: seq<u8>)
    requires Receive(en, flags, payload).1 == Fine
    ensures Receive(en, flags, payload).0.entry.stream.log.localReset == en.stream.log.localReset
  {
  }

  lemma KnownClean(e: Endpoint, id: u32, flags: Flags, payload: seq<u8>)
    requires Clean(e) && HandleKnown(e, id, flags, payload).1 == Fine
    ensures Clean(HandleKnown(e, id, flags, payload).0)
  {
    hide Receive;
    if Lookup(e, id) {
      ReceiveClean(e.entries[id], flags, payload);
    }
  }

  lemma DataClean(e: Endpoint, id: u32, flags: Flags, payload: seq<u8>)
    requires Clean(e) && HandleData(e, id, flags, payload).1 == Fine
    ensures Clean(HandleData(e, id, flags, payload).0)
  {
    hide HandleKnown;
    var e2 := Put(e, id, Entry(New(id, Remote, e.cfg.window), true, Queued)).(acceptQ := e.acceptQ + [id]);
    if HandleKnown(e, id, flags, payload).1 == Fine {
      KnownClean(e, id, flags, payload);
    }
    if HandleKnown(e2, id, flags, payload).1 == Fine {
      KnownClean(e2, id, flags, payload);
    }
  }

  lemma DispatchClean(e: Endpoint, f: Frame)
    requires Clean(e) && Dispatch(e, f).1 == Fine
    ensures Clean(Dispatch(e, f).0)
  {
    hide HandleData;
    if f.Data? {
      DataClean(e, f.id, f.flags, f.payload);
    }
  }

  lemma LocalClean(e: Endpoint)
    requires Clean(e)
    ensures Clean(Endpoints.Open(e))
    ensures forall code :: Clean(InitiateShutdown(e, code))
    ensures !e.closing && e.acceptQ != [] && e.acceptQ[0] in e.entries ==> Clean(Endpoints.Accept(e))
    ensures e.closerQ != [] ==> Clean(CloserStep(e))
  {
  }

  lemma ForgetClean(e: Endpoint, k: nat)
    requires Clean(e) && k <= |e.outQ|
    ensures Clean(Forget(e, k))
  {
    hide Cut;
  }

  lemma WriterClean(e: Endpoint)
    requires Clean(e)
    ensures Clean(WriterExit(e)) && (e.outQ != [] ==> Clean(WriteFailed(e)))
  {
    hide Forget, Endpoints.Open, Endpoints.Accept, CloserStep;
    ForgetClean(e, |e.outQ|);
    if e.outQ != [] {
      ForgetClean(e, 1);
      LocalClean(Forget(e, 1));
    }
  }

  lemma DeliverClean(n: Net, r: Role)
    requires NetOk(n) && Enabled(n, Event(r, Deliver)) && CleanNet(n) && !Oversized(n, r)
    ensures !Faulty(n, r) && Clean(ReaderStep(End(n, r), Wire(n, r.Peer())[0]))
  {
    hide NetOk, Dispatch;
    assert Clean(End(n, r));
    FaultIff(n, r);
    DispatchClean(End(n, r), Wire(n, r.Peer())[0]);
  }

  lemma UseClean(e: Endpoint, id: u32, what: UserAct)
    requires Clean(e) && id in e.entries && Allowed(e.entries[id], what) && !what.Reset?
    ensures Clean(UserStep(e, id, what))
  {
    hide Apply;
    ApplyClean(e.entries[id], what, e.cfg.maxFrame, e.outOpen);
  }

  lemma StepClean(n: Net, ev: Event)
    requires NetOk(n) && Enabled(n, ev) && CleanNet(n) && NoReset([ev])
    ensures CleanNet(Step(n, ev))
  {
    hide NetOk, Endpoints.Open, InitiateShutdown, Endpoints.Accept, CloserStep, ReaderStep, UserStep;
    hide WriterExit, WriteFailed;
    var e := End(n, ev.who);
    assert Clean(e);
    match ev.act
    case Deliver =>
      if Oversized(n, ev.who) {
        LocalClean(e);
      } else {
        DeliverClean(n, ev.who);
      }
    case Use(id, what) =>
      assert ev in [ev];
      UseClean(e, id, what);
    case Move => WriterClean(e);
    case Exit => WriterClean(e);
    case _ => LocalClean(e);
  }

  lemma {:induction false} RunClean(n: Net, t: Trace)
    requires NetOk(n) && Legal(n, t) && CleanNet(n) && NoReset(t)
    ensures NetOk(Run(n, t)) && CleanNet(Run(n, t))
    decreases |t|
  {
    hide NetOk, CleanNet;
    if t != [] {
      assert t[0] in t;
      assert NoReset([t[0]]) && NoReset(t[1..]);
      StepKeeps(n, t[0]);
      StepClean(n, t[0]);
      RunClean(Step(n, t[0]), t[1..]);
    }
  }

  /** In a run without `Stream::reset` only an oversized frame makes a reader accuse its peer. */
  lemma HonestPeersNeverFault(c: Config, s: Config, t: Trace, r: Role)
    requires ValidConfig(c) && ValidConfig(s) && Legal(Init(c, s), t) && NoReset(t)
    requires Enabled(Run(Init(c, s), t), Event(r, Deliver))
    ensures Faulty(Run(Init(c, s), t), r) <==> Oversized(Run(Init(c, s), t), r)
  {
    InitOk(c, s);
    RunClean(Init(c, s), t);
    FaultIff(Run(Init(c, s), t), r);
  }
}
