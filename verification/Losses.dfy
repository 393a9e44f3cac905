/** Which drops lose data: exactly those made while the read half is open and the peer has bytes left to read. */
module Losses {
  import opened Base
  import opened Frames
  import opened Ids
  import opened Streams
  import opened Endpoints
  import opened Channels
  import opened Pairs
  import opened Network
  import opened Delivering
  import opened Guarantees
  import opened Termination
  import opened Scenarios
  import opened Drops
  import opened Settling
  import opened Sizes

  /** Nobody lets go of stream `id`: no reset, no drop, no timeout of its `open`. */
  predicate Keeps(t: Trace, id: u32) {
    forall ev :: ev in t && On(ev, id) ==> !ev.act.what.Reset? && !ev.act.what.Drop? && !ev.act.what.OpenTimeout?
  }

  /** The user at `p` holds the stream and has not read all that was written for it, and never will: it is reset. */
  predicate Lost(n: Net, p: Role, id: u32) {
    && id in End(n, p).entries && id in End(n, p.Peer()).entries
    && End(n, p).entries[id].holder == User && StreamAt(n, p, id).state.reset
    && StreamAt(n, p, id).log.read != StreamAt(n, p.Peer(), id).log.wrote
  }

  ghost predicate CanLose(n: Net, p: Role, id: u32) {
    exists t: Trace :: Legal(n, t) && Keeps(t, id) && Lost(Run(n, t), p, id)
  }

  // ---------------------------------------------------------------- building the run

  /** `m` follows `n` without anybody letting go of the stream, and is as sound as `n` was. */
  ghost predicate Goes(n: Net, m: Net, id: u32) {
    && NetOk(m) && AllTidy(m) && BothOpen(m) && Smooth(m)
    && exists t: Trace :: Legal(n, t) && Keeps(t, id) && Run(n, t) == m
  }

  lemma GoesOn(n: Net, m: Net, k: Net, id: u32)
    requires Goes(n, m, id) && Goes(m, k, id)
    ensures Goes(n, k, id)
  {
    hide NetOk, AllTidy;
    var t: Trace :| Legal(n, t) && Keeps(t, id) && Run(n, t) == m;
    var u: Trace :| Legal(m, u) && Keeps(u, id) && Run(m, u) == k;
    RunConcat(n, t, u);
    assert Keeps(t + u, id);
  }

  lemma GoesStep(n: Net, ev: Event, id: u32)
    requires NetOk(n) && AllTidy(n) && Smooth(n) && Enabled(n, ev) && BothOpen(Step(n, ev)) && Keeps([ev], id)
    requires !IsWrite(ev)
    ensures Goes(n, Step(n, ev), id)
  {
    hide NetOk, AllTidy, Step, Enabled, Smooth;
    StepKeeps(n, ev);
    StepSmooth(n, ev);
    TidyStep(n, ev);
    OneEvent(n, ev);
  }

  lemma Rest(n: Net, id: u32) returns (m: Net, t: Trace)
    requires NetOk(n) && AllTidy(n) && BothOpen(n) && Smooth(n)
    ensures Goes(n, m, id) && Resting(m) && Peaceful(n, t) && Legal(n, t) && Run(n, t) == m
  {
    hide NetOk, AllTidy, Step, Enabled;
    t := Settle(n);
    m := Run(n, t);
    PeacefulKeeps(n, t, id);
  }

  lemma {:induction false} PeacefulKeeps(n: Net, t: Trace, id: u32)
    requires Peaceful(n, t)
    ensures Keeps(t, id)
    decreases |t|
  {
    hide Step, Enabled;
    if t != [] {
      PeacefulKeeps(Step(n, t[0]), t[1..], id);
      assert forall ev :: ev in t ==> ev == t[0] || ev in t[1..];
    }
  }

  // ---------------------------------------------------------------- the closer has run

  /** Everything but the closer of `r` stands still. */
  predicate OnlyCollected(n: Net, m: Net, r: Role, id: u32) {
    && End(m, r.Peer()) == End(n, r.Peer()) && Pipe(m, r) == Pipe(n, r) && Pipe(m, r.Peer()) == Pipe(n, r.Peer())
    && (id in End(m, r).entries ==> id in End(n, r).entries)
    && (id in End(n, r).entries ==> id in End(m, r).entries && SameUser(End(n, r).entries[id], End(m, r).entries[id]))
  }

  lemma CollectOnce(n: Net, r: Role, id: u32)
    requires NetOk(n) && AllTidy(n) && BothOpen(n) && Smooth(n) && End(n, r).closerQ != []
    ensures Enabled(n, Event(r, Collect))
    ensures var m := Step(n, Event(r, Collect));
            && Goes(n, m, id) && OnlyCollected(n, m, r, id) && End(m, r).closerQ == End(n, r).closerQ[1..]
            && (End(n, r).closerQ[0] == id && id in End(m, r).entries ==> !End(m, r).entries[id].registered)
  {
    hide NetOk, AllTidy, Goes;
    GoesStep(n, Event(r, Collect), id);
    var m := Step(n, Event(r, Collect));
    assert Wire(m, Client) == Wire(n, Client) && Wire(m, Server) == Wire(n, Server);
    assert End(m, r).outQ == End(n, r).outQ;
  }

  lemma {:induction false} CollectAll(n: Net, r: Role, id: u32) returns (m: Net)
    requires NetOk(n) && AllTidy(n) && BothOpen(n) && Smooth(n)
    ensures Goes(n, m, id) && OnlyCollected(n, m, r, id)
    ensures id in End(n, r).closerQ && id in End(m, r).entries ==> !End(m, r).entries[id].registered
    decreases |End(n, r).closerQ|
  {
    hide NetOk, AllTidy, Step, Enabled, BothOpen;
    if End(n, r).closerQ == [] {
      m := n;
      var none: Trace := [];
      assert Legal(n, none) && Keeps(none, id) && Run(n, none) == n;
    } else {
      CollectOnce(n, r, id);
      var n1 := Step(n, Event(r, Collect));
      m := CollectAll(n1, r, id);
      GoesOn(n, n1, m, id);
      assert End(n, r).closerQ == [End(n, r).closerQ[0]] + End(n1, r).closerQ;
    }
  }

  // ---------------------------------------------------------------- what follows

  /** Gone at `r`, and a FIN of the peer, or the RST it draws, is on its way. */
  predicate Sealed(n: Net, r: Role, id: u32) {
    var e, p := End(n, r), End(n, r.Peer());
    && Frozen(e, id) && id in p.entries && p.entries[id].holder == User
    && (|| p.entries[id].stream.state.reset
        || (p.entries[id].registered && (Fin(id) in Pipe(n, r.Peer()) || Rst(id) in Pipe(n, r))))
  }

  /** The stray FIN draws a RST. */
  lemma FinDrawsRst(n: Net, r: Role, id: u32)
    requires NetOk(n) && BothOpen(n) && Frozen(End(n, r), id) && Wire(n, r.Peer()) != []
    requires Wire(n, r.Peer())[0] == Fin(id)
    ensures Rst(id) in Pipe(Step(n, Event(r, Deliver)), r)
  {
    hide NetOk;
    DataHead(n, r, Fin(id));
    assert Rst(id) in ReaderStep(End(n, r), Fin(id)).outQ;
  }

  lemma RstResets(n: Net, p: Role, id: u32)
    requires NetOk(n) && BothOpen(n) && Lookup(End(n, p), id) && Wire(n, p.Peer()) != []
    requires Wire(n, p.Peer())[0] == Rst(id)
    ensures var m := Step(n, Event(p, Deliver)); id in End(m, p).entries && StreamAt(m, p, id).state.reset
  {
    hide NetOk;
    DataHead(n, p, Rst(id));
  }

  /** A held stream that is not reset stays registered while its session is open. */
  lemma StaysRegistered(n: Net, p: Role, id: u32)
    requires NetOk(n) && !End(n, p).closing && id in End(n, p).entries && Live(End(n, p).entries[id])
    ensures StreamAt(n, p, id).state.reset || End(n, p).entries[id].registered
  {
    assert EndOk(End(n, p));
    assert EntryOk(End(n, p).entries[id], End(n, p).closing, End(n, p).cfg.window);
  }

  lemma Offered(n: Net, ev: Event)
    requires Enabled(n, ev) && ev.act.Deliver?
    ensures Wire(n, ev.who.Peer()) != []
  {
  }

  lemma StepSealed(n: Net, ev: Event, r: Role, id: u32)
    requires NetOk(n) && Enabled(n, ev) && Autonomous(ev.act) && BothOpen(n) && BothOpen(Step(n, ev))
    requires Sealed(n, r, id)
    ensures Sealed(Step(n, ev), r, id)
  {
    hide NetOk, Step, Enabled;
    var m, p := Step(n, ev), r.Peer();
    StepKeeps(n, ev);
    StepFrozen(n, ev, r, id);
    TaskSameUser(n, ev, p, id);
    StaysRegistered(m, p, id);
    PipesFlow(n, ev);
    if ev.act.Deliver? {
      Offered(n, ev);
    }
    if ev == Event(r, Deliver) && Wire(n, p)[0] == Fin(id) {
      FinDrawsRst(n, r, id);
    }
    if ev == Event(p, Deliver) && Wire(n, r)[0] == Rst(id) && Lookup(End(n, p), id) {
      RstResets(n, p, id);
    }
  }

  lemma {:induction false} PeacefulSealed(n: Net, t: Trace, r: Role, id: u32)
    requires NetOk(n) && Peaceful(n, t) && Legal(n, t) && Sealed(n, r, id)
    ensures Sealed(Run(n, t), r, id)
    decreases |t|
  {
    hide NetOk, Step, Enabled, Sealed, BothOpen;
    if t != [] {
      assert BothOpen(Step(n, t[0]));
      StepKeeps(n, t[0]);
      StepSealed(n, t[0], r, id);
      PeacefulSealed(Step(n, t[0]), t[1..], r, id);
    }
  }

  lemma {:induction false} PeacefulSameUser(n: Net, t: Trace, r: Role, id: u32)
    requires NetOk(n) && Peaceful(n, t) && Legal(n, t) && id in End(n, r).entries
    ensures id in End(Run(n, t), r).entries && SameUser(End(n, r).entries[id], End(Run(n, t), r).entries[id])
    decreases |t|
  {
    hide NetOk, Step, Enabled, BothOpen;
    if t != [] {
      StepKeeps(n, t[0]);
      TaskSameUser(n, t[0], r, id);
      PeacefulSameUser(Step(n, t[0]), t[1..], r, id);
    }
  }

  lemma SealedLoses(n: Net, r: Role, id: u32) returns (m: Net)
    requires NetOk(n) && AllTidy(n) && BothOpen(n) && Smooth(n) && Sealed(n, r, id)
    requires StreamAt(n, r.Peer(), id).log.read != StreamAt(n, r, id).log.wrote
    ensures Goes(n, m, id) && Lost(m, r.Peer(), id)
  {
    hide NetOk, AllTidy, Step, Enabled;
    var t;
    m, t := Rest(n, id);
    PeacefulSealed(n, t, r, id);
    PeacefulSameUser(n, t, r, id);
    PeacefulSameUser(n, t, r.Peer(), id);
    assert Pipe(m, Client) == [] && Pipe(m, Server) == [];
  }

  // ---------------------------------------------------------------- the peer uses its handle

  /** Gone at `r`; at the peer in a user's hands, with its FIN said or still to be said. */
  lemma FinishLoses(n: Net, r: Role, id: u32) returns (m: Net)
    requires NetOk(n) && AllTidy(n) && BothOpen(n) && Smooth(n) && Frozen(End(n, r), id)
    requires id in End(n, r.Peer()).entries && End(n, r.Peer()).entries[id].holder == User
    requires !StreamAt(n, r.Peer(), id).state.reset
    requires Fin(id) in Pipe(n, r.Peer()) ||
             (StreamAt(n, r.Peer(), id).state.writeOpen && !StreamAt(n, r.Peer(), id).finSent)
    requires StreamAt(n, r.Peer(), id).log.read != StreamAt(n, r, id).log.wrote
    ensures Goes(n, m, id) && Lost(m, r.Peer(), id)
  {
    hide NetOk, AllTidy, Lost;
    var p := r.Peer();
    StaysRegistered(n, p, id);
    if Fin(id) in Pipe(n, p) {
      m := SealedLoses(n, r, id);
    } else {
      var n1 := FinishStep(n, p, id);
      m := SealedLoses(n1, r, id);
      GoesOn(n, n1, m, id);
    }
  }

  lemma FinishStep(n: Net, p: Role, id: u32) returns (m: Net)
    requires NetOk(n) && AllTidy(n) && BothOpen(n) && Smooth(n)
    requires id in End(n, p).entries && End(n, p).entries[id].holder == User
    requires var x := StreamAt(n, p, id); !x.state.reset && x.state.writeOpen && !x.finSent
    ensures Goes(n, m, id) && End(m, p.Peer()) == End(n, p.Peer()) && Fin(id) in Pipe(m, p)
    ensures id in End(m, p).entries && SameUser(End(n, p).entries[id], End(m, p).entries[id])
    ensures End(m, p).entries[id].registered == End(n, p).entries[id].registered
  {
    hide NetOk, AllTidy, Goes;
    var ev := Event(p, Use(id, Finish));
    EndIsOk(n, p);
    assert BothOpen(Step(n, ev));
    GoesStep(n, ev, id);
    m := Step(n, ev);
    assert Fin(id) in End(m, p).outQ;
  }

  // ---------------------------------------------------------------- an `open` that has yet to return

  /** Gone at `e`, and the `open` of its peer `p` still waits, or could return, with nothing said on the stream. */
  predicate Waits(e: Endpoint, p: Endpoint, pipe: seq<Frame>, ppipe: seq<Frame>, id: u32) {
    && Frozen(e, id) && id in p.entries && p.entries[id].holder == Opening
    && !p.entries[id].stream.state.reset && p.entries[id].stream.state.writeOpen && !p.entries[id].stream.finSent
    && (forall f :: f in ppipe && f.Data? && f.id == id ==> f.flags.ack || f.flags.rst)
    && Rst(id) !in pipe
    && (p.entries[id].stream.acked || Ack(id) in pipe)
  }

  predicate Waiting(n: Net, r: Role, id: u32) {
    Waits(End(n, r), End(n, r.Peer()), Pipe(n, r), Pipe(n, r.Peer()), id)
  }

  /** Taking a frame without fault, what an endpoint says and does on a stream it holds. */
  predicate Bides(e: Endpoint, e1: Endpoint, f: Frame, fs: seq<Frame>, id: u32) {
    && e1.outQ == e.outQ + fs
    && (Lookup(e, id) ==>
          && Lookup(e1, id)
          && (f != Rst(id) ==> e1.entries[id].stream.state.reset == e.entries[id].stream.state.reset)
          && (f != Rst(id) ==> e1.entries[id].stream.state.writeOpen == e.entries[id].stream.state.writeOpen)
          && e1.entries[id].stream.finSent == e.entries[id].stream.finSent
          && (f == Ack(id) ==> e1.entries[id].stream.acked)
          && (forall g :: g in fs && g.Data? ==> g.id != id))
    && (Frozen(e, id) && (f.Data? && f.id == id ==> f.flags.ack || f.flags.rst) ==> Rst(id) !in fs)
  }

  lemma KnownBides(e: Endpoint, f: Frame)
    requires f.Data? && Canonical(f) && !f.flags.syn && HandleKnown(e, f.id, f.flags, f.payload).1 == Fine
    ensures var e1 := HandleKnown(e, f.id, f.flags, f.payload).0;
            var fs := if e1.outQ == e.outQ then [] else [Rst(f.id)];
            Bides(e, e1, f, fs, f.id)
  {
    assert e.outQ + [] == e.outQ;
  }

  lemma ReaderBides(n: Net, r: Role, id: u32)
    requires NetOk(n) && Enabled(n, Event(r, Deliver)) && BothOpen(Step(n, Event(r, Deliver)))
    requires id in End(n, r).entries
    ensures var e, f := End(n, r), Wire(n, r.Peer())[0];
            exists fs :: Bides(e, ReaderStep(e, f), f, fs, id)
  {
    hide NetOk, HandleKnown, Bides;
    var e, f := End(n, r), Wire(n, r.Peer())[0];
    var e1 := ReaderStep(e, f);
    assert e.outQ + [] == e.outQ;
    assert End(Step(n, Event(r, Deliver)), r) == e1;
    if f.Data? && f.id == id {
      StrayFacts(n, r, f);
      DataHead(n, r, f);
      assert !f.flags.syn by { if f.flags.syn { SynIsFirst(n, r, f); } }
      FineKnown(e, f);
      KnownBides(e, f);
    } else {
      AsideBides(e, f, id);
    }
  }

  lemma FineKnown(e: Endpoint, f: Frame)
    requires f.Data? && f.id != 0 && !f.flags.syn && !ReaderStep(e, f).closing
    ensures HandleKnown(e, f.id, f.flags, f.payload).1 == Fine
    ensures ReaderStep(e, f) == HandleKnown(e, f.id, f.flags, f.payload).0
  {
    hide HandleKnown;
  }

  lemma AsideBides(e: Endpoint, f: Frame, id: u32)
    requires id in e.entries && !ReaderStep(e, f).closing && !(f.Data? && f.id == id) && !f.GoAway?
    ensures exists fs :: Bides(e, ReaderStep(e, f), f, fs, id)
  {
    hide Dispatch;
    var e1 := Dispatch(e, f).0;
    if Elsewhere(f, id) {
      DispatchElsewhere(e, f, id);
      SpeaksElsewhere(e, f, id);
      assert Bides(e, e1, f, Answer(e, f), id);
    } else {
      CreditBides(e, f);
      assert Bides(e, e1, f, [], id);
    }
  }

  lemma CreditBides(e: Endpoint, f: Frame)
    requires f.WindowUpdate? && f.id in e.entries
    ensures Bides(e, Dispatch(e, f).0, f, [], f.id)
  {
    assert e.outQ + [] == e.outQ;
  }

  lemma SpeaksElsewhere(e: Endpoint, f: Frame, id: u32)
    requires Elsewhere(f, id) && Dispatch(e, f).1 == Fine
    ensures forall g :: g in Answer(e, f) && g.Data? ==> g.id != id
  {
    hide HandleData;
    if f.Data? {
      DataElsewhere(e, f.id, f.flags, f.payload, id);
    }
  }

  lemma WaitsHere(e: Endpoint, e1: Endpoint, p: Endpoint, pipe: seq<Frame>, f: Frame, rest: seq<Frame>,
                  fs: seq<Frame>, id: u32)
    requires Waits(e, p, pipe, [f] + rest, id) && Bides(e, e1, f, fs, id) && Frozen(e1, id)
    ensures Waits(e1, p, pipe + fs, rest, id)
  {
    assert f in [f] + rest;
  }

  lemma WaitsThere(e: Endpoint, p: Endpoint, p1: Endpoint, f: Frame, rest: seq<Frame>, ppipe: seq<Frame>,
                   fs: seq<Frame>, id: u32)
    requires Waits(e, p, [f] + rest, ppipe, id) && Bides(p, p1, f, fs, id) && Lookup(p, id)
    requires id in p1.entries && SameUser(p.entries[id], p1.entries[id])
    ensures Waits(e, p1, rest, ppipe + fs, id)
  {
    assert f in [f] + rest;
  }

  lemma DeliverWaiting(n: Net, who: Role, r: Role, id: u32)
    requires NetOk(n) && Enabled(n, Event(who, Deliver)) && BothOpen(n) && BothOpen(Step(n, Event(who, Deliver)))
    requires Waiting(n, r, id) && Lookup(End(n, r.Peer()), id) && Frozen(End(n, r), id)
    ensures Waiting(Step(n, Event(who, Deliver)), r, id)
  {
    hide NetOk, ReaderStep, Bides, Waits;
    var p, q, m := r.Peer(), who.Peer(), Step(n, Event(who, Deliver));
    var e, f := End(n, who), Wire(n, q)[0];
    OpenTakes(n, who);
    StepFrozen(n, Event(who, Deliver), r, id);
    TaskSameUser(n, Event(who, Deliver), p, id);
    ReaderBides(n, who, id);
    var fs :| Bides(e, ReaderStep(e, f), f, fs, id);
    assert ReaderStep(e, f).outQ == e.outQ + fs by { BidesQueue(e, ReaderStep(e, f), f, fs, id); }
    TakenPipes(n, who, ReaderStep(e, f), fs, 0);
    if who == r {
      WaitsHere(e, ReaderStep(e, f), End(n, p), Pipe(n, r), f, Pipe(m, p), fs, id);
    } else {
      WaitsThere(End(n, r), e, ReaderStep(e, f), f, Pipe(m, r), Pipe(n, p), fs, id);
    }
  }

  lemma BidesQueue(e: Endpoint, e1: Endpoint, f: Frame, fs: seq<Frame>, id: u32)
    requires Bides(e, e1, f, fs, id)
    ensures e1.outQ == e.outQ + fs
  {
  }

  /** The same streams, but for the registry, and the same frames on their way. */
  lemma SameWaiting(n: Net, m: Net, r: Role, id: u32)
    requires Waiting(n, r, id) && Frozen(End(m, r), id) && id in End(m, r.Peer()).entries
    requires End(m, r.Peer()).entries[id].stream == End(n, r.Peer()).entries[id].stream
    requires End(m, r.Peer()).entries[id].holder == End(n, r.Peer()).entries[id].holder
    requires Pipe(m, r) == Pipe(n, r) && Pipe(m, r.Peer()) == Pipe(n, r.Peer())
    ensures Waiting(m, r, id)
  {
  }

  lemma MoveOrCollect(n: Net, ev: Event, r: Role, id: u32)
    requires Enabled(n, ev) && (ev.act.Move? || ev.act.Collect?) && BothOpen(Step(n, ev))
    requires Waiting(n, r, id) && Frozen(End(Step(n, ev), r), id)
    ensures Waiting(Step(n, ev), r, id)
  {
    hide Waits;
    var m, e := Step(n, ev), End(n, ev.who);
    assert id in End(n, r.Peer()).entries by { WaitingShape(n, r, id); }
    if ev.act.Move? {
      MovePipes(n, ev.who);
    }
    SameWaiting(n, m, r, id);
  }

  lemma StepWaiting(n: Net, ev: Event, r: Role, id: u32)
    requires NetOk(n) && Enabled(n, ev) && Autonomous(ev.act) && BothOpen(n) && BothOpen(Step(n, ev))
    requires Waiting(n, r, id)
    ensures Waiting(Step(n, ev), r, id)
  {
    hide NetOk, Waiting, Step;
    WaitingShape(n, r, id);
    StepFrozen(n, ev, r, id);
    StaysRegistered(n, r.Peer(), id);
    if ev.act.Deliver? {
      assert ev == Event(ev.who, Deliver);
      DeliverWaiting(n, ev.who, r, id);
    } else {
      MoveOrCollect(n, ev, r, id);
    }
  }

  lemma WaitingShape(n: Net, r: Role, id: u32)
    requires Waiting(n, r, id)
    ensures Frozen(End(n, r), id) && id in End(n, r.Peer()).entries && Live(End(n, r.Peer()).entries[id])
    ensures !StreamAt(n, r.Peer(), id).state.reset
  {
  }

  lemma {:induction false} PeacefulWaiting(n: Net, t: Trace, r: Role, id: u32)
    requires NetOk(n) && Peaceful(n, t) && Legal(n, t) && Waiting(n, r, id)
    ensures Waiting(Run(n, t), r, id)
    decreases |t|
  {
    hide NetOk, Step, Enabled, Waiting, BothOpen;
    if t != [] {
      assert BothOpen(Step(n, t[0]));
      StepKeeps(n, t[0]);
      StepWaiting(n, t[0], r, id);
      PeacefulWaiting(Step(n, t[0]), t[1..], r, id);
    }
  }

  lemma OpenedStep(n: Net, p: Role, id: u32) returns (m: Net)
    requires NetOk(n) && AllTidy(n) && BothOpen(n) && Smooth(n) && id in End(n, p).entries
    requires End(n, p).entries[id].holder == Opening && StreamAt(n, p, id).acked
    ensures Goes(n, m, id) && End(m, p.Peer()) == End(n, p.Peer()) && id in End(m, p).entries
    ensures End(m, p).entries[id] == End(n, p).entries[id].(holder := User)
  {
    hide NetOk, AllTidy, Goes, PollRead, PollWrite, LocalFin, LocalReset, UserDrop;
    var ev := Event(p, Use(id, Opened));
    assert BothOpen(Step(n, ev));
    GoesStep(n, ev, id);
    m := Step(n, ev);
  }

  lemma WaitingLoses(n: Net, r: Role, id: u32) returns (m: Net)
    requires NetOk(n) && AllTidy(n) && BothOpen(n) && Smooth(n) && Waiting(n, r, id)
    requires StreamAt(n, r.Peer(), id).log.read != StreamAt(n, r, id).log.wrote
    ensures Goes(n, m, id) && Lost(m, r.Peer(), id)
  {
    hide NetOk, AllTidy, Lost;
    var n1, t := Rest(n, id);
    PeacefulWaiting(n, t, r, id);
    PeacefulSameUser(n, t, r, id);
    PeacefulSameUser(n, t, r.Peer(), id);
    assert Pipe(n1, Client) == [] && Pipe(n1, Server) == [];
    var n2 := OpenedStep(n1, r.Peer(), id);
    GoesOn(n, n1, n2, id);
    m := FinishLoses(n2, r, id);
    GoesOn(n, n2, m, id);
  }

  // ---------------------------------------------------------------- a drop that is too early

  /** While one end is in a user's hands, the other no longer waits to be accepted. */
  lemma NotQueued(n: Net, r: Role, id: u32)
    requires NetOk(n) && id in End(n, r).entries && End(n, r).entries[id].holder == User
    requires id in End(n, r.Peer()).entries
    ensures End(n, r.Peer()).entries[id].holder != Queued
  {
    hide Dir, QueuesOk;
    EndIsOk(n, r);
    EndIsOk(n, r.Peer());
    assert StreamOk(n, Client, id);
    Flip(n, Client, id);
    assert EntryOk(End(n, r).entries[id], End(n, r).closing, End(n, r).cfg.window);
  }

  /** An `open` still waiting, for a stream the peer knows, has nothing on its way that could be answered. */
  lemma OpenerIsQuiet(n: Net, p: Role, id: u32)
    requires NetOk(n) && id in End(n, p).entries && End(n, p).entries[id].holder == Opening
    requires id in End(n, p.Peer()).entries
    requires Fin(id) !in Pipe(n, p)
    ensures forall f :: f in Pipe(n, p) && f.Data? && f.id == id ==> f.flags.ack || f.flags.rst
  {
    hide NetOk;
    EndIsOk(n, p);
    UnwrittenOpener(n, p, id);
    NothingUnderWay(n, p, id);
    forall f | f in Pipe(n, p) && f.Data? && f.id == id
      ensures f.flags.ack || f.flags.rst
    {
      ProjectElements(Pipe(n, p), id);
      assert f in Flight(n, p, id);
      PayloadBounds(Flight(n, p, id), f);
      NoSynLeft(n, p, id, f);
    }
  }

  lemma NothingUnderWay(n: Net, p: Role, id: u32)
    requires NetOk(n) && id in End(n, p).entries && StreamAt(n, p, id).log.kept == []
    ensures Payload(Flight(n, p, id)) == []
  {
    hide EntriesOk, QueuesOk, Ledger, Ends, Handshake, Flight;
    EndIsOk(n, p);
    assert StreamOk(n, Client, id);
    Flip(n, Client, id);
    assert Bytes(SideOf(End(n, p), id), SideOf(End(n, p.Peer()), id), Flight(n, p, id));
  }

  lemma NoSynLeft(n: Net, p: Role, id: u32, f: Frame)
    requires NetOk(n) && id != 0 && id in End(n, p.Peer()).entries && p == Opener(id) && f in Flight(n, p, id)
    ensures !IsSyn(f) && Canonical(f)
  {
    hide Bytes, Ledger, EntriesOk, QueuesOk;
    assert StreamOk(n, Client, id);
    Flip(n, Client, id);
    assert Handshake(SideOf(End(n, p), id), SideOf(End(n, p.Peer()), id), Flight(n, p, id), Flight(n, p.Peer(), id));
  }

  /** The drop, and then the closer. */
  lemma DropAndCollect(n: Net, r: Role, id: u32) returns (m: Net)
    requires NetOk(n) && AllTidy(n) && BothOpen(n) && Smooth(n) && Enabled(n, Event(r, Use(id, Drop)))
    ensures BothOpen(Step(n, Event(r, Use(id, Drop)))) && NetOk(Step(n, Event(r, Use(id, Drop))))
    ensures AllTidy(Step(n, Event(r, Use(id, Drop)))) && Smooth(Step(n, Event(r, Use(id, Drop))))
    ensures Goes(Step(n, Event(r, Use(id, Drop))), m, id)
    ensures Frozen(End(m, r), id) && StreamAt(m, r, id).log.wrote == StreamAt(n, r, id).log.wrote
    ensures End(m, r.Peer()) == End(n, r.Peer()) && Pipe(m, r.Peer()) == Pipe(n, r.Peer())
    ensures forall f :: f in Pipe(n, r) ==> f in Pipe(m, r)
    ensures forall f :: f in Pipe(m, r) ==> f in Pipe(n, r) || f == Fin(id)
  {
    hide NetOk, AllTidy, Goes;
    var ev := Event(r, Use(id, Drop));
    EndIsOk(n, r);
    StepKeeps(n, ev);
    TidyStep(n, ev);
    StepSmooth(n, ev);
    var m0 := Step(n, ev);
    DropShape(End(n, r), id);
    m := CollectAll(m0, r, id);
  }

  lemma DropShape(e: Endpoint, id: u32)
    requires id in e.entries && e.entries[id].holder == User && e.entries[id].stream.id == id
    ensures var e1 := UserStep(e, id, Drop);
            && id in e1.entries && e1.entries[id].holder == Nobody && id in e1.closerQ
            && e1.entries[id].stream.log == e.entries[id].stream.log
            && (e1.outQ == e.outQ || e1.outQ == e.outQ + [Fin(id)])
  {
    assert e.outQ + [] == e.outQ;
    var o := UserDrop(e.entries[id].stream);
    assert o.signals[|o.signals| - 1] == id;
  }

  /** The drop was too early, and the peer has bytes left to read. */
  lemma DropLoses(n: Net, r: Role, id: u32)
    requires NetOk(n) && AllTidy(n) && BothOpen(n) && Smooth(n) && CivilNet(n, r, id)
    requires Enabled(n, Event(r, Use(id, Drop)))
    requires id in End(n, r.Peer()).entries && Live(End(n, r.Peer()).entries[id])
    requires StreamAt(n, r, id).state.readOpen && StreamAt(n, r.Peer(), id).log.read != StreamAt(n, r, id).log.wrote
    ensures CanLose(Step(n, Event(r, Use(id, Drop))), r.Peer(), id)
  {
    hide NetOk, AllTidy, CivilNet, Lost, Waiting, BothOpen;
    var p, m0 := r.Peer(), Step(n, Event(r, Use(id, Drop)));
    NotQueued(n, r, id);
    var m1 := DropAndCollect(n, r, id);
    var m;
    if End(n, p).entries[id].holder == User {
      FinFacts(n, r, id);
      m := FinishLoses(m1, r, id);
    } else {
      WaitFacts(n, m1, r, id);
      m := WaitingLoses(m1, r, id);
    }
    GoesOn(m0, m1, m, id);
  }

  lemma FinFacts(n: Net, r: Role, id: u32)
    requires NetOk(n) && BothOpen(n) && CivilNet(n, r, id) && Enabled(n, Event(r, Use(id, Drop)))
    requires id in End(n, r.Peer()).entries && Live(End(n, r.Peer()).entries[id]) && StreamAt(n, r, id).state.readOpen
    ensures !StreamAt(n, r.Peer(), id).state.reset
    ensures Fin(id) in Pipe(n, r.Peer()) ||
            (StreamAt(n, r.Peer(), id).state.writeOpen && !StreamAt(n, r.Peer(), id).finSent)
  {
    hide NetOk;
    StaysRegistered(n, r, id);
    FinEndsWriting(n, r.Peer(), id);
  }

  lemma FinEndsWriting(n: Net, p: Role, id: u32)
    requires NetOk(n) && id in End(n, p).entries
    ensures StreamAt(n, p, id).finSent ==> !StreamAt(n, p, id).state.writeOpen
  {
    assert EndOk(End(n, p));
    assert EntryOk(End(n, p).entries[id], End(n, p).closing, End(n, p).cfg.window);
  }

  lemma WaitFacts(n: Net, m: Net, r: Role, id: u32)
    requires NetOk(n) && BothOpen(n) && CivilNet(n, r, id) && Enabled(n, Event(r, Use(id, Drop)))
    requires id in End(n, r.Peer()).entries && End(n, r.Peer()).entries[id].holder == Opening
    requires Frozen(End(m, r), id) && End(m, r.Peer()) == End(n, r.Peer()) && Pipe(m, r.Peer()) == Pipe(n, r.Peer())
    requires forall f :: f in Pipe(n, r) ==> f in Pipe(m, r)
    requires forall f :: f in Pipe(m, r) ==> f in Pipe(n, r) || f == Fin(id)
    ensures Waiting(m, r, id)
  {
    hide NetOk;
    var p := r.Peer();
    UnwrittenOpener(n, p, id);
    EndIsOk(n, r);
    EndIsOk(n, p);
    StaysRegistered(n, p, id);
    FinEndsWriting(n, p, id);
    OpenerIsQuiet(n, p, id);
  }

  // ---------------------------------------------------------------- and one that is not

  lemma {:induction false} KeepsIsPolite(n: Net, t: Trace, id: u32)
    requires Legal(n, t) && Keeps(t, id)
    ensures PoliteRun(n, t, id)
    decreases |t|
  {
    hide Step, Enabled;
    if t != [] {
      assert t[0] in t && forall ev :: ev in t[1..] ==> ev in t;
      KeepsIsPolite(Step(n, t[0]), t[1..], id);
    }
  }

  lemma {:induction false} PoliteConcat(n: Net, t: Trace, u: Trace, id: u32)
    requires Legal(n, t) && PoliteRun(n, t, id) && Legal(Run(n, t), u) && PoliteRun(Run(n, t), u, id)
    ensures Legal(n, t + u) && Run(n, t + u) == Run(Run(n, t), u) && PoliteRun(n, t + u, id)
    decreases |t|
  {
    hide Step, Enabled, PoliteEvent;
    if t == [] {
      assert t + u == u;
    } else {
      assert (t + u)[1..] == t[1..] + u;
      PoliteConcat(Step(n, t[0]), t[1..], u, id);
    }
  }

  /** Reading goes forward, and a stream nobody holds is not written. */
  predicate LogsGrow(en: Entry, en1: Entry) {
    && en.stream.log.read <= en1.stream.log.read
    && (en.holder == Nobody ==>
          && en1.holder == Nobody && en1.stream.log.wrote == en.stream.log.wrote
          && |en1.stream.log.kept| <= |en.stream.log.kept|)
  }

  lemma ApplyLogs(en: Entry, what: UserAct, maxFrame: u32, outOpen: bool)
    requires Allowed(en, what)
    ensures LogsGrow(en, Apply(en, what, maxFrame, outOpen).entry)
  {
  }

  lemma StepLogs(n: Net, ev: Event, q: Role, id: u32)
    requires NetOk(n) && Enabled(n, ev) && id in End(n, q).entries
    ensures id in End(Step(n, ev), q).entries && LogsGrow(End(n, q).entries[id], End(Step(n, ev), q).entries[id])
  {
    hide NetOk, UserStep, ReaderStep, InitiateShutdown, CloserStep;
    if Autonomous(ev.act) {
      TaskSameUser(n, ev, q, id);
    } else if ev.who == q {
      FreshNext(n, q);
      match ev.act
      case Use(k, what) => UseLogs(End(n, q), k, what, id);
      case Accept => QueuedHead(n, q);
      case Close(code) => CloseLogs(End(n, q), code, id);
      case _ =>
    }
  }

  lemma UseLogs(e: Endpoint, k: u32, what: UserAct, id: u32)
    requires k in e.entries && Allowed(e.entries[k], what) && id in e.entries
    ensures id in UserStep(e, k, what).entries && LogsGrow(e.entries[id], UserStep(e, k, what).entries[id])
  {
    hide Apply;
    ApplyLogs(e.entries[k], what, e.cfg.maxFrame, e.outOpen);
  }

  lemma CloseLogs(e: Endpoint, code: ErrorCode, id: u32)
    requires id in e.entries
    ensures id in InitiateShutdown(e, code).entries && LogsGrow(e.entries[id], InitiateShutdown(e, code).entries[id])
  {
  }

  lemma {:induction false} RunLogs(n: Net, t: Trace, q: Role, id: u32)
    requires NetOk(n) && Legal(n, t) && id in End(n, q).entries
    ensures id in End(Run(n, t), q).entries && LogsGrow(End(n, q).entries[id], End(Run(n, t), q).entries[id])
    decreases |t|
  {
    hide NetOk, Step, Enabled;
    if t != [] {
      StepKeeps(n, t[0]);
      StepLogs(n, t[0], q, id);
      RunLogs(Step(n, t[0]), t[1..], q, id);
    }
  }

  /** What a loss tells about the drop before it. */
  lemma LossIsEarly(c: Config, s: Config, t: Trace, r: Role, id: u32)
    requires ValidConfig(c) && ValidConfig(s) && Legal(Init(c, s), t) && PoliteRun(Init(c, s), t, id)
    requires Enabled(Run(Init(c, s), t), Event(r, Use(id, Drop))) && id in End(Run(Init(c, s), t), r.Peer()).entries
    requires BothOpen(Run(Init(c, s), t))
    requires CanLose(Step(Run(Init(c, s), t), Event(r, Use(id, Drop))), r.Peer(), id)
    ensures var n := Run(Init(c, s), t);
            StreamAt(n, r, id).state.readOpen && StreamAt(n, r.Peer(), id).log.read != StreamAt(n, r, id).log.wrote
  {
    hide NetOk, Step, Reachable;
    var n, p, ev := Run(Init(c, s), t), r.Peer(), Event(r, Use(id, Drop));
    var m := Step(n, ev);
    var u: Trace :| Legal(m, u) && Keeps(u, id) && Lost(Run(m, u), p, id);
    if !StreamAt(n, r, id).state.readOpen {
      LateDrop(c, s, t, ev, u, id);
      PoliteStreamsAreNeverReset(c, s, t + ([ev] + u), p, id);
    }
    InitOk(c, s);
    RunKeeps(Init(c, s), t);
    DropLogs(n, u, r, id);
    ReachableOn(c, s, t, ev, u);
    OrderedDelivery(c, s, Run(m, u), p, id);
    KeptAll(n, r, id);
  }

  lemma KeptAll(n: Net, r: Role, id: u32)
    requires NetOk(n) && id in End(n, r).entries && !End(n, r).closing
    ensures StreamAt(n, r, id).log.kept == StreamAt(n, r, id).log.wrote
  {
    assert EndOk(End(n, r));
    assert EntryOk(End(n, r).entries[id], End(n, r).closing, End(n, r).cfg.window);
  }

  lemma ReachableOn(c: Config, s: Config, t: Trace, ev: Event, u: Trace)
    requires ValidConfig(c) && ValidConfig(s) && Legal(Init(c, s), t) && Enabled(Run(Init(c, s), t), ev)
    requires Legal(Step(Run(Init(c, s), t), ev), u)
    ensures Reachable(c, s, Run(Step(Run(Init(c, s), t), ev), u))
  {
    hide Step, Enabled;
    assert ([ev] + u)[1..] == u;
    RunConcat(Init(c, s), t, [ev] + u);
  }

  lemma LateDrop(c: Config, s: Config, t: Trace, ev: Event, u: Trace, id: u32)
    requires Legal(Init(c, s), t) && PoliteRun(Init(c, s), t, id) && Enabled(Run(Init(c, s), t), ev)
    requires PoliteEvent(Run(Init(c, s), t), ev, id) && Legal(Step(Run(Init(c, s), t), ev), u) && Keeps(u, id)
    ensures Legal(Init(c, s), t + ([ev] + u)) && PoliteRun(Init(c, s), t + ([ev] + u), id)
    ensures Run(Init(c, s), t + ([ev] + u)) == Run(Step(Run(Init(c, s), t), ev), u)
  {
    hide Step, Enabled, PoliteEvent;
    var n := Run(Init(c, s), t);
    KeepsIsPolite(Step(n, ev), u, id);
    assert ([ev] + u)[1..] == u;
    PoliteConcat(Init(c, s), t, [ev] + u, id);
  }

  /** From the drop on, the peer's reading only grows and the dropper's writing stays. */
  lemma DropLogs(n: Net, u: Trace, r: Role, id: u32)
    requires NetOk(n) && Enabled(n, Event(r, Use(id, Drop))) && id in End(n, r.Peer()).entries
    requires Legal(Step(n, Event(r, Use(id, Drop))), u)
    ensures var k := Run(Step(n, Event(r, Use(id, Drop))), u);
            && id in End(k, r).entries && id in End(k, r.Peer()).entries
            && StreamAt(k, r, id).log.wrote == StreamAt(n, r, id).log.wrote
            && |StreamAt(k, r, id).log.kept| <= |StreamAt(n, r, id).log.kept|
            && StreamAt(n, r.Peer(), id).log.read <= StreamAt(k, r.Peer(), id).log.read
  {
    hide NetOk, UserStep;
    EndIsOk(n, r);
    StepKeeps(n, Event(r, Use(id, Drop)));
    DropShape(End(n, r), id);
    RunLogs(Step(n, Event(r, Use(id, Drop))), u, r, id);
    RunLogs(Step(n, Event(r, Use(id, Drop))), u, r.Peer(), id);
  }

  /**
  The exact condition. After polite use, with both sessions open and the peer still holding the
  stream, a drop can cost the peer bytes, though nobody resets anything or lets go of the stream
  again, only if it comes before the peer's FIN and before the peer has read everything; and
  then it always can, unless a frame under way is too long for a codec and will end a session.
  */
  lemma DropLosesIff(c: Config, s: Config, t: Trace, r: Role, id: u32)
    requires ValidConfig(c) && ValidConfig(s) && Legal(Init(c, s), t) && PoliteRun(Init(c, s), t, id)
    requires Enabled(Run(Init(c, s), t), Event(r, Use(id, Drop)))
    requires BothOpen(Run(Init(c, s), t))
    requires id in End(Run(Init(c, s), t), r.Peer()).entries && Live(End(Run(Init(c, s), t), r.Peer()).entries[id])
    ensures var n := Run(Init(c, s), t);
            var early := StreamAt(n, r, id).state.readOpen &&
                         StreamAt(n, r.Peer(), id).log.read != StreamAt(n, r, id).log.wrote;
            && (CanLose(Step(n, Event(r, Use(id, Drop))), r.Peer(), id) ==> early)
            && (early && Smooth(n) ==> CanLose(Step(n, Event(r, Use(id, Drop))), r.Peer(), id))
  {
    hide NetOk, CivilNet, CanLose, AllTidy, BothOpen, Step, Smooth;
    var n := Run(Init(c, s), t);
    ReachableTidy(c, s, t);
    InitOk(c, s);
    StartsCivil(c, s, id);
    RunCivil(Init(c, s), t, id);
    Turn(n, Client, r, id);
    if CanLose(Step(n, Event(r, Use(id, Drop))), r.Peer(), id) {
      LossIsEarly(c, s, t, r, id);
    } else if Smooth(n) && StreamAt(n, r, id).state.readOpen &&
              StreamAt(n, r.Peer(), id).log.read != StreamAt(n, r, id).log.wrote {
      DropLoses(n, r, id);
    }
  }
}
