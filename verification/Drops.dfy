/**
Dropping a stream before the peer has finished can cost the peer bytes it already holds
(`Counterexamples.DropCanLoseData`). Here are the calls on one stream that keep it safe, whatever
happens to all other streams: nobody resets it, and a handle is dropped only once its read half has ended.
*/
module Drops {
  import opened Base
  import opened Frames
  import opened Ids
  import opened Streams
  import opened Endpoints
  import opened Channels
  import opened Pairs
  import opened Network
  import opened Delivering
  import opened Guarantees
  import opened Faults
  import opened StreamRuns

  /** What a caller can check before the call. */
  predicate Considerate(en: Entry, what: UserAct) {
    match what
    case Reset => false
    case Drop => !en.stream.state.readOpen
    case _ => true
  }

  /** And no `open` gives up waiting. */
  predicate Polite(en: Entry, what: UserAct) {
    Considerate(en, what) && !what.OpenTimeout?
  }

  /** A call on stream `id`. */
  predicate On(ev: Event, id: u32) {
    ev.act.Use? && ev.act.id == id
  }

  predicate ConsiderateRun(n: Net, t: Trace, id: u32)
    requires Legal(n, t)
    decreases |t|
  {
    t == [] ||
    (&& (On(t[0], id) ==> Considerate(End(n, t[0].who).entries[id], t[0].act.what))
     && ConsiderateRun(Step(n, t[0]), t[1..], id))
  }

  predicate PoliteEvent(n: Net, ev: Event, id: u32)
    requires Enabled(n, ev)
  {
    On(ev, id) ==> Polite(End(n, ev.who).entries[id], ev.act.what)
  }

  predicate PoliteRun(n: Net, t: Trace, id: u32)
    requires Legal(n, t)
    decreases |t|
  {
    t == [] || (PoliteEvent(n, t[0], id) && PoliteRun(Step(n, t[0]), t[1..], id))
  }

  // ---------------------------------------------------------------- the invariant of one stream

  /** A stream nobody holds has seen the peer's end, one that is being opened can be written, and a FIN ends writing. */
  predicate Mannered(en: Entry, closing: bool) {
    && !en.stream.log.localReset
    && (!closing && !en.stream.state.reset ==>
          && (en.holder == Nobody ==> !en.stream.state.readOpen)
          && (en.holder == Opening ==> en.stream.state.writeOpen)
          && (!en.stream.state.writeOpen ==> en.stream.finSent))
  }

  predicate Mild(e: Endpoint, id: u32) {
    id in e.entries ==> Mannered(e.entries[id], e.closing)
  }

  predicate IsReset(e: Endpoint, id: u32) {
    id in e.entries && e.entries[id].stream.state.reset
  }

  predicate SentFin(e: Endpoint, id: u32) {
    id in e.entries && e.entries[id].stream.finSent
  }

  /** The peer's FIN has been taken. */
  predicate GotFin(e: Endpoint, id: u32) {
    id in e.entries && !e.closing && !e.entries[id].stream.state.readOpen && !e.entries[id].stream.state.reset
  }

  /** A FIN has been taken, or would not matter. */
  predicate EndedAt(e: Endpoint, id: u32) {
    e.closing || (id in e.entries && (!e.entries[id].registered || !e.entries[id].stream.state.readOpen))
  }

  /** The stream was opened by the peer and `accept` has handed it out. */
  predicate Accepted(e: Endpoint, id: u32) {
    id in e.entries && !e.role.Owns(id) && e.entries[id].holder != Queued
  }

  /** An ACK has been taken, or would not matter. */
  predicate AckedAt(e: Endpoint, id: u32) {
    e.closing || (id in e.entries && (!e.entries[id].registered || e.entries[id].stream.acked))
  }

  /**
  From `e`, whose undelivered frames are `pipe`, towards `p`: only a refused stream is reset, FIN
  is said once, and neither a FIN nor an ACK gets lost.
  */
  predicate Civil(e: Endpoint, p: Endpoint, pipe: seq<Frame>, id: u32) {
    && (IsReset(e, id) ==> id !in p.entries)
    && (Rst(id) in pipe ==> id !in e.entries)
    && (Fin(id) in pipe ==> SentFin(e, id) && !GotFin(p, id))
    && (GotFin(p, id) ==> SentFin(e, id))
    && multiset(pipe)[Fin(id)] <= 1
    && (Fin(id) in pipe || Ack(id) in pipe ==> id in p.entries)
    && (SentFin(e, id) && !e.closing ==> Fin(id) in pipe || EndedAt(p, id))
    && (Accepted(e, id) && !e.closing ==> Ack(id) in pipe || AckedAt(p, id))
  }

  /** The whole, seen from `r`. */
  predicate CivilNet(n: Net, r: Role, id: u32) {
    var p := r.Peer();
    && Mild(End(n, r), id) && Mild(End(n, p), id)
    && Civil(End(n, r), End(n, p), Pipe(n, r), id)
    && Civil(End(n, p), End(n, r), Pipe(n, p), id)
  }

  // ---------------------------------------------------------------- how an endpoint may move

  /** The stream, from `en` to `en1`: the flags that matter stay, or the session goes down. */
  predicate Eases(en: Entry, en1: Entry, closing: bool) {
    && en1.stream.state.reset == en.stream.state.reset
    && (en.stream.finSent ==> en1.stream.finSent)
    && (en.stream.acked ==> en1.stream.acked)
    && (en1.registered ==> en.registered)
    && (en1.stream.state.readOpen == en.stream.state.readOpen || closing)
  }

  lemma ApplyEases(en: Entry, what: UserAct, maxFrame: u32, outOpen: bool, closing: bool)
    requires Allowed(en, what) && Polite(en, what) && Mannered(en, closing) && (!outOpen ==> closing)
    ensures var o := Apply(en, what, maxFrame, outOpen);
            && Eases(en, o.entry, false) && Mannered(o.entry, closing)
            && (en.holder != Queued ==> o.entry.holder != Queued)
            && (o.entry.stream.finSent && !en.stream.finSent ==> Fin(en.stream.id) in o.frames)
            && (forall f :: f in o.frames ==>
                  f != Rst(en.stream.id) && (f == Fin(en.stream.id) ==> !en.stream.finSent && o.entry.stream.finSent))
  {
  }

  lemma ApplyShort(en: Entry, what: UserAct, maxFrame: u32, outOpen: bool)
    requires Allowed(en, what)
    ensures |Apply(en, what, maxFrame, outOpen).frames| <= 1
  {
  }

  /** A move of `e` that takes no frame of the stream. */
  predicate Moves(e: Endpoint, e1: Endpoint, fs: seq<Frame>, id: u32) {
    && (e.closing ==> e1.closing) && e1.role == e.role
    && (id in e1.entries <==> id in e.entries)
    && (id in e.entries ==> Eases(e.entries[id], e1.entries[id], e1.closing))
    && Mild(e1, id)
    && |fs| <= 1
    && Rst(id) !in fs
    && (Fin(id) in fs ==> !SentFin(e, id) && SentFin(e1, id))
    && (SentFin(e1, id) && !e1.closing ==> SentFin(e, id) || Fin(id) in fs)
    && (Accepted(e1, id) && !e1.closing ==> Accepted(e, id) || Ack(id) in fs)
  }

  lemma MovesCivil(e: Endpoint, e1: Endpoint, p: Endpoint, pipe: seq<Frame>, ppipe: seq<Frame>, fs: seq<Frame>, id: u32)
    requires Moves(e, e1, fs, id) && Civil(e, p, pipe, id) && Civil(p, e, ppipe, id)
    requires Fin(id) in fs || Ack(id) in fs ==> id in p.entries
    ensures Civil(e1, p, pipe + fs, id) && Civil(p, e1, ppipe, id)
  {
    hide Mannered;
    assert multiset(pipe + fs) == multiset(pipe) + multiset(fs);
    if fs != [] {
      assert fs == [fs[0]];
    }
  }

  /** Endpoint `r` moves on its own. */
  lemma LocalCivil(n: Net, r: Role, e1: Endpoint, fs: seq<Frame>, id: u32)
    requires CivilNet(n, r, id) && Moves(End(n, r), e1, fs, id) && e1.outQ == End(n, r).outQ + fs
    requires Fin(id) in fs || Ack(id) in fs ==> id in End(n, r.Peer()).entries
    ensures CivilNet(With(n, r, e1, Wire(n, r), Wire(n, r.Peer())), r, id)
  {
    hide Civil, Mannered;
    Queueing(n, r, e1, fs, 0);
    MovesCivil(End(n, r), e1, End(n, r.Peer()), Pipe(n, r), Pipe(n, r.Peer()), fs, id);
  }

  /** Nothing about the stream changes. */
  lemma AsideMoves(e: Endpoint, e1: Endpoint, fs: seq<Frame>, id: u32)
    requires Mild(e, id) && e1.closing == e.closing && e1.role == e.role && |fs| <= 1
    requires id in e1.entries <==> id in e.entries
    requires id in e.entries ==>
               && e1.entries[id].stream == e.entries[id].stream && e1.entries[id].holder == e.entries[id].holder
               && (e1.entries[id].registered ==> e.entries[id].registered)
    requires Rst(id) !in fs && Fin(id) !in fs
    ensures Moves(e, e1, fs, id)
  {
  }

  lemma UseMoves(e: Endpoint, k: u32, what: UserAct, id: u32)
    requires Mild(e, id) && k in e.entries && e.entries[k].stream.id == k && Allowed(e.entries[k], what)
    requires k == id ==> Polite(e.entries[k], what)
    requires (!e.outOpen ==> e.closing) && e.entries[k].holder != Queued
    ensures var fs := if e.outOpen then Apply(e.entries[k], what, e.cfg.maxFrame, e.outOpen).frames else [];
            Moves(e, UserStep(e, k, what), fs, id) && UserStep(e, k, what).outQ == e.outQ + fs
  {
    hide Apply, Allowed, Mannered, Polite;
    ApplyFrames(e.entries[k], what, e.cfg.maxFrame, e.outOpen);
    ApplyShort(e.entries[k], what, e.cfg.maxFrame, e.outOpen);
    assert e.outQ + [] == e.outQ;
    if k == id {
      ApplyEases(e.entries[k], what, e.cfg.maxFrame, e.outOpen, e.closing);
    }
  }

  lemma AcceptMoves(e: Endpoint, id: u32)
    requires EndOk(e) && Mild(e, id) && !e.closing && e.acceptQ != [] && e.acceptQ[0] in e.entries
    ensures Moves(e, Endpoints.Accept(e), [Ack(e.acceptQ[0])], id)
    ensures Endpoints.Accept(e).outQ == e.outQ + [Ack(e.acceptQ[0])]
  {
    hide EntriesOk, QueuesOk;
  }

  lemma ShutdownMoves(e: Endpoint, code: ErrorCode, id: u32)
    requires Mild(e, id)
    ensures var e1 := InitiateShutdown(e, code);
            var fs := if e.closing || !e.outOpen then [] else [GoAway(code)];
            && Moves(e, e1, fs, id) && e1.outQ == e.outQ + fs
            && (id in e.entries ==>
                  && e1.entries[id].stream.finSent == e.entries[id].stream.finSent
                  && e1.entries[id].holder == e.entries[id].holder
                  && (e1.entries[id].stream.state.readOpen ==> e.entries[id].stream.state.readOpen))
  {
    assert e.outQ + [] == e.outQ;
  }

  lemma CloserMoves(e: Endpoint, id: u32)
    requires Mild(e, id) && e.closerQ != []
    ensures Moves(e, CloserStep(e), [], id) && CloserStep(e).outQ == e.outQ + []
  {
    hide Mannered;
    assert e.outQ + [] == e.outQ;
    AsideMoves(e, CloserStep(e), [], id);
  }

  // ---------------------------------------------------------------- opening

  /** What a fresh id cannot have left behind. */
  lemma OpenFresh(n: Net, r: Role)
    requires NetOk(n) && CanOpen(End(n, r))
    ensures var id := End(n, r).nextId;
            && id !in End(n, r).entries && id !in End(n, r.Peer()).entries
            && (forall f :: f in Pipe(n, r) ==> f != Rst(id) && f != Fin(id))
  {
    hide Dir;
    var id, p := End(n, r).nextId, r.Peer();
    assert EndOk(End(n, r)) && End(n, r).role == r && id != 0 && r == Opener(id);
    assert StreamOk(n, Client, id);
    Flip(n, Client, id);
    ProjectElements(Pipe(n, r), id);
    assert Handshake(SideOf(End(n, r), id), SideOf(End(n, p), id), Flight(n, r, id), Flight(n, p, id));
  }

  lemma OpensCivil(e: Endpoint, e1: Endpoint, p: Endpoint, pipe: seq<Frame>, ppipe: seq<Frame>, id: u32)
    requires Civil(e, p, pipe, id) && Civil(p, e, ppipe, id)
    requires id !in e.entries && id !in p.entries && Rst(id) !in pipe
    requires e1.closing == e.closing && id in e1.entries && e1.entries[id].stream == New(id, Local, e.cfg.window)
    requires e1.role.Owns(id)
    ensures Civil(e1, p, pipe + [Syn(id)], id) && Civil(p, e1, ppipe, id)
  {
    assert multiset(pipe + [Syn(id)]) == multiset(pipe) + multiset([Syn(id)]);
  }

  lemma OpenCivil(n: Net, r: Role, id: u32)
    requires NetOk(n) && CivilNet(n, r, id) && CanOpen(End(n, r))
    ensures CivilNet(Step(n, Event(r, Open)), r, id)
  {
    hide NetOk, Civil, Mannered, EntriesOk, QueuesOk;
    var e, p, k := End(n, r), r.Peer(), End(n, r).nextId;
    var e1 := Endpoints.Open(e);
    OpenFresh(n, r);
    EndIsOk(n, r);
    Queueing(n, r, e1, [Syn(k)], 0);
    if k == id {
      OpensCivil(e, e1, End(n, p), Pipe(n, r), Pipe(n, p), id);
      assert Mild(e1, id) by { FreshMannered(id, e.cfg.window, e.closing); }
    } else {
      AsideMoves(e, e1, [Syn(k)], id);
      LocalCivil(n, r, e1, [Syn(k)], id);
    }
  }

  lemma FreshMannered(id: u32, window: u32, closing: bool)
    ensures Mannered(Entry(New(id, Remote, window), true, Queued), closing)
    ensures Mannered(Entry(New(id, Local, window), true, Opening), closing)
  {
  }

  // ---------------------------------------------------------------- taking a frame

  /** The stream, in an endpoint that takes `f`. */
  predicate Hearkens(en: Entry, en1: Entry, f: Frame, id: u32, closing: bool) {
    && (en.stream.state.reset ==> en1.stream.state.reset)
    && (en1.stream.state.reset ==> en.stream.state.reset || f == Rst(id))
    && en1.stream.finSent == en.stream.finSent && en1.holder == en.holder
    && (en.stream.acked ==> en1.stream.acked)
    && (en1.registered ==> en.registered)
    && (en1.registered && f == Fin(id) ==> !en1.stream.state.readOpen)
    && (en1.registered && f == Ack(id) ==> en1.stream.acked)
    && (en1.stream.state.readOpen ==> en.stream.state.readOpen)
    && (en1.stream.state.readOpen == en.stream.state.readOpen || closing || f == Fin(id) || en1.stream.state.reset)
  }

  /** `e` takes `f` and answers `fs`: the stream is reset only by RST, ends only by FIN and appears only by SYN. */
  predicate Heeds(e: Endpoint, e1: Endpoint, f: Frame, fs: seq<Frame>, id: u32) {
    && (e.closing ==> e1.closing) && e1.role == e.role
    && (id in e.entries ==> id in e1.entries && Hearkens(e.entries[id], e1.entries[id], f, id, e1.closing))
    && (id in e1.entries && id !in e.entries ==>
          f == Syn(id) && e1.entries[id].stream == New(id, Remote, e.cfg.window) && e1.entries[id].holder == Queued)
    && Mild(e1, id)
    && |fs| <= 1
    && Fin(id) !in fs && Ack(id) !in fs
    && (Rst(id) in fs ==> id !in e1.entries)
  }

  lemma HeedsCivil(e: Endpoint, e1: Endpoint, p: Endpoint, pipe: seq<Frame>, f: Frame, rest: seq<Frame>,
                   fs: seq<Frame>, id: u32)
    requires Heeds(e, e1, f, fs, id) && Civil(e, p, pipe, id) && Civil(p, e, [f] + rest, id)
    requires f == Syn(id) ==> Rst(id) !in pipe && !IsReset(p, id)
    ensures Civil(e1, p, pipe + fs, id) && Civil(p, e1, rest, id)
  {
    hide Mannered;
    assert multiset(pipe + fs) == multiset(pipe) + multiset(fs);
    assert multiset([f] + rest) == multiset([f]) + multiset(rest);
    assert f in [f] + rest;
  }

  /** When a SYN arrives, no answer to it has been given. */
  lemma SynFresh(n: Net, r: Role, id: u32)
    requires NetOk(n) && Wire(n, r.Peer()) != [] && Wire(n, r.Peer())[0] == Syn(id)
    ensures id != 0 && id !in End(n, r).entries && !End(n, r).role.Owns(id)
    ensures Rst(id) !in Pipe(n, r)
    ensures id in End(n, r.Peer()).entries && IsReset(End(n, r.Peer()), id) ==> StreamAt(n, r.Peer(), id).log.localReset
  {
    hide Dir;
    var p := r.Peer();
    assert Syn(id) in Pipe(n, p);
    assert Canonical(Syn(id));
    HeadFacts(n, r, id);
    Flip(n, Client, id);
    assert End(n, r).outQ + [] == End(n, r).outQ;
    TakenPipes(n, r, End(n, r), [], id);
    assert IsSyn(Flight(n, p, id)[0]);
    ProjectElements(Pipe(n, r), id);
    assert Handshake(SideOf(End(n, p), id), SideOf(End(n, r), id), Flight(n, p, id), Flight(n, r, id));
  }

  lemma DeliverCivil(n: Net, r: Role, e1: Endpoint, fs: seq<Frame>, id: u32)
    requires NetOk(n) && CivilNet(n, r, id) && Enabled(n, Event(r, Deliver))
    requires Heeds(End(n, r), e1, Wire(n, r.Peer())[0], fs, id) && e1.outQ == End(n, r).outQ + fs
    ensures CivilNet(Taken(n, r, e1), r, id)
  {
    hide NetOk, Civil;
    var p, f, m := r.Peer(), Wire(n, r.Peer())[0], Taken(n, r, e1);
    TakenPipes(n, r, e1, fs, 0);
    if f == Syn(id) {
      SynFresh(n, r, id);
    }
    HeedsCivil(End(n, r), e1, End(n, p), Pipe(n, r), f, Pipe(m, p), fs, id);
  }

  /** A move without a frame is a move with any. */
  lemma MovesHeeds(e: Endpoint, e1: Endpoint, f: Frame, fs: seq<Frame>, id: u32)
    requires Moves(e, e1, fs, id) && Fin(id) !in fs && Ack(id) !in fs && f != Fin(id) && f != Ack(id)
    requires id in e.entries ==>
               && e1.entries[id].stream.finSent == e.entries[id].stream.finSent
               && e1.entries[id].holder == e.entries[id].holder
               && (e1.entries[id].stream.state.readOpen ==> e.entries[id].stream.state.readOpen)
    ensures Heeds(e, e1, f, fs, id)
  {
    hide Mannered;
  }

  // ---------------------------------------------------------------- frame by frame

  /** What is known when a frame of the stream, neither SYN, ACK nor RST, finds it gone. */
  lemma StrayFacts(n: Net, r: Role, f: Frame)
    requires NetOk(n) && Enabled(n, Event(r, Deliver)) && f == Wire(n, r.Peer())[0] && f.Data?
    ensures f in Pipe(n, r.Peer()) && Canonical(f)
    ensures f.id in End(n, r).entries ==>
              && EntryOk(End(n, r).entries[f.id], End(n, r).closing, End(n, r).cfg.window)
              && (PayloadOf(f) != [] ==> !Finished(SideOf(End(n, r), f.id)) && !ResetByPeer(SideOf(End(n, r), f.id)))
  {
    hide NetOk, Receptive, EntryOk;
    DataHead(n, r, f);
    HeadFacts(n, r, f.id);
    assert f in Pipe(n, r.Peer());
  }

  lemma StrayFin(e: Endpoint, p: Endpoint, ppipe: seq<Frame>, f: Frame)
    requires f in ppipe && f.Data? && Canonical(f) && !f.flags.syn && !f.flags.ack && !f.flags.rst
    requires !e.closing && !Lookup(e, f.id) && Mild(e, f.id)
    requires Civil(p, e, ppipe, f.id) && (IsReset(e, f.id) ==> f.id !in p.entries)
    requires f.id in e.entries ==>
               && EntryOk(e.entries[f.id], false, e.cfg.window)
               && (PayloadOf(f) != [] ==> !Finished(SideOf(e, f.id)) && !ResetByPeer(SideOf(e, f.id)))
    ensures f.id !in e.entries
  {
  }

  /** FIN or payload for a stream that is gone here: in a polite run there is no such stream. */
  lemma NoStray(n: Net, r: Role, f: Frame)
    requires f.Data? && NetOk(n) && CivilNet(n, r, f.id) && Enabled(n, Event(r, Deliver)) && f == Wire(n, r.Peer())[0]
    requires !f.flags.syn && !f.flags.ack && !f.flags.rst && !Lookup(End(n, r), f.id)
    ensures f.id !in End(n, r).entries
  {
    hide NetOk, Mannered, Civil, EntryOk, Finished, ResetByPeer;
    StrayFacts(n, r, f);
    assert IsReset(End(n, r), f.id) ==> f.id !in End(n, r.Peer()).entries by { ResetIsAlone(n, r, f.id); }
    StrayFin(End(n, r), End(n, r.Peer()), Pipe(n, r.Peer()), f);
  }

  lemma ResetIsAlone(n: Net, r: Role, id: u32)
    requires CivilNet(n, r, id)
    ensures IsReset(End(n, r), id) ==> id !in End(n, r.Peer()).entries
  {
  }

  lemma ReceiveHearkens(en: Entry, f: Frame, closing: bool)
    requires f.Data? && Canonical(f) && Receive(en, f.flags, f.payload).1 == Fine && f.id == en.stream.id
    requires Mannered(en, closing)
    ensures var o := Receive(en, f.flags, f.payload).0;
            Hearkens(en, o.entry, f, f.id, closing) && Mannered(o.entry, closing) && o.frames == []
  {
  }

  lemma KnownHeeds(e: Endpoint, f: Frame)
    requires f.Data? && Mild(e, f.id) && Canonical(f) && Lookup(e, f.id) && e.entries[f.id].stream.id == f.id
    requires Receive(e.entries[f.id], f.flags, f.payload).1 == Fine
    ensures var e1 := HandleKnown(e, f.id, f.flags, f.payload).0;
            Heeds(e, e1, f, [], f.id) && e1.outQ == e.outQ + []
  {
    hide Receive, Mannered, Canonical, Hearkens;
    ReceiveHearkens(e.entries[f.id], f, e.closing);
    assert e.outQ + [] == e.outQ;
  }

  lemma SynHeeds(e: Endpoint, id: u32)
    requires Mild(e, id) && id != 0 && !e.role.Owns(id) && id !in e.entries && !e.peerGone
    ensures var e1, fs := Dispatch(e, Syn(id)).0, Answer(e, Syn(id));
            Heeds(e, e1, Syn(id), fs, id) && e1.outQ == e.outQ + fs
  {
    hide HandleData, Mannered;
    SynStep(e, id);
    FreshMannered(id, e.cfg.window, e.closing);
    assert e.outQ + [] == e.outQ;
  }

  /** What dispatching `f` adds to the queue. */
  function Answer(e: Endpoint, f: Frame): seq<Frame> {
    var q := Dispatch(e, f).0.outQ;
    if e.outQ <= q then q[|e.outQ|..] else []
  }

  lemma StrayHeeds(e: Endpoint, f: Frame)
    requires f.Data? && Mild(e, f.id) && f.id != 0 && !f.flags.syn && !Lookup(e, f.id)
    requires f.flags.ack || f.flags.rst || f.id !in e.entries
    ensures var e1, fs := Dispatch(e, f).0, Answer(e, f);
            Heeds(e, e1, f, fs, f.id) && e1.outQ == e.outQ + fs
  {
    hide Mannered;
    assert e.outQ + [] == e.outQ;
  }

  /** Frames of other streams, and of none. */
  predicate Elsewhere(f: Frame, id: u32) {
    !f.GoAway? && (f.Data? || f.WindowUpdate? ==> f.id != id)
  }

  lemma KnownElsewhere(e: Endpoint, k: u32, flags: Flags, payload: seq<u8>, id: u32)
    requires k != id && HandleKnown(e, k, flags, payload).1 == Fine
    ensures var e1 := HandleKnown(e, k, flags, payload).0;
            && e1.closing == e.closing && (id in e1.entries <==> id in e.entries)
            && (id in e.entries ==> e1.entries[id] == e.entries[id])
            && (e1.outQ == e.outQ || e1.outQ == e.outQ + [Rst(k)]) && e1.role == e.role
  {
    hide Receive;
    if Lookup(e, k) {
      ReceiveFine(e.entries[k], flags, payload);
      assert e.outQ + [] == e.outQ;
    }
  }

  lemma ReceiveFine(en: Entry, flags: Flags, payload: seq<u8>)
    ensures Receive(en, flags, payload).1 == Fine ==> Receive(en, flags, payload).0.frames == []
  {
  }

  lemma DataElsewhere(e: Endpoint, k: u32, flags: Flags, payload: seq<u8>, id: u32)
    requires k != id && HandleData(e, k, flags, payload).1 == Fine
    ensures var e1 := HandleData(e, k, flags, payload).0;
            && e1.closing == e.closing && (id in e1.entries <==> id in e.entries)
            && (id in e.entries ==> e1.entries[id] == e.entries[id])
            && (e1.outQ == e.outQ || e1.outQ == e.outQ + [Rst(k)]) && e1.role == e.role
  {
    hide HandleKnown;
    var e2 := Put(e, k, Entry(New(k, Remote, e.cfg.window), true, Queued)).(acceptQ := e.acceptQ + [k]);
    if HandleKnown(e, k, flags, payload).1 == Fine {
      KnownElsewhere(e, k, flags, payload, id);
    }
    if HandleKnown(e2, k, flags, payload).1 == Fine {
      KnownElsewhere(e2, k, flags, payload, id);
    }
  }

  lemma DispatchElsewhere(e: Endpoint, f: Frame, id: u32)
    requires Elsewhere(f, id) && Dispatch(e, f).1 == Fine
    ensures var e1, fs := Dispatch(e, f).0, Answer(e, f);
            && e1.closing == e.closing && (id in e1.entries <==> id in e.entries)
            && (id in e.entries ==> e1.entries[id] == e.entries[id])
            && e1.outQ == e.outQ + fs && |fs| <= 1 && Rst(id) !in fs && Fin(id) !in fs && Ack(id) !in fs
            && e1.role == e.role
  {
    hide HandleData;
    assert e.outQ + [] == e.outQ;
    if f.Data? {
      DataElsewhere(e, f.id, f.flags, f.payload, id);
    }
  }

  lemma GoAwayHeeds(e: Endpoint, code: ErrorCode, id: u32)
    requires Mild(e, id)
    ensures var e1, fs := Dispatch(e, GoAway(code)).0, Answer(e, GoAway(code));
            Heeds(e, e1, GoAway(code), fs, id) && e1.outQ == e.outQ + fs
  {
    assert e.outQ + [] == e.outQ;
  }

  lemma CreditHeeds(e: Endpoint, f: Frame)
    requires f.WindowUpdate? && Mild(e, f.id)
    ensures var e1, fs := Dispatch(e, f).0, Answer(e, f);
            Heeds(e, e1, f, fs, f.id) && e1.outQ == e.outQ + fs
  {
    assert e.outQ + [] == e.outQ;
  }

  /** The reader of `r` takes a data frame of the stream: it is not at fault, and answers only a SYN it refuses. */
  lemma OwnDataHeeds(n: Net, r: Role, f: Frame)
    requires NetOk(n) && Enabled(n, Event(r, Deliver)) && f == Wire(n, r.Peer())[0] && f.Data? && CivilNet(n, r, f.id)
    ensures var e1, fs := Dispatch(End(n, r), f).0, Answer(End(n, r), f);
            Heeds(End(n, r), e1, f, fs, f.id) && e1.outQ == End(n, r).outQ + fs
    ensures Dispatch(End(n, r), f).1 == Fine
  {
    hide NetOk, Receive, Heeds, Civil, Mannered, EntryOk, EntriesOk, QueuesOk;
    var e := End(n, r);
    EndIsOk(n, r);
    StrayFacts(n, r, f);
    DataHead(n, r, f);
    assert Dispatch(e, f).1 == Fine by { OwnIsFine(n, r, f); }
    assert e.outQ + [] == e.outQ;
    if f.flags.syn {
      SynFresh(n, r, f.id);
      SynHeeds(e, f.id);
    } else if Lookup(e, f.id) {
      KnownHeeds(e, f);
    } else {
      if !f.flags.ack && !f.flags.rst {
        NoStray(n, r, f);
      }
      StrayHeeds(e, f);
    }
  }

  lemma OwnIsFine(n: Net, r: Role, f: Frame)
    requires NetOk(n) && Enabled(n, Event(r, Deliver)) && f == Wire(n, r.Peer())[0] && f.Data? && CivilNet(n, r, f.id)
    ensures Dispatch(End(n, r), f).1 == Fine
  {
    hide NetOk, Dispatch, Civil;
    DispatchFaultIff(n, r);
  }

  /** A fault leaves the endpoint as it was, and shuts it down. */
  lemma FaultShuts(n: Net, r: Role)
    requires NetOk(n) && Enabled(n, Event(r, Deliver)) && Faulty(n, r) && !Oversized(n, r)
    ensures ReaderStep(End(n, r), Wire(n, r.Peer())[0]) == InitiateShutdown(End(n, r), ProtocolError)
  {
    hide NetOk, Receive, InitiateShutdown;
    var e, f := End(n, r), Wire(n, r.Peer())[0];
    FaultIff(n, r);
    StrayFacts(n, r, f);
    FaultKeeps(n, r, f);
  }

  // ---------------------------------------------------------------- any polite run

  lemma ReaderCivil(n: Net, r: Role, id: u32)
    requires NetOk(n) && CivilNet(n, r, id) && Enabled(n, Event(r, Deliver))
    ensures CivilNet(Step(n, Event(r, Deliver)), r, id)
  {
    hide NetOk, Civil, Mannered, Heeds, Moves, Dispatch, InitiateShutdown;
    var e, f := End(n, r), Wire(n, r.Peer())[0];
    if Faulty(n, r) {
      ShutdownMoves(e, ProtocolError, id);
      var fs := if e.closing || !e.outOpen then [] else [GoAway(ProtocolError)];
      if Oversized(n, r) {
        LocalCivil(n, r, InitiateShutdown(e, ProtocolError), fs, id);
        return;
      }
      FaultShuts(n, r);
      FaultIff(n, r);
      MovesHeeds(e, InitiateShutdown(e, ProtocolError), f, fs, id);
      DeliverCivil(n, r, InitiateShutdown(e, ProtocolError), fs, id);
    } else {
      FineHeeds(n, r, id);
      DeliverCivil(n, r, Dispatch(e, f).0, Answer(e, f), id);
    }
  }

  lemma FineHeeds(n: Net, r: Role, id: u32)
    requires NetOk(n) && CivilNet(n, r, id) && Enabled(n, Event(r, Deliver)) && !Faulty(n, r)
    ensures var e, f := End(n, r), Wire(n, r.Peer())[0];
            Heeds(e, Dispatch(e, f).0, f, Answer(e, f), id) && Dispatch(e, f).0.outQ == e.outQ + Answer(e, f)
  {
    hide NetOk, Civil, Mannered, Heeds, Moves, Dispatch, Answer;
    var e, f := End(n, r), Wire(n, r.Peer())[0];
    if Elsewhere(f, id) {
      DispatchElsewhere(e, f, id);
      AsideMoves(e, Dispatch(e, f).0, Answer(e, f), id);
      MovesHeeds(e, Dispatch(e, f).0, f, Answer(e, f), id);
    } else if f.Data? {
      OwnDataHeeds(n, r, f);
    } else if f.WindowUpdate? {
      CreditHeeds(e, f);
    } else {
      GoAwayHeeds(e, f.code, id);
    }
  }

  lemma SameCivil(n: Net, m: Net, r: Role, id: u32)
    requires CivilNet(n, r, id) && Pipe(m, r) == Pipe(n, r) && Pipe(m, r.Peer()) == Pipe(n, r.Peer())
    requires End(m, r.Peer()) == End(n, r.Peer())
    requires End(m, r).entries == End(n, r).entries && End(m, r).closing == End(n, r).closing
    requires End(m, r).role == End(n, r).role
    ensures CivilNet(m, r, id)
  {
    hide Mannered;
  }

  /** A closing endpoint forgets frames. */
  lemma ForgetCivil(n: Net, r: Role, k: nat, id: u32)
    requires CivilNet(n, r, id) && End(n, r).closing && k <= |End(n, r).outQ|
    ensures CivilNet(Forgetting(n, r, k), r, id)
  {
    var q := End(n, r).outQ;
    ForgetShape(End(n, r), k);
    ForgetPipes(n, r, k);
    PipeParts(n, r, k, 0);
    hide Forget, Mannered;
    assert multiset(Wire(n, r) + q[k..])[Fin(id)] <= multiset(Wire(n, r) + q[..k] + q[k..])[Fin(id)];
  }

  lemma WriterCivil(n: Net, ev: Event, id: u32)
    requires Enabled(n, ev) && CivilNet(n, ev.who, id) && (ev.act.Move? || ev.act.Exit?)
    requires EndOk(End(n, ev.who)) && Mild(End(n, ev.who), id)
    ensures CivilNet(Step(n, ev), ev.who, id)
  {
    hide CivilNet, Moves, InitiateShutdown, Forget, EndOk;
    var r, e := ev.who, End(n, ev.who);
    if ev.act.Exit? {
      ForgetCivil(n, r, |e.outQ|, id);
      ForgetShape(e, |e.outQ|);
      SameCivil(Forgetting(n, r, |e.outQ|), Step(n, ev), r, id);
    } else if Passes(e.cfg, e.outQ[0]) {
      assert ev == Event(r, Move);
      MovePipes(n, r);
      SameCivil(n, Step(n, ev), r, id);
    } else {
      assert ev == Event(r, Move);
      MoveFails(n, r);
      ShutdownMoves(e, InternalError, id);
      LocalCivil(n, r, InitiateShutdown(e, InternalError), [GoAway(InternalError)], id);
      ForgetCivil(Step(n, Event(r, Close(InternalError))), r, 1, id);
    }
  }

  lemma StepCivil(n: Net, ev: Event, id: u32)
    requires NetOk(n) && Enabled(n, ev) && CivilNet(n, ev.who, id) && PoliteEvent(n, ev, id)
    ensures CivilNet(Step(n, ev), ev.who, id)
  {
    hide NetOk, CivilNet, Moves, Polite, Endpoints.Open, UserStep, Endpoints.Accept, InitiateShutdown, ReaderStep,
      CloserStep, EntriesOk, QueuesOk;
    var r, e := ev.who, End(n, ev.who);
    EndIsOk(n, r);
    assert Mild(e, id) by { IsMild(n, r, id); }
    assert e.outQ + [] == e.outQ;
    match ev.act
    case Open =>
      if CanOpen(e) {
        OpenCivil(n, r, id);
      } else {
        OpenRefused(e);
      }
    case Use(k, what) =>
      UseMoves(e, k, what, id);
      UseShared(n, r, k, what);
      LocalCivil(n, r, UserStep(e, k, what),
                 if e.outOpen then Apply(e.entries[k], what, e.cfg.maxFrame, e.outOpen).frames else [], id);
    case Accept =>
      AcceptMoves(e, id);
      AcceptShared(n, r);
      LocalCivil(n, r, Endpoints.Accept(e), [Ack(e.acceptQ[0])], id);
    case Close(code) =>
      ShutdownMoves(e, code, id);
      LocalCivil(n, r, InitiateShutdown(e, code), if e.closing || !e.outOpen then [] else [GoAway(code)], id);
    case Probe(k) =>
      var fs := if e.outOpen then [PingRequest(k)] else [];
      AsideMoves(e, Push(e, [PingRequest(k)]), fs, id);
      LocalCivil(n, r, Push(e, [PingRequest(k)]), fs, id);
    case Move => WriterCivil(n, ev, id);
    case Exit => WriterCivil(n, ev, id);
    case Deliver => ReaderCivil(n, r, id);
    case Collect =>
      CloserMoves(e, id);
      LocalCivil(n, r, CloserStep(e), [], id);
  }

  /** The peer knows every stream that a user holds, or that waits to be accepted. */
  lemma Shared(n: Net, r: Role, id: u32)
    requires NetOk(n) && id in End(n, r).entries && End(n, r).entries[id].holder in {User, Queued}
    ensures id in End(n, r.Peer()).entries
  {
    hide Dir, QueuesOk;
    EndIsOk(n, r);
    assert StreamOk(n, Client, id);
    Flip(n, Client, id);
    assert EntryOk(End(n, r).entries[id], End(n, r).closing, End(n, r).cfg.window);
  }

  lemma UseShared(n: Net, r: Role, k: u32, what: UserAct)
    requires NetOk(n) && Enabled(n, Event(r, Use(k, what)))
    ensures var e := End(n, r);
            var fs := Apply(e.entries[k], what, e.cfg.maxFrame, e.outOpen).frames;
            forall id: u32 :: Fin(id) in fs || Ack(id) in fs ==> id in End(n, r.Peer()).entries
  {
    hide NetOk;
    EndIsOk(n, r);
    if End(n, r).entries[k].holder == User {
      Shared(n, r, k);
    }
  }

  lemma AcceptShared(n: Net, r: Role)
    requires NetOk(n) && Enabled(n, Event(r, Accept))
    ensures End(n, r).acceptQ[0] in End(n, r.Peer()).entries
  {
    hide NetOk;
    QueuedHead(n, r);
    Shared(n, r, End(n, r).acceptQ[0]);
  }

  lemma IsMild(n: Net, r: Role, id: u32)
    requires CivilNet(n, r, id)
    ensures Mild(End(n, r), id)
  {
  }

  /** From either side it is the same. */
  lemma Turn(n: Net, r: Role, q: Role, id: u32)
    requires CivilNet(n, r, id)
    ensures CivilNet(n, q, id)
  {
    hide Civil, Mild;
  }

  lemma {:induction false} RunCivil(n: Net, t: Trace, id: u32)
    requires NetOk(n) && CivilNet(n, Client, id) && Legal(n, t) && PoliteRun(n, t, id)
    ensures NetOk(Run(n, t)) && CivilNet(Run(n, t), Client, id)
    decreases |t|
  {
    hide NetOk, CivilNet, PoliteEvent;
    if t != [] {
      StepKeeps(n, t[0]);
      Turn(n, Client, t[0].who, id);
      StepCivil(n, t[0], id);
      Turn(Step(n, t[0]), t[0].who, Client, id);
      RunCivil(Step(n, t[0]), t[1..], id);
    }
  }

  lemma StartsCivil(c: Config, s: Config, id: u32)
    ensures CivilNet(Init(c, s), Client, id)
  {
    var n := Init(c, s);
    assert Pipe(n, Client) == [] && Pipe(n, Server) == [];
  }

  /** Politely used, a stream that both ends know is never reset, nor is a reset for it under way. */
  lemma PoliteStreamsAreNeverReset(c: Config, s: Config, t: Trace, r: Role, id: u32)
    requires ValidConfig(c) && ValidConfig(s) && Legal(Init(c, s), t) && PoliteRun(Init(c, s), t, id)
    requires var n := Run(Init(c, s), t); id in End(n, r).entries && id in End(n, r.Peer()).entries
    ensures var n := Run(Init(c, s), t); !StreamAt(n, r, id).state.reset && Rst(id) !in Pipe(n, r)
  {
    hide NetOk, Mannered;
    InitOk(c, s);
    StartsCivil(c, s, id);
    RunCivil(Init(c, s), t, id);
    Turn(Run(Init(c, s), t), Client, r, id);
  }

  // ---------------------------------------------------------------- when `open` may time out

  /** Nobody holds the stream and the registry has forgotten it. */
  predicate Frozen(e: Endpoint, id: u32) {
    id in e.entries && e.entries[id].holder == Nobody && !e.entries[id].registered
  }

  lemma ReaderFrozen(n: Net, r: Role, id: u32)
    requires NetOk(n) && Enabled(n, Event(r, Deliver)) && Frozen(End(n, r), id)
    ensures var e1 := ReaderStep(End(n, r), Wire(n, r.Peer())[0]);
            id in e1.entries && e1.entries[id] == End(n, r).entries[id]
  {
    hide NetOk, Receive, New;
    var e, f := End(n, r), Wire(n, r.Peer())[0];
    if f.Data? {
      DataHead(n, r, f);
      if f.flags.syn {
        SynIsFirst(n, r, f);
        SynStep(e, f.id);
      }
    }
  }

  /** The same, but for what the writer may have thrown away. */
  predicate SameButKept(en: Entry, en1: Entry) {
    && en1 == en.(stream := en.stream.(log := en.stream.log.(kept := en1.stream.log.kept)))
    && |en1.stream.log.kept| <= |en.stream.log.kept|
  }

  lemma WriterFrozen(e: Endpoint, id: u32)
    requires Frozen(e, id)
    ensures id in WriterExit(e).entries && SameButKept(e.entries[id], WriterExit(e).entries[id])
    ensures e.outQ != [] ==> id in WriteFailed(e).entries && SameButKept(e.entries[id], WriteFailed(e).entries[id])
  {
    hide Cut;
  }

  lemma UseFrozen(e: Endpoint, k: u32, what: UserAct, id: u32)
    requires Frozen(e, id) && k in e.entries && Allowed(e.entries[k], what)
    ensures id in UserStep(e, k, what).entries && UserStep(e, k, what).entries[id] == e.entries[id]
  {
    hide Apply;
  }

  lemma ShutdownFrozen(e: Endpoint, code: ErrorCode, id: u32)
    requires Frozen(e, id)
    ensures id in InitiateShutdown(e, code).entries && InitiateShutdown(e, code).entries[id] == e.entries[id]
  {
  }

  /** Then nothing touches it any more. */
  lemma StepFrozen(n: Net, ev: Event, r: Role, id: u32)
    requires NetOk(n) && Enabled(n, ev) && Frozen(End(n, r), id)
    ensures id in End(Step(n, ev), r).entries && SameButKept(End(n, r).entries[id], End(Step(n, ev), r).entries[id])
  {
    hide NetOk, UserStep, InitiateShutdown, ReaderStep, EntriesOk, QueuesOk, WriterExit, WriteFailed;
    EndIsOk(n, r);
    if ev.who == r {
      match ev.act
      case Move => WriterFrozen(End(n, r), id);
      case Exit => WriterFrozen(End(n, r), id);
      case Use(k, what) => UseFrozen(End(n, r), k, what, id);
      case Close(code) => ShutdownFrozen(End(n, r), code, id);
      case Open => assert End(n, r).nextId != id by { FreshNext(n, r); }
      case Deliver =>
        ReaderFrozen(n, r, id);
        ShutdownFrozen(End(n, r), ProtocolError, id);
      case Accept => assert End(n, r).acceptQ[0] != id by { QueuedHead(n, r); }
      case _ =>
    }
  }

  lemma QueuedHead(n: Net, r: Role)
    requires NetOk(n) && End(n, r).acceptQ != []
    ensures End(n, r).acceptQ[0] in End(n, r).entries && End(n, r).entries[End(n, r).acceptQ[0]].holder == Queued
  {
    assert EndOk(End(n, r)) && End(n, r).acceptQ[0] in End(n, r).acceptQ;
  }

  /** The `open` of the stream has given up, without a byte written, and without one lost. */
  predicate GivenUp(n: Net, id: u32) {
    var e := End(n, Opener(id));
    && Frozen(e, id)
    && e.entries[id].stream.log.wrote == [] && e.entries[id].stream.log.kept == []
    && (e.entries[id].stream.state.reset ==> e.entries[id].stream.buffer == [])
  }

  /** Nothing arrives from a peer that has written nothing. */
  lemma NothingSent(n: Net, r: Role, id: u32)
    requires NetOk(n) && id in End(n, r).entries
    requires id in End(n, r.Peer()).entries ==> StreamAt(n, r.Peer(), id).log.kept == []
    ensures StreamAt(n, r, id).buffer == []
  {
    hide EntriesOk, QueuesOk, Ends, Ledger, Handshake, Flight;
    EndIsOk(n, r);
    assert StreamOk(n, Client, id);
    Flip(n, Client, id);
    assert Bytes(SideOf(End(n, r.Peer()), id), SideOf(End(n, r), id), Flight(n, r.Peer(), id));
    assert Arrived(SideOf(End(n, r), id)) <= [];
  }

  lemma UnwrittenOpener(n: Net, r: Role, id: u32)
    requires NetOk(n) && id in End(n, r).entries && End(n, r).entries[id].holder == Opening
    ensures r == Opener(id) && StreamAt(n, r, id).log.wrote == [] && StreamAt(n, r, id).log.kept == []
  {
    assert EndOk(End(n, r)) && End(n, r).role == r;
    assert EntryOk(End(n, r).entries[id], End(n, r).closing, End(n, r).cfg.window);
  }

  lemma TimeoutGivesUp(n: Net, r: Role, id: u32)
    requires NetOk(n) && CivilNet(n, r, id) && Enabled(n, Event(r, Use(id, OpenTimeout)))
    ensures GivenUp(Step(n, Event(r, Use(id, OpenTimeout))), id)
  {
    hide NetOk, CivilNet;
    UnwrittenOpener(n, r, id);
    ResetIsAlone(n, r, id);
    if IsReset(End(n, r), id) {
      NothingSent(n, r, id);
    }
  }

  lemma {:induction false} RunGivenUp(n: Net, t: Trace, id: u32)
    requires NetOk(n) && GivenUp(n, id) && Legal(n, t)
    ensures GivenUp(Run(n, t), id)
    decreases |t|
  {
    hide NetOk, Step, Enabled;
    if t != [] {
      StepKeeps(n, t[0]);
      StepFrozen(n, t[0], Opener(id), id);
      RunGivenUp(Step(n, t[0]), t[1..], id);
    }
  }

  lemma {:induction false} RunConsiderate(n: Net, t: Trace, id: u32)
    requires NetOk(n) && CivilNet(n, Client, id) && Legal(n, t) && ConsiderateRun(n, t, id)
    ensures CivilNet(Run(n, t), Client, id) || GivenUp(Run(n, t), id)
    decreases |t|
  {
    hide NetOk, CivilNet, GivenUp, Considerate;
    if t != [] {
      var ev := t[0];
      StepKeeps(n, ev);
      Turn(n, Client, ev.who, id);
      if On(ev, id) && ev.act.what.OpenTimeout? {
        assert ev == Event(ev.who, Use(id, OpenTimeout));
        TimeoutGivesUp(n, ev.who, id);
        RunGivenUp(Step(n, ev), t[1..], id);
      } else {
        StepCivil(n, ev, id);
        Turn(Step(n, ev), ev.who, Client, id);
        RunConsiderate(Step(n, ev), t[1..], id);
      }
    }
  }

  /** Bytes are in the buffer of a reset stream only if it was reset uncivilly. */
  lemma NothingStranded(n: Net, r: Role, id: u32)
    requires NetOk(n) && (CivilNet(n, Client, id) || GivenUp(n, id)) && id in End(n, r).entries
    ensures StreamAt(n, r, id).state.reset ==> StreamAt(n, r, id).buffer == []
  {
    hide NetOk, CivilNet;
    if id !in End(n, r.Peer()).entries {
      NothingSent(n, r, id);
    } else if CivilNet(n, Client, id) {
      Turn(n, Client, r, id);
      ResetIsAlone(n, r, id);
    } else if r != Opener(id) {
      NothingSent(n, r, id);
    }
  }

  /**
  Considerately used, a stream loses nothing, whatever is done with all others: a byte that has
  arrived can be read at any time.
  */
  lemma ConsiderateDropsLoseNothing(c: Config, s: Config, t: Trace, r: Role, id: u32, cap: nat)
    requires ValidConfig(c) && ValidConfig(s) && Legal(Init(c, s), t) && ConsiderateRun(Init(c, s), t, id)
    requires id in End(Run(Init(c, s), t), r).entries
    ensures var x := StreamAt(Run(Init(c, s), t), r, id);
            cap > 0 && x.buffer != [] ==> PollRead(x, cap).1 == Got(x.buffer[..Min(cap, |x.buffer|)])
  {
    hide NetOk, CivilNet, GivenUp, PollRead;
    InitOk(c, s);
    StartsCivil(c, s, id);
    RunConsiderate(Init(c, s), t, id);
    RunKeeps(Init(c, s), t);
    var n := Run(Init(c, s), t);
    NothingStranded(n, r, id);
    if cap > 0 {
      ReadableIff(StreamAt(n, r, id), cap);
    }
  }
}
