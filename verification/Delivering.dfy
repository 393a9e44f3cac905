/** The reader's step keeps the invariant of the whole system, frame by frame. */
module Delivering {
  import opened Base
  import opened Frames
  import opened Ids
  import opened Streams
  import opened Endpoints
  import opened Channels
  import opened Pairs
  import opened Network

  /** The net after the reader of `r` took one frame off the wire and became `e`. */
  function Taken(n: Net, r: Role, e: Endpoint): Net
    requires Wire(n, r.Peer()) != []
  {
    With(n, r, e, Wire(n, r), Wire(n, r.Peer())[1..])
  }

  lemma TakenPipes(n: Net, r: Role, e: Endpoint, fs: seq<Frame>, id: u32)
    requires Wire(n, r.Peer()) != [] && e.outQ == End(n, r).outQ + fs
    ensures var m, p, f := Taken(n, r, e), r.Peer(), Wire(n, r.Peer())[0];
            && Pipe(m, r) == Pipe(n, r) + fs
            && Pipe(n, p) == [f] + Pipe(m, p)
            && Flight(m, r, id) == Flight(n, r, id) + Project(fs, id)
            && (if Concerns(f, id) then Flight(n, p, id) == [f] + Flight(m, p, id)
                else Flight(n, p, id) == Flight(m, p, id))
  {
    var m, p := Taken(n, r, e), r.Peer();
    assert Wire(n, r) + (End(n, r).outQ + fs) == Pipe(n, r) + fs;
    ProjectAppend(Pipe(n, r), fs, id);
    assert Wire(n, p) == [Wire(n, p)[0]] + Wire(n, p)[1..];
    assert Pipe(n, p) == [Wire(n, p)[0]] + Pipe(m, p);
    assert Pipe(n, p)[1..] == Pipe(m, p);
  }

  /** A frame that does not concern stream `id` leaves its pair alone. */
  lemma TakenStutter(n: Net, r: Role, id: u32)
    requires Wire(n, r.Peer()) != [] && !Concerns(Wire(n, r.Peer())[0], id)
    requires id != 0 && StreamOk(n, Client, id)
    ensures StreamOk(Taken(n, r, End(n, r)), Client, id)
  {
    hide PairOk;
    assert End(n, r).outQ == End(n, r).outQ + [];
    TakenPipes(n, r, End(n, r), [], id);
    assert Flight(n, r, id) + [] == Flight(n, r, id);
  }

  /** Side `x` of the stream the frame belongs to takes it, queueing `fs`. */
  lemma TakenHears(n: Net, r: Role, e: Endpoint, fs: seq<Frame>, id: u32)
    requires Wire(n, r.Peer()) != [] && Concerns(Wire(n, r.Peer())[0], id)
    requires id != 0 && StreamOk(n, Client, id)
    requires e.outQ == End(n, r).outQ + fs && e.cfg == End(n, r).cfg
    requires var x, t, f := SideOf(End(n, r), id), SideOf(e, id), Wire(n, r.Peer())[0];
             Project(fs, id) == fs && Takes(x, t, f, fs, e.cfg.window, r == Opener(id))
    ensures StreamOk(Taken(n, r, e), Client, id)
  {
    hide PairOk, Takes;
    var m, p := Taken(n, r, e), r.Peer();
    TakenPipes(n, r, e, fs, id);
    Flip(n, Client, id);
    assert Flight(m, p, id) == Flight(n, p, id)[1..];
    PairHears(SideOf(End(n, r), id), SideOf(e, id), SideOf(End(n, p), id), Flight(n, r, id), Flight(n, p, id), fs,
              e.cfg.window, End(n, p).cfg.window, r == Opener(id));
    assert StreamOk(m, r, id);
    Flip(m, r, id);
  }

  /** What the pair of the frame's stream looks like from the taking side. */
  lemma HeadFacts(n: Net, r: Role, id: u32)
    requires NetOk(n) && Wire(n, r.Peer()) != [] && Concerns(Wire(n, r.Peer())[0], id) && id != 0
    ensures HeadOk(SideOf(End(n, r), id), Wire(n, r.Peer())[0], r == Opener(id))
    ensures SideOk(SideOf(End(n, r), id), End(n, r).cfg.window)
    ensures StreamOk(n, Client, id)
  {
    hide PairOk, HeadOk;
    var p := r.Peer();
    assert End(n, r).outQ == End(n, r).outQ + [];
    TakenPipes(n, r, End(n, r), [], id);
    assert StreamOk(n, Client, id);
    Flip(n, Client, id);
    PairHead(SideOf(End(n, r), id), SideOf(End(n, p), id), Flight(n, r, id), Flight(n, p, id),
             End(n, r).cfg.window, End(n, p).cfg.window, r == Opener(id));
  }

  // ---------------------------------------------------------------- frame kinds

  lemma PingKeeps(n: Net, r: Role, e1: Endpoint, fs: seq<Frame>)
    requires NetOk(n) && Wire(n, r.Peer()) != [] && Wire(n, r.Peer())[0].Ping?
    requires e1 == End(n, r).(outQ := End(n, r).outQ + fs, sent := e1.sent)
    requires End(n, r).outOpen && forall f :: f in fs ==> f.Ping? && Canonical(f)
    ensures NetOk(Taken(n, r, e1))
  {
    hide PairOk, EntriesOk, QueuesOk;
    var e := End(n, r);
    TakenPipes(n, r, e1, fs, 0);
    assert EndOk(e1) by {
      assert EntriesOk(e1) && QueuesOk(e1) by { SameEnd(e, e1); }
    }
    forall id: u32 | id != 0
      ensures StreamOk(Taken(n, r, e1), Client, id)
    {
      assert StreamOk(n, Client, id);
      TakenStutter(n, r, id);
      ProjectNone(fs, id);
      StutterKeeps(Taken(n, r, e), r, e1, fs, id);
    }
  }

  lemma SameEnd(e: Endpoint, e1: Endpoint)
    requires EntriesOk(e) && QueuesOk(e) && e1 == e.(outQ := e1.outQ, sent := e1.sent)
    ensures EntriesOk(e1) && QueuesOk(e1)
  {
  }

  lemma GoAwayEnd(e: Endpoint, code: ErrorCode)
    requires EndOk(e) && !e.closing
    ensures EndOk(InitiateShutdown(e.(peerGone := true), code))
    ensures InitiateShutdown(e.(peerGone := true), code) == InitiateShutdown(e, code).(peerGone := true)
  {
    ShutdownEnd(e, code);
  }

  lemma GoAwayCode(n: Net, r: Role)
    requires NetOk(n) && Wire(n, r.Peer()) != [] && Wire(n, r.Peer())[0].GoAway?
    ensures LocalCode(Wire(n, r.Peer())[0].code)
  {
    assert Wire(n, r.Peer())[0] in Pipe(n, r.Peer());
    assert Canonical(Wire(n, r.Peer())[0]);
  }

  lemma GoAwayStream(n: Net, r: Role, id: u32)
    requires NetOk(n) && Enabled(n, Event(r, Deliver)) && Wire(n, r.Peer())[0].GoAway? && id != 0
    ensures StreamOk(Step(n, Event(r, Deliver)), Client, id)
  {
    hide PairOk, Takes, HeadOk, EntriesOk, QueuesOk;
    var e, f := End(n, r), Wire(n, r.Peer())[0];
    var e1 := ReaderStep(e, f);
    HeadFacts(n, r, id);
    ShutdownSide(e, f.code, id);
    assert LocalCode(f.code) by { GoAwayCode(n, r); }
    GoAwayCase(SideOf(e, id), f, f.code, e.cfg.window, r == Opener(id));
    ProjectAll([GoAway(f.code)], id);
    assert SideOf(e1, id) == CloseSide(SideOf(e, id).(peerGone := true)) by {
      GoAwayEnd(e, f.code);
    }
    assert StreamOk(n, Client, id);
    TakenHears(n, r, e1, [GoAway(f.code)], id);
  }

  lemma GoAwayKeeps(n: Net, r: Role)
    requires NetOk(n) && Enabled(n, Event(r, Deliver)) && Wire(n, r.Peer())[0].GoAway?
    ensures NetOk(Step(n, Event(r, Deliver)))
  {
    hide PairOk;
    var e, f := End(n, r), Wire(n, r.Peer())[0];
    GoAwayEnd(e, f.code);
    GoAwayCode(n, r);
    TakenPipes(n, r, ReaderStep(e, f), [GoAway(f.code)], 0);
    forall id: u32 | id != 0
      ensures StreamOk(Step(n, Event(r, Deliver)), Client, id)
    {
      GoAwayStream(n, r, id);
    }
  }

  // ---------------------------------------------------------------- frames of one stream

  /** Endpoint `e1` differs from the reader's endpoint in stream `id` only. */
  ghost predicate Touches(e: Endpoint, e1: Endpoint, id: u32, fs: seq<Frame>) {
    && e1 == e.(entries := e1.entries, outQ := e.outQ + fs,
                sent := e1.sent, closerQ := e1.closerQ, acceptQ := e1.acceptQ)
    && (forall k :: k != id ==> (k in e1.entries <==> k in e.entries))
    && (forall k :: k != id && k in e.entries ==> e1.entries[k] == e.entries[k])
    && (forall f :: f in fs ==> Canonical(f) && Concerns(f, id) && !f.GoAway?)
  }

  /** Another stream hardly notices. */
  lemma TakeOther(n: Net, r: Role, id: u32, e1: Endpoint, fs: seq<Frame>, k: u32)
    requires k != 0 && k != id && StreamOk(n, Client, k) && Wire(n, r.Peer()) != []
    requires Concerns(Wire(n, r.Peer())[0], id) && !Wire(n, r.Peer())[0].GoAway? && Touches(End(n, r), e1, id, fs)
    ensures StreamOk(Taken(n, r, e1), Client, k)
  {
    hide PairOk, Flight;
    TakenStutter(n, r, k);
    ProjectNone(fs, k);
    assert SideOf(e1, k) == SideOf(End(n, r), k);
    StutterKeeps(Taken(n, r, End(n, r)), r, e1, fs, k);
  }

  lemma TakeFrames(n: Net, r: Role, id: u32, e1: Endpoint, fs: seq<Frame>)
    requires Wire(n, r.Peer()) != [] && Touches(End(n, r), e1, id, fs)
    requires forall q: Role, f :: f in Pipe(n, q) ==> Canonical(f)
    ensures forall q: Role, f :: f in Pipe(Taken(n, r, e1), q) ==> Canonical(f)
  {
    hide Canonical, Concerns;
    TakenPipes(n, r, e1, fs, 0);
    var m := Taken(n, r, e1);
    forall q: Role, f | f in Pipe(m, q)
      ensures Canonical(f)
    {
      if q == r {
        assert f in Pipe(n, r) || f in fs;
      } else {
        assert f in Pipe(n, r.Peer());
      }
    }
  }

  lemma TakeKeeps(n: Net, r: Role, id: u32, e1: Endpoint, fs: seq<Frame>)
    requires NetOk(n) && id != 0 && Wire(n, r.Peer()) != []
    requires Concerns(Wire(n, r.Peer())[0], id) && !Wire(n, r.Peer())[0].GoAway?
    requires Touches(End(n, r), e1, id, fs) && EndOk(e1) && e1.role == r && StreamOk(Taken(n, r, e1), Client, id)
    ensures NetOk(Taken(n, r, e1))
  {
    hide StreamOk, EndOk, Touches, Concerns, Pipe, Canonical;
    TakeFrames(n, r, id, e1, fs);
    forall k: u32 | k != 0
      ensures StreamOk(Taken(n, r, e1), Client, k)
    {
      if k != id {
        assert StreamOk(n, Client, k);
        TakeOther(n, r, id, e1, fs, k);
      }
    }
  }

  /** The pair of the frame's stream is kept when its side takes the frame. */
  lemma TakeSide(n: Net, r: Role, id: u32, e1: Endpoint, fs: seq<Frame>)
    requires NetOk(n) && id != 0 && Wire(n, r.Peer()) != []
    requires Concerns(Wire(n, r.Peer())[0], id) && !Wire(n, r.Peer())[0].GoAway?
    requires Touches(End(n, r), e1, id, fs) && EndOk(e1)
    requires Takes(SideOf(End(n, r), id), SideOf(e1, id), Wire(n, r.Peer())[0], fs, e1.cfg.window, r == Opener(id))
    ensures NetOk(Taken(n, r, e1))
  {
    hide PairOk, EntriesOk, QueuesOk, Takes, Flight;
    assert StreamOk(n, Client, id) && End(n, r).role == r;
    ProjectAll(fs, id);
    TakenHears(n, r, e1, fs, id);
    TakeKeeps(n, r, id, e1, fs);
  }

  lemma CreditKnown(n: Net, r: Role, f: Frame)
    requires NetOk(n) && Enabled(n, Event(r, Deliver)) && f == Wire(n, r.Peer())[0] && f.WindowUpdate?
    requires f.id != 0 && Lookup(End(n, r), f.id)
    ensures var e := End(n, r);
            NetOk(Taken(n, r, Put(e, f.id, e.entries[f.id].(stream := Grant(e.entries[f.id].stream, f.delta)))))
  {
    hide PairOk, Takes, HeadOk;
    var e := End(n, r);
    HeadFacts(n, r, f.id);
    CreditCase(SideOf(e, f.id), f, e.cfg.window, r == Opener(f.id));
    var o := EntryOut(e.entries[f.id].(stream := Grant(e.entries[f.id].stream, f.delta)), [], []);
    KnownFinish(n, r, f.id, o);
    assert e.outQ + [] == e.outQ && e.sent + [] == e.sent && e.closerQ + [] == e.closerQ;
  }

  lemma CreditUnknown(n: Net, r: Role, f: Frame)
    requires NetOk(n) && Enabled(n, Event(r, Deliver)) && f == Wire(n, r.Peer())[0] && f.WindowUpdate?
    requires f.id != 0 && !Lookup(End(n, r), f.id)
    ensures NetOk(Taken(n, r, End(n, r)))
  {
    hide PairOk, Takes, HeadOk;
    var e := End(n, r);
    HeadFacts(n, r, f.id);
    CreditUnknownCase(SideOf(e, f.id), f, e.cfg.window, r == Opener(f.id));
    assert e.outQ == e.outQ + [];
    TakeSide(n, r, f.id, e, []);
  }

  /** A frame for an unknown stream is passed over, or answered with a reset. */
  lemma UnknownOne(n: Net, r: Role, f: Frame, fs: seq<Frame>, e1: Endpoint)
    requires NetOk(n) && Enabled(n, Event(r, Deliver)) && f == Wire(n, r.Peer())[0] && f.Data?
    requires f.id != 0 && !Lookup(End(n, r), f.id) && (fs == [] || fs == [Rst(f.id)])
    requires e1 == Push(End(n, r), fs)
    ensures NetOk(Taken(n, r, e1))
  {
    hide PairOk, Takes, HeadOk, EntriesOk, QueuesOk;
    var e := End(n, r);
    HeadFacts(n, r, f.id);
    UnknownCase(SideOf(e, f.id), f, fs, e.cfg.window, r == Opener(f.id));
    assert e.outQ == e.outQ + [] && e.sent == e.sent + [];
    SameEnd(e, e1);
    TakeSide(n, r, f.id, e1, fs);
  }

  lemma UnknownKeeps(n: Net, r: Role, f: Frame)
    requires NetOk(n) && Enabled(n, Event(r, Deliver)) && f == Wire(n, r.Peer())[0] && f.Data?
    requires f.id != 0 && !Lookup(End(n, r), f.id)
    ensures NetOk(Taken(n, r, End(n, r))) && NetOk(Taken(n, r, Push(End(n, r), [Rst(f.id)])))
  {
    hide NetOk;
    var e := End(n, r);
    assert e.outQ == e.outQ + [] && e.sent == e.sent + [];
    UnknownOne(n, r, f, [], Push(e, []));
    UnknownOne(n, r, f, [Rst(f.id)], Push(e, [Rst(f.id)]));
  }

  lemma ReceiveReplaces(en: Entry, flags: Flags, payload: seq<u8>)
    ensures var o := Receive(en, flags, payload).0; Replaces(en, o.entry, o.signals) && o.entry.holder == en.holder
  {
  }

  lemma KnownKeeps(n: Net, r: Role, f: Frame)
    requires NetOk(n) && Enabled(n, Event(r, Deliver)) && f == Wire(n, r.Peer())[0] && f.Data?
    requires f.id != 0 && Lookup(End(n, r), f.id) && Receive(End(n, r).entries[f.id], f.flags, f.payload).1 == Fine
    ensures NetOk(Taken(n, r, HandleKnown(End(n, r), f.id, f.flags, f.payload).0))
  {
    var e := End(n, r);
    HeadFacts(n, r, f.id);
    KnownCase(SideOf(e, f.id), f, e.cfg.window, r == Opener(f.id));
    ReceiveReplaces(e.entries[f.id], f.flags, f.payload);
    var o := Receive(e.entries[f.id], f.flags, f.payload).0;
    KnownFinish(n, r, f.id, o);
  }

  lemma KnownEnd(e: Endpoint, id: u32, o: EntryOut)
    requires EndOk(e) && id in e.entries && e.outOpen && o.frames == []
    requires Replaces(e.entries[id], o.entry, o.signals) && o.entry.holder == e.entries[id].holder
    requires EntryOk(o.entry, e.closing, e.cfg.window)
    ensures EndOk(Push(Put(e, id, o.entry), o.frames).(closerQ := e.closerQ + o.signals))
  {
    assert e.outQ + [] == e.outQ && e.sent + [] == e.sent;
    ReplaceEnd(e, id, o.entry, o.signals, e.outQ, e.sent);
  }

  lemma KnownFinish(n: Net, r: Role, id: u32, o: EntryOut)
    requires NetOk(n) && id != 0 && Wire(n, r.Peer()) != [] && id in End(n, r).entries && End(n, r).outOpen
    requires Concerns(Wire(n, r.Peer())[0], id) && !Wire(n, r.Peer())[0].GoAway?
    requires Replaces(End(n, r).entries[id], o.entry, o.signals) && o.entry.holder == End(n, r).entries[id].holder
    requires o.frames == []
    requires var x := SideOf(End(n, r), id);
             Takes(x, After(x, o), Wire(n, r.Peer())[0], [], End(n, r).cfg.window, r == Opener(id))
    ensures var e := End(n, r);
            NetOk(Taken(n, r, Push(Put(e, id, o.entry), o.frames).(closerQ := e.closerQ + o.signals)))
  {
    hide PairOk, EntriesOk, QueuesOk;
    var e := End(n, r);
    var e1 := Push(Put(e, id, o.entry), o.frames).(closerQ := e.closerQ + o.signals);
    KnownEnd(e, id, o);
    assert e.outQ + [] == e.outQ;
    assert SideOf(e1, id) == After(SideOf(e, id), o);
    TakeSide(n, r, id, e1, []);
  }

  lemma FaultKeeps(n: Net, r: Role, f: Frame)
    requires NetOk(n) && Enabled(n, Event(r, Deliver)) && f == Wire(n, r.Peer())[0] && f.Data?
    requires f.id != 0 && Lookup(End(n, r), f.id) && Receive(End(n, r).entries[f.id], f.flags, f.payload).1 == Fault
    ensures End(n, r).entries[f.id].stream.log.localReset
    ensures HandleKnown(End(n, r), f.id, f.flags, f.payload).0 == End(n, r)
    ensures NetOk(Taken(n, r, InitiateShutdown(End(n, r), ProtocolError)))
  {
    var e, id := End(n, r), f.id;
    HeadFacts(n, r, id);
    FaultCase(SideOf(e, id), f, ProtocolError, e.cfg.window, r == Opener(id));
    PutBack(e, id);
    hide HeadOk, PairOk, Takes, EntriesOk, QueuesOk;
    FaultFinish(n, r, id, ProtocolError);
  }

  lemma PutBack(e: Endpoint, id: u32)
    requires id in e.entries
    ensures Push(Put(e, id, e.entries[id]), []).(closerQ := e.closerQ + []) == e
  {
    assert e.outQ + [] == e.outQ && e.sent + [] == e.sent && e.closerQ + [] == e.closerQ;
    assert Put(e, id, e.entries[id]) == e;
  }

  lemma FaultFinish(n: Net, r: Role, id: u32, code: ErrorCode)
    requires LocalCode(code) && NetOk(n) && id != 0 && Wire(n, r.Peer()) != [] && !End(n, r).closing
    requires Concerns(Wire(n, r.Peer())[0], id) && !Wire(n, r.Peer())[0].GoAway?
    requires var x := SideOf(End(n, r), id);
             Takes(x, CloseSide(x), Wire(n, r.Peer())[0], [GoAway(code)], End(n, r).cfg.window, r == Opener(id))
    ensures NetOk(Taken(n, r, InitiateShutdown(End(n, r), code)))
  {
    hide PairOk, Takes, EntriesOk, QueuesOk;
    var e := End(n, r);
    var e1 := InitiateShutdown(e, code);
    ShutdownEnd(e, code);
    ShutdownSide(e, code, id);
    TakenPipes(n, r, e1, [GoAway(code)], 0);
    forall k: u32 | k != 0
      ensures StreamOk(Taken(n, r, e1), Client, k)
    {
      assert StreamOk(n, Client, k);
      if k == id {
        ProjectAll([GoAway(code)], id);
        TakenHears(n, r, e1, [GoAway(code)], id);
      } else {
        TakenStutter(n, r, k);
        CloseStream(Taken(n, r, e), r, code, k);
      }
    }
  }

  lemma CreateEnd(e: Endpoint, id: u32, en: Entry)
    requires EndOk(e) && id != 0 && id !in e.entries && !e.role.Owns(id) && !e.closing
    requires en == Entry(New(id, Remote, e.cfg.window), true, Queued)
    ensures EndOk(Put(e, id, en).(acceptQ := e.acceptQ + [id]))
  {
  }

  /** A SYN is plain, and brings an id that is the peer's and new here. */
  lemma SynIsFirst(n: Net, r: Role, f: Frame)
    requires NetOk(n) && Wire(n, r.Peer()) != [] && f == Wire(n, r.Peer())[0] && f.Data? && f.flags.syn
    ensures f.id != 0 && f == Syn(f.id) && !End(n, r).role.Owns(f.id) && f.id !in End(n, r).entries && r != Opener(f.id)
  {
    hide PairOk, EntriesOk, QueuesOk;
    assert f in Pipe(n, r.Peer());
    assert Canonical(f) && End(n, r).role == r;
    HeadFacts(n, r, f.id);
  }

  lemma CreateStream(n: Net, r: Role, id: u32, en: Entry, e1: Endpoint)
    requires NetOk(n) && id != 0 && r != Opener(id) && Wire(n, r.Peer()) != [] && Wire(n, r.Peer())[0] == Syn(id)
    requires !End(n, r).closing && en == Entry(New(id, Remote, End(n, r).cfg.window), true, Queued)
    requires e1 == Put(End(n, r), id, en).(acceptQ := End(n, r).acceptQ + [id])
    ensures StreamOk(Taken(n, r, e1), Client, id)
  {
    hide PairOk, EntriesOk, QueuesOk, Flight;
    var e, p := End(n, r), r.Peer();
    HeadFacts(n, r, id);
    assert EndOk(e) && EndOk(End(n, p));
    assert e.outQ + [] == e.outQ;
    TakenPipes(n, r, e1, [], id);
    assert Project([], id) == [] && Flight(n, r, id) + [] == Flight(n, r, id);
    Flip(n, Client, id);
    PairCreates(SideOf(e, id), SideOf(End(n, p), id), Flight(n, r, id), Flight(n, p, id), id,
                e.cfg.window, End(n, p).cfg.window);
    assert SideOf(e1, id) == Fresh(SideOf(e, id), en);
    Flip(Taken(n, r, e1), r, id);
  }

  lemma CreateKeeps(n: Net, r: Role, f: Frame)
    requires NetOk(n) && Enabled(n, Event(r, Deliver)) && f == Wire(n, r.Peer())[0] && f.Data? && f.flags.syn
    ensures var e := End(n, r);
            var en := Entry(New(f.id, Remote, e.cfg.window), true, Queued);
            NetOk(Taken(n, r, Put(e, f.id, en).(acceptQ := e.acceptQ + [f.id])))
  {
    hide PairOk, EntriesOk, QueuesOk, StreamOk;
    var e, id := End(n, r), f.id;
    var en := Entry(New(id, Remote, e.cfg.window), true, Queued);
    SynIsFirst(n, r, f);
    assert EndOk(e) && e.role == r;
    CreateEnd(e, id, en);
    CreateStream(n, r, id, en, Put(e, id, en).(acceptQ := e.acceptQ + [id]));
    assert e.outQ + [] == e.outQ;
    TakeKeeps(n, r, id, Put(e, id, en).(acceptQ := e.acceptQ + [id]), []);
  }

  // ---------------------------------------------------------------- one step, any run

  lemma SynStep(e: Endpoint, id: u32)
    requires id != 0 && !e.role.Owns(id) && id !in e.entries && !e.peerGone
    ensures var en := Entry(New(id, Remote, e.cfg.window), true, Queued);
            HandleData(e, id, SynFlag, []) ==
            if |Registered(e)| >= e.cfg.maxStreams then (Push(e, [Rst(id)]), Fine)
            else (Put(e, id, en).(acceptQ := e.acceptQ + [id]), Fine)
  {
    var en := Entry(New(id, Remote, e.cfg.window), true, Queued);
    var e2 := Put(e, id, en).(acceptQ := e.acceptQ + [id]);
    assert en.stream.buffer + [] == en.stream.buffer;
    assert Receive(en, SynFlag, []) == (EntryOut(en, [], []), Fine);
    PutBack(e2, id);
  }

  lemma DataKeeps(n: Net, r: Role, f: Frame)
    requires NetOk(n) && Enabled(n, Event(r, Deliver)) && f == Wire(n, r.Peer())[0] && f.Data?
    requires Passes(End(n, r).cfg, f)
    ensures NetOk(Step(n, Event(r, Deliver)))
  {
    hide NetOk, Receive, New;
    var e := End(n, r);
    assert f.id != 0 && EndOk(e) by { DataHead(n, r, f); }
    if f.flags.syn {
      SynIsFirst(n, r, f);
      CreateKeeps(n, r, f);
      SynStep(e, f.id);
      UnknownKeeps(n, r, f);
    } else if !Lookup(e, f.id) {
      UnknownKeeps(n, r, f);
    } else if Receive(e.entries[f.id], f.flags, f.payload).1 == Fine {
      KnownKeeps(n, r, f);
    } else {
      FaultKeeps(n, r, f);
    }
  }

  lemma DataHead(n: Net, r: Role, f: Frame)
    requires NetOk(n) && Wire(n, r.Peer()) != [] && f == Wire(n, r.Peer())[0] && !f.Ping? && !f.GoAway?
    ensures f.id != 0 && EndOk(End(n, r))
  {
    assert f in Pipe(n, r.Peer());
    assert Canonical(f);
  }

  lemma DeliverKeeps(n: Net, r: Role)
    requires NetOk(n) && Enabled(n, Event(r, Deliver))
    ensures NetOk(Step(n, Event(r, Deliver)))
  {
    hide NetOk;
    var e, f := End(n, r), Wire(n, r.Peer())[0];
    if !Passes(e.cfg, f) {
      DeliverFails(n, r);
      CloseKeeps(n, r, ProtocolError);
      return;
    }
    match f
    case Data(_, _, _) => DataKeeps(n, r, f);
    case WindowUpdate(id, _, _) =>
      DataHead(n, r, f);
      if Lookup(e, id) {
        CreditKnown(n, r, f);
      } else {
        CreditUnknown(n, r, f);
      }
    case GoAway(_) => GoAwayKeeps(n, r);
    case Ping(flags, k) =>
      assert e.outOpen by { PingOpen(n, r); }
      assert e.outQ + [] == e.outQ;
      PingKeeps(n, r, ReaderStep(e, f), if flags.ack then [] else [Pong(k)]);
  }

  lemma PingOpen(n: Net, r: Role)
    requires NetOk(n) && !End(n, r).closing
    ensures End(n, r).outOpen
  {
  }

  /** The invariant is inductive. */
  lemma StepKeeps(n: Net, ev: Event)
    requires NetOk(n) && Enabled(n, ev)
    ensures NetOk(Step(n, ev))
  {
    hide NetOk;
    match ev.act
    case Open => OpenKeeps(n, ev.who);
    case Use(id, what) => UseKeeps(n, ev.who, id, what);
    case Accept => AcceptKeeps(n, ev.who);
    case Close(code) => CloseKeeps(n, ev.who, code);
    case Probe(k) => ProbeKeeps(n, ev.who, k);
    case Move => MoveKeeps(n, ev.who);
    case Exit => ExitKeeps(n, ev.who);
    case Deliver => DeliverKeeps(n, ev.who);
    case Collect => CollectKeeps(n, ev.who);
  }

  lemma {:induction false} RunKeeps(n: Net, t: Trace)
    requires NetOk(n) && Legal(n, t)
    ensures NetOk(Run(n, t))
    decreases |t|
  {
    hide NetOk;
    if t != [] {
      StepKeeps(n, t[0]);
      RunKeeps(Step(n, t[0]), t[1..]);
    }
  }

  lemma ReachableOk(c: Config, s: Config, t: Trace)
    requires ValidConfig(c) && ValidConfig(s) && Legal(Init(c, s), t)
    ensures NetOk(Run(Init(c, s), t))
  {
    InitOk(c, s);
    RunKeeps(Init(c, s), t);
  }
}
