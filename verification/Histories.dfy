/**
The histories kept in the model are what the callers saw: over every run, the bytes written on a stream are those
that the results of `poll_write` reported as accepted, and the bytes read are those that `poll_read` returned. So the
results about delivery can be read off the calls alone.
*/
module Histories {
  import opened Base
  import opened Frames
  import opened Ids
  import opened Streams
  import opened Endpoints
  import opened Pairs
  import opened Network
  import opened Delivering
  import opened Guarantees
  import opened Termination
  import opened Deadlock
  import opened Drops
  import opened Settling
  import opened Losses
  import opened Refusals
  import opened Calls

  // ---------------------------------------------------------------- what the callers saw

  /** The count that a write of `data` on stream `id` by `r` returns; 0 for every other event. */
  function CountOf(n: Net, ev: Event, r: Role, id: u32): nat
    requires Enabled(n, ev)
  {
    if ev.who == r && On(ev, id) && ev.act.what.Write? then
      var res := PollWrite(StreamAt(n, r, id), End(n, r).cfg.maxFrame, ev.act.what.data, End(n, r).outOpen).1;
      if res.Accepted? then res.n else 0
    else 0
  }

  /** The bytes it reports as accepted. */
  function AcceptedBy(n: Net, ev: Event, r: Role, id: u32): seq<u8>
    requires Enabled(n, ev)
  {
    if ev.who == r && On(ev, id) && ev.act.what.Write? then
      ev.act.what.data[..Min(CountOf(n, ev, r, id), |ev.act.what.data|)]
    else []
  }

  /** The bytes that a read of stream `id` by `r` returns. */
  function ReturnedBy(n: Net, ev: Event, r: Role, id: u32): seq<u8>
    requires Enabled(n, ev)
  {
    if ev.who == r && On(ev, id) && ev.act.what.Read? then
      var res := PollRead(StreamAt(n, r, id), ev.act.what.cap).1;
      if res.Got? then res.bytes else []
    else []
  }

  function CountsIn(n: Net, t: Trace, r: Role, id: u32): nat
    requires Legal(n, t)
    decreases |t|
  {
    if t == [] then 0 else CountOf(n, t[0], r, id) + CountsIn(Step(n, t[0]), t[1..], r, id)
  }

  function AcceptedIn(n: Net, t: Trace, r: Role, id: u32): seq<u8>
    requires Legal(n, t)
    decreases |t|
  {
    if t == [] then [] else AcceptedBy(n, t[0], r, id) + AcceptedIn(Step(n, t[0]), t[1..], r, id)
  }

  function ReturnedIn(n: Net, t: Trace, r: Role, id: u32): seq<u8>
    requires Legal(n, t)
    decreases |t|
  {
    if t == [] then [] else ReturnedBy(n, t[0], r, id) + ReturnedIn(Step(n, t[0]), t[1..], r, id)
  }

  // ---------------------------------------------------------------- one step

  function WroteAt(n: Net, r: Role, id: u32): seq<u8> {
    if id in End(n, r).entries then StreamAt(n, r, id).log.wrote else []
  }

  function ReadAt(n: Net, r: Role, id: u32): seq<u8> {
    if id in End(n, r).entries then StreamAt(n, r, id).log.read else []
  }

  /** A stream that comes into being has no history. */
  predicate Blank(e: Endpoint, e1: Endpoint, id: u32) {
    id in e1.entries && id !in e.entries ==>
      e1.entries[id].stream.log.wrote == [] && e1.entries[id].stream.log.read == []
  }

  predicate SameHistory(e: Endpoint, e1: Endpoint, id: u32) {
    && Blank(e, e1, id)
    && (id in e.entries ==>
          && id in e1.entries
          && e1.entries[id].stream.log.wrote == e.entries[id].stream.log.wrote
          && e1.entries[id].stream.log.read == e.entries[id].stream.log.read)
  }

  lemma SameAt(n: Net, m: Net, r: Role, id: u32)
    requires SameHistory(End(n, r), End(m, r), id)
    ensures WroteAt(m, r, id) == WroteAt(n, r, id) && ReadAt(m, r, id) == ReadAt(n, r, id)
  {
  }

  lemma ReaderBlank(n: Net, r: Role, id: u32)
    requires NetOk(n) && Enabled(n, Event(r, Deliver)) && id !in End(n, r).entries
    ensures Blank(End(n, r), End(Step(n, Event(r, Deliver)), r), id)
  {
    hide NetOk, Receive;
    var e, f := End(n, r), Wire(n, r.Peer())[0];
    if f.Data? && f.flags.syn {
      DataHead(n, r, f);
      SynIsFirst(n, r, f);
      SynStep(e, f.id);
    }
  }

  lemma TaskHistory(n: Net, ev: Event, r: Role, id: u32)
    requires NetOk(n) && Enabled(n, ev) && Autonomous(ev.act)
    ensures SameHistory(End(n, r), End(Step(n, ev), r), id)
  {
    hide NetOk, ReaderStep, WriteFailed, WriterExit, InitiateShutdown;
    if id in End(n, r).entries {
      TaskSameUser(n, ev, r, id);
    } else if ev.who == r {
      match ev.act
      case Deliver =>
        assert ev == Event(r, Deliver);
        ReaderBlank(n, r, id);
      case Move => WriterKeys(End(n, r));
      case Exit => WriterKeys(End(n, r));
      case Collect =>
    }
  }

  lemma WriterKeys(e: Endpoint)
    ensures WriterExit(e).entries.Keys == e.entries.Keys
    ensures e.outQ != [] ==> WriteFailed(e).entries.Keys == e.entries.Keys
  {
    hide Forgotten, CloseEntry;
  }

  /** Calls other than reads and writes of this stream. */
  lemma LocalHistory(n: Net, ev: Event, r: Role, id: u32)
    requires NetOk(n) && Enabled(n, ev) && !ev.act.Use? && !Autonomous(ev.act)
    ensures SameHistory(End(n, r), End(Step(n, ev), r), id)
  {
    hide NetOk, InitiateShutdown, EntriesOk, QueuesOk;
    EndIsOk(n, r);
    if ev.who == r {
      match ev.act
      case Open => FreshNext(n, r);
      case Close(code) => ShutdownHistory(End(n, r), code, id);
      case _ =>
    }
  }

  lemma ShutdownHistory(e: Endpoint, code: ErrorCode, id: u32)
    ensures SameHistory(e, InitiateShutdown(e, code), id)
  {
  }

  /** A call on a stream, as the stream sees it. */
  lemma ApplyHistory(en: Entry, what: UserAct, maxFrame: u32, outOpen: bool)
    requires Allowed(en, what) && maxFrame > 0
    ensures var log, log1 := en.stream.log, Apply(en, what, maxFrame, outOpen).entry.stream.log;
            match what
            case Write(data) =>
              var res := PollWrite(en.stream, maxFrame, data, outOpen).1;
              var k := if res.Accepted? then res.n else 0;
              k <= |data| && log1.wrote == log.wrote + data[..k] && log1.read == log.read
            case Read(cap) =>
              var res := PollRead(en.stream, cap).1;
              log1.wrote == log.wrote && log1.read == log.read + (if res.Got? then res.bytes else [])
            case _ => log1.wrote == log.wrote && log1.read == log.read
  {
    hide PollRead, PollWrite;
    match what
    case Write(data) => WriteTakes(en.stream, maxFrame, data, outOpen);
    case Read(cap) =>
      ReadTakes(en.stream, cap);
      ReadKeepsWrote(en.stream, cap);
    case _ =>
  }

  lemma ReadKeepsWrote(s: Stream, cap: nat)
    ensures PollRead(s, cap).0.stream.log.wrote == s.log.wrote
  {
  }

  lemma UseElsewhere(n: Net, ev: Event, r: Role, id: u32)
    requires NetOk(n) && Enabled(n, ev) && ev.act.Use? && !(ev.who == r && ev.act.id == id)
    ensures SameHistory(End(n, r), End(Step(n, ev), r), id)
  {
    hide NetOk, Apply, Allowed;
  }

  lemma UseHistory(n: Net, ev: Event, r: Role, id: u32)
    requires NetOk(n) && Enabled(n, ev) && ev.act.Use? && ev.who == r && ev.act.id == id
    ensures CountOf(n, ev, r, id) == |AcceptedBy(n, ev, r, id)|
    ensures WroteAt(Step(n, ev), r, id) == WroteAt(n, r, id) + AcceptedBy(n, ev, r, id)
    ensures ReadAt(Step(n, ev), r, id) == ReadAt(n, r, id) + ReturnedBy(n, ev, r, id)
  {
    hide NetOk, Apply, PollRead, PollWrite, EntriesOk, QueuesOk;
    var e, what := End(n, r), ev.act.what;
    EndIsOk(n, r);
    ApplyHistory(e.entries[id], what, e.cfg.maxFrame, e.outOpen);
    assert WroteAt(n, r, id) + [] == WroteAt(n, r, id) && ReadAt(n, r, id) + [] == ReadAt(n, r, id);
  }

  lemma StepHistory(n: Net, ev: Event, r: Role, id: u32)
    requires NetOk(n) && Enabled(n, ev)
    ensures CountOf(n, ev, r, id) == |AcceptedBy(n, ev, r, id)|
    ensures WroteAt(Step(n, ev), r, id) == WroteAt(n, r, id) + AcceptedBy(n, ev, r, id)
    ensures ReadAt(Step(n, ev), r, id) == ReadAt(n, r, id) + ReturnedBy(n, ev, r, id)
  {
    hide NetOk, Step, Enabled, WroteAt, ReadAt, SameHistory;
    if ev.act.Use? && ev.who == r && ev.act.id == id {
      UseHistory(n, ev, r, id);
    } else {
      if ev.act.Use? {
        UseElsewhere(n, ev, r, id);
      } else if Autonomous(ev.act) {
        TaskHistory(n, ev, r, id);
      } else {
        LocalHistory(n, ev, r, id);
      }
      SameAt(n, Step(n, ev), r, id);
      assert WroteAt(n, r, id) + [] == WroteAt(n, r, id) && ReadAt(n, r, id) + [] == ReadAt(n, r, id);
    }
  }

  // ---------------------------------------------------------------- every run

  lemma Regroup(a: seq<u8>, b: seq<u8>, c: seq<u8>)
    ensures (a + b) + c == a + (b + c)
  {
  }

  lemma {:induction false} RunHistory(n: Net, t: Trace, r: Role, id: u32)
    requires NetOk(n) && Legal(n, t)
    ensures |AcceptedIn(n, t, r, id)| == CountsIn(n, t, r, id)
    ensures WroteAt(Run(n, t), r, id) == WroteAt(n, r, id) + AcceptedIn(n, t, r, id)
    ensures ReadAt(Run(n, t), r, id) == ReadAt(n, r, id) + ReturnedIn(n, t, r, id)
    decreases |t|
  {
    hide NetOk, Step, Enabled, WroteAt, ReadAt, CountOf, AcceptedBy, ReturnedBy;
    if t == [] {
      assert WroteAt(n, r, id) + [] == WroteAt(n, r, id) && ReadAt(n, r, id) + [] == ReadAt(n, r, id);
    } else {
      var m := Step(n, t[0]);
      StepKeeps(n, t[0]);
      StepHistory(n, t[0], r, id);
      RunHistory(m, t[1..], r, id);
      Regroup(WroteAt(n, r, id), AcceptedBy(n, t[0], r, id), AcceptedIn(m, t[1..], r, id));
      Regroup(ReadAt(n, r, id), ReturnedBy(n, t[0], r, id), ReturnedIn(m, t[1..], r, id));
    }
  }

  /** Over every run, the counts returned by writes add up to what was written, and the reads returned what was read. */
  lemma CallsTellTheTruth(c: Config, s: Config, t: Trace, r: Role, id: u32)
    requires ValidConfig(c) && ValidConfig(s) && Legal(Init(c, s), t)
    ensures WroteAt(Run(Init(c, s), t), r, id) == AcceptedIn(Init(c, s), t, r, id)
    ensures |WroteAt(Run(Init(c, s), t), r, id)| == CountsIn(Init(c, s), t, r, id)
    ensures ReadAt(Run(Init(c, s), t), r, id) == ReturnedIn(Init(c, s), t, r, id)
  {
    hide NetOk, Step, Enabled;
    InitOk(c, s);
    RunHistory(Init(c, s), t, r, id);
    var a, b := AcceptedIn(Init(c, s), t, r, id), ReturnedIn(Init(c, s), t, r, id);
    assert [] + a == a && [] + b == b;
  }

  /**
  Delivery seen from outside: in every run, what the reads of a stream have returned at one end is the beginning of
  what the writes at the other end have reported as accepted, unless the writer can queue a frame beyond the codec's
  ceiling and a byte behind it.
  */
  lemma ReadsFollowWrites(c: Config, s: Config, t: Trace, r: Role, id: u32)
    requires ValidConfig(c) && ValidConfig(s) && Legal(Init(c, s), t)
    requires Of(c, s, r.Peer()).maxFrame <= 16 * 1024 * 1024 || Of(c, s, r.Peer()).window <= 16 * 1024 * 1024 + 1
    ensures ReturnedIn(Init(c, s), t, r, id) <= AcceptedIn(Init(c, s), t, r.Peer(), id)
  {
    hide Step, Enabled;
    var n := Run(Init(c, s), t);
    CallsTellTheTruth(c, s, t, r, id);
    CallsTellTheTruth(c, s, t, r.Peer(), id);
    assert Reachable(c, s, n);
    if id in End(n, r).entries {
      if id in End(n, r.Peer()).entries {
        AlwaysFrontKept(c, s, n, r.Peer());
        OrderedDelivery(c, s, n, r, id);
      } else {
        Invariant(c, s, n);
        ReadNothing(n, r, id);
      }
    }
  }

  lemma ReadNothing(n: Net, r: Role, id: u32)
    requires NetOk(n) && id in End(n, r).entries && id !in End(n, r.Peer()).entries
    ensures StreamAt(n, r, id).log.read == []
  {
    hide EntriesOk, QueuesOk, Ends, Ledger, Handshake, Flight;
    EndIsOk(n, r);
    assert StreamOk(n, Client, id);
    Flip(n, Client, id);
    assert Bytes(SideOf(End(n, r.Peer()), id), SideOf(End(n, r), id), Flight(n, r.Peer(), id));
    assert Arrived(SideOf(End(n, r), id)) <= [];
  }

  // ---------------------------------------------------------------- the end of the stream

  predicate ReadClosed(e: Endpoint, id: u32) {
    id in e.entries && !e.entries[id].stream.state.readOpen
  }

  lemma ApplyReadClosed(en: Entry, what: UserAct, maxFrame: u32, outOpen: bool)
    requires Allowed(en, what) && !en.stream.state.readOpen
    ensures !Apply(en, what, maxFrame, outOpen).entry.stream.state.readOpen
  {
    hide OnConsume;
  }

  lemma UseReadClosed(e: Endpoint, k: u32, what: UserAct, id: u32)
    requires ReadClosed(e, id) && k in e.entries && Allowed(e.entries[k], what)
    ensures ReadClosed(UserStep(e, k, what), id)
  {
    hide Apply;
    if k == id {
      ApplyReadClosed(e.entries[k], what, e.cfg.maxFrame, e.outOpen);
    }
  }

  lemma ShutdownReadClosed(e: Endpoint, code: ErrorCode, id: u32)
    requires ReadClosed(e, id)
    ensures ReadClosed(InitiateShutdown(e, code), id)
  {
  }

  lemma ReceiveReadClosed(en: Entry, flags: Flags, payload: seq<u8>)
    requires !en.stream.state.readOpen
    ensures !Receive(en, flags, payload).0.entry.stream.state.readOpen
  {
  }

  lemma KnownReadClosed(e: Endpoint, k: u32, flags: Flags, payload: seq<u8>, id: u32)
    requires ReadClosed(e, id)
    ensures ReadClosed(HandleKnown(e, k, flags, payload).0, id)
  {
    hide Receive;
    if k == id && Lookup(e, k) {
      ReceiveReadClosed(e.entries[k], flags, payload);
    }
  }

  lemma ReaderReadClosed(n: Net, r: Role, id: u32)
    requires NetOk(n) && Enabled(n, Event(r, Deliver)) && ReadClosed(End(n, r), id)
    ensures ReadClosed(End(Step(n, Event(r, Deliver)), r), id)
  {
    hide NetOk, HandleKnown, InitiateShutdown;
    var e, f := End(n, r), Wire(n, r.Peer())[0];
    ShutdownReadClosed(e, ProtocolError, id);
    if f.Data? {
      DataHead(n, r, f);
      if f.flags.syn {
        SynIsFirst(n, r, f);
        SynStep(e, f.id);
      } else {
        KnownReadClosed(e, f.id, f.flags, f.payload, id);
        ShutdownReadClosed(HandleKnown(e, f.id, f.flags, f.payload).0, ProtocolError, id);
      }
    } else if f.GoAway? {
      ShutdownReadClosed(e.(peerGone := true), f.code, id);
    }
  }

  lemma WriterReadClosed(e: Endpoint, id: u32)
    requires ReadClosed(e, id)
    ensures ReadClosed(WriterExit(e), id) && (e.outQ != [] ==> ReadClosed(WriteFailed(e), id))
  {
    hide Cut;
  }

  lemma StepReadClosed(n: Net, ev: Event, r: Role, id: u32)
    requires NetOk(n) && Enabled(n, ev) && ReadClosed(End(n, r), id)
    ensures ReadClosed(End(Step(n, ev), r), id)
  {
    hide NetOk, UserStep, InitiateShutdown, ReaderStep, WriteFailed, WriterExit, EntriesOk, QueuesOk;
    EndIsOk(n, r);
    if ev.who == r {
      match ev.act
      case Use(k, what) => UseReadClosed(End(n, r), k, what, id);
      case Deliver =>
        assert ev == Event(r, Deliver);
        ReaderReadClosed(n, r, id);
      case Close(code) => ShutdownReadClosed(End(n, r), code, id);
      case Move => WriterReadClosed(End(n, r), id);
      case Exit => WriterReadClosed(End(n, r), id);
      case Open => FreshNext(n, r);
      case _ =>
    }
  }

  lemma {:induction false} RunReadClosed(n: Net, t: Trace, r: Role, id: u32)
    requires NetOk(n) && Legal(n, t) && ReadClosed(End(n, r), id)
    ensures NetOk(Run(n, t)) && ReadClosed(End(Run(n, t), r), id)
    decreases |t|
  {
    hide NetOk, Step, Enabled, ReadClosed;
    if t != [] {
      StepKeeps(n, t[0]);
      StepReadClosed(n, t[0], r, id);
      RunReadClosed(Step(n, t[0]), t[1..], r, id);
    }
  }

  /** The peer's FIN is taken. */
  lemma FinTaken(n: Net, r: Role, id: u32)
    requires NetOk(n) && Enabled(n, Event(r, Deliver)) && Wire(n, r.Peer())[0] == Fin(id) && Lookup(End(n, r), id)
    ensures ReadClosed(End(Step(n, Event(r, Deliver)), r), id)
  {
    hide NetOk;
    DataHead(n, r, Fin(id));
    DataDoes(End(n, r), id, FinFlag, []);
    DataFaultIff(End(n, r), id, FinFlag, []);
  }

  /** A stream that has been read to the end of what was kept has nothing in its buffer. */
  lemma NothingLeft(n: Net, r: Role, id: u32)
    requires NetOk(n) && id in End(n, r).entries && id in End(n, r.Peer()).entries
    requires |StreamAt(n, r.Peer(), id).log.kept| <= |StreamAt(n, r, id).log.read|
    ensures StreamAt(n, r, id).buffer == []
  {
    hide EntriesOk, QueuesOk, Ends, Ledger, Handshake, Flight;
    EndIsOk(n, r);
    assert StreamOk(n, Client, id);
    Flip(n, Client, id);
    assert Bytes(SideOf(End(n, r.Peer()), id), SideOf(End(n, r), id), Flight(n, r.Peer(), id));
  }

  /**
  The end of the stream does come. In every run, once the peer's FIN has been taken and everything has been read,
  the next read reports the end of the stream, however long after, and whether or not this side still writes;
  unless the stream has been reset.
  */
  lemma EofComes(c: Config, s: Config, n: Net, u: Trace, r: Role, id: u32, cap: nat)
    requires Reachable(c, s, n) && Enabled(n, Event(r, Deliver)) && Wire(n, r.Peer())[0] == Fin(id)
    requires Lookup(End(n, r), id) && Legal(Step(n, Event(r, Deliver)), u) && cap > 0
    requires var k := Run(Step(n, Event(r, Deliver)), u);
             && id in End(k, r).entries && id in End(k, r.Peer()).entries && !StreamAt(k, r, id).state.reset
             && StreamAt(k, r, id).log.read == StreamAt(k, r.Peer(), id).log.kept
    ensures var k := Run(Step(n, Event(r, Deliver)), u); PollRead(StreamAt(k, r, id), cap).1 == Eof
  {
    hide NetOk, Reachable, Step, Enabled, PollRead;
    Invariant(c, s, n);
    FinTaken(n, r, id);
    StepKeeps(n, Event(r, Deliver));
    RunReadClosed(Step(n, Event(r, Deliver)), u, r, id);
    var k := Run(Step(n, Event(r, Deliver)), u);
    NothingLeft(k, r, id);
    ReadOutcomes(StreamAt(k, r, id), cap);
  }

  /**
  And it is heard: after polite use, with both sessions open and at rest, a stream that its holder has finished
  writing is ended at the peer that still holds it, though the peer's own write half may be open. Once the peer
  has read everything, its next read reports the end.
  */
  lemma FinIsHeard(c: Config, s: Config, t: Trace, r: Role, id: u32, cap: nat)
    requires ValidConfig(c) && ValidConfig(s) && Legal(Init(c, s), t) && PoliteRun(Init(c, s), t, id)
    requires BothOpen(Run(Init(c, s), t)) && Resting(Run(Init(c, s), t)) && cap > 0
    requires var n := Run(Init(c, s), t);
             && id in End(n, r).entries && Live(End(n, r).entries[id])
             && id in End(n, r.Peer()).entries && StreamAt(n, r.Peer(), id).finSent
    ensures var x := StreamAt(Run(Init(c, s), t), r, id);
            !x.state.readOpen && (x.buffer == [] ==> PollRead(x, cap).1 == Eof)
  {
    hide NetOk, Step, Enabled, PollRead, CivilNet;
    var n := Run(Init(c, s), t);
    InitOk(c, s);
    StartsCivil(c, s, id);
    RunCivil(Init(c, s), t, id);
    Turn(n, Client, r, id);
    HeardAtRest(n, r, id);
    PoliteStreamsAreNeverReset(c, s, t, r, id);
    ReadOutcomes(StreamAt(n, r, id), cap);
  }

  lemma HeardAtRest(n: Net, r: Role, id: u32)
    requires NetOk(n) && CivilNet(n, r, id) && BothOpen(n) && Resting(n)
    requires id in End(n, r).entries && Live(End(n, r).entries[id])
    requires id in End(n, r.Peer()).entries && StreamAt(n, r.Peer(), id).finSent
    ensures !StreamAt(n, r, id).state.readOpen
  {
    hide NetOk, Mannered;
    assert Pipe(n, Client) == [] && Pipe(n, Server) == [];
    StaysRegistered(n, r, id);
  }

  // ---------------------------------------------------------------- nobody hangs

  /**
  Shutdown releases everybody: in every run, once a session is closing, no read and no write of a stream that a user
  holds waits, and an `open` still under way can return.
  */
  lemma ShutdownReleasesAll(c: Config, s: Config, n: Net, r: Role, id: u32, cap: nat, data: seq<u8>)
    requires Reachable(c, s, n) && End(n, r).closing && id in End(n, r).entries
    ensures var en, e := End(n, r).entries[id], End(n, r);
            && (en.holder == User ==>
                  && PollRead(en.stream, cap).1 != ReadPending
                  && PollWrite(en.stream, e.cfg.maxFrame, data, e.outOpen).1 in {WriteReset, BrokenPipe})
            && (en.holder == Opening ==> Allowed(en, Opened) || Allowed(en, OpenFailed))
  {
    hide Reachable, PollRead, PollWrite, Allowed;
    Invariant(c, s, n);
    var en, e := End(n, r).entries[id], End(n, r);
    assert EndOk(e);
    assert EntryOk(en, e.closing, e.cfg.window);
    ReadOutcomes(en.stream, cap);
    WriteOutcomes(en.stream, e.cfg.maxFrame, data, e.outOpen);
    OpenOutcomes(en);
  }
}
