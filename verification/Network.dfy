/**
Two sessions joined by two FIFO wires, as a transition system. One action is one call
of the user, or one turn of the writer, reader or closer task of one endpoint.
*/
module Network {
  import opened Base
  import opened Frames
  import opened Ids
  import opened Streams
  import opened Endpoints
  import opened Channels
  import opened Pairs

  datatype Net = Net(client: Endpoint, server: Endpoint, up: seq<Frame>, down: seq<Frame>)

  datatype Act =
    | Open
    | Use(id: u32, what: UserAct)
    | Accept
    | Close(code: ErrorCode)
    | Probe(n: u32)      // the keepalive task sends a ping
    | Move               // the writer puts one frame on the wire, or fails on it
    | Exit               // the writer stops after shutdown, its queue drained or its codec refusing the next frame
    | Deliver            // the reader dispatches one frame, or fails to decode it
    | Collect            // the closer removes one entry

  datatype Event = Event(who: Role, act: Act)

  function Init(c: Config, s: Config): Net {
    Net(NewEndpoint(Client, c), NewEndpoint(Server, s), [], [])
  }

  function End(n: Net, r: Role): Endpoint {
    if r == Client then n.client else n.server
  }

  /** Frames of `r` that are on the wire. */
  function Wire(n: Net, r: Role): seq<Frame> {
    if r == Client then n.up else n.down
  }

  /** All frames of `r` not yet dispatched by its peer, oldest first. */
  function Pipe(n: Net, r: Role): seq<Frame> {
    Wire(n, r) + End(n, r).outQ
  }

  /** Endpoint `r` becomes `e`, its own wire `mine`, the wire towards it `theirs`. */
  function With(n: Net, r: Role, e: Endpoint, mine: seq<Frame>, theirs: seq<Frame>): Net {
    if r == Client then Net(e, n.server, mine, theirs) else Net(n.client, e, theirs, mine)
  }

  predicate Enabled(n: Net, ev: Event) {
    var e := End(n, ev.who);
    match ev.act
    case Open => true
    case Use(id, what) => id in e.entries && Allowed(e.entries[id], what)
    case Accept => !e.closing && e.acceptQ != [] && e.acceptQ[0] in e.entries
    case Close(code) => LocalCode(code)
    case Probe(_) => !e.closing
    case Move => e.outOpen && e.outQ != [] && (e.closing ==> Passes(e.cfg, e.outQ[0]))
    case Exit => e.outOpen && e.closing && (e.outQ == [] || !Passes(e.cfg, e.outQ[0]))
    case Deliver => !e.closing && Wire(n, ev.who.Peer()) != []
    case Collect => !e.closing && e.closerQ != []
  }

  function Step(n: Net, ev: Event): Net
    requires Enabled(n, ev)
  {
    var r := ev.who;
    var e := End(n, r);
    var mine, theirs := Wire(n, r), Wire(n, r.Peer());
    match ev.act
    case Open => With(n, r, Endpoints.Open(e), mine, theirs)
    case Use(id, what) => With(n, r, UserStep(e, id, what), mine, theirs)
    case Accept => With(n, r, Endpoints.Accept(e), mine, theirs)
    case Close(code) => With(n, r, InitiateShutdown(e, code), mine, theirs)
    case Probe(k) => With(n, r, Push(e, [PingRequest(k)]), mine, theirs)
    case Move =>
      if Passes(e.cfg, e.outQ[0]) then With(n, r, e.(outQ := e.outQ[1..]), mine + [e.outQ[0]], theirs)
      else With(n, r, WriteFailed(e), mine, theirs)
    case Exit => With(n, r, WriterExit(e), mine, theirs)
    case Deliver =>
      if Passes(e.cfg, theirs[0]) then With(n, r, ReaderStep(e, theirs[0]), mine, theirs[1..])
      else With(n, r, InitiateShutdown(e, ProtocolError), mine, theirs)
    case Collect => With(n, r, CloserStep(e), mine, theirs)
  }

  type Trace = seq<Event>

  predicate Legal(n: Net, t: Trace)
    decreases |t|
  {
    t == [] || (Enabled(n, t[0]) && Legal(Step(n, t[0]), t[1..]))
  }

  function Run(n: Net, t: Trace): Net
    requires Legal(n, t)
    decreases |t|
  {
    if t == [] then n else Run(Step(n, t[0]), t[1..])
  }

  /** Configurations the builder can produce. */
  predicate ValidConfig(c: Config) {
    c.window >= 1 && c.maxFrame >= 1
  }

  // ---------------------------------------------------------------- invariant

  function SideOf(e: Endpoint, id: u32): Side {
    Side(if id in e.entries then Some(e.entries[id]) else None, e.closing, e.peerGone, e.outOpen)
  }

  /** Frames of `r` in flight that concern stream `id`. */
  function Flight(n: Net, r: Role, id: u32): seq<Frame> {
    Project(Pipe(n, r), id)
  }

  predicate EntriesOk(e: Endpoint) {
    forall id :: id in e.entries ==>
      && id != 0 && e.entries[id].stream.id == id
      && EntryOk(e.entries[id], e.closing, e.cfg.window)
      && (if e.role.Owns(id) then id < e.nextId && e.entries[id].holder != Queued
          else e.entries[id].holder != Opening && e.entries[id].stream.acked)
  }

  predicate QueuesOk(e: Endpoint) {
    && (forall id :: id in e.closerQ ==>
          id in e.entries && (e.entries[id].holder == Nobody || e.entries[id].stream.state.reset))
    && (forall id :: id in e.acceptQ ==> id in e.entries && e.entries[id].holder == Queued)
    && (forall i, j :: 0 <= i < j < |e.acceptQ| ==> e.acceptQ[i] != e.acceptQ[j])
  }

  predicate EndOk(e: Endpoint) {
    && ValidConfig(e.cfg)
    && e.role.Owns(e.nextId)
    && EntriesOk(e)
    && QueuesOk(e)
    && (!e.outOpen ==> e.closing && e.outQ == [])
    && (e.peerGone ==> e.closing)
  }

  predicate StreamOk(n: Net, r: Role, id: u32) {
    PairOk(SideOf(End(n, r), id), SideOf(End(n, r.Peer()), id), Flight(n, r, id), Flight(n, r.Peer(), id),
           End(n, r).cfg.window, End(n, r.Peer()).cfg.window, r == Opener(id))
  }

  ghost predicate NetOk(n: Net) {
    && n.client.role == Client && n.server.role == Server
    && EndOk(n.client) && EndOk(n.server)
    && (forall r: Role, f :: f in Pipe(n, r) ==> Canonical(f))
    && (forall id: u32 :: id != 0 ==> StreamOk(n, Client, id))
  }

  lemma EndIsOk(n: Net, r: Role)
    requires NetOk(n)
    ensures EndOk(End(n, r)) && End(n, r).role == r
    ensures forall id :: id in End(n, r).entries ==> End(n, r).entries[id].stream.id == id && id != 0
  {
  }

  lemma Flip(n: Net, r: Role, id: u32)
    requires id != 0 && StreamOk(n, r, id)
    ensures StreamOk(n, r.Peer(), id)
  {
  }

  lemma InitOk(c: Config, s: Config)
    requires ValidConfig(c) && ValidConfig(s)
    ensures NetOk(Init(c, s))
  {
    var n := Init(c, s);
    forall id: u32 | id != 0
      ensures StreamOk(n, Client, id)
    {
      assert Flight(n, Client, id) == [] && Flight(n, Server, id) == [];
    }
  }

  // ---------------------------------------------------------------- framing

  /** Endpoint `r` becomes `e`, having queued `fs`. */
  lemma Queueing(n: Net, r: Role, e: Endpoint, fs: seq<Frame>, id: u32)
    requires e.outQ == End(n, r).outQ + fs
    ensures var m := With(n, r, e, Wire(n, r), Wire(n, r.Peer()));
            && Pipe(m, r) == Pipe(n, r) + fs && Pipe(m, r.Peer()) == Pipe(n, r.Peer())
            && Flight(m, r, id) == Flight(n, r, id) + Project(fs, id)
            && Flight(m, r.Peer(), id) == Flight(n, r.Peer(), id)
  {
    assert Wire(n, r) + (End(n, r).outQ + fs) == Pipe(n, r) + fs;
    ProjectAppend(Pipe(n, r), fs, id);
  }

  lemma {:induction false} ProjectAll(fs: seq<Frame>, id: u32)
    requires forall f :: f in fs ==> Concerns(f, id)
    ensures Project(fs, id) == fs
  {
    if fs != [] {
      ProjectAll(fs[1..], id);
      assert fs == [fs[0]] + fs[1..];
    }
  }

  lemma {:induction false} ProjectNone(fs: seq<Frame>, id: u32)
    requires forall f :: f in fs ==> !Concerns(f, id)
    ensures Project(fs, id) == []
  {
    if fs != [] {
      ProjectNone(fs[1..], id);
    }
  }

  /** A local step of endpoint `r` that moves the side of stream `id` and queues `fs`. */
  lemma LocalKeeps(n: Net, r: Role, e: Endpoint, fs: seq<Frame>, id: u32)
    requires id != 0 && StreamOk(n, Client, id)
    requires e.outQ == End(n, r).outQ + fs && e.cfg == End(n, r).cfg
    requires var x, t, gs := SideOf(End(n, r), id), SideOf(e, id), Project(fs, id);
             Speaks(x, t, gs, e.cfg.window) && Consumes(x, t, gs) && Shakes(x, t, gs, r == Opener(id))
    ensures StreamOk(With(n, r, e, Wire(n, r), Wire(n, r.Peer())), Client, id)
  {
    var m := With(n, r, e, Wire(n, r), Wire(n, r.Peer()));
    var p := r.Peer();
    Queueing(n, r, e, fs, id);
    Flip(n, Client, id);
    PairLocal(SideOf(End(n, r), id), SideOf(e, id), SideOf(End(n, p), id), Flight(n, r, id), Flight(n, p, id),
              Project(fs, id), e.cfg.window, End(n, p).cfg.window, r == Opener(id));
    assert StreamOk(m, r, id);
    Flip(m, r, id);
  }

  /** A step that leaves the side of stream `id` alone and queues nothing for it. */
  lemma StutterKeeps(n: Net, r: Role, e: Endpoint, fs: seq<Frame>, id: u32)
    requires id != 0 && StreamOk(n, Client, id)
    requires e.outQ == End(n, r).outQ + fs && e.cfg == End(n, r).cfg
    requires SideOf(e, id) == SideOf(End(n, r), id) && Project(fs, id) == []
    ensures StreamOk(With(n, r, e, Wire(n, r), Wire(n, r.Peer())), Client, id)
  {
    hide PairOk;
    Queueing(n, r, e, fs, id);
    assert Flight(n, r, id) + [] == Flight(n, r, id);
  }

  // ---------------------------------------------------------------- one entry changes

  /** The rules by which an operation may replace entry `was` by `en`, signalling `signals` to the closer. */
  predicate Replaces(was: Entry, en: Entry, signals: seq<u32>) {
    && en.stream.id == was.stream.id
    && (was.stream.acked ==> en.stream.acked)
    && (was.stream.state.reset ==> en.stream.state.reset)
    && (en.holder == was.holder || en.holder == Nobody || en.holder == User)
    && (was.holder == Nobody ==> en.holder == Nobody)
    && (forall id :: id in signals ==> id == en.stream.id && (en.holder == Nobody || en.stream.state.reset))
  }

  lemma ReplaceEnd(e: Endpoint, id: u32, en: Entry, signals: seq<u32>, outQ: seq<Frame>, sent: seq<Frame>)
    requires EndOk(e) && id in e.entries && Replaces(e.entries[id], en, signals)
    requires en.holder == Queued || id !in e.acceptQ
    requires EntryOk(en, e.closing, e.cfg.window)
    requires e.outOpen || outQ == []
    ensures EndOk(Put(e, id, en).(outQ := outQ, sent := sent, closerQ := e.closerQ + signals))
  {
  }

  lemma ReplaceStream(n: Net, r: Role, id: u32, e1: Endpoint, fs: seq<Frame>, k: u32)
    requires NetOk(n) && id != 0 && k != 0
    requires e1 == End(n, r).(entries := e1.entries, outQ := e1.outQ, sent := e1.sent, closerQ := e1.closerQ,
                              acceptQ := e1.acceptQ, accepted := e1.accepted)
    requires id in End(n, r).entries && id in e1.entries && e1.entries == End(n, r).entries[id := e1.entries[id]]
    requires e1.outQ == End(n, r).outQ + fs
    requires forall f :: f in fs ==> Concerns(f, id) && !f.GoAway?
    requires var x, t := SideOf(End(n, r), id), SideOf(e1, id);
             Speaks(x, t, fs, e1.cfg.window) && Consumes(x, t, fs) && Shakes(x, t, fs, r == Opener(id))
    ensures StreamOk(With(n, r, e1, Wire(n, r), Wire(n, r.Peer())), Client, k)
  {
    hide PairOk, Speaks, Consumes, Shakes;
    assert StreamOk(n, Client, k);
    if k == id {
      ProjectAll(fs, id);
      LocalKeeps(n, r, e1, fs, id);
    } else {
      ProjectNone(fs, k);
      StutterKeeps(n, r, e1, fs, k);
    }
  }

  lemma ReplaceKeeps(n: Net, r: Role, id: u32, e1: Endpoint, fs: seq<Frame>)
    requires NetOk(n) && id != 0
    requires e1 == End(n, r).(entries := e1.entries, outQ := e1.outQ, sent := e1.sent, closerQ := e1.closerQ,
                              acceptQ := e1.acceptQ, accepted := e1.accepted)
    requires id in End(n, r).entries && id in e1.entries && e1.entries == End(n, r).entries[id := e1.entries[id]]
    requires e1.outQ == End(n, r).outQ + fs
    requires forall f :: f in fs ==> Concerns(f, id) && !f.GoAway? && Canonical(f)
    requires var x, t := SideOf(End(n, r), id), SideOf(e1, id);
             Speaks(x, t, fs, e1.cfg.window) && Consumes(x, t, fs) && Shakes(x, t, fs, r == Opener(id))
    requires EndOk(e1)
    ensures NetOk(With(n, r, e1, Wire(n, r), Wire(n, r.Peer())))
  {
    hide PairOk;
    Queueing(n, r, e1, fs, id);
    forall k: u32 | k != 0
      ensures StreamOk(With(n, r, e1, Wire(n, r), Wire(n, r.Peer())), Client, k)
    {
      ReplaceStream(n, r, id, e1, fs, k);
    }
  }

  // ---------------------------------------------------------------- user operations

  lemma UseApply(n: Net, r: Role, id: u32, what: UserAct)
    requires NetOk(n) && id in End(n, r).entries && Allowed(End(n, r).entries[id], what)
    ensures id != 0 && StreamOk(n, Client, id) && StreamOk(n, r, id)
    ensures var s := End(n, r).entries[id].stream; s.id == id && s.rx.pending + |s.buffer| <= U32_MAX
    ensures var x := SideOf(End(n, r), id);
            && SideOk(x, End(n, r).cfg.window)
            && var o := Apply(x.entry.value, what, End(n, r).cfg.maxFrame, x.outOpen);
            && SideOk(After(x, o), End(n, r).cfg.window)
            && Speaks(x, After(x, o), Sent(x, o.frames), End(n, r).cfg.window)
            && Consumes(x, After(x, o), Sent(x, o.frames))
  {
    var e := End(n, r);
    var x := SideOf(e, id);
    assert EndOk(e) && EntryOk(e.entries[id], e.closing, e.cfg.window);
    assert StreamOk(n, Client, id);
    Flip(n, Client, id);
    assert Ledger(SideOf(End(n, r.Peer()), id), x, Flight(n, r.Peer(), id),
                  Flight(n, r, id), End(n, r.Peer()).cfg.window);
    ApplyOk(x, what, e.cfg.maxFrame, e.cfg.window);
    ApplySpeaks(x, what, e.cfg.maxFrame, e.cfg.window);
    ApplyConsumes(x, what, e.cfg.maxFrame, e.cfg.window);
  }

  lemma ApplyReplaces(en: Entry, what: UserAct, maxFrame: u32, outOpen: bool)
    requires Allowed(en, what)
    ensures var o := Apply(en, what, maxFrame, outOpen);
            Replaces(en, o.entry, o.signals) && o.entry.stream.acked == en.stream.acked && o.entry.holder != Queued
    ensures en.holder != Queued
  {
  }

  lemma ApplyFrames(en: Entry, what: UserAct, maxFrame: u32, outOpen: bool)
    requires Allowed(en, what)
    ensures forall f :: f in Apply(en, what, maxFrame, outOpen).frames ==>
              Concerns(f, en.stream.id) && !IsSyn(f) && !f.GoAway?
  {
  }

  lemma UseKeeps(n: Net, r: Role, id: u32, what: UserAct)
    requires NetOk(n) && Enabled(n, Event(r, Use(id, what)))
    ensures NetOk(Step(n, Event(r, Use(id, what))))
  {
    var e := End(n, r);
    var x := SideOf(e, id);
    UseApply(n, r, id, what);
    ApplyReplaces(e.entries[id], what, e.cfg.maxFrame, e.outOpen);
    ApplyFrames(e.entries[id], what, e.cfg.maxFrame, e.outOpen);
    var o := Apply(e.entries[id], what, e.cfg.maxFrame, e.outOpen);
    var fs := Sent(x, o.frames);
    var e1 := UserStep(e, id, what);
    UseFinish(n, r, id, o, fs, e1);
  }

  lemma UseFinish(n: Net, r: Role, id: u32, o: EntryOut, fs: seq<Frame>, e1: Endpoint)
    requires NetOk(n) && id != 0 && id in End(n, r).entries && End(n, r).entries[id].holder != Queued
    requires var e := End(n, r); e1 == Push(Put(e, id, o.entry), o.frames).(closerQ := e.closerQ + o.signals)
    requires var x := SideOf(End(n, r), id);
             && fs == Sent(x, o.frames)
             && SideOk(After(x, o), End(n, r).cfg.window)
             && Speaks(x, After(x, o), fs, End(n, r).cfg.window) && Consumes(x, After(x, o), fs)
    requires Replaces(End(n, r).entries[id], o.entry, o.signals)
    requires o.entry.stream.acked == End(n, r).entries[id].stream.acked && o.entry.holder != Queued
    requires forall f :: f in o.frames ==> Concerns(f, id) && !IsSyn(f) && !f.GoAway?
    ensures NetOk(With(n, r, e1, Wire(n, r), Wire(n, r.Peer())))
  {
    hide PairOk, Consumes, EntriesOk;
    var e := End(n, r);
    ReplaceEnd(e, id, o.entry, o.signals, e1.outQ, e1.sent);
    assert e1 == Put(e, id, o.entry).(outQ := e1.outQ, sent := e1.sent, closerQ := e.closerQ + o.signals);
    ReplaceKeeps(n, r, id, e1, fs);
  }

  // ---------------------------------------------------------------- the other local actions

  lemma CollectEnd(e: Endpoint)
    requires EndOk(e) && e.closerQ != []
    ensures EndOk(CloserStep(e))
  {
    assert e.closerQ[0] in e.closerQ;
  }

  lemma AcceptEnd(e: Endpoint)
    requires EndOk(e) && !e.closing && e.acceptQ != [] && e.acceptQ[0] in e.entries
    ensures EndOk(Endpoints.Accept(e))
  {
    assert e.acceptQ[0] in e.acceptQ;
  }

  lemma OpenEnd(e: Endpoint)
    requires EndOk(e) && CanOpen(e) && e.nextId !in e.entries
    ensures EndOk(Endpoints.Open(e))
  {
    hide EntriesOk;
    OpenEntries(e);
  }

  lemma OpenEntries(e: Endpoint)
    requires EndOk(e) && CanOpen(e) && e.nextId !in e.entries
    ensures EntriesOk(Endpoints.Open(e))
  {
    hide EntryOk, New;
    NewId(e.nextId, e.cfg.window);
    var e1 := Endpoints.Open(e);
    assert e1.entries == e.entries[e.nextId := Entry(New(e.nextId, Local, e.cfg.window), true, Opening)];
    NewEntryOk(e.nextId, e.cfg.window);
  }

  lemma NewId(id: u32, window: u32)
    ensures New(id, Local, window).id == id
  {
  }

  lemma NewEntryOk(id: u32, window: u32)
    ensures EntryOk(Entry(New(id, Local, window), true, Opening), false, window)
  {
  }

  lemma CollectKeeps(n: Net, r: Role)
    requires NetOk(n) && Enabled(n, Event(r, Collect))
    ensures NetOk(Step(n, Event(r, Collect)))
  {
    var e := End(n, r);
    var id := e.closerQ[0];
    assert id in e.closerQ;
    var e1 := CloserStep(e);
    var x := SideOf(e, id);
    RemoveCase(x, e.cfg.window);
    assert e1.outQ == e.outQ + [];
    CollectEnd(e);
    ReplaceKeeps(n, r, id, e1, []);
  }

  lemma AcceptKeeps(n: Net, r: Role)
    requires NetOk(n) && Enabled(n, Event(r, Accept))
    ensures NetOk(Step(n, Event(r, Accept)))
  {
    hide PairOk, Flight;
    var e := End(n, r);
    var id := e.acceptQ[0];
    assert id in e.acceptQ;
    var e1 := Endpoints.Accept(e);
    AcceptCase(SideOf(e, id), id, e.cfg.window);
    AcceptEnd(e);
    ReplaceKeeps(n, r, id, e1, [Ack(id)]);
  }

  lemma ProbeKeeps(n: Net, r: Role, k: u32)
    requires NetOk(n) && Enabled(n, Event(r, Probe(k)))
    ensures NetOk(Step(n, Event(r, Probe(k))))
  {
    hide PairOk, Flight;
    var e1 := Push(End(n, r), [PingRequest(k)]);
    Queueing(n, r, e1, [PingRequest(k)], 0);
    forall id: u32 | id != 0
      ensures StreamOk(Step(n, Event(r, Probe(k))), Client, id)
    {
      assert StreamOk(n, Client, id);
      ProjectNone([PingRequest(k)], id);
      StutterKeeps(n, r, e1, [PingRequest(k)], id);
    }
  }

  lemma ShutdownEntries(e: Endpoint, code: ErrorCode)
    requires EntriesOk(e) && !e.closing
    ensures EntriesOk(InitiateShutdown(e, code))
  {
  }

  lemma ShutdownEnd(e: Endpoint, code: ErrorCode)
    requires EndOk(e) && !e.closing
    ensures EndOk(InitiateShutdown(e, code))
  {
    ShutdownEntries(e, code);
    hide EntriesOk;
  }

  lemma ShutdownSide(e: Endpoint, code: ErrorCode, id: u32)
    requires EndOk(e) && !e.closing
    ensures SideOf(InitiateShutdown(e, code), id) == CloseSide(SideOf(e, id))
    ensures InitiateShutdown(e, code).outQ == e.outQ + [GoAway(code)]
    ensures SideOk(SideOf(e, id), e.cfg.window)
  {
  }

  lemma CloseStream(n: Net, r: Role, code: ErrorCode, id: u32)
    requires id != 0 && StreamOk(n, Client, id) && EndOk(End(n, r)) && !End(n, r).closing && LocalCode(code)
    ensures StreamOk(With(n, r, InitiateShutdown(End(n, r), code), Wire(n, r), Wire(n, r.Peer())), Client, id)
  {
    hide PairOk, Speaks, Consumes, Shakes;
    var e := End(n, r);
    ShutdownSide(e, code, id);
    CloseCase(SideOf(e, id), code, e.cfg.window);
    ProjectAll([GoAway(code)], id);
    CloseShakes(n, r, code, id);
    LocalKeeps(n, r, InitiateShutdown(e, code), [GoAway(code)], id);
  }

  lemma CloseShakes(n: Net, r: Role, code: ErrorCode, id: u32)
    requires id != 0 && StreamOk(n, Client, id)
    ensures var x := SideOf(End(n, r), id);
            && Shakes(x, CloseSide(x), [GoAway(code)], r == Opener(id))
            && Shakes(x, x.(outOpen := false), [], r == Opener(id))
  {
    hide PairOk, Shakes;
    Flip(n, Client, id);
    var p := r.Peer();
    OpenerShakes(SideOf(End(n, r), id), SideOf(End(n, p), id), Flight(n, r, id), Flight(n, p, id),
                 End(n, r).cfg.window, End(n, p).cfg.window, r == Opener(id), code);
  }

  lemma CloseKeeps(n: Net, r: Role, code: ErrorCode)
    requires NetOk(n) && LocalCode(code)
    ensures NetOk(Step(n, Event(r, Close(code))))
  {
    hide PairOk;
    var e := End(n, r);
    if !e.closing {
      ShutdownEnd(e, code);
      ShutdownSide(e, code, 0);
      Queueing(n, r, InitiateShutdown(e, code), [GoAway(code)], 0);
      forall id: u32 | id != 0
        ensures StreamOk(Step(n, Event(r, Close(code))), Client, id)
      {
        assert StreamOk(n, Client, id);
        CloseStream(n, r, code, id);
      }
    }
  }

  // ---------------------------------------------------------------- the writer

  /** Throwing frames away touches the queue, and of the streams only the history. */
  lemma ForgetShape(e: Endpoint, k: nat)
    requires k <= |e.outQ|
    ensures Forget(e, k) == e.(outQ := e.outQ[k..], entries := Forget(e, k).entries)
    ensures Forget(e, k).entries.Keys == e.entries.Keys
    ensures forall id :: id in e.entries ==>
              var s, s1 := e.entries[id].stream, Forget(e, k).entries[id].stream;
              && Forget(e, k).entries[id] == e.entries[id].(stream := s1)
              && s1 == s.(log := s.log.(kept := s1.log.kept))
  {
    hide Cut;
  }

  lemma ForgetClosed(en: Entry, n: nat, behind: nat)
    ensures CloseEntry(Forgotten(en, n, behind)) == Forgotten(CloseEntry(en), n, behind)
  {
    hide Cut;
  }

  lemma GoAwayBehind(q: seq<Frame>, code: ErrorCode, id: u32)
    requires q != []
    ensures (q + [GoAway(code)])[..1] == q[..1] && (q + [GoAway(code)])[1..] == q[1..] + [GoAway(code)]
    ensures |Payload(Project(q[1..] + [GoAway(code)], id))| == |Payload(Project(q[1..], id))|
  {
    ProjectAppend(q[1..], [GoAway(code)], id);
    ProjectAll([GoAway(code)], id);
    Carry(Project(q[1..], id), GoAway(code));
  }

  lemma FailEntries(e: Endpoint)
    requires e.outQ != [] && !e.closing && e.outOpen
    ensures WriteFailed(e).entries == Forget(InitiateShutdown(e, InternalError), 1).entries
  {
    hide Cut, CloseEntry, Forgotten, Project, Payload;
    GoAwayBehind(e.outQ, InternalError, 0);
    forall id | id in e.entries
      ensures WriteFailed(e).entries[id] == Forget(InitiateShutdown(e, InternalError), 1).entries[id]
    {
      GoAwayBehind(e.outQ, InternalError, id);
      ForgetClosed(e.entries[id], |Payload(Project(e.outQ[..1], id))|, |Payload(Project(e.outQ[1..], id))|);
    }
  }

  /** A write that fails loses the frame first and shuts down then; the other way round is the same. */
  lemma FailShuts(e: Endpoint)
    requires e.outQ != [] && !e.closing && e.outOpen
    ensures |InitiateShutdown(e, InternalError).outQ| >= 1
    ensures WriteFailed(e) == Forget(InitiateShutdown(e, InternalError), 1)
  {
    FailEntries(e);
    GoAwayBehind(e.outQ, InternalError, 0);
    hide Cut, CloseEntry, Forgotten, Project, Payload;
  }

  lemma ForgetEntries(e: Endpoint, k: nat)
    requires EntriesOk(e) && e.closing && k <= |e.outQ|
    ensures EntriesOk(Forget(e, k))
  {
  }

  lemma ForgetEnd(e: Endpoint, k: nat)
    requires EndOk(e) && e.closing && k <= |e.outQ|
    ensures EndOk(Forget(e, k))
  {
    ForgetEntries(e, k);
    hide EntriesOk;
  }

  lemma ForgetSide(e: Endpoint, k: nat, id: u32)
    requires k <= |e.outQ|
    ensures SideOf(Forget(e, k), id) == Thinned(SideOf(e, id), Project(e.outQ[..k], id), Project(e.outQ[k..], id))
  {
    hide Cut;
  }

  /** The pipe of `r` in three parts: the wire, the next `k` frames of the queue, and the rest. */
  lemma PipeParts(n: Net, r: Role, k: nat, id: u32)
    requires k <= |End(n, r).outQ|
    ensures var q := End(n, r).outQ;
            && Pipe(n, r) == Wire(n, r) + q[..k] + q[k..]
            && Flight(n, r, id) == Project(Wire(n, r), id) + Project(q[..k], id) + Project(q[k..], id)
  {
    var w, q := Wire(n, r), End(n, r).outQ;
    assert q == q[..k] + q[k..];
    assert w + (q[..k] + q[k..]) == (w + q[..k]) + q[k..];
    ProjectAppend(w + q[..k], q[k..], id);
    ProjectAppend(w, q[..k], id);
  }

  /** `r` throws away the first `k` frames of its queue. */
  function Forgetting(n: Net, r: Role, k: nat): Net
    requires k <= |End(n, r).outQ|
  {
    With(n, r, Forget(End(n, r), k), Wire(n, r), Wire(n, r.Peer()))
  }

  lemma ForgetStream(n: Net, r: Role, k: nat, id: u32)
    requires id != 0 && StreamOk(n, Client, id) && EndOk(End(n, r)) && End(n, r).closing && k <= |End(n, r).outQ|
    ensures StreamOk(Forgetting(n, r, k), Client, id)
  {
    hide PairOk, EntriesOk, QueuesOk, Thinned;
    var e, m, p := End(n, r), Forgetting(n, r, k), r.Peer();
    Flip(n, Client, id);
    PipeParts(n, r, k, id);
    ForgetSide(e, k, id);
    ProjectAppend(Wire(n, r), e.outQ[k..], id);
    assert SideOk(SideOf(e, id), e.cfg.window) by { SideIsOk(e, id); }
    PairThins(SideOf(e, id), SideOf(End(n, p), id), Project(Wire(n, r), id), Project(e.outQ[..k], id),
              Project(e.outQ[k..], id), Flight(n, p, id), e.cfg.window, End(n, p).cfg.window, r == Opener(id));
    assert StreamOk(m, r, id);
    Flip(m, r, id);
  }

  lemma SideIsOk(e: Endpoint, id: u32)
    requires EndOk(e)
    ensures SideOk(SideOf(e, id), e.cfg.window)
  {
  }

  lemma ForgetPipes(n: Net, r: Role, k: nat)
    requires k <= |End(n, r).outQ|
    ensures var m := Forgetting(n, r, k);
            && Pipe(m, r) == Wire(n, r) + End(n, r).outQ[k..] && Pipe(m, r.Peer()) == Pipe(n, r.Peer())
            && (forall q: Role, f :: f in Pipe(m, q) ==> f in Pipe(n, q))
  {
    PipeParts(n, r, k, 0);
  }

  /** A closing endpoint may lose what its writer has not sent. */
  lemma ForgetKeeps(n: Net, r: Role, k: nat)
    requires NetOk(n) && End(n, r).closing && k <= |End(n, r).outQ|
    ensures NetOk(Forgetting(n, r, k))
  {
    hide PairOk, EntriesOk, QueuesOk;
    ForgetEnd(End(n, r), k);
    ForgetPipes(n, r, k);
    forall id: u32 | id != 0
      ensures StreamOk(Forgetting(n, r, k), Client, id)
    {
      assert StreamOk(n, Client, id);
      ForgetStream(n, r, k, id);
    }
  }

  lemma ExitStream(n: Net, r: Role, id: u32)
    requires id != 0 && StreamOk(n, Client, id) && EndOk(End(n, r)) && End(n, r).closing
    ensures StreamOk(With(n, r, End(n, r).(outOpen := false), Wire(n, r), Wire(n, r.Peer())), Client, id)
  {
    hide PairOk, Speaks, Consumes, Shakes;
    var e := End(n, r);
    var e1 := e.(outOpen := false);
    assert e1.outQ == e.outQ + [];
    ExitCase(SideOf(e, id), e.cfg.window);
    CloseShakes(n, r, Normal, id);
    LocalKeeps(n, r, e1, [], id);
  }

  lemma ExitEnd(e: Endpoint)
    requires EndOk(e) && e.closing && e.outQ == []
    ensures EndOk(e.(outOpen := false))
  {
  }

  lemma ExitKeeps(n: Net, r: Role)
    requires NetOk(n) && Enabled(n, Event(r, Exit))
    ensures NetOk(Step(n, Event(r, Exit)))
  {
    hide PairOk, EntriesOk, QueuesOk;
    var n1 := Forgetting(n, r, |End(n, r).outQ|);
    ForgetKeeps(n, r, |End(n, r).outQ|);
    ExitEnd(End(n1, r));
    var e1 := End(n1, r).(outOpen := false);
    assert e1.outQ == End(n1, r).outQ + [];
    Queueing(n1, r, e1, [], 0);
    forall id: u32 | id != 0
      ensures StreamOk(With(n1, r, e1, Wire(n1, r), Wire(n1, r.Peer())), Client, id)
    {
      assert StreamOk(n1, Client, id);
      ExitStream(n1, r, id);
    }
  }

  lemma MovePipes(n: Net, r: Role)
    requires Enabled(n, Event(r, Move)) && Passes(End(n, r).cfg, End(n, r).outQ[0])
    ensures var m := Step(n, Event(r, Move)); Pipe(m, r) == Pipe(n, r) && Pipe(m, r.Peer()) == Pipe(n, r.Peer())
  {
    var e := End(n, r);
    assert (Wire(n, r) + [e.outQ[0]]) + e.outQ[1..] == Wire(n, r) + e.outQ;
  }

  /** A failed write is a shutdown that then loses the frame. */
  lemma MoveFails(n: Net, r: Role)
    requires Enabled(n, Event(r, Move)) && !Passes(End(n, r).cfg, End(n, r).outQ[0])
    ensures var m := Step(n, Event(r, Close(InternalError)));
            && !End(n, r).closing && End(m, r).closing && |End(m, r).outQ| >= 1
            && Step(n, Event(r, Move)) == Forgetting(m, r, 1)
  {
    hide Forget, InitiateShutdown;
    FailShuts(End(n, r));
    ShutsDown(End(n, r), InternalError);
  }

  lemma ShutsDown(e: Endpoint, code: ErrorCode)
    ensures InitiateShutdown(e, code).closing
  {
  }

  /** So is a failed decode, without the loss. */
  lemma DeliverFails(n: Net, r: Role)
    requires Enabled(n, Event(r, Deliver)) && !Passes(End(n, r).cfg, Wire(n, r.Peer())[0])
    ensures Step(n, Event(r, Deliver)) == Step(n, Event(r, Close(ProtocolError)))
  {
  }

  /** Who is still open after a frame has taken it. */
  lemma OpenTakes(n: Net, r: Role)
    requires Enabled(n, Event(r, Deliver)) && !End(Step(n, Event(r, Deliver)), r).closing
    ensures Passes(End(n, r).cfg, Wire(n, r.Peer())[0])
  {
  }

  lemma MoveKeeps(n: Net, r: Role)
    requires NetOk(n) && Enabled(n, Event(r, Move))
    ensures NetOk(Step(n, Event(r, Move)))
  {
    hide PairOk;
    var m := Step(n, Event(r, Move));
    var e := End(n, r);
    if Passes(e.cfg, e.outQ[0]) {
      MovePipes(n, r);
      forall id: u32 | id != 0
        ensures StreamOk(m, Client, id)
      {
        assert StreamOk(n, Client, id);
        assert SideOf(End(m, r), id) == SideOf(e, id);
      }
    } else {
      MoveFails(n, r);
      CloseKeeps(n, r, InternalError);
      ForgetKeeps(Step(n, Event(r, Close(InternalError))), r, 1);
    }
  }

  lemma OpenStream(n: Net, r: Role, id: u32)
    requires NetOk(n) && CanOpen(End(n, r)) && id == End(n, r).nextId
    ensures id != 0 && id !in End(n, r).entries
    ensures StreamOk(With(n, r, Endpoints.Open(End(n, r)), Wire(n, r), Wire(n, r.Peer())), Client, id)
  {
    hide PairOk;
    var e, p := End(n, r), r.Peer();
    var e1 := Endpoints.Open(e);
    var m := With(n, r, e1, Wire(n, r), Wire(n, p));
    assert EndOk(e) && e.role == r;
    assert StreamOk(n, Client, id);
    Flip(n, Client, id);
    PairOpens(SideOf(e, id), SideOf(End(n, p), id), Flight(n, r, id), Flight(n, p, id),
              id, e.cfg.window, End(n, p).cfg.window);
    Queueing(n, r, e1, [Syn(id)], id);
    ProjectAll([Syn(id)], id);
    assert SideOf(e1, id) == Fresh(SideOf(e, id), Entry(New(id, Local, e.cfg.window), true, Opening));
    assert StreamOk(m, r, id);
    Flip(m, r, id);
  }

  lemma FreshNext(n: Net, r: Role)
    requires NetOk(n)
    ensures End(n, r).nextId !in End(n, r).entries
  {
    assert EndOk(End(n, r)) && End(n, r).role == r;
  }

  /** A refused `open` leaves no trace. */
  lemma OpenRefused(e: Endpoint)
    requires EndOk(e) && !CanOpen(e)
    ensures Endpoints.Open(e) == e
  {
    assert e.nextId !in e.entries;
  }

  lemma OpenKeeps(n: Net, r: Role)
    requires NetOk(n)
    ensures NetOk(Step(n, Event(r, Open)))
  {
    hide PairOk, EntriesOk, QueuesOk, Flight;
    var e := End(n, r);
    assert EndOk(e) && e.role == r;
    if CanOpen(e) {
      var e1 := Endpoints.Open(e);
      OpenStream(n, r, e.nextId);
      Queueing(n, r, e1, [Syn(e.nextId)], 0);
      OpenEnd(e);
      forall id: u32 | id != 0
        ensures StreamOk(Step(n, Event(r, Open)), Client, id)
      {
        if id != e.nextId {
          assert StreamOk(n, Client, id);
          ProjectNone([Syn(e.nextId)], id);
          StutterKeeps(n, r, e1, [Syn(e.nextId)], id);
        }
      }
    } else {
      OpenRefused(e);
    }
  }

  // ---------------------------------------------------------------- what a step does to the pipes

  /** A step changes one endpoint; frames only move along, get lost, or are new in that endpoint's queue. */
  lemma StepPipes(n: Net, ev: Event)
    requires Enabled(n, ev)
    ensures var m, r, p := Step(n, ev), ev.who, ev.who.Peer();
            && End(m, p) == End(n, p)
            && (forall f :: f in Pipe(m, r) ==> f in Pipe(n, r) || f in End(m, r).outQ)
            && (forall f :: f in Pipe(m, p) ==> f in Pipe(n, p))
  {
    hide Endpoints.Open, UserStep, Endpoints.Accept, InitiateShutdown, ReaderStep, CloserStep, WriteFailed, WriterExit;
    var m, r, p := Step(n, ev), ev.who, ev.who.Peer();
    assert End(m, p) == End(n, p);
    if ev.act.Move? && Passes(End(n, r).cfg, End(n, r).outQ[0]) {
      MovePipes(n, r);
    } else {
      assert Wire(m, r) == Wire(n, r);
    }
  }
}
