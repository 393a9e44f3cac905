/** Opening and accepting: who agreed to what, in which order, and how many streams there can be. */
module Handshakes {
  import opened Base
  import opened Frames
  import opened Ids
  import opened Streams
  import opened Endpoints
  import opened Channels
  import opened Pairs
  import opened Network
  import opened Delivering
  import opened Guarantees

  /** Anything said on a stream other than a reset. */
  predicate Speech(f: Frame) {
    f.WindowUpdate? || (f.Data? && f.flags != RstFlag)
  }

  /** On streams the endpoint did not open, its ACK comes before anything else it says. */
  predicate AckFirst(role: Role, sent: seq<Frame>) {
    forall i :: 0 <= i < |sent| && Speech(sent[i]) && !role.Owns(sent[i].id) ==> Ack(sent[i].id) in sent[..i + 1]
  }

  predicate Accepted(e: Endpoint) {
    && (forall id :: id in e.accepted ==> id in e.entries && !e.role.Owns(id) && e.entries[id].holder != Queued)
    && (forall id :: id in e.entries && !e.role.Owns(id) && e.entries[id].holder != Queued ==> id in e.accepted)
    && (forall id :: id in e.accepted ==> Ack(id) in e.sent)
  }

  predicate Books(e: Endpoint) {
    && Accepted(e)
    && AckFirst(e.role, e.sent)
    && |Registered(e)| <= e.cfg.maxStreams
  }

  lemma AckFirstPush(role: Role, sent: seq<Frame>, fs: seq<Frame>)
    requires AckFirst(role, sent) && |fs| <= 1
    requires forall f :: f in fs && Speech(f) && !role.Owns(f.id) ==> f == Ack(f.id) || Ack(f.id) in sent
    ensures AckFirst(role, sent + fs)
  {
    var s := sent + fs;
    forall i | 0 <= i < |s| && Speech(s[i]) && !role.Owns(s[i].id)
      ensures Ack(s[i].id) in s[..i + 1]
    {
      if i < |sent| {
        assert s[..i + 1] == sent[..i + 1];
      } else {
        assert s[i] in fs && s[..i + 1] == s;
      }
    }
  }

  lemma Cardinality(a: set<u32>, b: set<u32>)
    requires a <= b
    ensures |a| <= |b|
  {
    if a != b {
      var x :| x in b && x !in a;
      Cardinality(a, b - {x});
    }
  }

  /** Registrations only disappear, except one that the length check admitted. */
  lemma RegistryBound(e: Endpoint, e1: Endpoint, id: u32)
    requires e1.cfg == e.cfg && |Registered(e)| <= e.cfg.maxStreams
    requires Registered(e1) <= Registered(e) ||
             (|Registered(e)| < e.cfg.maxStreams && Registered(e1) <= Registered(e) + {id})
    ensures |Registered(e1)| <= e1.cfg.maxStreams
  {
    if Registered(e1) <= Registered(e) {
      Cardinality(Registered(e1), Registered(e));
    } else {
      Cardinality(Registered(e1), Registered(e) + {id});
      assert |Registered(e) + {id}| <= |Registered(e)| + 1;
    }
  }

  /** One entry is replaced and `fs` queued. */
  lemma BooksPut(e: Endpoint, id: u32, en: Entry, fs: seq<Frame>, e1: Endpoint)
    requires Books(e) && id in e.entries && |fs| <= 1
    requires (en.holder == Queued <==> e.entries[id].holder == Queued) && (en.registered ==> e.entries[id].registered)
    requires forall f :: f in fs && Speech(f) && !e.role.Owns(f.id) ==> Ack(f.id) in e.sent
    requires e1 == e.(entries := e.entries[id := en], outQ := e1.outQ, sent := e.sent + fs, closerQ := e1.closerQ)
    ensures Books(e1)
  {
    AckFirstPush(e.role, e.sent, fs);
    assert Registered(e1) <= Registered(e);
    RegistryBound(e, e1, id);
  }

  lemma BooksSame(e: Endpoint, fs: seq<Frame>, e1: Endpoint)
    requires Books(e) && |fs| <= 1
    requires forall f :: f in fs ==> !Speech(f)
    requires e1 == e.(outQ := e1.outQ, sent := e.sent + fs,
                      closerQ := e1.closerQ, outOpen := e1.outOpen, peerGone := e1.peerGone)
    ensures Books(e1)
  {
    AckFirstPush(e.role, e.sent, fs);
    assert Registered(e1) == Registered(e);
  }

  lemma ApplyQuiet(en: Entry, what: UserAct, maxFrame: u32, outOpen: bool)
    requires Allowed(en, what)
    ensures var o := Apply(en, what, maxFrame, outOpen);
            && |o.frames| <= 1 && o.entry.holder != Queued && (o.entry.registered ==> en.registered)
    ensures en.holder in {User, Opening}
  {
  }

  lemma UseBooks(e: Endpoint, id: u32, what: UserAct)
    requires EndOk(e) && Books(e) && id in e.entries && Allowed(e.entries[id], what)
    ensures Books(UserStep(e, id, what))
  {
    hide Apply;
    var o := Apply(e.entries[id], what, e.cfg.maxFrame, e.outOpen);
    ApplyQuiet(e.entries[id], what, e.cfg.maxFrame, e.outOpen);
    ApplyFrames(e.entries[id], what, e.cfg.maxFrame, e.outOpen);
    var e1 := UserStep(e, id, what);
    assert e.sent + [] == e.sent;
    BooksPut(e, id, o.entry, if e.outOpen then o.frames else [], e1);
  }

  lemma OpenBooks(e: Endpoint)
    requires EndOk(e) && Books(e)
    ensures Books(Endpoints.Open(e))
  {
    var e1 := Endpoints.Open(e);
    if e1 != e {
      AckFirstPush(e.role, e.sent, [Syn(e.nextId)]);
      assert Registered(e1) <= Registered(e) + {e.nextId};
      RegistryBound(e, e1, e.nextId);
    }
  }

  lemma AcceptBooks(e: Endpoint)
    requires EndOk(e) && Books(e) && !e.closing && e.acceptQ != [] && e.acceptQ[0] in e.entries
    ensures Books(Endpoints.Accept(e))
  {
    var e1 := Endpoints.Accept(e);
    assert e.acceptQ[0] in e.acceptQ;
    AckFirstPush(e.role, e.sent, [Ack(e.acceptQ[0])]);
    assert Registered(e1) <= Registered(e);
    RegistryBound(e, e1, 0);
  }

  lemma ShutdownBooks(e: Endpoint, code: ErrorCode)
    requires Books(e)
    ensures Books(InitiateShutdown(e, code))
  {
    var e1 := InitiateShutdown(e, code);
    if e1 != e {
      AckFirstPush(e.role, e.sent, [GoAway(code)]);
      assert Registered(e1) <= Registered(e);
      RegistryBound(e, e1, 0);
    }
  }

  lemma ForgetBooks(e: Endpoint, k: nat)
    requires Books(e) && k <= |e.outQ|
    ensures Books(Forget(e, k))
  {
    hide Cut, AckFirst;
    assert Registered(Forget(e, k)) == Registered(e);
  }

  lemma WriterBooks(e: Endpoint)
    requires Books(e)
    ensures Books(WriterExit(e)) && (e.outQ != [] ==> Books(WriteFailed(e)))
  {
    hide Books, Forget, InitiateShutdown;
    ForgetBooks(e, |e.outQ|);
    assert e.sent + [] == e.sent && Forget(e, |e.outQ|).sent == e.sent by { ForgetShape(e, |e.outQ|); }
    BooksSame(Forget(e, |e.outQ|), [], WriterExit(e));
    if e.outQ != [] {
      ForgetBooks(e, 1);
      ShutdownBooks(Forget(e, 1), InternalError);
    }
  }

  lemma CollectBooks(e: Endpoint)
    requires Books(e) && e.closerQ != []
    ensures Books(CloserStep(e))
  {
    var e1 := CloserStep(e);
    assert Registered(e1) <= Registered(e);
    RegistryBound(e, e1, 0);
  }

  lemma ReceiveQuiet(en: Entry, flags: Flags, payload: seq<u8>)
    ensures var o := Receive(en, flags, payload).0;
            && o.entry.holder == en.holder && o.entry.registered == en.registered
            && |o.frames| <= 1 && (forall f :: f in o.frames ==> !Speech(f))
  {
  }

  lemma KnownBooks(e: Endpoint, id: u32, flags: Flags, payload: seq<u8>)
    requires Books(e)
    ensures Books(HandleKnown(e, id, flags, payload).0)
  {
    hide Receive;
    var e1 := HandleKnown(e, id, flags, payload).0;
    assert e.sent + [] == e.sent;
    if Lookup(e, id) {
      ReceiveQuiet(e.entries[id], flags, payload);
      var o := Receive(e.entries[id], flags, payload).0;
      BooksPut(e, id, o.entry, if e.outOpen then o.frames else [], e1);
    } else if e1 == e {
    } else {
      BooksSame(e, [Rst(id)], e1);
    }
  }

  lemma CreateBooks(e: Endpoint, id: u32, e1: Endpoint)
    requires Books(e) && id !in e.entries && !e.role.Owns(id) && |Registered(e)| < e.cfg.maxStreams
    requires e1 == Put(e, id, Entry(New(id, Remote, e.cfg.window), true, Queued)).(acceptQ := e.acceptQ + [id])
    ensures Books(e1)
  {
    assert Registered(e1) <= Registered(e) + {id};
    RegistryBound(e, e1, id);
  }

  lemma DataBooks(e: Endpoint, id: u32, flags: Flags, payload: seq<u8>)
    requires Books(e) && (flags.syn ==> id !in e.entries)
    ensures Books(HandleData(e, id, flags, payload).0)
  {
    hide HandleKnown, Books;
    var e1 := HandleData(e, id, flags, payload).0;
    KnownBooks(e, id, flags, payload);
    if flags.syn && id != 0 && !e.role.Owns(id) {
      if e.peerGone || |Registered(e)| >= e.cfg.maxStreams {
        if e1 != e {
          BooksSame(e, [Rst(id)], e1);
        }
      } else {
        var e2 := Put(e, id, Entry(New(id, Remote, e.cfg.window), true, Queued)).(acceptQ := e.acceptQ + [id]);
        CreateBooks(e, id, e2);
        KnownBooks(e2, id, flags, payload);
      }
    }
  }

  lemma ReaderBooks(e: Endpoint, f: Frame)
    requires Books(e) && (IsSyn(f) ==> f.id !in e.entries)
    ensures Books(ReaderStep(e, f))
  {
    hide Books, HandleData, InitiateShutdown;
    var e1 := Dispatch(e, f).0;
    match f {
      case Data(id, flags, payload) => DataBooks(e, id, flags, payload);
      case WindowUpdate(id, _, _) =>
        assert e.sent + [] == e.sent;
        if Lookup(e, id) {
          BooksPut(e, id, e1.entries[id], [], e1);
        }
      case Ping(flags, k) =>
        if e1 != e {
          BooksSame(e, [Pong(k)], e1);
        }
      case GoAway(code) =>
        assert e.sent + [] == e.sent;
        BooksSame(e, [], e.(peerGone := true));
        ShutdownBooks(e.(peerGone := true), code);
    }
    ShutdownBooks(e1, ProtocolError);
  }

  lemma StepBooks(n: Net, ev: Event)
    requires NetOk(n) && Enabled(n, ev) && Books(n.client) && Books(n.server)
    ensures Books(Step(n, ev).client) && Books(Step(n, ev).server)
  {
    hide Books, Endpoints.Open, UserStep, Endpoints.Accept, InitiateShutdown, ReaderStep, CloserStep;
    hide WriterExit, WriteFailed;
    var e := End(n, ev.who);
    assert EndOk(e) && Books(e) && e.sent + [] == e.sent;
    hide NetOk;
    match ev.act
    case Open => OpenBooks(e);
    case Use(id, what) => UseBooks(e, id, what);
    case Accept => AcceptBooks(e);
    case Close(code) => ShutdownBooks(e, code);
    case Collect => CollectBooks(e);
    case Deliver =>
      var f := Wire(n, ev.who.Peer())[0];
      assert IsSyn(f) ==> f.id !in e.entries by { SynIsNew(n, ev.who); }
      ReaderBooks(e, f);
      ShutdownBooks(e, ProtocolError);
    case Probe(k) =>
      var e1 := Push(e, [PingRequest(k)]);
      if e1 != e {
        BooksSame(e, [PingRequest(k)], e1);
      }
    case Move =>
      BooksSame(e, [], e.(outQ := e.outQ[1..]));
      WriterBooks(e);
    case Exit => WriterBooks(e);
  }

  lemma SynIsNew(n: Net, r: Role)
    requires NetOk(n) && Wire(n, r.Peer()) != []
    ensures var f := Wire(n, r.Peer())[0];
            IsSyn(f) ==> f.id !in End(n, r).entries && f.id != 0 && f == Syn(f.id) && r.Peer().Owns(f.id)
  {
    hide NetOk;
    var f := Wire(n, r.Peer())[0];
    if IsSyn(f) {
      SynIsFirst(n, r, f);
    }
  }

  // ---------------------------------------------------------------- order of opening and accepting

  function Syns(fs: seq<Frame>): seq<u32> {
    if fs == [] then [] else (if IsSyn(fs[0]) then [fs[0].id] else []) + Syns(fs[1..])
  }

  lemma {:induction false} SynsAppend(a: seq<Frame>, b: seq<Frame>)
    ensures Syns(a + b) == Syns(a) + Syns(b)
  {
    if a == [] {
      assert a + b == b;
    } else {
      assert (a + b)[0] == a[0] && (a + b)[1..] == a[1..] + b;
      SynsAppend(a[1..], b);
      var first: seq<u32> := if IsSyn(a[0]) then [a[0].id] else [];
      assert first + (Syns(a[1..]) + Syns(b)) == (first + Syns(a[1..])) + Syns(b);
    }
  }

  lemma {:induction false} SynsNone(fs: seq<Frame>)
    requires NoSyn(fs)
    ensures Syns(fs) == []
  {
    if fs != [] {
      SynsNone(fs[1..]);
    }
  }

  predicate Increasing(s: seq<u32>) {
    forall i, j :: 0 <= i < j < |s| ==> s[i] < s[j]
  }

  /** Ids the endpoint has let in: accepted, then waiting to be accepted. */
  function Doors(e: Endpoint): seq<u32> {
    e.accepted + e.acceptQ
  }

  /** Streams opened by `r` and not refused, in the order in which they pass: accepted, waiting, still on the way. */
  function Line(n: Net, r: Role): seq<u32> {
    Doors(End(n, r.Peer())) + Syns(Pipe(n, r))
  }

  predicate Ordered(line: seq<u32>, issued: seq<u32>, next: int) {
    && Increasing(line) && Increasing(issued)
    && (forall id :: id in line ==> id in issued)
    && (forall id :: id in issued ==> id < next)
  }

  predicate InOrder(n: Net, r: Role) {
    Ordered(Line(n, r), Syns(End(n, r).sent), End(n, r).nextId)
  }

  /** From `e` to `e1` no SYN was queued and nobody came or went through the door. */
  predicate Unmoved(e: Endpoint, e1: Endpoint) {
    && e1.nextId == e.nextId && Doors(e1) == Doors(e)
    && Syns(e1.outQ) == Syns(e.outQ) && Syns(e1.sent) == Syns(e.sent)
  }

  lemma PushUnmoved(e: Endpoint, fs: seq<Frame>, e1: Endpoint)
    requires NoSyn(fs) && e1.nextId == e.nextId && e1.acceptQ == e.acceptQ && e1.accepted == e.accepted
    requires e1.outQ == e.outQ + fs && e1.sent == e.sent + fs
    ensures Unmoved(e, e1)
  {
    SynsAppend(e.outQ, fs);
    SynsAppend(e.sent, fs);
    SynsNone(fs);
  }

  lemma UseUnmoved(e: Endpoint, id: u32, what: UserAct)
    requires id in e.entries && Allowed(e.entries[id], what)
    ensures Unmoved(e, UserStep(e, id, what))
  {
    hide Apply;
    var o := Apply(e.entries[id], what, e.cfg.maxFrame, e.outOpen);
    ApplyFrames(e.entries[id], what, e.cfg.maxFrame, e.outOpen);
    assert e.outQ + [] == e.outQ && e.sent + [] == e.sent;
    PushUnmoved(e, if e.outOpen then o.frames else [], UserStep(e, id, what));
  }

  lemma AcceptUnmoved(e: Endpoint)
    requires EndOk(e) && !e.closing && e.acceptQ != [] && e.acceptQ[0] in e.entries
    ensures Unmoved(e, Endpoints.Accept(e))
  {
    var id, e1 := e.acceptQ[0], Endpoints.Accept(e);
    PushUnmoved(e, [Ack(id)], e1.(acceptQ := e.acceptQ, accepted := e.accepted));
    assert e.accepted + ([id] + e.acceptQ[1..]) == (e.accepted + [id]) + e.acceptQ[1..];
    assert [id] + e.acceptQ[1..] == e.acceptQ;
  }

  lemma ShutdownUnmoved(e: Endpoint, code: ErrorCode)
    ensures Unmoved(e, InitiateShutdown(e, code))
  {
    if !e.closing && e.outOpen {
      PushUnmoved(e, [GoAway(code)], InitiateShutdown(e, code));
    }
  }

  lemma KnownUnmoved(e: Endpoint, id: u32, flags: Flags, payload: seq<u8>)
    ensures Unmoved(e, HandleKnown(e, id, flags, payload).0)
  {
    hide Receive;
    var e1 := HandleKnown(e, id, flags, payload).0;
    assert e.outQ + [] == e.outQ && e.sent + [] == e.sent;
    if Lookup(e, id) {
      ReceiveQuiet(e.entries[id], flags, payload);
      var o := Receive(e.entries[id], flags, payload).0;
      PushUnmoved(e, if e.outOpen then o.frames else [], e1);
    } else if e.outOpen && !flags.ack && !flags.rst {
      PushUnmoved(e, [Rst(id)], e1);
    }
  }

  lemma ReaderUnmoved(e: Endpoint, f: Frame)
    requires !IsSyn(f)
    ensures Unmoved(e, ReaderStep(e, f))
  {
    hide HandleKnown, InitiateShutdown, Unmoved;
    var e1 := Dispatch(e, f).0;
    assert Unmoved(e, e) by { PushUnmoved(e, [], e); assert e.outQ + [] == e.outQ && e.sent + [] == e.sent; }
    match f {
      case Data(id, flags, payload) => KnownUnmoved(e, id, flags, payload);
      case WindowUpdate(id, _, _) => PushUnmoved(e, [], e1); assert e.outQ + [] == e.outQ && e.sent + [] == e.sent;
      case Ping(flags, k) =>
        if e1 != e {
          PushUnmoved(e, [Pong(k)], e1);
        }
      case GoAway(code) => ShutdownUnmoved(e.(peerGone := true), code); UnmovedTrans(e, e.(peerGone := true), e1);
    }
    ShutdownUnmoved(e1, ProtocolError);
    UnmovedTrans(e, e1, InitiateShutdown(e1, ProtocolError));
  }

  lemma UnmovedTrans(a: Endpoint, b: Endpoint, c: Endpoint)
    ensures Unmoved(a, b) && Unmoved(b, c) ==> Unmoved(a, c)
    ensures b == a.(peerGone := b.peerGone) ==> Unmoved(a, b)
  {
  }

  /** Endpoint `r` moved to `e`, its wire `mine` and the wire towards it `theirs`, with no SYN queued or taken. */
  lemma UnmovedOrder(n: Net, r: Role, e: Endpoint, mine: seq<Frame>, theirs: seq<Frame>)
    requires InOrder(n, r) && InOrder(n, r.Peer())
    requires e.nextId == End(n, r).nextId && Doors(e) == Doors(End(n, r)) && Syns(e.sent) == Syns(End(n, r).sent)
    requires Syns(mine + e.outQ) == Syns(Pipe(n, r))
    requires Syns(theirs + End(n, r.Peer()).outQ) == Syns(Pipe(n, r.Peer()))
    ensures var m := With(n, r, e, mine, theirs); InOrder(m, r) && InOrder(m, r.Peer())
  {
    var m := With(n, r, e, mine, theirs);
    assert Line(m, r) == Line(n, r) && Line(m, r.Peer()) == Line(n, r.Peer());
    hide Line;
  }

  lemma LocalOrder(n: Net, r: Role, e: Endpoint)
    requires InOrder(n, r) && InOrder(n, r.Peer()) && Unmoved(End(n, r), e)
    ensures var m := With(n, r, e, Wire(n, r), Wire(n, r.Peer())); InOrder(m, r) && InOrder(m, r.Peer())
  {
    hide InOrder;
    SynsAppend(Wire(n, r), End(n, r).outQ);
    SynsAppend(Wire(n, r), e.outQ);
    UnmovedOrder(n, r, e, Wire(n, r), Wire(n, r.Peer()));
  }

  lemma OrderedGrows(line: seq<u32>, issued: seq<u32>, id: u32)
    requires Ordered(line, issued, id)
    ensures Ordered(line + [id], issued + [id], id + 2)
  {
    IncreasingGrows(line, id);
    IncreasingGrows(issued, id);
  }

  lemma IncreasingGrows(s: seq<u32>, id: u32)
    requires Increasing(s) && forall x :: x in s ==> x < id
    ensures Increasing(s + [id])
  {
    forall i, j | 0 <= i < j < |s + [id]|
      ensures (s + [id])[i] < (s + [id])[j]
    {
      if j == |s| {
        assert s[i] in s;
      }
    }
  }

  lemma OrderedDrops(a: seq<u32>, x: seq<u32>, b: seq<u32>, issued: seq<u32>, next: int)
    requires Ordered(a + (x + b), issued, next)
    ensures Ordered(a + b, issued, next)
  {
    var s, t := a + (x + b), a + b;
    assert forall i :: 0 <= i < |t| ==> t[i] == s[if i < |a| then i else i + |x|];
  }

  lemma OpenOrder(n: Net, r: Role, e1: Endpoint, id: u32)
    requires InOrder(n, r) && InOrder(n, r.Peer()) && id == End(n, r).nextId
    requires e1.outQ == End(n, r).outQ + [Syn(id)] && e1.sent == End(n, r).sent + [Syn(id)]
    requires e1.nextId == id + 2 && Doors(e1) == Doors(End(n, r))
    ensures var m := With(n, r, e1, Wire(n, r), Wire(n, r.Peer())); InOrder(m, r) && InOrder(m, r.Peer())
  {
    hide Ordered;
    var m := With(n, r, e1, Wire(n, r), Wire(n, r.Peer()));
    Queueing(n, r, e1, [Syn(id)], 0);
    SynsAppend(Pipe(n, r), [Syn(id)]);
    SynsAppend(End(n, r).sent, [Syn(id)]);
    assert Syns([Syn(id)]) == [id] by { assert [Syn(id)][1..] == []; }
    assert Line(m, r) == Line(n, r) + [id];
    OrderedGrows(Line(n, r), Syns(End(n, r).sent), id);
    assert Line(m, r.Peer()) == Line(n, r.Peer());
  }

  /** The head of the pipe is let in through the door, or turned away. */
  lemma OrderedPasses(doors: seq<u32>, doors1: seq<u32>, id: u32, rest: seq<u32>, issued: seq<u32>, next: int)
    requires Ordered(doors + ([id] + rest), issued, next) && (doors1 == doors || doors1 == doors + [id])
    ensures Ordered(doors1 + rest, issued, next)
  {
    hide Ordered;
    if doors1 == doors {
      OrderedDrops(doors, [id], rest, issued, next);
    } else {
      assert (doors + [id]) + rest == doors + ([id] + rest);
    }
  }

  /** What is left in the pipes once the reader of `r` has taken a frame and become `e1`. */
  lemma SynsTaken(n: Net, r: Role, e1: Endpoint)
    requires Wire(n, r.Peer()) != [] && Syns(e1.outQ) == Syns(End(n, r).outQ)
    ensures var f, m := Wire(n, r.Peer())[0], Taken(n, r, e1);
            && Syns(Pipe(n, r.Peer())) == (if IsSyn(f) then [f.id] else []) + Syns(Pipe(m, r.Peer()))
            && Syns(Pipe(m, r)) == Syns(Pipe(n, r))
  {
    var p, m := r.Peer(), Taken(n, r, e1);
    var f := Wire(n, p)[0];
    assert Pipe(n, p) == [f] + Pipe(m, p) && Pipe(n, p)[1..] == Pipe(m, p);
    SynsAppend(Wire(n, r), End(n, r).outQ);
    SynsAppend(Wire(n, r), e1.outQ);
  }

  /** The reader of `r` takes the SYN of stream `id` and becomes `e1`: `id` is let in, or refused. */
  lemma SynOrder(n: Net, r: Role, e1: Endpoint, id: u32)
    requires InOrder(n, r) && InOrder(n, r.Peer())
    requires Wire(n, r.Peer()) != [] && Wire(n, r.Peer())[0] == Syn(id)
    requires e1.nextId == End(n, r).nextId && Syns(e1.outQ) == Syns(End(n, r).outQ)
    requires Syns(e1.sent) == Syns(End(n, r).sent)
    requires Doors(e1) == Doors(End(n, r)) || Doors(e1) == Doors(End(n, r)) + [id]
    ensures InOrder(Taken(n, r, e1), r) && InOrder(Taken(n, r, e1), r.Peer())
  {
    hide Ordered, Syns, Pipe, Doors;
    var e, p, m := End(n, r), r.Peer(), Taken(n, r, e1);
    SynsTaken(n, r, e1);
    OrderedPasses(Doors(e), Doors(e1), id, Syns(Pipe(m, p)), Syns(End(n, p).sent), End(n, p).nextId);
  }

  /** The reader of `r` takes any other frame. */
  lemma OtherOrder(n: Net, r: Role, e1: Endpoint)
    requires InOrder(n, r) && InOrder(n, r.Peer())
    requires Wire(n, r.Peer()) != [] && !IsSyn(Wire(n, r.Peer())[0]) && Unmoved(End(n, r), e1)
    ensures InOrder(Taken(n, r, e1), r) && InOrder(Taken(n, r, e1), r.Peer())
  {
    hide Ordered, Syns, Pipe, Doors;
    var p, m := r.Peer(), Taken(n, r, e1);
    SynsTaken(n, r, e1);
    assert [] + Syns(Pipe(m, p)) == Syns(Pipe(m, p));
  }

  lemma DeliverOrder(n: Net, r: Role)
    requires NetOk(n) && Enabled(n, Event(r, Deliver)) && InOrder(n, r) && InOrder(n, r.Peer())
    ensures var m := Step(n, Event(r, Deliver)); InOrder(m, r) && InOrder(m, r.Peer())
  {
    hide InOrder, ReaderStep, Unmoved, InitiateShutdown;
    var e, f := End(n, r), Wire(n, r.Peer())[0];
    var e1 := ReaderStep(e, f);
    if !Passes(e.cfg, f) {
      ShutdownUnmoved(e, ProtocolError);
      LocalOrder(n, r, InitiateShutdown(e, ProtocolError));
    } else if IsSyn(f) {
      SynIsNew(n, r);
      SynDoors(n, r, f.id);
      SynOrder(n, r, e1, f.id);
    } else {
      ReaderUnmoved(e, f);
      OtherOrder(n, r, e1);
    }
  }

  lemma SynDoors(n: Net, r: Role, id: u32)
    requires NetOk(n) && !End(n, r).closing && id != 0 && r.Peer().Owns(id) && id !in End(n, r).entries
    ensures var e := End(n, r);
            var e1 := ReaderStep(e, Syn(id));
            && e1.nextId == e.nextId && Syns(e1.outQ) == Syns(e.outQ) && Syns(e1.sent) == Syns(e.sent)
            && (Doors(e1) == Doors(e) || Doors(e1) == Doors(e) + [id])
  {
    var e := End(n, r);
    assert EndOk(e) && !e.role.Owns(id);
    hide NetOk, EndOk;
    SynStep(e, id);
    var e1 := ReaderStep(e, Syn(id));
    if |Registered(e)| >= e.cfg.maxStreams {
      if e.outOpen {
        PushUnmoved(e, [Rst(id)], e1);
      }
    } else {
      assert e.accepted + (e.acceptQ + [id]) == (e.accepted + e.acceptQ) + [id];
    }
  }

  lemma ForgetOrder(n: Net, r: Role, k: nat)
    requires InOrder(n, r) && InOrder(n, r.Peer()) && k <= |End(n, r).outQ|
    ensures InOrder(Forgetting(n, r, k), r) && InOrder(Forgetting(n, r, k), r.Peer())
  {
    hide Ordered, Syns, Forgotten;
    var q, m, doors := End(n, r).outQ, Forgetting(n, r, k), Doors(End(n, r.Peer()));
    PipeParts(n, r, k, 0);
    SynsAppend(Wire(n, r) + q[..k], q[k..]);
    SynsAppend(Wire(n, r), q[..k]);
    SynsAppend(Wire(n, r), q[k..]);
    var a, b, c := Syns(Wire(n, r)), Syns(q[..k]), Syns(q[k..]);
    assert doors + (a + b + c) == (doors + a) + (b + c);
    assert (doors + a) + c == doors + (a + c);
    OrderedDrops(doors + a, b, c, Syns(End(n, r).sent), End(n, r).nextId);
  }

  lemma WriterOrder(n: Net, r: Role)
    requires InOrder(n, r) && InOrder(n, r.Peer())
    ensures Enabled(n, Event(r, Move)) ==>
              var m := Step(n, Event(r, Move)); InOrder(m, r) && InOrder(m, r.Peer())
    ensures Enabled(n, Event(r, Exit)) ==>
              var m := Step(n, Event(r, Exit)); InOrder(m, r) && InOrder(m, r.Peer())
  {
    hide InOrder, Forget, InitiateShutdown, Unmoved;
    var e := End(n, r);
    if Enabled(n, Event(r, Move)) {
      if Passes(e.cfg, e.outQ[0]) {
        MovePipes(n, r);
        UnmovedOrder(n, r, e.(outQ := e.outQ[1..]), Wire(n, r) + [e.outQ[0]], Wire(n, r.Peer()));
      } else {
        MoveFails(n, r);
        ShutdownUnmoved(e, InternalError);
        LocalOrder(n, r, InitiateShutdown(e, InternalError));
        ForgetOrder(Step(n, Event(r, Close(InternalError))), r, 1);
      }
    }
    if Enabled(n, Event(r, Exit)) {
      var n1 := Forgetting(n, r, |e.outQ|);
      ForgetOrder(n, r, |e.outQ|);
      UnmovedOrder(n1, r, WriterExit(e), Wire(n, r), Wire(n, r.Peer()));
    }
  }

  lemma StepOrder(n: Net, ev: Event)
    requires NetOk(n) && Enabled(n, ev) && InOrder(n, ev.who) && InOrder(n, ev.who.Peer())
    ensures InOrder(Step(n, ev), ev.who) && InOrder(Step(n, ev), ev.who.Peer())
  {
    hide InOrder, UserStep, Endpoints.Accept, InitiateShutdown, ReaderStep;
    var r, e := ev.who, End(n, ev.who);
    assert EndOk(e);
    hide NetOk, EntriesOk, QueuesOk;
    match ev.act {
      case Open =>
        FreshNext(n, r);
        if CanOpen(e) {
          OpenOrder(n, r, Endpoints.Open(e), e.nextId);
        } else {
          assert Endpoints.Open(e) == e;
          LocalOrder(n, r, e);
        }
      case Use(id, what) => UseUnmoved(e, id, what); LocalOrder(n, r, UserStep(e, id, what));
      case Accept => AcceptUnmoved(e); LocalOrder(n, r, Endpoints.Accept(e));
      case Close(code) => ShutdownUnmoved(e, code); LocalOrder(n, r, InitiateShutdown(e, code));
      case Probe(k) =>
        PushUnmoved(e, [PingRequest(k)], Push(e, [PingRequest(k)]));
        LocalOrder(n, r, Push(e, [PingRequest(k)]));
      case Move => WriterOrder(n, r);
      case Exit => WriterOrder(n, r);
      case Deliver => DeliverOrder(n, r);
      case Collect => LocalOrder(n, r, CloserStep(e));
    }
  }

  // ---------------------------------------------------------------- any run

  ghost predicate Orderly(n: Net) {
    Books(n.client) && Books(n.server) && InOrder(n, Client) && InOrder(n, Server)
  }

  lemma {:induction false} RunOrderly(n: Net, t: Trace)
    requires NetOk(n) && Legal(n, t) && Orderly(n)
    ensures NetOk(Run(n, t)) && Orderly(Run(n, t))
    decreases |t|
  {
    hide NetOk, Books, InOrder;
    if t != [] {
      StepKeeps(n, t[0]);
      StepBooks(n, t[0]);
      StepOrder(n, t[0]);
      RunOrderly(Step(n, t[0]), t[1..]);
    }
  }

  lemma StartsOrderly(c: Config, s: Config)
    ensures Orderly(Init(c, s))
  {
    var n0 := Init(c, s);
    assert Registered(n0.client) == {} && Registered(n0.server) == {};
    assert Pipe(n0, Client) == [] && Pipe(n0, Server) == [];
  }

  lemma AlwaysOrderly(c: Config, s: Config, n: Net)
    requires Reachable(c, s, n)
    ensures NetOk(n) && Orderly(n)
  {
    hide NetOk, Orderly;
    var t: Trace :| Legal(Init(c, s), t) && Run(Init(c, s), t) == n;
    InitOk(c, s);
    StartsOrderly(c, s);
    RunOrderly(Init(c, s), t);
  }

  lemma AckedPair(x: Side, y: Side, xc: seq<Frame>, yc: seq<Frame>, wx: u32, wy: u32)
    requires PairOk(x, y, xc, yc, wx, wy, true) && SideOk(x, wx) && x.entry.Some?
    ensures x.entry.value.stream.acked || x.entry.value.holder == User ==>
              y.entry.Some? && y.entry.value.holder != Queued
    ensures !x.entry.value.stream.acked ==> Kept(x) == [] && Payload(xc) == []
  {
  }

  /**
  Handshake agreement. `open` can return Ok for `id` (it waits for `acked`) only once the
  peer's `accept` has handed out that very id; and until then the opener has put no
  payload on the stream.
  */
  lemma OpenNeedsAccept(c: Config, s: Config, n: Net, r: Role, id: u32)
    requires Reachable(c, s, n) && r.Owns(id) && id in End(n, r).entries
    ensures StreamAt(n, r, id).acked || End(n, r).entries[id].holder == User ==> id in End(n, r.Peer()).accepted
    ensures !StreamAt(n, r, id).acked ==> StreamAt(n, r, id).log.wrote == [] && Payload(Flight(n, r, id)) == []
  {
    hide Reachable, PairOk, InOrder, AckFirst;
    AlwaysOrderly(c, s, n);
    Facts(c, s, n, r, id);
    var p := r.Peer();
    AckedPair(SideOf(End(n, r), id), SideOf(End(n, p), id), Flight(n, r, id), Flight(n, p, id),
              End(n, r).cfg.window, End(n, p).cfg.window);
    assert Books(End(n, p)) && !End(n, p).role.Owns(id);
  }

  /** Ids are handed out by `accept` at most once, in the order their SYNs were sent, which is increasing. */
  lemma AcceptedInSynOrder(c: Config, s: Config, n: Net, r: Role)
    requires Reachable(c, s, n)
    ensures Increasing(End(n, r).accepted) && Increasing(Syns(End(n, r.Peer()).sent))
    ensures forall id :: id in End(n, r).accepted ==> id in Syns(End(n, r.Peer()).sent)
  {
    hide Reachable, NetOk, Books, Ordered, Syns, Pipe;
    AlwaysOrderly(c, s, n);
    var p, e := r.Peer(), End(n, r);
    assert InOrder(n, p);
    assert e.accepted <= Line(n, p);
    OrderedPrefix(e.accepted, Line(n, p), Syns(End(n, p).sent), End(n, p).nextId);
  }

  lemma OrderedPrefix(a: seq<u32>, line: seq<u32>, issued: seq<u32>, next: int)
    requires Ordered(line, issued, next) && a <= line
    ensures Increasing(a) && Increasing(issued) && forall id :: id in a ==> id in issued
  {
    assert forall i :: 0 <= i < |a| ==> a[i] == line[i];
  }

  /** The first thing an acceptor says on a stream, resets aside, is its ACK. */
  lemma AcceptorSpeaksAckFirst(c: Config, s: Config, n: Net, r: Role, i: nat)
    requires Reachable(c, s, n)
    requires i < |End(n, r).sent| && Speech(End(n, r).sent[i]) && !r.Owns(End(n, r).sent[i].id)
    ensures Ack(End(n, r).sent[i].id) in End(n, r).sent[..i + 1]
  {
    hide Reachable, InOrder;
    AlwaysOrderly(c, s, n);
    assert Books(End(n, r)) && End(n, r).role == r;
  }

  // ---------------------------------------------------------------- registry

  /**
  A stream in the user's hands that is not reset is registered until the session closes; so one still writable
  always is.
  */
  lemma HandlesAreRegistered(c: Config, s: Config, n: Net, r: Role, id: u32)
    requires Reachable(c, s, n) && id in End(n, r).entries && End(n, r).entries[id].holder == User
    ensures !StreamAt(n, r, id).state.reset && !End(n, r).closing ==> End(n, r).entries[id].registered
    ensures StreamAt(n, r, id).state.writeOpen && !StreamAt(n, r, id).state.reset ==> End(n, r).entries[id].registered
  {
    Invariant(c, s, n);
    assert EntryOk(End(n, r).entries[id], End(n, r).closing, End(n, r).cfg.window);
  }

  /**
  A closer signal, however late or repeated, finds only the stream that sent it, dropped or
  reset: the id lies below the next id of the endpoint that opens such streams, and no SYN under
  way carries it, so nothing can bring it back.
  */
  lemma ClosersHitTheirOwn(c: Config, s: Config, n: Net, r: Role, id: u32)
    requires Reachable(c, s, n) && id in End(n, r).closerQ
    ensures id in End(n, r).entries
    ensures End(n, r).entries[id].holder == Nobody || StreamAt(n, r, id).state.reset
    ensures id < End(n, Opener(id)).nextId
    ensures forall f :: f in Pipe(n, r.Peer()) && IsSyn(f) ==> f.id != id
  {
    hide Reachable;
    Invariant(c, s, n);
    assert EndOk(End(n, r));
    OpenedBefore(c, s, n, r, id);
    forall f | f in Pipe(n, r.Peer()) && IsSyn(f)
      ensures f.id != id
    {
      if f.id == id {
        ProjectElements(Pipe(n, r.Peer()), id);
        Facts(c, s, n, r, id);
      }
    }
  }

  /** Every stream an endpoint knows was opened by its opener. */
  lemma OpenedBefore(c: Config, s: Config, n: Net, r: Role, id: u32)
    requires Reachable(c, s, n) && id in End(n, r).entries
    ensures id in End(n, Opener(id)).entries && id < End(n, Opener(id)).nextId
  {
    hide Reachable;
    Invariant(c, s, n);
    assert EndOk(End(n, r)) && End(n, r).role == r && End(n, r.Peer()).role == r.Peer();
    Facts(c, s, n, r, id);
    assert EndOk(End(n, r.Peer()));
  }

  ghost function Buffered(e: Endpoint, ids: set<u32>): nat
    requires forall id :: id in ids ==> id in e.entries
  {
    if ids == {} then 0
    else var id :| id in ids; |e.entries[id].stream.buffer| + Buffered(e, ids - {id})
  }

  lemma {:induction false} BufferedBound(e: Endpoint, ids: set<u32>, w: nat)
    requires forall id :: id in ids ==> id in e.entries && |e.entries[id].stream.buffer| <= w
    ensures Buffered(e, ids) <= |ids| * w
  {
    if ids != {} {
      var id :| id in ids && Buffered(e, ids) == |e.entries[id].stream.buffer| + Buffered(e, ids - {id});
      BufferedBound(e, ids - {id}, w);
      MulStep(|ids - {id}|, w);
    }
  }

  /**
  Memory: at most `maxStreams` streams are registered, and together they buffer at most that many of the
  peer's windows.
  */
  lemma MemoryBound(c: Config, s: Config, n: Net, r: Role)
    requires Reachable(c, s, n)
    ensures |Registered(End(n, r))| <= End(n, r).cfg.maxStreams
    ensures Buffered(End(n, r), Registered(End(n, r))) <= |Registered(End(n, r))| * End(n, r.Peer()).cfg.window
    ensures Buffered(End(n, r), Registered(End(n, r))) <= End(n, r).cfg.maxStreams * End(n, r.Peer()).cfg.window
  {
    hide Reachable, NetOk, InOrder, Accepted, AckFirst;
    AlwaysOrderly(c, s, n);
    var e, w := End(n, r), End(n, r.Peer()).cfg.window;
    assert Books(e);
    forall id | id in Registered(e)
      ensures |e.entries[id].stream.buffer| <= w
    {
      WindowBounds(c, s, n, r, id);
    }
    BufferedBound(e, Registered(e), w);
    MulMono(|Registered(e)|, e.cfg.maxStreams, w);
  }

  lemma MulStep(k: nat, w: nat)
    ensures (k + 1) * w == k * w + w
  {
  }

  lemma MulMono(a: nat, b: nat, w: nat)
    requires a <= b
    ensures a * w <= b * w
  {
  }
}
