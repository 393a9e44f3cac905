/**
Keepalive: while both sessions are open, every probe comes back with its own value, once and in order. The values one
side has probed are, oldest first, those whose answers it has taken, those whose answers are on their way, and those
that are themselves still on their way.
*/
module Pings {
  import opened Base
  import opened Frames
  import opened Ids
  import opened Streams
  import opened Endpoints
  import opened Network
  import opened Delivering
  import opened Settling
  import opened Jams

  /** The values of the pings among `fs`, or of the answers. */
  function Values(fs: seq<Frame>, answers: bool): seq<u32> {
    if fs == [] then []
    else (if fs[0].Ping? && fs[0].flags.ack == answers then [fs[0].opaqueValue] else []) + Values(fs[1..], answers)
  }

  lemma {:induction false} ValuesAppend(a: seq<Frame>, b: seq<Frame>, answers: bool)
    ensures Values(a + b, answers) == Values(a, answers) + Values(b, answers)
  {
    if a == [] {
      assert a + b == b;
    } else {
      assert (a + b)[0] == a[0] && (a + b)[1..] == a[1..] + b;
      ValuesAppend(a[1..], b, answers);
      var first: seq<u32> := if a[0].Ping? && a[0].flags.ack == answers then [a[0].opaqueValue] else [];
      assert first + (Values(a[1..], answers) + Values(b, answers)) ==
             (first + Values(a[1..], answers)) + Values(b, answers);
    }
  }

  lemma {:induction false} NoValues(fs: seq<Frame>, answers: bool)
    requires forall f :: f in fs ==> !f.Ping?
    ensures Values(fs, answers) == []
  {
    if fs != [] {
      assert fs[0] in fs;
      NoValues(fs[1..], answers);
    }
  }

  lemma OneValue(f: Frame, answers: bool)
    ensures Values([f], answers) == if f.Ping? && f.flags.ack == answers then [f.opaqueValue] else []
  {
    assert [f][1..] == [];
  }

  // ---------------------------------------------------------------- what the keepalive task sees

  /** The value `r` probes in this step. */
  function Probed(ev: Event, r: Role): seq<u32> {
    if ev.who == r && ev.act.Probe? then [ev.act.n] else []
  }

  /** The answer `r` takes from the wire in this step, as `dispatch` hands it to the keepalive task. */
  function Answered(n: Net, ev: Event, r: Role): seq<u32>
    requires Enabled(n, ev)
  {
    if ev == Event(r, Deliver) then Values(Wire(n, r.Peer())[..1], true) else []
  }

  function ProbedIn(t: Trace, r: Role): seq<u32> {
    if t == [] then [] else Probed(t[0], r) + ProbedIn(t[1..], r)
  }

  function AnsweredIn(n: Net, t: Trace, r: Role): seq<u32>
    requires Legal(n, t)
    decreases |t|
  {
    if t == [] then [] else Answered(n, t[0], r) + AnsweredIn(Step(n, t[0]), t[1..], r)
  }

  /** Probes of `r` that are not yet answered: first those whose answers are on their way. */
  function Outstanding(n: Net, r: Role): seq<u32> {
    Values(Pipe(n, r.Peer()), true) + Values(Pipe(n, r), false)
  }

  // ---------------------------------------------------------------- what a step adds

  lemma UseQuiet(e: Endpoint, id: u32, what: UserAct)
    requires id in e.entries && Allowed(e.entries[id], what)
    ensures var fs := if e.outOpen then Apply(e.entries[id], what, e.cfg.maxFrame, e.outOpen).frames else [];
            UserStep(e, id, what).outQ == e.outQ + fs && forall f :: f in fs ==> !f.Ping?
  {
    ApplyQuiet(e.entries[id], what, e.cfg.maxFrame, e.outOpen);
    hide Apply;
    assert e.outQ + [] == e.outQ;
  }

  lemma ApplyQuiet(en: Entry, what: UserAct, maxFrame: u32, outOpen: bool)
    requires Allowed(en, what)
    ensures forall f :: f in Apply(en, what, maxFrame, outOpen).frames ==> !f.Ping?
  {
  }

  lemma KnownQuiet(e: Endpoint, id: u32, flags: Flags, payload: seq<u8>) returns (fs: seq<Frame>)
    ensures HandleKnown(e, id, flags, payload).0.outQ == e.outQ + fs && forall f :: f in fs ==> !f.Ping?
  {
    assert e.outQ + [] == e.outQ;
    var e1 := HandleKnown(e, id, flags, payload).0;
    fs := e1.outQ[|e.outQ|..];
  }

  /** Taking a frame without shutting down: only a ping draws an answer, and it is a pong of the same value. */
  lemma ReaderAnswers(e: Endpoint, f: Frame) returns (fs: seq<Frame>)
    requires e.outOpen && !ReaderStep(e, f).closing
    ensures ReaderStep(e, f).outQ == e.outQ + fs
    ensures Values(fs, false) == [] && Values(fs, true) == Values([f], false)
  {
    hide HandleKnown;
    OneValue(f, false);
    assert e.outQ + [] == e.outQ;
    match f
    case Data(id, flags, payload) =>
      var e2 := Put(e, id, Entry(New(id, Remote, e.cfg.window), true, Queued)).(acceptQ := e.acceptQ + [id]);
      var a := KnownQuiet(e, id, flags, payload);
      var b := KnownQuiet(e2, id, flags, payload);
      fs := if ReaderStep(e, f).outQ == e.outQ then [] else ReaderStep(e, f).outQ[|e.outQ|..];
      assert fs == [] || fs == [Rst(id)] || fs == a || fs == b;
      NoValues(fs, true);
      NoValues(fs, false);
    case WindowUpdate(_, _, _) => fs := [];
    case GoAway(_) => fs := [];
    case Ping(flags, n) =>
      fs := if flags.ack then [] else [Pong(n)];
      OneValue(Pong(n), true);
      OneValue(Pong(n), false);
  }

  /** A local call adds `fs` to the queue of `r`, none of it an answer. */
  lemma QueueAdds(n: Net, r: Role, e1: Endpoint, fs: seq<Frame>)
    requires e1.outQ == End(n, r).outQ + fs && Values(fs, true) == []
    ensures var m := With(n, r, e1, Wire(n, r), Wire(n, r.Peer()));
            && Outstanding(m, r) == Outstanding(n, r) + Values(fs, false)
            && Outstanding(m, r.Peer()) == Outstanding(n, r.Peer())
  {
    var p, m := r.Peer(), With(n, r, e1, Wire(n, r), Wire(n, r.Peer()));
    Queueing(n, r, e1, fs, 0);
    ValuesAppend(Pipe(n, r), fs, true);
    ValuesAppend(Pipe(n, r), fs, false);
    hide Values, Pipe;
    assert (Values(Pipe(n, p), true) + Values(Pipe(n, r), false)) + Values(fs, false) ==
           Values(Pipe(n, p), true) + (Values(Pipe(n, r), false) + Values(fs, false));
    assert Values(Pipe(n, r), true) + [] == Values(Pipe(n, r), true);
  }

  lemma QuietAdds(n: Net, r: Role, e1: Endpoint, fs: seq<Frame>)
    requires e1.outQ == End(n, r).outQ + fs && forall f :: f in fs ==> !f.Ping?
    ensures var m := With(n, r, e1, Wire(n, r), Wire(n, r.Peer()));
            Outstanding(m, r) == Outstanding(n, r) && Outstanding(m, r.Peer()) == Outstanding(n, r.Peer())
  {
    hide Outstanding;
    NoValues(fs, true);
    NoValues(fs, false);
    QueueAdds(n, r, e1, fs);
    assert Outstanding(n, r) + [] == Outstanding(n, r);
  }

  lemma SamePipes(n: Net, m: Net, r: Role)
    requires Pipe(m, r) == Pipe(n, r) && Pipe(m, r.Peer()) == Pipe(n, r.Peer())
    ensures Outstanding(m, r) == Outstanding(n, r) && Outstanding(m, r.Peer()) == Outstanding(n, r.Peer())
  {
  }

  /** `r` takes a frame: an answer leaves what it has outstanding; a ping of the peer becomes an answer. */
  lemma DeliverMoves(n: Net, r: Role)
    requires Enabled(n, Event(r, Deliver)) && BothOpen(n) && BothOpen(Step(n, Event(r, Deliver)))
    ensures var m := Step(n, Event(r, Deliver));
            && Outstanding(n, r) == Answered(n, Event(r, Deliver), r) + Outstanding(m, r)
            && Outstanding(m, r.Peer()) == Outstanding(n, r.Peer())
  {
    hide ReaderStep, Values;
    var p, e, m := r.Peer(), End(n, r), Step(n, Event(r, Deliver));
    OpenTakes(n, r);
    var f := Wire(n, p)[0];
    var fs := ReaderAnswers(e, f);
    assert Wire(n, p)[..1] == [f] && Pipe(n, p) == [f] + Pipe(m, p);
    ValuesAppend([f], Pipe(m, p), true);
    ValuesAppend([f], Pipe(m, p), false);
    assert Pipe(m, r) == Pipe(n, r) + fs by {
      assert Wire(n, r) + (e.outQ + fs) == (Wire(n, r) + e.outQ) + fs;
    }
    ValuesAppend(Pipe(n, r), fs, true);
    ValuesAppend(Pipe(n, r), fs, false);
    var a, b, c, d := Values(Pipe(n, r), true), Values([f], false), Values(Pipe(m, p), false), Values([f], true);
    assert a + (b + c) == (a + b) + c;
    var x, y := Values(Pipe(m, p), true), Values(Pipe(n, r), false);
    assert (d + x) + y == d + (x + y) && y + [] == y;
  }

  lemma LocalMoves(n: Net, ev: Event)
    requires NetOk(n) && Enabled(n, ev) && BothOpen(n) && BothOpen(Step(n, ev))
    requires !ev.act.Deliver? && !ev.act.Move? && !ev.act.Probe?
    ensures Outstanding(Step(n, ev), ev.who) == Outstanding(n, ev.who)
    ensures Outstanding(Step(n, ev), ev.who.Peer()) == Outstanding(n, ev.who.Peer())
  {
    hide NetOk, UserStep, Outstanding, Pipe, EntriesOk, QueuesOk;
    var r, e := ev.who, End(n, ev.who);
    EndIsOk(n, r);
    assert e.outQ + [] == e.outQ;
    match ev.act
    case Open =>
      FreshNext(n, r);
      QuietAdds(n, r, Endpoints.Open(e), if CanOpen(e) then [Syn(e.nextId)] else []);
    case Use(id, what) =>
      UseQuiet(e, id, what);
      QuietAdds(n, r, UserStep(e, id, what),
                if e.outOpen then Apply(e.entries[id], what, e.cfg.maxFrame, e.outOpen).frames else []);
    case Accept => QuietAdds(n, r, Endpoints.Accept(e), [Ack(e.acceptQ[0])]);
    case Collect => QuietAdds(n, r, CloserStep(e), []);
    case Close(_) =>
    case Exit =>
  }

  lemma ProbeMoves(n: Net, r: Role, k: u32)
    requires Enabled(n, Event(r, Probe(k))) && BothOpen(n)
    ensures var m := Step(n, Event(r, Probe(k)));
            Outstanding(m, r) == Outstanding(n, r) + [k] && Outstanding(m, r.Peer()) == Outstanding(n, r.Peer())
  {
    hide Outstanding;
    OneValue(PingRequest(k), true);
    OneValue(PingRequest(k), false);
    QueueAdds(n, r, Push(End(n, r), [PingRequest(k)]), [PingRequest(k)]);
  }

  /** One step, for the probes of `q`. */
  lemma StepBalance(n: Net, ev: Event, q: Role)
    requires NetOk(n) && Enabled(n, ev) && BothOpen(n) && BothOpen(Step(n, ev))
    ensures Outstanding(n, q) + Probed(ev, q) == Answered(n, ev, q) + Outstanding(Step(n, ev), q)
  {
    hide NetOk, Step, Enabled, BothOpen, Outstanding;
    var r := ev.who;
    assert Outstanding(n, q) + [] == Outstanding(n, q);
    assert [] + Outstanding(Step(n, ev), q) == Outstanding(Step(n, ev), q);
    match ev.act
    case Deliver =>
      assert ev == Event(r, Deliver);
      DeliverMoves(n, r);
    case Probe(k) =>
      assert ev == Event(r, Probe(k));
      ProbeMoves(n, r, k);
    case Move =>
      assert ev == Event(r, Move);
      OpenPasses(n, ev);
      MovePipes(n, r);
      SamePipes(n, Step(n, ev), r);
    case _ => LocalMoves(n, ev);
  }

  // ---------------------------------------------------------------- every run

  lemma Regroup(a: seq<u32>, b: seq<u32>, c: seq<u32>)
    ensures (a + b) + c == a + (b + c)
  {
  }

  lemma {:induction false} RunBalance(n: Net, t: Trace, r: Role)
    requires NetOk(n) && Legal(n, t) && BothOpen(Run(n, t))
    ensures Outstanding(n, r) + ProbedIn(t, r) == AnsweredIn(n, t, r) + Outstanding(Run(n, t), r)
    decreases |t|
  {
    hide NetOk, Step, Enabled, BothOpen, Outstanding, Probed, Answered;
    if t == [] {
      assert Outstanding(n, r) + [] == Outstanding(n, r) && [] + Outstanding(n, r) == Outstanding(n, r);
    } else {
      var m := Step(n, t[0]);
      if !BothOpen(n) {
        ShutForGood(n, t);
      }
      if !BothOpen(m) {
        ShutForGood(m, t[1..]);
      }
      StepKeeps(n, t[0]);
      StepBalance(n, t[0], r);
      RunBalance(m, t[1..], r);
      var a, b := Probed(t[0], r), ProbedIn(t[1..], r);
      var c, d := Answered(n, t[0], r), AnsweredIn(m, t[1..], r);
      Regroup(Outstanding(n, r), a, b);
      Regroup(c, Outstanding(m, r), b);
      Regroup(c, d, Outstanding(Run(n, t), r));
    }
  }

  /** In every run, while both sessions are open: probed = answered + answers on their way + probes on their way. */
  lemma ProbesComeBack(c: Config, s: Config, t: Trace, r: Role)
    requires ValidConfig(c) && ValidConfig(s) && Legal(Init(c, s), t) && BothOpen(Run(Init(c, s), t))
    ensures var n := Run(Init(c, s), t);
            ProbedIn(t, r) ==
            AnsweredIn(Init(c, s), t, r) + Values(Pipe(n, r.Peer()), true) + Values(Pipe(n, r), false)
  {
    hide NetOk, Step, Enabled, BothOpen;
    InitOk(c, s);
    RunBalance(Init(c, s), t, r);
    var n0, n := Init(c, s), Run(Init(c, s), t);
    assert Pipe(n0, Client) == [] && Pipe(n0, Server) == [];
    assert Outstanding(n0, r) == [] && [] + ProbedIn(t, r) == ProbedIn(t, r);
    Regroup(AnsweredIn(n0, t, r), Values(Pipe(n, r.Peer()), true), Values(Pipe(n, r), false));
  }

  /** So the answers are the probes, one by one; and at rest none is missing. */
  lemma AnswersMatch(c: Config, s: Config, t: Trace, r: Role)
    requires ValidConfig(c) && ValidConfig(s) && Legal(Init(c, s), t) && BothOpen(Run(Init(c, s), t))
    ensures AnsweredIn(Init(c, s), t, r) <= ProbedIn(t, r)
    ensures Resting(Run(Init(c, s), t)) ==> AnsweredIn(Init(c, s), t, r) == ProbedIn(t, r)
  {
    hide NetOk, Step, Enabled, BothOpen;
    ProbesComeBack(c, s, t, r);
    var n := Run(Init(c, s), t);
    if Resting(n) {
      assert Pipe(n, Client) == [] && Pipe(n, Server) == [];
    }
  }
}
