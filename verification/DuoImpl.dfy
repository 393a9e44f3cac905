/**
Two session objects and the wires between them, driven event by event. Every event changes the
pair exactly as the transition system does, so what is proved of all its runs is true of the objects.
*/
module DuoImpl {
  import opened Base
  import opened Frames
  import opened Ids
  import E = Endpoints
  import N = Network
  import D = Delivering
  import opened StreamImpl
  import opened RegistryImpl
  import opened SessionImpl

  /** When an endpoint can act without a frame from the wire, and what it then becomes. */
  predicate Ready(e: E.Endpoint, act: N.Act) {
    match act
    case Use(id, what) => id in e.entries && E.Allowed(e.entries[id], what)
    case Accept => !e.closing && e.acceptQ != [] && e.acceptQ[0] in e.entries
    case Collect => !e.closing && e.closerQ != []
    case Move => false
    case Deliver => false
    case _ => true
  }

  function Alone(e: E.Endpoint, act: N.Act): E.Endpoint
    requires Ready(e, act)
  {
    match act
    case Open => E.Open(e)
    case Use(id, what) => E.UserStep(e, id, what)
    case Accept => E.Accept(e)
    case Close(code) => E.InitiateShutdown(e, code)
    case Probe(k) => E.Push(e, [PingRequest(k)])
    case Exit => E.WriterExit(e)
    case Collect => E.CloserStep(e)
    case _ => e
  }

  /** What the writer does with the oldest frame: `f` goes out, or the write fails. */
  predicate Sends(e: E.Endpoint, f: Option<Frame>, e1: E.Endpoint)
    requires e.outQ != []
  {
    if E.Passes(e.cfg, e.outQ[0]) then f == Some(e.outQ[0]) && e1 == e.(outQ := e.outQ[1..])
    else f == None && e1 == E.WriteFailed(e)
  }

  /** What the reader does with a frame that reaches it. */
  function Hears(e: E.Endpoint, f: Frame): E.Endpoint {
    if E.Passes(e.cfg, f) then E.ReaderStep(e, f) else E.InitiateShutdown(e, ProtocolError)
  }

  /** A session and the handles its users have, from `open` and from `accept`. */
  class Node {
    const session: Session
    var held: map<u32, StreamInner>

    /** Who holds a stream has the object on record, and so has the accept queue. */
    ghost predicate Coherent()
      reads this, session, session.registry
    {
      && (forall id :: id in session.registry.streams && id in session.registry.holders ==>
            session.registry.holders[id] in {E.Opening, E.User} ==>
              id in held && held[id] == session.registry.streams[id])
      && (forall k :: 0 <= k < |session.acceptQ| ==>
            session.acceptQ[k].id in session.registry.streams
            && session.registry.streams[session.acceptQ[k].id] == session.acceptQ[k])
    }

    ghost predicate Valid()
      reads this, session, session.registry, session.closer
    {
      this !in session.Footprint() && session.Valid() && Coherent()
    }

    ghost function Footprint(): set<object>
      reads this, session, session.registry
    {
      {this} + session.Footprint()
    }

    constructor (role: Role, cfg: E.Config, hiccups: nat)
      ensures Valid() && session.View() == E.NewEndpoint(role, cfg) && fresh(Footprint()) && held == map[]
    {
      hide Session.View, Session.Valid;
      session := new Session(role, cfg, hiccups);
      held := map[];
    }

    method Open(hiccups: nat)
      requires Valid() && session.View().nextId !in session.View().entries
      modifies this, session.registry, session.ids.next, session.out
      ensures Valid() && fresh(Footprint() - old(Footprint()))
      ensures session.View() == E.Open(old(session.View()))
    {
      hide Session.View, StreamRegistry.Valid, StreamRegistry.Recorded, E.Open;
      session.OnRecord(session.View().nextId);
      var r := session.BeginOpen(hiccups);
      if r.Some? {
        held := held[r.value.id := r.value];
      }
    }

    /** The user's handle on a stream the view says is held. */
    lemma HandleOf(id: u32)
      requires Valid() && id in session.View().entries && session.View().entries[id].holder in {E.Opening, E.User}
      ensures id in held && held[id].id == id && session.Holds(held[id], session.View().entries[id].holder)
      ensures held[id].Repr <= session.registry.parts
    {
      hide Session.View, StreamRegistry.Valid, StreamRegistry.Recorded;
      session.OnRecord(id);
    }

    method Write(id: u32, data: seq<u8>)
      requires Valid() && id in session.View().entries && E.Allowed(session.View().entries[id], E.Write(data))
      modifies session.registry.parts, session.out
      ensures Valid() && Footprint() == old(Footprint())
      ensures session.View() == E.UserStep(old(session.View()), id, E.Write(data))
    {
      hide Session.View, StreamRegistry.Valid, StreamRegistry.Recorded, E.UserStep;
      HandleOf(id);
      var h := new StreamHandle(held[id], session);
      var _ := h.PollWrite(data);
    }

    method Read(id: u32, cap: nat)
      requires Valid() && id in session.View().entries && E.Allowed(session.View().entries[id], E.Read(cap))
      modifies session.registry.parts, session.out
      ensures Valid() && Footprint() == old(Footprint())
      ensures session.View() == E.UserStep(old(session.View()), id, E.Read(cap))
    {
      hide Session.View, StreamRegistry.Valid, StreamRegistry.Recorded, E.UserStep;
      HandleOf(id);
      var h := new StreamHandle(held[id], session);
      var buf := new ReadBuf(cap);
      var _ := h.PollRead(buf);
    }

    method Finish(id: u32)
      requires Valid() && id in session.View().entries && E.Allowed(session.View().entries[id], E.Finish)
      modifies session.registry.parts, session.out
      ensures Valid() && Footprint() == old(Footprint())
      ensures session.View() == E.UserStep(old(session.View()), id, E.Finish)
    {
      hide Session.View, StreamRegistry.Valid, StreamRegistry.Recorded, E.UserStep;
      HandleOf(id);
      var h := new StreamHandle(held[id], session);
      h.PollShutdown();
    }

    method Reset(id: u32)
      requires Valid() && id in session.View().entries && E.Allowed(session.View().entries[id], E.Reset)
      modifies session.registry.parts, session.out, session.closer
      ensures Valid() && Footprint() == old(Footprint())
      ensures session.View() == E.UserStep(old(session.View()), id, E.Reset)
    {
      hide Session.View, StreamRegistry.Valid, StreamRegistry.Recorded, E.UserStep;
      HandleOf(id);
      var h := new StreamHandle(held[id], session);
      h.Reset();
    }

    method Drop(id: u32)
      requires Valid() && id in session.View().entries && E.Allowed(session.View().entries[id], E.Drop)
      modifies session.registry.parts, session.out, session.closer, session.registry`holders
      ensures Valid() && Footprint() == old(Footprint())
      ensures session.View() == E.UserStep(old(session.View()), id, E.Drop)
    {
      hide Session.View, StreamRegistry.Valid, StreamRegistry.Recorded, E.UserStep;
      HandleOf(id);
      var h := new StreamHandle(held[id], session);
      h.Drop();
    }

    method Opened(id: u32)
      requires Valid() && id in session.View().entries && E.Allowed(session.View().entries[id], E.Opened)
      modifies session.registry`inner, session.registry`holders
      ensures Valid() && Footprint() == old(Footprint())
      ensures session.View() == E.UserStep(old(session.View()), id, E.Opened)
    {
      hide Session.View, StreamRegistry.Valid, StreamRegistry.Recorded, E.UserStep;
      HandleOf(id);
      var _ := session.PollOpen(held[id]);
    }

    method OpenFailed(id: u32)
      requires Valid() && id in session.View().entries && E.Allowed(session.View().entries[id], E.OpenFailed)
      modifies session.registry`inner, session.registry`holders
      ensures Valid() && Footprint() == old(Footprint())
      ensures session.View() == E.UserStep(old(session.View()), id, E.OpenFailed)
    {
      hide Session.View, StreamRegistry.Valid, StreamRegistry.Recorded, E.UserStep;
      HandleOf(id);
      var _ := session.PollOpen(held[id]);
    }

    method OpenTimeout(id: u32)
      requires Valid() && id in session.View().entries && E.Allowed(session.View().entries[id], E.OpenTimeout)
      modifies session.registry`inner, session.registry`holders, session.out
      ensures Valid() && Footprint() == old(Footprint())
      ensures session.View() == E.UserStep(old(session.View()), id, E.OpenTimeout)
    {
      hide Session.View, StreamRegistry.Valid, StreamRegistry.Recorded, E.UserStep;
      HandleOf(id);
      session.TimeOut(held[id]);
    }

    /** One call of a user. */
    method Use(id: u32, what: E.UserAct)
      requires Valid() && id in session.View().entries && E.Allowed(session.View().entries[id], what)
      modifies session.registry, session.registry.parts, session.out, session.closer
      ensures Valid() && Footprint() == old(Footprint())
      ensures session.View() == E.UserStep(old(session.View()), id, what)
    {
      hide Valid, Session.View, Session.Valid, E.UserStep, E.Allowed;
      match what
      case Write(data) => Write(id, data);
      case Read(cap) => Read(id, cap);
      case Finish => Finish(id);
      case Reset => Reset(id);
      case Drop => Drop(id);
      case Opened => Opened(id);
      case OpenFailed => OpenFailed(id);
      case OpenTimeout => OpenTimeout(id);
    }

    method Accept()
      requires Valid() && !session.isClosing && session.acceptQ != []
      modifies this, session`acceptQ, session`accepted, session.registry`holders, session.out
      ensures Valid() && Footprint() == old(Footprint())
      ensures old(session.View()).acceptQ != [] && old(session.View()).acceptQ[0] in old(session.View()).entries
      ensures !old(session.View()).closing && session.View() == E.Accept(old(session.View()))
    {
      hide StreamRegistry.Valid, StreamRegistry.Recorded, StreamRegistry.Entries, E.Accept;
      session.OnRecord(session.acceptQ[0].id);
      var r := session.TryAccept();
      if r.Some? {
        held := held[r.value.id := r.value];
      }
    }

    method Close(code: ErrorCode)
      requires Valid()
      modifies session`isClosing, session.out, session.registry`inner, session.registry.parts
      ensures Valid() && Footprint() == old(Footprint())
      ensures session.View() == E.InitiateShutdown(old(session.View()), code)
    {
      hide Session.View, StreamRegistry.Valid, StreamRegistry.Recorded, E.InitiateShutdown;
      session.InitiateShutdown(code);
    }

    method Collect()
      requires Valid() && session.closer.items != []
      modifies session.registry`inner, session.closer
      ensures Valid() && Footprint() == old(Footprint())
      ensures old(session.View()).closerQ != [] && session.View() == E.CloserStep(old(session.View()))
    {
      hide StreamRegistry.Valid, StreamRegistry.Recorded, StreamRegistry.Entries, E.CloserStep;
      session.CloserTurn();
    }

    method Probe(k: u32)
      requires Valid()
      modifies session.out
      ensures Valid() && Footprint() == old(Footprint())
      ensures session.View() == E.Push(old(session.View()), [PingRequest(k)])
    {
      hide Session.View, StreamRegistry.Valid, StreamRegistry.Recorded;
      session.Probe(k);
    }

    method Exit()
      requires Valid()
      modifies session.out, session.registry.parts
      ensures Valid() && Footprint() == old(Footprint())
      ensures session.View() == E.WriterExit(old(session.View()))
    {
      hide Session.View, StreamRegistry.Valid, StreamRegistry.Recorded, E.WriterExit;
      session.WriterExit();
    }

    /** Any act that takes no frame from the wire. */
    method Do(act: N.Act, hiccups: nat)
      requires Valid() && Ready(session.View(), act)
      requires act.Open? ==> session.View().nextId !in session.View().entries
      modifies this, session, session.registry, session.registry.parts, session.ids.next, session.out, session.closer
      ensures Valid() && fresh(Footprint() - old(Footprint()))
      ensures session.View() == Alone(old(session.View()), act)
    {
      hide Valid, Session.Valid, StreamRegistry.Entries, Session.Footprint, E.Allowed, E.Open, E.UserStep, E.Accept,
        E.InitiateShutdown, E.CloserStep, E.WriterExit;
      match act
      case Open => Open(hiccups);
      case Use(id, what) => Use(id, what);
      case Accept => Accept();
      case Close(code) => Close(code);
      case Collect => Collect();
      case Probe(k) => Probe(k);
      case Exit => Exit();
    }

    /** The writer takes the oldest frame, or fails on it. */
    method Take() returns (f: Option<Frame>)
      requires Valid() && session.out.items != []
      modifies session`isClosing, session.out, session.registry`inner, session.registry.parts
      ensures Valid() && Footprint() == old(Footprint()) && old(session.View()).outQ != []
      ensures Sends(old(session.View()), f, session.View())
    {
      hide StreamRegistry.Valid, StreamRegistry.Recorded, StreamRegistry.Entries, E.Passes, E.WriteFailed;
      f := session.WriterTurn();
    }

    /** The reader takes a frame, or fails to decode it; a SYN brings a new id. */
    method Deliver(f: Frame, hiccups: nat)
      requires Valid() && (f.Data? && f.flags.syn ==> f.id !in session.View().entries)
      modifies session, session.registry, session.registry.parts, session.out, session.closer
      ensures Valid() && fresh(Footprint() - old(Footprint()))
      ensures session.View() == Hears(old(session.View()), f)
    {
      hide Session.View, StreamRegistry.Valid, StreamRegistry.Recorded, E.ReaderStep, E.InitiateShutdown, E.Passes;
      session.Configured();
      if !E.Passes(session.cfg, f) {
        session.InitiateShutdown(ProtocolError);
        return;
      }
      if f.Data? && f.flags.syn {
        session.OnRecord(f.id);
      }
      var _ := session.ReaderTurn(f, hiccups);
    }
  }

  /** Two sound nodes that share nothing. */
  ghost predicate Beside(a: Node, b: Node)
    reads a.Footprint(), b.Footprint()
    reads a, a.session, a.session.registry, b, b.session, b.session.registry
  {
    a.Valid() && b.Valid() && a.Footprint() !! b.Footprint()
  }

  method DoBeside(node: Node, other: Node, act: N.Act, hiccups: nat)
    requires Beside(node, other) && Ready(node.session.View(), act)
    requires act.Open? ==> node.session.View().nextId !in node.session.View().entries
    modifies node.Footprint()
    ensures Beside(node, other) && fresh(node.Footprint() - old(node.Footprint()))
    ensures other.Footprint() == old(other.Footprint()) && other.session.View() == old(other.session.View())
    ensures node.session.View() == Alone(old(node.session.View()), act)
  {
    hide Session.View, Alone, Ready, StreamRegistry.Valid, StreamRegistry.Recorded;
    node.Do(act, hiccups);
  }

  method TakeBeside(node: Node, other: Node) returns (f: Option<Frame>)
    requires Beside(node, other) && node.session.View().outQ != []
    modifies node.Footprint()
    ensures Beside(node, other) && node.Footprint() == old(node.Footprint())
    ensures other.Footprint() == old(other.Footprint()) && other.session.View() == old(other.session.View())
    ensures old(node.session.View()).outQ != [] && Sends(old(node.session.View()), f, node.session.View())
  {
    hide StreamRegistry.Entries, StreamRegistry.Valid, StreamRegistry.Recorded, Sends;
    f := node.Take();
  }

  method DeliverBeside(node: Node, other: Node, f: Frame, hiccups: nat)
    requires Beside(node, other) && (f.Data? && f.flags.syn ==> f.id !in node.session.View().entries)
    modifies node.Footprint()
    ensures Beside(node, other) && fresh(node.Footprint() - old(node.Footprint()))
    ensures other.Footprint() == old(other.Footprint()) && other.session.View() == old(other.session.View())
    ensures node.session.View() == Hears(old(node.session.View()), f)
  {
    hide Session.View, Hears, StreamRegistry.Valid, StreamRegistry.Recorded;
    node.Deliver(f, hiccups);
  }

  class Duo {
    const client: Node
    const server: Node
    var up: seq<Frame>
    var down: seq<Frame>

    ghost function Footprint(): set<object>
      reads this, client, client.session, client.session.registry, server, server.session, server.session.registry
    {
      {this} + client.Footprint() + server.Footprint()
    }

    ghost predicate Sound()
      reads this, Footprint()
    {
      Beside(client, server) && this !in client.Footprint() && this !in server.Footprint()
    }

    ghost function View(): N.Net
      requires Sound()
      reads this, Footprint()
    {
      N.Net(client.session.View(), server.session.View(), up, down)
    }

    ghost predicate Valid()
      reads this, Footprint()
    {
      Sound() && N.NetOk(View())
    }

    lemma Configured()
      requires Sound()
      ensures View().client.cfg == client.session.cfg && View().server.cfg == server.session.cfg
    {
    }

    constructor (c: E.Config, s: E.Config, hiccups: nat)
      requires N.ValidConfig(c) && N.ValidConfig(s)
      ensures Valid() && View() == N.Init(c, s) && fresh(Footprint())
    {
      hide N.NetOk, Node.Valid, Session.View;
      client := new Node(Client, c, hiccups);
      server := new Node(Server, s, hiccups);
      up, down := [], [];
      N.InitOk(c, s);
    }

    method Act(who: Role, act: N.Act, hiccups: nat)
      requires Valid() && N.Enabled(View(), N.Event(who, act)) && !act.Move? && !act.Deliver?
      modifies Footprint()
      ensures Sound() && fresh(Footprint() - old(Footprint()))
      ensures View() == N.Step(old(View()), N.Event(who, act))
    {
      hide Node.Valid, Node.Footprint, Session.View, N.NetOk, N.Step, N.Enabled, Alone, Ready;
      N.FreshNext(View(), who);
      AloneIsStep(View(), who, act);
      if who == Client {
        DoBeside(client, server, act, hiccups);
      } else {
        DoBeside(server, client, act, hiccups);
      }
    }

    method Move(who: Role)
      requires Valid() && N.Enabled(View(), N.Event(who, N.Move))
      modifies Footprint()
      ensures Sound() && fresh(Footprint() - old(Footprint()))
      ensures View() == N.Step(old(View()), N.Event(who, N.Move))
    {
      hide Node.Valid, Session.View, N.NetOk, N.Step, N.Enabled, Sends;
      MoveIsStep(View(), who);
      if who == Client {
        var f := TakeBeside(client, server);
        Sent(old(View()), who, f, View().client);
        up := up + if f.Some? then [f.value] else [];
      } else {
        var f := TakeBeside(server, client);
        Sent(old(View()), who, f, View().server);
        down := down + if f.Some? then [f.value] else [];
      }
    }

    method Deliver(who: Role, hiccups: nat)
      requires Valid() && N.Enabled(View(), N.Event(who, N.Deliver))
      modifies Footprint()
      ensures Sound() && fresh(Footprint() - old(Footprint()))
      ensures View() == N.Step(old(View()), N.Event(who, N.Deliver))
    {
      hide Node.Valid, Session.View, N.NetOk, N.Step, N.Enabled, Hears;
      FreshSyn(View(), who);
      DeliverIsStep(View(), who);
      Configured();
      if who == Client {
        var f, fits := down[0], E.Passes(client.session.cfg, down[0]);
        DeliverBeside(client, server, f, hiccups);
        down := if fits then down[1..] else down;
      } else {
        var f, fits := up[0], E.Passes(server.session.cfg, up[0]);
        DeliverBeside(server, client, f, hiccups);
        up := if fits then up[1..] else up;
      }
    }

    /** Any event, and nothing but that event. */
    method Perform(ev: N.Event, hiccups: nat)
      requires Valid() && N.Enabled(View(), ev)
      modifies Footprint()
      ensures Valid() && fresh(Footprint() - old(Footprint()))
      ensures View() == N.Step(old(View()), ev)
    {
      hide Node.Valid, Session.View, N.NetOk, N.Step, N.Enabled;
      D.StepKeeps(View(), ev);
      match ev.act
      case Move => Move(ev.who);
      case Deliver => Deliver(ev.who, hiccups);
      case _ => Act(ev.who, ev.act, hiccups);
    }

    /** Any run: the objects end where the transition system ends. */
    method Play(t: N.Trace, hiccups: nat)
      requires Valid() && N.Legal(View(), t)
      modifies Footprint()
      ensures Valid() && View() == N.Run(old(View()), t)
    {
      hide View, Sound, N.NetOk, N.Step, N.Enabled;
      var i := 0;
      while i < |t|
        invariant 0 <= i <= |t|
        invariant Valid()
        invariant fresh(Footprint() - old(Footprint()))
        invariant N.Legal(View(), t[i..]) && N.Run(View(), t[i..]) == N.Run(old(View()), t)
      {
        assert t[i..][1..] == t[i + 1..];
        ghost var before := Footprint();
        Perform(t[i], hiccups);
        assert Footprint() - old(Footprint()) <= (Footprint() - before) + (before - old(Footprint()));
        i := i + 1;
      }
    }
  }

  lemma MoveIsStep(n: N.Net, r: Role)
    requires N.Enabled(n, N.Event(r, N.Move))
    ensures N.End(n, r).outQ != []
  {
  }

  lemma Sent(n: N.Net, r: Role, f: Option<Frame>, e1: E.Endpoint)
    requires N.Enabled(n, N.Event(r, N.Move)) && N.End(n, r).outQ != [] && Sends(N.End(n, r), f, e1)
    ensures N.Step(n, N.Event(r, N.Move)) ==
            N.With(n, r, e1, N.Wire(n, r) + (if f.Some? then [f.value] else []), N.Wire(n, r.Peer()))
  {
    assert N.Wire(n, r) + [] == N.Wire(n, r);
  }

  lemma DeliverIsStep(n: N.Net, r: Role)
    requires N.Enabled(n, N.Event(r, N.Deliver))
    ensures var e, theirs := N.End(n, r), N.Wire(n, r.Peer());
            && theirs != []
            && N.Step(n, N.Event(r, N.Deliver)) ==
               N.With(n, r, Hears(e, theirs[0]), N.Wire(n, r),
                      if E.Passes(e.cfg, theirs[0]) then theirs[1..] else theirs)
  {
  }

  lemma FreshSyn(n: N.Net, r: Role)
    requires N.NetOk(n) && N.Enabled(n, N.Event(r, N.Deliver))
    ensures N.Wire(n, r.Peer()) != []
    ensures var f := N.Wire(n, r.Peer())[0]; f.Data? && f.flags.syn ==> f.id !in N.End(n, r).entries
  {
    hide N.NetOk;
    var f := N.Wire(n, r.Peer())[0];
    if f.Data? && f.flags.syn {
      D.SynIsFirst(n, r, f);
    }
  }

  lemma AloneIsStep(n: N.Net, r: Role, act: N.Act)
    requires N.Enabled(n, N.Event(r, act)) && !act.Move? && !act.Deliver?
    ensures Ready(N.End(n, r), act)
    ensures N.Step(n, N.Event(r, act)) == N.With(n, r, Alone(N.End(n, r), act), N.Wire(n, r), N.Wire(n, r.Peer()))
  {
  }
}
