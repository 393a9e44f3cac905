/**
`src/session` as it runs: a registry of stream objects, queues and flags that its tasks update in
place. `View` is the session as an `Endpoint`; every method is proved to change it by exactly one
of the steps from which the runs of `Network` are made.
*/
module SessionImpl {
  import opened Base
  import opened Frames
  import opened Ids
  import S = Streams
  import E = Endpoints
  import opened StreamImpl
  import opened RegistryImpl

  // ---------------------------------------------------------------- src/util/id.rs

  class StreamIdAllocator {
    const next: AtomicU32

    constructor (role: Role, hiccups: nat)
      ensures next.value == role.FirstId() && fresh(next)
    {
      next := new AtomicU32(role.FirstId(), hiccups);
    }

    method Allocate() returns (r: Option<u32>)
      modifies next
      ensures match Advance(old(next.value))
              case None => r == None && next.value == old(next.value)
              case Some(after) => r == Some(old(next.value)) && next.value == after
    {
      while true
        invariant next.value == old(next.value)
        decreases next.spurious
      {
        var cur := next.value;
        if cur + 2 > U32_MAX {
          return None;
        }
        var ok, _ := next.CompareExchangeWeak(cur, cur + 2);
        if ok {
          return Some(cur);
        }
      }
    }
  }

  // ---------------------------------------------------------------- one inbound frame on a known stream

  /** The tail of `handle_data`. */
  method Receive(s: StreamInner, flags: Flags, payload: seq<u8>) returns (v: E.Verdict)
    requires s.Valid()
    modifies s.Repr, s.out, s.closer
    ensures var (o, w) := E.Receive(E.Entry(old(s.View()), true, E.User), flags, payload);
            s.Did(S.Out(o.entry.stream, o.frames, o.signals)) && v == w
  {
    hide StreamInner.View, S.RemoteFin, S.RemoteReset, S.LocalReset;
    assert s.out.items + [] == s.out.items && s.out.sent + [] == s.out.sent;
    assert s.closer.items + [] == s.closer.items && s.closer.sent + [] == s.closer.sent;
    if flags.ack {
      s.MarkAcked();
    }
    ghost var s0 := s.View();
    assert s0.buffer + [] == s0.buffer;
    if payload != [] {
      if !s.CanRecv() {
        s.LocalReset();
        return E.Fault;
      }
      s.PushData(payload);
    }
    if flags.fin {
      s.RemoteFin();
    }
    if flags.rst {
      s.RemoteReset();
    }
    return E.Fine;
  }

  // ---------------------------------------------------------------- the session

  ghost function IdsOf(q: seq<StreamInner>): (r: seq<u32>)
    ensures |r| == |q| && forall k :: 0 <= k < |q| ==> r[k] == q[k].id
  {
    seq(|q|, k requires 0 <= k < |q| => q[k].id)
  }

  /** What a SYN does before the rest of its frame is looked at. */
  function SynStep(e: E.Endpoint, id: u32): (E.Endpoint, Option<E.Verdict>) {
    if e.role.Owns(id) then (e, Some(E.Fault))
    else if e.peerGone || |E.Registered(e)| >= e.cfg.maxStreams then (E.Push(e, [Rst(id)]), Some(E.Fine))
    else if E.Lookup(e, id) then (e, Some(E.Fault))
    else
      var en := E.Entry(S.New(id, S.Remote, e.cfg.window), true, E.Queued);
      (E.Put(e, id, en).(acceptQ := e.acceptQ + [id]), None)
  }

  lemma SynFirst(e: E.Endpoint, id: u32, flags: Flags, payload: seq<u8>)
    ensures E.HandleData(e, id, flags, payload) ==
            if id == 0 then (e, E.Fault)
            else if !flags.syn then E.HandleKnown(e, id, flags, payload)
            else
              var (e1, v) := SynStep(e, id);
              if v.Some? then (e1, v.value) else E.HandleKnown(e1, id, flags, payload)
  {
    hide E.HandleKnown;
  }

  datatype OpenPoll = OpenBlocked | OpenDone | OpenError

  class Session {
    const role: Role
    const cfg: E.Config
    const ids: StreamIdAllocator
    const registry: StreamRegistry
    const out: Channel<Frame>
    const closer: Channel<u32>
    var acceptQ: seq<StreamInner>
    var isClosing: bool
    var peerGone: bool
    ghost var accepted: seq<u32>

    ghost predicate Valid()
      reads this, registry, closer
    {
      && registry.Valid() && registry.Recorded()
      && registry.out == out && registry.closer == closer && registry.maxFrame == cfg.maxFrame
      && {this, ids.next} !! {out as object, closer}
      && {this, ids.next, registry, out as object, closer} !! registry.parts
      && closer.isOpen
      && (forall k :: 0 <= k < |acceptQ| ==> acceptQ[k].id in registry.streams)
    }

    ghost function View(): E.Endpoint
      requires Valid()
      reads this, out, closer, ids.next, registry, registry.parts
    {
      E.Endpoint(role, cfg, ids.next.value, registry.Entries(), IdsOf(acceptQ), closer.items, out.items, out.isOpen,
                 isClosing, peerGone, out.sent, accepted)
    }

    /** `s` is the stream its id stands for, and `h` has it. */
    ghost predicate Holds(s: StreamInner, h: E.Holder)
      requires Valid()
      reads this, registry, closer
    {
      s.id in registry.streams && registry.streams[s.id] == s && registry.holders[s.id] == h
    }

    /** Every object that belongs to the session. */
    ghost function Footprint(): set<object>
      reads this, registry
    {
      {this, ids.next, registry, out as object, closer} + registry.parts
    }

    /** The view has an entry for exactly the streams on record, with their holders. */
    lemma OnRecord(id: u32)
      requires Valid()
      ensures id in View().entries <==> id in registry.streams
      ensures id in registry.streams ==> id in registry.holders && View().entries[id].holder == registry.holders[id]
      ensures id in registry.streams ==> registry.streams[id].id == id && registry.streams[id].Repr <= registry.parts
    {
      hide StreamInner.View, StreamInner.Valid;
      registry.Known(id);
    }

    lemma Configured()
      requires Valid()
      ensures View().cfg == cfg && View().outQ == out.items && View().outOpen == out.isOpen
      ensures View().closing == isClosing
    {
    }

    /** The table is what the view calls registered. */
    lemma Counts()
      requires Valid()
      ensures E.Registered(View()) == registry.inner.Keys
    {
      hide StreamRegistry.Valid, StreamRegistry.Entries;
      forall id: u32
        ensures id in E.Registered(View()) <==> id in registry.inner
      {
        registry.Known(id);
      }
    }

    constructor (role: Role, cfg: E.Config, hiccups: nat)
      ensures Valid() && View() == E.NewEndpoint(role, cfg)
      ensures fresh(Footprint()) && registry.streams == map[] && acceptQ == []
    {
      hide StreamRegistry.Valid, StreamRegistry.Recorded;
      this.role, this.cfg := role, cfg;
      ids := new StreamIdAllocator(role, hiccups);
      var frames := new Channel<Frame>();
      var signals := new Channel<u32>();
      out, closer := frames, signals;
      registry := new StreamRegistry(cfg.maxFrame, frames, signals);
      acceptQ, isClosing, peerGone, accepted := [], false, false, [];
    }

    method InitiateShutdown(code: ErrorCode)
      requires Valid()
      modifies this`isClosing, out, registry`inner, registry.parts
      ensures Valid() && View() == E.InitiateShutdown(old(View()), code)
    {
      hide StreamInner.View, StreamInner.Valid, StreamRegistry.Valid, StreamRegistry.Entries, E.CloseEntry;
      if isClosing {
        return;
      }
      isClosing := true;
      var _ := out.Send(GoAway(code));
      registry.CloseAll();
    }

    /** `open` up to waiting for the peer. */
    method BeginOpen(hiccups: nat) returns (r: Option<StreamInner>)
      requires Valid()
      modifies registry, ids.next, out
      ensures Valid() && View() == E.Open(old(View()))
      ensures r.Some? <==> E.CanOpen(old(View()))
      ensures r.Some? ==> Holds(r.value, E.Opening) && r.value.id == old(View()).nextId
      ensures registry.streams == if r.Some? then old(registry.streams)[r.value.id := r.value]
                else old(registry.streams)
      ensures registry.holders == if r.Some? then old(registry.holders)[r.value.id := E.Opening]
                else old(registry.holders)
      ensures fresh(registry.parts - old(registry.parts))
    {
      hide StreamInner.View, StreamInner.Valid, StreamRegistry.Valid, StreamRegistry.Entries;
      Counts();
      if isClosing || peerGone {
        return None;
      }
      var n := registry.Len();
      if n >= cfg.maxStreams {
        return None;
      }
      var got := ids.Allocate();
      if got.None? {
        return None;
      }
      r := LaunchNew(got.value, hiccups);
    }

    method LaunchNew(id: u32, hiccups: nat) returns (r: Option<StreamInner>)
      requires Valid()
      modifies registry, out
      ensures Valid() && fresh(registry.parts - old(registry.parts))
      ensures r.Some? <==> out.isOpen && !E.Lookup(old(View()), id)
      ensures r.Some? ==> Holds(r.value, E.Opening) && r.value.id == id
      ensures registry.streams == if r.Some? then old(registry.streams)[id := r.value] else old(registry.streams)
      ensures registry.holders == if r.Some? then old(registry.holders)[id := E.Opening] else old(registry.holders)
      ensures View() == if r == None then old(View())
              else E.Push(E.Put(old(View()), id, E.Entry(S.New(id, S.Local, cfg.window), true, E.Opening)), [Syn(id)])
    {
      hide View, StreamInner.View, StreamRegistry.Valid, StreamRegistry.Recorded, E.Put, E.Lookup, E.Push;
      var s := new StreamInner(id, S.Local, cfg.window, cfg.maxFrame, out, closer, hiccups);
      r := Launch(s);
    }

    /** Registers a new stream and sends its SYN; nothing stays behind when that fails. */
    method Launch(s: StreamInner) returns (r: Option<StreamInner>)
      requires Valid() && registry.Fits(s, s.id) && s in s.Repr
      requires {this, ids.next, registry, out as object, closer} + registry.parts !! s.Repr
      modifies registry, out
      ensures Valid()
      ensures r == if out.isOpen && !E.Lookup(old(View()), s.id) then Some(s) else None
      ensures r.Some? ==> Holds(s, E.Opening)
      ensures registry.streams == if r.Some? then old(registry.streams)[s.id := s] else old(registry.streams)
      ensures registry.holders == if r.Some? then old(registry.holders)[s.id := E.Opening] else old(registry.holders)
      ensures registry.parts <= old(registry.parts) + s.Repr
      ensures View() == if r == None then old(View())
              else E.Push(E.Put(old(View()), s.id, E.Entry(s.View(), true, E.Opening)), [Syn(s.id)])
    {
      hide StreamInner.View, StreamInner.Valid, StreamRegistry.Valid, StreamRegistry.Entries,
        StreamRegistry.Recorded;
      registry.Known(s.id);
      var free := registry.Insert(s);
      if !free {
        return None;
      }
      var ok := out.Send(Syn(s.id));
      if !ok {
        registry.Remove(s.id);
        assert registry.Entries() == old(registry.Entries());
        return None;
      }
      registry.Record(s, E.Opening);
      registry.Complete(s.id);
      return Some(s);
    }

    /** The pending `open` of `s` gives up: the entry goes, whether or not it was still there. */
    method Abandon(s: StreamInner)
      requires Valid() && Holds(s, E.Opening)
      modifies registry`inner, registry`holders
      ensures Valid()
      ensures View() == E.Put(old(View()), s.id, old(View()).entries[s.id].(registered := false, holder := E.Nobody))
      ensures registry.holders == old(registry.holders)[s.id := E.Nobody]
    {
      hide StreamInner.View, StreamInner.Valid, StreamRegistry.Valid, StreamRegistry.Entries;
      registry.Known(s.id);
      registry.Remove(s.id);
      registry.Known(s.id);
      registry.Hand(s.id, E.Nobody);
    }

    /** The deadline of `open` passes. */
    method TimeOut(s: StreamInner)
      requires Valid() && Holds(s, E.Opening)
      modifies registry`inner, registry`holders, out
      ensures Valid() && s.id in old(View()).entries && E.Allowed(old(View()).entries[s.id], E.OpenTimeout)
      ensures View() == E.UserStep(old(View()), s.id, E.OpenTimeout)
      ensures registry.holders == old(registry.holders)[s.id := E.Nobody]
    {
      hide StreamInner.View, StreamInner.Valid, StreamRegistry.Valid, StreamRegistry.Entries;
      registry.Known(s.id);
      registry.Own(s.id);
      assert closer.items + [] == closer.items;
      var _ := out.Send(Rst(s.id));
      Abandon(s);
    }

    /** The rest of `open`, for one poll of the wait. */
    method PollOpen(s: StreamInner) returns (r: OpenPoll)
      requires Valid() && Holds(s, E.Opening)
      modifies registry`inner, registry`holders
      ensures Valid()
      ensures r == OpenBlocked ==> View() == old(View())
      ensures r == OpenDone <==> E.Allowed(old(View()).entries[s.id], E.Opened)
      ensures r == OpenDone ==> View() == E.UserStep(old(View()), s.id, E.Opened) && Holds(s, E.User)
      ensures r == OpenError <==> E.Allowed(old(View()).entries[s.id], E.OpenFailed)
      ensures r == OpenError ==> View() == E.UserStep(old(View()), s.id, E.OpenFailed)
      ensures registry.holders == match r
                                  case OpenBlocked => old(registry.holders)
                                  case OpenDone => old(registry.holders)[s.id := E.User]
                                  case OpenError => old(registry.holders)[s.id := E.Nobody]
    {
      hide StreamInner.View, StreamInner.Valid, StreamRegistry.Valid, StreamRegistry.Entries;
      registry.Known(s.id);
      registry.Own(s.id);
      assert closer.items + [] == closer.items && out.items + [] == out.items && out.sent + [] == out.sent;
      var poll := s.PollAcked();
      match poll
      case AckBlocked =>
        return OpenBlocked;
      case Acked =>
        registry.Hand(s.id, E.User);
        return OpenDone;
      case _ =>
        Abandon(s);
        return OpenError;
    }

    /** `accept`; `None` while there is nothing to accept or once the session is closing. */
    method TryAccept() returns (r: Option<StreamInner>)
      requires Valid()
      modifies this`acceptQ, this`accepted, registry`holders, out
      ensures Valid()
      ensures old(isClosing || acceptQ == []) ==> r == None && View() == old(View())
      ensures !old(isClosing || acceptQ == []) ==> View() == E.Accept(old(View()))
      ensures r.Some? <==> !old(isClosing) && old(acceptQ) != [] && out.isOpen
      ensures r.Some? ==> r.value == old(acceptQ)[0]
      ensures r.Some? && registry.streams[r.value.id] == r.value ==> Holds(r.value, E.User)
      ensures old(isClosing || acceptQ == []) ==> acceptQ == old(acceptQ) && registry.holders == old(registry.holders)
      ensures !old(isClosing || acceptQ == []) ==>
                && acceptQ == old(acceptQ)[1..]
                && registry.holders == old(registry.holders)[old(acceptQ)[0].id := if r.Some? then E.User else E.Nobody]
    {
      hide StreamInner.View, StreamInner.Valid, StreamRegistry.Valid, StreamRegistry.Entries;
      if isClosing || acceptQ == [] {
        return None;
      }
      var s := acceptQ[0];
      registry.Known(s.id);
      acceptQ := acceptQ[1..];
      assert IdsOf(acceptQ) == IdsOf(old(acceptQ))[1..];
      var ok := out.Send(Ack(s.id));
      if !ok {
        registry.Hand(s.id, E.Nobody);
        return None;
      }
      registry.Hand(s.id, E.User);
      accepted := accepted + [s.id];
      return Some(s);
    }

    /** One turn of the closer task. */
    method CloserTurn()
      requires Valid() && closer.items != []
      modifies registry`inner, closer
      ensures Valid() && View() == E.CloserStep(old(View()))
    {
      hide StreamInner.View, StreamInner.Valid, StreamRegistry.Valid, StreamRegistry.Entries;
      var id := closer.TryRecv();
      registry.Known(id.value);
      registry.Remove(id.value);
    }

    /** The writer task is done, and what it has not sent is dropped. */
    method WriterExit()
      requires Valid()
      modifies out, registry.parts
      ensures Valid() && View() == E.WriterExit(old(View()))
    {
      hide StreamInner.View, StreamInner.Valid, StreamRegistry.Valid, StreamRegistry.Entries;
      registry.Forget(|out.items|);
      out.Close();
    }

    method TakeFirst() returns (f: Frame)
      requires Valid() && out.items != []
      modifies out
      ensures Valid() && f == old(View()).outQ[0] && View() == old(View()).(outQ := old(View()).outQ[1..])
    {
      hide StreamInner.View, StreamInner.Valid, StreamRegistry.Valid, StreamRegistry.Entries;
      var next := out.TryRecv();
      f := next.value;
    }

    method LoseFirst() returns (f: Frame)
      requires Valid() && out.items != []
      modifies out, registry.parts
      ensures Valid() && f == old(View()).outQ[0] && View() == E.Forget(old(View()), 1)
    {
      hide StreamInner.View, StreamInner.Valid, StreamRegistry.Valid, StreamRegistry.Entries, E.Forgotten;
      registry.Forget(1);
      var next := out.TryRecv();
      f := next.value;
    }

    /** The writer task takes the oldest frame, which is lost if the codec is going to refuse it. */
    method WriterTake() returns (f: Frame)
      requires Valid() && out.items != []
      modifies out, registry.parts
      ensures Valid() && f == old(View()).outQ[0]
      ensures View() == if E.Passes(cfg, f) then old(View()).(outQ := old(View()).outQ[1..])
              else E.Forget(old(View()), 1)
    {
      hide View, StreamRegistry.Valid, StreamRegistry.Recorded, E.Passes, E.Forget;
      Configured();
      if E.Passes(cfg, out.items[0]) {
        f := TakeFirst();
      } else {
        f := LoseFirst();
      }
    }

    /** The writer task takes the oldest frame; if its codec refuses the frame, the session shuts down. */
    method WriterTurn() returns (f: Option<Frame>)
      requires Valid() && out.items != []
      modifies this`isClosing, out, registry`inner, registry.parts
      ensures Valid()
      ensures E.Passes(cfg, old(View()).outQ[0]) ==>
                f == Some(old(View()).outQ[0]) && View() == old(View()).(outQ := old(View()).outQ[1..])
      ensures !E.Passes(cfg, old(View()).outQ[0]) ==> f == None && View() == E.WriteFailed(old(View()))
    {
      hide StreamInner.View, StreamInner.Valid, StreamRegistry.Valid, StreamRegistry.Entries, E.Passes, E.Forget,
        E.InitiateShutdown;
      var next := WriterTake();
      if E.Passes(cfg, next) {
        return Some(next);
      }
      InitiateShutdown(InternalError);
      return None;
    }

    /** The keepalive task's probe. */
    method Probe(n: u32)
      requires Valid()
      modifies out
      ensures Valid() && View() == E.Push(old(View()), [PingRequest(n)])
    {
      hide StreamInner.View, StreamInner.Valid, StreamRegistry.Valid, StreamRegistry.Entries;
      var _ := out.Send(PingRequest(n));
    }

    // -------------------------------------------------------------- the reader

    method HandleKnown(id: u32, flags: Flags, payload: seq<u8>) returns (v: E.Verdict)
      requires Valid()
      modifies registry.parts, out, closer
      ensures Valid() && (View(), v) == E.HandleKnown(old(View()), id, flags, payload)
    {
      hide StreamInner.View, StreamInner.Valid, StreamRegistry.Valid, StreamRegistry.Entries;
      registry.Known(id);
      var found := registry.Get(id);
      if found == None {
        if !flags.ack && !flags.rst {
          var _ := out.Send(Rst(id));
        }
        return E.Fine;
      }
      registry.Own(id);
      v := Receive(found.value, flags, payload);
      registry.OneStream(id);
    }

    /** What is on record has not changed, or a stream `id` has been added to it and to the accept queue. */
    twostate predicate Booked(id: u32, syn: bool)
      reads this, registry
    {
      || (registry.streams == old(registry.streams) && registry.holders == old(registry.holders)
          && acceptQ == old(acceptQ))
      || (&& syn && id in registry.streams && registry.streams[id].id == id
          && registry.streams == old(registry.streams)[id := registry.streams[id]]
          && registry.holders == old(registry.holders)[id := E.Queued]
          && acceptQ == old(acceptQ) + [registry.streams[id]])
    }

    /** A stream the peer opens enters the table and the accept queue. */
    method Admit(s: StreamInner) returns (ok: bool)
      requires Valid() && registry.Fits(s, s.id) && s in s.Repr
      requires {this, ids.next, registry, out as object, closer} + registry.parts !! s.Repr
      modifies registry, this`acceptQ
      ensures Valid() && registry.parts <= old(registry.parts) + s.Repr && Booked(s.id, true)
      ensures ok <==> !E.Lookup(old(View()), s.id)
      ensures View() == if !ok then old(View())
              else E.Put(old(View()), s.id, E.Entry(s.View(), true, E.Queued)).(acceptQ := old(View()).acceptQ + [s.id])
    {
      hide StreamInner.View, StreamInner.Valid, StreamRegistry.Valid, StreamRegistry.Entries,
        StreamRegistry.Recorded;
      registry.Known(s.id);
      ok := registry.Insert(s);
      if ok {
        acceptQ := acceptQ + [s];
        registry.Record(s, E.Queued);
        registry.Complete(s.id);
      }
    }

    method Create(id: u32, hiccups: nat) returns (ok: bool)
      requires Valid()
      modifies registry, this`acceptQ
      ensures Valid() && fresh(registry.parts - old(registry.parts)) && Booked(id, true)
      ensures ok <==> !E.Lookup(old(View()), id)
      ensures View() == if !ok then old(View())
              else E.Put(old(View()), id, E.Entry(S.New(id, S.Remote, cfg.window), true, E.Queued))
                     .(acceptQ := old(View()).acceptQ + [id])
    {
      hide View, StreamInner.View, StreamRegistry.Valid, StreamRegistry.Recorded, E.Put, E.Lookup;
      var s := new StreamInner(id, S.Remote, cfg.window, cfg.maxFrame, out, closer, hiccups);
      ok := Admit(s);
    }

    /** The SYN branch of `handle_data`; `None` when the rest of the frame is still to be handled. */
    method TakeSyn(id: u32, hiccups: nat) returns (r: Option<E.Verdict>)
      requires Valid()
      modifies registry, this`acceptQ, out
      ensures Valid() && fresh(registry.parts - old(registry.parts)) && Booked(id, true)
      ensures (View(), r) == SynStep(old(View()), id)
    {
      hide StreamInner.View, StreamInner.Valid, StreamRegistry.Valid, StreamRegistry.Entries, E.Put;
      if role.Owns(id) {
        return Some(E.Fault);
      }
      if peerGone {
        var _ := out.Send(Rst(id));
        return Some(E.Fine);
      }
      Counts();
      var n := registry.Len();
      if n >= cfg.maxStreams {
        var _ := out.Send(Rst(id));
        return Some(E.Fine);
      }
      var ok := Create(id, hiccups);
      return if ok then None else Some(E.Fault);
    }

    method HandleData(id: u32, flags: Flags, payload: seq<u8>, hiccups: nat) returns (v: E.Verdict)
      requires Valid()
      modifies registry, this`acceptQ, registry.parts, out, closer
      ensures Valid() && fresh(registry.parts - old(registry.parts)) && Booked(id, flags.syn)
      ensures (View(), v) == E.HandleData(old(View()), id, flags, payload)
    {
      hide View, StreamRegistry.Valid, StreamRegistry.Recorded, E.HandleKnown, SynStep;
      SynFirst(View(), id, flags, payload);
      if id == 0 {
        return E.Fault;
      }
      if flags.syn {
        var r := TakeSyn(id, hiccups);
        if r.Some? {
          return r.value;
        }
      }
      v := HandleKnown(id, flags, payload);
    }

    method GrantCredit(id: u32, delta: u32)
      requires Valid()
      modifies registry.parts
      ensures Valid() && View() == E.Dispatch(old(View()), Credit(id, delta)).0
    {
      hide StreamInner.View, StreamInner.Valid, StreamRegistry.Valid, StreamRegistry.Entries, S.Grant;
      registry.Known(id);
      var found := registry.Get(id);
      if found.Some? {
        registry.Own(id);
        found.value.GrantSendCredit(delta);
        registry.OneStream(id);
      }
    }

    method Dispatch(f: Frame, hiccups: nat) returns (v: E.Verdict)
      requires Valid()
      modifies this, registry, registry.parts, out, closer
      ensures Valid() && fresh(registry.parts - old(registry.parts))
      ensures Booked(if f.Data? then f.id else 0, f.Data? && f.flags.syn)
      ensures (View(), v) == E.Dispatch(old(View()), f)
    {
      hide StreamInner.View, StreamInner.Valid, StreamRegistry.Valid, StreamRegistry.Entries, E.HandleData,
        E.InitiateShutdown;
      match f
      case Data(id, flags, payload) =>
        v := HandleData(id, flags, payload, hiccups);
      case WindowUpdate(id, _, delta) =>
        GrantCredit(id, delta);
        return E.Fine;
      case Ping(flags, n) =>
        if !flags.ack {
          var _ := out.Send(Pong(n));
        }
        return E.Fine;
      case GoAway(code) =>
        peerGone := true;
        InitiateShutdown(code);
        return E.Fine;
    }

    /** The reader's reaction to one decoded frame; false when the loop ends. */
    method ReaderTurn(f: Frame, hiccups: nat) returns (more: bool)
      requires Valid()
      modifies this, registry, registry.parts, out, closer
      ensures Valid() && fresh(registry.parts - old(registry.parts))
      ensures Booked(if f.Data? then f.id else 0, f.Data? && f.flags.syn)
      ensures View() == E.ReaderStep(old(View()), f)
      ensures more <==> E.Dispatch(old(View()), f).1 == E.Fine
    {
      hide StreamInner.View, StreamInner.Valid, StreamRegistry.Valid, StreamRegistry.Entries, E.Dispatch,
        E.InitiateShutdown;
      var v := Dispatch(f, hiccups);
      if v == E.Fault {
        InitiateShutdown(ProtocolError);
        return false;
      }
      return true;
    }
  }

  // ---------------------------------------------------------------- src/stream/mod.rs

  /** The user's handle on a stream of `session`. */
  class StreamHandle {
    const inner: StreamInner
    ghost const session: Session

    constructor (inner: StreamInner, ghost session: Session)
      ensures this.inner == inner && this.session == session
    {
      this.inner, this.session := inner, session;
    }

    /** The user holds the stream. */
    ghost predicate Held()
      reads session, session.registry, session.closer
    {
      session.Valid() && session.Holds(inner, E.User)
    }

    method PollWrite(data: seq<u8>) returns (r: S.WriteOutcome)
      requires Held()
      modifies inner.Repr, session.out
      ensures Held() && inner.id in old(session.View()).entries
      ensures E.Allowed(old(session.View()).entries[inner.id], E.Write(data))
      ensures session.View() == E.UserStep(old(session.View()), inner.id, E.Write(data))
      ensures r == S.PollWrite(old(inner.View()), session.cfg.maxFrame, data, session.out.isOpen).1
      ensures var k := if r.Accepted? then r.n else 0;
              && 0 <= k <= |data| && inner.id in session.View().entries
              && session.View().entries[inner.id].stream.log.wrote
                 == old(session.View()).entries[inner.id].stream.log.wrote + data[..k]
    {
      hide StreamInner.View, StreamInner.Valid, StreamRegistry.Valid, StreamRegistry.Entries, S.PollWrite;
      session.registry.Known(inner.id);
      session.registry.Own(inner.id);
      assert session.closer.items + [] == session.closer.items;
      r := inner.PollWrite(data);
      session.registry.OneStream(inner.id);
    }

    method PollRead(buf: ReadBuf) returns (r: ReadPoll)
      requires Held() && buf.Valid()
      requires {buf, buf.space} !! session.Footprint()
      modifies inner.Repr, session.out, buf, buf.space
      ensures Held() && buf.Valid() && inner.id in old(session.View()).entries
      ensures E.Allowed(old(session.View()).entries[inner.id], E.Read(old(buf.Remaining())))
      ensures session.View() == E.UserStep(old(session.View()), inner.id, E.Read(old(buf.Remaining())))
      ensures old(buf.Filled()) <= buf.Filled()
      ensures Answers(old(session.View()).entries[inner.id].stream, old(buf.Remaining()), r,
                      buf.Filled()[|old(buf.Filled())|..])
      ensures inner.id in session.View().entries
      ensures session.View().entries[inner.id].stream.log.read
           == old(session.View()).entries[inner.id].stream.log.read + buf.Filled()[|old(buf.Filled())|..]
    {
      hide StreamInner.View, StreamInner.Valid, StreamRegistry.Valid, StreamRegistry.Entries, S.PollRead;
      session.registry.Known(inner.id);
      session.registry.Own(inner.id);
      assert session.closer.items + [] == session.closer.items;
      r := inner.PollRead(buf);
      session.registry.OneStream(inner.id);
    }

    method PollShutdown()
      requires Held()
      modifies inner.Repr, session.out
      ensures Held() && inner.id in old(session.View()).entries
      ensures E.Allowed(old(session.View()).entries[inner.id], E.Finish)
      ensures session.View() == E.UserStep(old(session.View()), inner.id, E.Finish)
    {
      hide StreamInner.View, StreamInner.Valid, StreamRegistry.Valid, StreamRegistry.Entries, S.LocalFin;
      session.registry.Known(inner.id);
      session.registry.Own(inner.id);
      assert session.closer.items + [] == session.closer.items;
      inner.LocalFin();
      session.registry.OneStream(inner.id);
    }

    method Reset()
      requires Held()
      modifies inner.Repr, session.out, session.closer
      ensures Held() && inner.id in old(session.View()).entries
      ensures E.Allowed(old(session.View()).entries[inner.id], E.Reset)
      ensures session.View() == E.UserStep(old(session.View()), inner.id, E.Reset)
    {
      hide StreamInner.View, StreamInner.Valid, StreamRegistry.Valid, StreamRegistry.Entries, S.LocalReset;
      session.registry.Known(inner.id);
      session.registry.Own(inner.id);
      inner.LocalReset();
      session.registry.OneStream(inner.id);
    }

    /** After this nobody holds the stream. */
    method Drop()
      requires Held()
      modifies inner.Repr, session.out, session.closer, session.registry`holders
      ensures session.Valid() && inner.id in old(session.View()).entries
      ensures E.Allowed(old(session.View()).entries[inner.id], E.Drop)
      ensures session.View() == E.UserStep(old(session.View()), inner.id, E.Drop)
      ensures session.registry.holders == old(session.registry.holders)[inner.id := E.Nobody]
    {
      hide StreamInner.View, StreamInner.Valid, StreamRegistry.Valid, StreamRegistry.Entries, S.UserDrop;
      session.registry.Known(inner.id);
      session.registry.Own(inner.id);
      inner.OnUserDrop();
      session.registry.OneStream(inner.id);
      session.registry.Known(inner.id);
      session.registry.Hand(inner.id, E.Nobody);
    }
  }
}
