/**
`initiate_shutdown` against `poll_write`, one atomic access per step: the GoAway is queued first and the streams are
closed one by one after it (src/session/inner.rs), while a write looks at the flags, takes credit and sends
(src/stream/inner.rs). So payload can be queued behind the GoAway, where no peer takes it. Here is exactly when
it still can, and how much.
*/
module ShutdownRace {
  import opened Base

  /** Where a stream's writing task is: between calls, past the look at the flag, past the window, with credit. */
  datatype WritePc = Idle | Checked | Admitted | Took(n: nat)

  datatype Flow = Flow(writeOpen: bool, closed: bool, credit: nat, pc: WritePc)

  /** How far the shutdown is; `half` is the stream it is in the middle of closing. */
  datatype Phase = Before | Swapped | Told | Forcing(todo: set<u32>, half: Option<u32>)

  datatype Item = Bye | Bytes(id: u32, n: nat)

  datatype Site = Site(flows: map<u32, Flow>, phase: Phase, queue: seq<Item>)

  datatype Event =
    | Check(id: u32)             // poll_write looks at the write flag
    | Admit(id: u32)             // poll_acquire looks whether the window is closed
    | Take(id: u32, want: nat)   // and takes credit
    | Send(id: u32)              // the frame is queued
    | Swap                       // is_closing is set
    | Tell                       // the GoAway is queued
    | Drain                      // the registry is emptied
    | Clear(id: u32)             // force_close clears the write flag
    | Shut                       // and closes the window

  predicate Enabled(s: Site, ev: Event) {
    match ev
    case Check(id) => id in s.flows && s.flows[id].pc == Idle
    case Admit(id) => id in s.flows && s.flows[id].pc == Checked
    case Take(id, want) => id in s.flows && s.flows[id].pc == Admitted && want > 0
    case Send(id) => id in s.flows && s.flows[id].pc.Took?
    case Swap => s.phase == Before
    case Tell => s.phase == Swapped
    case Drain => s.phase == Told
    case Clear(id) => s.phase.Forcing? && id in s.phase.todo && s.phase.half == None && id in s.flows
    case Shut => s.phase.Forcing? && s.phase.half.Some? && s.phase.half.value in s.flows
  }

  function Put(s: Site, id: u32, f: Flow): Site {
    s.(flows := s.flows[id := f])
  }

  function Step(s: Site, ev: Event): Site
    requires Enabled(s, ev)
  {
    match ev
    case Check(id) => Put(s, id, s.flows[id].(pc := if s.flows[id].writeOpen then Checked else Idle))
    case Admit(id) => Put(s, id, s.flows[id].(pc := if s.flows[id].closed then Idle else Admitted))
    case Take(id, want) =>
      var f := s.flows[id];
      var n := Min(want, f.credit);
      Put(s, id, if n == 0 then f.(pc := Idle) else f.(pc := Took(n), credit := f.credit - n))
    case Send(id) => Put(s, id, s.flows[id].(pc := Idle)).(queue := s.queue + [Bytes(id, s.flows[id].pc.n)])
    case Swap => s.(phase := Swapped)
    case Tell => s.(phase := Told, queue := s.queue + [Bye])
    case Drain => s.(phase := Forcing(s.flows.Keys, None))
    case Clear(id) => Put(s, id, s.flows[id].(writeOpen := false)).(phase := Forcing(s.phase.todo - {id}, Some(id)))
    case Shut =>
      var id := s.phase.half.value;
      Put(s, id, s.flows[id].(closed := true)).(phase := s.phase.(half := None))
  }

  predicate Legal(s: Site, tr: seq<Event>)
    decreases |tr|
  {
    tr == [] || (Enabled(s, tr[0]) && Legal(Step(s, tr[0]), tr[1..]))
  }

  function Run(s: Site, tr: seq<Event>): Site
    requires Legal(s, tr)
    decreases |tr|
  {
    if tr == [] then s else Run(Step(s, tr[0]), tr[1..])
  }

  /** An open session with these streams, all writable and each with some credit. */
  function Start(credits: map<u32, nat>): Site {
    Site(map id | id in credits :: Flow(true, false, credits[id], Idle), Before, [])
  }

  // ---------------------------------------------------------------- what is behind the GoAway

  function Count(q: seq<Item>, id: u32): nat {
    if q == [] then 0 else (if q[0].Bytes? && q[0].id == id then 1 else 0) + Count(q[1..], id)
  }

  /** Payload frames of stream `id` behind the GoAway. */
  function Late(q: seq<Item>, id: u32): nat {
    if q == [] then 0 else if q[0] == Bye then Count(q[1..], id) else Late(q[1..], id)
  }

  function One(x: Item, id: u32): nat {
    if x.Bytes? && x.id == id then 1 else 0
  }

  lemma {:induction false} CountPush(q: seq<Item>, x: Item, id: u32)
    ensures Count(q + [x], id) == Count(q, id) + One(x, id)
  {
    if q == [] {
      assert q + [x] == [x] && [x][1..] == [];
    } else {
      assert (q + [x])[1..] == q[1..] + [x];
      CountPush(q[1..], x, id);
    }
  }

  lemma {:induction false} LatePush(q: seq<Item>, x: Item, id: u32)
    ensures Late(q + [x], id) == Late(q, id) + if Bye in q then One(x, id) else 0
  {
    if q == [] {
      assert q + [x] == [x] && [x][1..] == [];
    } else {
      assert (q + [x])[1..] == q[1..] + [x] && q == [q[0]] + q[1..];
      if q[0] == Bye {
        CountPush(q[1..], x, id);
      } else {
        LatePush(q[1..], x, id);
      }
    }
  }

  // ---------------------------------------------------------------- invariant

  /** The GoAway is queued exactly once told; a stream's window is closed only after its write half. */
  predicate Ok(s: Site) {
    && (Bye in s.queue <==> s.phase.Told? || s.phase.Forcing?)
    && (forall id :: id in s.flows && s.flows[id].closed ==> !s.flows[id].writeOpen)
    && (s.phase.Forcing? && s.phase.half.Some? ==>
          s.phase.half.value in s.flows ==> !s.flows[s.phase.half.value].writeOpen)
    && (forall id :: id in s.flows && s.flows[id].pc.Took? ==> s.flows[id].pc.n > 0)
  }

  lemma StepOk(s: Site, ev: Event)
    requires Ok(s) && Enabled(s, ev)
    ensures Ok(Step(s, ev)) && Step(s, ev).flows.Keys == s.flows.Keys
  {
  }

  lemma {:induction false} RunOk(s: Site, tr: seq<Event>)
    requires Ok(s) && Legal(s, tr)
    ensures Ok(Run(s, tr)) && Run(s, tr).flows.Keys == s.flows.Keys
    decreases |tr|
  {
    hide Ok, Step, Enabled;
    if tr != [] {
      StepOk(s, tr[0]);
      RunOk(Step(s, tr[0]), tr[1..]);
    }
  }

  // ---------------------------------------------------------------- how much

  /** A call that has seen the write half open and has not ended. */
  function InFlight(s: Site, id: u32): nat {
    if id in s.flows && s.flows[id].pc != Idle then 1 else 0
  }

  lemma StepLate(s: Site, ev: Event, id: u32)
    requires Ok(s) && Enabled(s, ev) && id in s.flows
    ensures Late(Step(s, ev).queue, id) == Late(s.queue, id) + if Bye in s.queue && ev == Send(id) then 1 else 0
  {
    if ev.Send? {
      LatePush(s.queue, Bytes(ev.id, s.flows[ev.id].pc.n), id);
    } else if ev.Tell? {
      LatePush(s.queue, Bye, id);
    }
  }

  /** Once the write half is closed, at most the call under way still gets through. */
  lemma {:induction false} AtMostOneMore(s: Site, tr: seq<Event>, id: u32)
    requires Ok(s) && Legal(s, tr) && id in s.flows && !s.flows[id].writeOpen
    ensures Late(Run(s, tr).queue, id) <= Late(s.queue, id) + InFlight(s, id)
    decreases |tr|
  {
    hide Ok, Late;
    if tr != [] {
      StepOk(s, tr[0]);
      StepLate(s, tr[0], id);
      AtMostOneMore(Step(s, tr[0]), tr[1..], id);
    }
  }

  // ---------------------------------------------------------------- exactly when

  /** The stream has credit and its writing task, or its next call, has yet to meet a closed door. */
  predicate MayLand(f: Flow) {
    match f.pc
    case Took(_) => true
    case Admitted => f.credit > 0
    case Checked => !f.closed && f.credit > 0
    case Idle => f.writeOpen && f.credit > 0
  }

  /** Some continuation queues payload of the stream behind the GoAway. */
  ghost predicate CanBeLate(s: Site, id: u32) {
    exists tr: seq<Event> :: Legal(s, tr) && Late(Run(s, tr).queue, id) > Late(s.queue, id)
  }

  lemma StepBarred(s: Site, ev: Event, id: u32)
    requires Ok(s) && Enabled(s, ev) && id in s.flows && !MayLand(s.flows[id])
    ensures id in Step(s, ev).flows && !MayLand(Step(s, ev).flows[id]) && ev != Send(id)
  {
  }

  lemma {:induction false} BarredForGood(s: Site, tr: seq<Event>, id: u32)
    requires Ok(s) && Legal(s, tr) && id in s.flows && !MayLand(s.flows[id])
    ensures Late(Run(s, tr).queue, id) == Late(s.queue, id)
    decreases |tr|
  {
    hide Ok, MayLand, Step, Enabled, Late;
    if tr != [] {
      StepOk(s, tr[0]);
      StepLate(s, tr[0], id);
      StepBarred(s, tr[0], id);
      BarredForGood(Step(s, tr[0]), tr[1..], id);
    }
  }

  lemma Unfold(s: Site, ev: Event, rest: seq<Event>)
    requires Enabled(s, ev) && Legal(Step(s, ev), rest)
    ensures Legal(s, [ev] + rest) && Run(s, [ev] + rest) == Run(Step(s, ev), rest)
  {
    hide Step, Enabled;
    assert ([ev] + rest)[1..] == rest;
  }

  /** With the GoAway queued, the writing task goes on to the end of its call. */
  lemma Land(s: Site, id: u32) returns (tr: seq<Event>)
    requires Ok(s) && id in s.flows && MayLand(s.flows[id]) && Bye in s.queue
    ensures Legal(s, tr) && Late(Run(s, tr).queue, id) > Late(s.queue, id)
    decreases match s.flows[id].pc case Took(_) => 0 case Admitted => 1 case Checked => 2 case Idle => 3
  {
    var ev := match s.flows[id].pc
      case Took(_) => Send(id)
      case Admitted => Take(id, 1)
      case Checked => Admit(id)
      case Idle => Check(id);
    StepLate(s, ev, id);
    StepOk(s, ev);
    var s1 := Step(s, ev);
    if ev == Send(id) {
      var none: seq<Event> := [];
      Unfold(s, ev, none);
      tr := [ev] + none;
    } else {
      var rest := Land(s1, id);
      Unfold(s, ev, rest);
      tr := [ev] + rest;
    }
  }

  /** The GoAway is queued, if it has not been, and nothing else happens. */
  lemma TellFirst(s: Site, id: u32) returns (tr: seq<Event>)
    requires Ok(s) && id in s.flows && MayLand(s.flows[id])
    ensures Legal(s, tr) && Late(Run(s, tr).queue, id) > Late(s.queue, id)
    decreases match s.phase case Before => 2 case Swapped => 1 case _ => 0
  {
    if Bye in s.queue {
      tr := Land(s, id);
    } else {
      var ev := if s.phase == Before then Swap else Tell;
      StepLate(s, ev, id);
      StepOk(s, ev);
      var rest := TellFirst(Step(s, ev), id);
      Unfold(s, ev, rest);
      tr := [ev] + rest;
    }
  }

  /**
  The exact condition, in every interleaving: payload of a stream can still come behind the GoAway if and only if
  the stream has credit, or a call has taken some, and that call or the next one has not yet met a closed door.
  In an open session with credit that is always so.
  */
  lemma LateIff(credits: map<u32, nat>, tr: seq<Event>, id: u32)
    requires Legal(Start(credits), tr) && id in credits
    ensures var s := Run(Start(credits), tr); id in s.flows && (CanBeLate(s, id) <==> MayLand(s.flows[id]))
    ensures CanBeLate(Start(credits), id) <==> credits[id] > 0
  {
    hide Late, Step, Enabled;
    var s0 := Start(credits);
    var s := Run(s0, tr);
    RunOk(s0, tr);
    LateHere(s0, id);
    LateHere(s, id);
  }

  lemma LateHere(s: Site, id: u32)
    requires Ok(s) && id in s.flows
    ensures CanBeLate(s, id) <==> MayLand(s.flows[id])
  {
    hide Ok, MayLand, Step, Enabled, Late;
    if MayLand(s.flows[id]) {
      var u := TellFirst(s, id);
    } else if u: seq<Event> :| Legal(s, u) && Late(Run(s, u).queue, id) > Late(s.queue, id) {
      BarredForGood(s, u, id);
    }
  }
}
