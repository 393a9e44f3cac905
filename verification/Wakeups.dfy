/**
The register-then-recheck pattern of `poll_acquire`, `poll_read` and `wait_acked`
(src/flow/window.rs, src/stream/inner.rs) against every notifier of a stream, one atomic
access per step, sequentially consistent. Each wait has one polling task, as `&mut Stream` and
`open` ensure; notifiers are as many tasks as one likes.
*/
module Wakeups {
  import opened Base

  type Task = nat

  datatype Mem = Mem(credit: nat, closed: bool, buffered: nat,
                     readOpen: bool, writeOpen: bool, reset: bool, acked: bool)

  /** The things a waiting task looks for, each one atomic access. */
  datatype Sign = Credit | WindowClosed | Data | ReadClosed | WriteClosed | IsReset | Acked

  predicate Holds(m: Mem, c: Sign) {
    match c
    case Credit => m.credit > 0
    case WindowClosed => m.closed
    case Data => m.buffered > 0
    case ReadClosed => !m.readOpen
    case WriteClosed => !m.writeOpen
    case IsReset => m.reset
    case Acked => m.acked
  }

  datatype Wait = Sending | Reading | Opening

  /** What is looked at before registering, in order. */
  function Checks(w: Wait): seq<Sign> {
    match w
    case Sending => [WindowClosed, Credit]
    case Reading => [IsReset, Data, ReadClosed]
    case Opening => [Acked, IsReset, WriteClosed]
  }

  /** What is looked at again after registering, in order. */
  function Rechecks(w: Wait): seq<Sign> {
    match w
    case Sending => [WindowClosed, Credit]
    case Reading => [Data, ReadClosed, IsReset]
    case Opening => [Acked, IsReset, WriteClosed]
  }

  datatype Pc = Checking(i: nat) | Registering | Rechecking(j: nat) | Parked | Returned

  /**
  A wait: where its task is, whether its waker sits in the slot, whether it was woken, and how often the loop
  body was entered.
  */
  datatype Desk = Desk(pc: Pc, slot: bool, woken: bool, passes: nat)

  // ---------------------------------------------------------------- notifiers

  datatype Instr =
    | PushBytes
    | AddCredit(n: nat)
    | CloseWindow
    | ClearRead
    | ClearWrite
    | SetReset
    | SetResetOrStop       // local_reset gives up after mark_reset if it was not the first
    | SetAcked
    | Wake(w: Wait)

  const PushData := [PushBytes, Wake(Reading)]
  const RemoteFin := [ClearRead, Wake(Reading)]
  const Wakes := [Wake(Sending), Wake(Reading), Wake(Opening)]
  const ForceClose := [ClearRead, ClearWrite, CloseWindow] + Wakes
  const RemoteReset := [SetReset] + ForceClose
  const LocalReset := [SetResetOrStop] + ForceClose
  const MarkAcked := [SetAcked, Wake(Opening)]

  /** The calls that can change what a wait is waiting for. */
  predicate Notifier(p: seq<Instr>) {
    || p == PushData || p == RemoteFin || p == RemoteReset || p == LocalReset || p == ForceClose || p == MarkAcked
    || (|p| == 2 && p[0].AddCredit? && p[1] == Wake(Sending))
  }

  function Sets(i: Instr): Option<Sign> {
    match i
    case PushBytes => Some(Data)
    case AddCredit(_) => Some(Credit)
    case CloseWindow => Some(WindowClosed)
    case ClearRead => Some(ReadClosed)
    case ClearWrite => Some(WriteClosed)
    case SetReset => Some(IsReset)
    case SetResetOrStop => Some(IsReset)
    case SetAcked => Some(Acked)
    case Wake(_) => None
  }

  function Exec(m: Mem, i: Instr): Mem {
    match i
    case PushBytes => m.(buffered := m.buffered + 1)
    case AddCredit(n) => m.(credit := m.credit + n)
    case CloseWindow => m.(closed := true)
    case ClearRead => m.(readOpen := false)
    case ClearWrite => m.(writeOpen := false)
    case SetReset => m.(reset := true)
    case SetResetOrStop => m.(reset := true)
    case SetAcked => m.(acked := true)
    case Wake(_) => m
  }

  // ---------------------------------------------------------------- the machine

  /** A notifier: what it still has to do, and whether it has done anything yet. */
  datatype Thread = Thread(rest: seq<Instr>, started: bool)

  datatype Shop = Shop(mem: Mem, desks: map<Wait, Desk>, threads: map<Task, Thread>)

  datatype Event =
    | Poll(w: Wait)
    | Look(w: Wait, take: nat)            // a check or recheck; a successful one consumes up to `take`
    | Register(w: Wait)
    | Notify(t: Task, program: seq<Instr>)
    | Next(t: Task)

  function Fresh(credit: nat, acked: bool): Shop {
    Shop(Mem(credit, false, 0, true, true, false, acked),
         map[Sending := Desk(Returned, false, false, 0), Reading := Desk(Returned, false, false, 0),
             Opening := Desk(Returned, false, false, 0)], map[])
  }

  /**
  A wait that is not under way may be polled at any time: by its user, by a wake-up, or because another future
  sharing its waker woke it.
  */
  predicate Enabled(s: Shop, ev: Event) {
    match ev
    case Poll(w) => w in s.desks && (s.desks[w].pc.Returned? || s.desks[w].pc.Parked?)
    case Look(w, take) =>
      && w in s.desks
      && (s.desks[w].pc.Checking? || s.desks[w].pc.Rechecking?)
      && take > 0
    case Register(w) => w in s.desks && s.desks[w].pc.Registering?
    case Notify(t, p) => t !in s.threads && Notifier(p)
    case Next(t) => t in s.threads && s.threads[t].rest != []
  }

  function Consume(m: Mem, c: Sign, take: nat): Mem {
    match c
    case Credit => m.(credit := m.credit - Min(take, m.credit))
    case Data => m.(buffered := m.buffered - Min(take, m.buffered))
    case _ => m
  }

  function LookStep(s: Shop, w: Wait, take: nat): Shop
    requires Enabled(s, Look(w, take))
  {
    var d := s.desks[w];
    match d.pc
    case Checking(i) =>
      if i >= |Checks(w)| then s.(desks := s.desks[w := d.(pc := Registering)])
      else if !Holds(s.mem, Checks(w)[i]) then s.(desks := s.desks[w := d.(pc := Checking(i + 1))])
      else s.(desks := s.desks[w := d.(pc := Returned)], mem := Consume(s.mem, Checks(w)[i], take))
    case Rechecking(j) =>
      if j >= |Rechecks(w)| then s.(desks := s.desks[w := d.(pc := Parked)])
      else if !Holds(s.mem, Rechecks(w)[j]) then s.(desks := s.desks[w := d.(pc := Rechecking(j + 1))])
      else if w == Reading then s.(desks := s.desks[w := d.(pc := Checking(0), passes := d.passes + 1)])
      else s.(desks := s.desks[w := d.(pc := Returned)], mem := Consume(s.mem, Rechecks(w)[j], take))
    case _ => s
  }

  function NextStep(s: Shop, t: Task): Shop
    requires Enabled(s, Next(t))
  {
    var i, rest := s.threads[t].rest[0], s.threads[t].rest[1..];
    if i.Wake? && i.w in s.desks then
      var d := s.desks[i.w];
      Shop(s.mem, s.desks[i.w := d.(slot := false, woken := d.woken || d.slot)], s.threads[t := Thread(rest, true)])
    else if i == SetResetOrStop && s.mem.reset then s.(threads := s.threads[t := Thread([ClearRead, ClearWrite], true)])
    else Shop(Exec(s.mem, i), s.desks, s.threads[t := Thread(rest, true)])
  }

  function Step(s: Shop, ev: Event): Shop
    requires Enabled(s, ev)
  {
    match ev
    case Poll(w) => s.(desks := s.desks[w := s.desks[w].(pc := Checking(0), woken := false, passes := 1)])
    case Look(w, take) => LookStep(s, w, take)
    case Register(w) => s.(desks := s.desks[w := s.desks[w].(pc := Rechecking(0), slot := true)])
    case Notify(t, p) => s.(threads := s.threads[t := Thread(p, false)])
    case Next(t) => NextStep(s, t)
  }

  predicate Legal(s: Shop, tr: seq<Event>)
    decreases |tr|
  {
    tr == [] || (Enabled(s, tr[0]) && Legal(Step(s, tr[0]), tr[1..]))
  }

  function Run(s: Shop, tr: seq<Event>): Shop
    requires Legal(s, tr)
    decreases |tr|
  {
    if tr == [] then s else Run(Step(s, tr[0]), tr[1..])
  }

  // ---------------------------------------------------------------- invariant

  /** Some sign among `cs[from..to]` is there. */
  predicate Any(m: Mem, cs: seq<Sign>, from: nat, to: nat) {
    exists k :: from <= k < to && k < |cs| && Holds(m, cs[k])
  }

  /** Some notifier is between its first update and its wake of `w`. */
  predicate WakePending(s: Shop, w: Wait) {
    exists t :: t in s.threads && s.threads[t].started && Wake(w) in s.threads[t].rest
  }

  /** Every sign an instruction sets is followed by a wake of each wait that looks for it. */
  predicate Covered(p: seq<Instr>) {
    p == [] ||
    (&& (Sets(p[0]).Some? ==> forall w :: Sets(p[0]).value in Rechecks(w) ==> Wake(w) in p[1..])
     && Covered(p[1..]))
  }

  /** What is left of a program covers itself, or is the tail of a reset that was not the first. */
  predicate ThreadOk(m: Mem, th: Thread) {
    var p := th.rest;
    && (Covered(p) || (m.reset && (p == [ClearRead, ClearWrite] || p == [ClearWrite])))
    && (forall i :: (if th.started then 0 else 1) <= i < |p| ==> p[i] != SetResetOrStop)
  }

  function Seen(w: Wait, pc: Pc): nat {
    match pc case Rechecking(j) => j case Parked => |Rechecks(w)| case _ => 0
  }

  /** A sign already passed over is being announced, unless one still to be looked at is there as well. */
  predicate Watchful(s: Shop, w: Wait, d: Desk) {
    var j, n := Seen(w, d.pc), |Rechecks(w)|;
    d.pc.Rechecking? || d.pc.Parked? ==>
      && (d.slot || d.woken) && j <= n
      && (Any(s.mem, Rechecks(w), 0, j) ==> d.woken || WakePending(s, w) || Any(s.mem, Rechecks(w), j, n))
  }

  /** A second pass of the read loop is sure to return. */
  predicate Bounded(m: Mem, d: Desk) {
    !d.pc.Returned? ==>
      && 1 <= d.passes <= 2
      && (d.passes == 2 ==> d.pc.Checking? && Any(m, Checks(Reading), d.pc.i, 3))
  }

  ghost predicate Ok(s: Shop) {
    && s.desks.Keys == {Sending, Reading, Opening}
    && (forall t :: t in s.threads ==> ThreadOk(s.mem, s.threads[t]))
    && (forall w :: w in s.desks ==> Watchful(s, w, s.desks[w]))
    && Bounded(s.mem, s.desks[Reading])
  }

  lemma CoverCons(i: Instr, p: seq<Instr>)
    requires Covered(p)
    requires Sets(i).Some? ==> forall w :: Sets(i).value in Rechecks(w) ==> Wake(w) in p
    ensures Covered([i] + p)
  {
    assert ([i] + p)[1..] == p;
  }

  /** In front of three wakes, any updates are covered. */
  lemma {:induction false} CoverWakes(p: seq<Instr>)
    ensures Covered(p + Wakes)
  {
    if p == [] {
      CoverCons(Wake(Opening), []);
      CoverCons(Wake(Reading), [Wake(Opening)]);
      CoverCons(Wake(Sending), [Wake(Reading), Wake(Opening)]);
      assert [] + Wakes == [Wake(Sending)] + ([Wake(Reading)] + [Wake(Opening)]);
    } else {
      CoverWakes(p[1..]);
      var q := p[1..] + Wakes;
      forall w
        ensures Wake(w) in q
      {
        var k := match w case Sending => 0 case Reading => 1 case Opening => 2;
        assert q[|p| - 1 + k] == Wakes[k] == Wake(w);
      }
      CoverCons(p[0], q);
      assert [p[0]] + q == p + Wakes;
    }
  }

  lemma CoverPair(i: Instr, w: Wait)
    requires Sets(i).Some? ==> forall v :: Sets(i).value in Rechecks(v) ==> v == w
    ensures Covered([i, Wake(w)])
  {
    CoverCons(Wake(w), []);
    CoverCons(i, [Wake(w)]);
    assert [i] + ([Wake(w)] + []) == [i, Wake(w)];
  }

  lemma NotifiersAreCovered(p: seq<Instr>)
    requires Notifier(p)
    ensures Covered(p)
  {
    hide Covered;
    if p == PushData {
      CoverPair(PushBytes, Reading);
    } else if p == RemoteFin {
      CoverPair(ClearRead, Reading);
    } else if p == MarkAcked {
      CoverPair(SetAcked, Opening);
    } else if |p| == 2 && p[0].AddCredit? {
      CoverPair(p[0], Sending);
      assert p == [p[0], Wake(Sending)];
    } else {
      assert |p| >= 6 && p == p[..|p| - 3] + Wakes;
      CoverWakes(p[..|p| - 3]);
    }
  }

  // ---------------------------------------------------------------- steps

  /** Signs do not go away by a notifier's doing. */
  lemma AnyGrows(m: Mem, i: Instr, cs: seq<Sign>, from: nat, to: nat)
    requires Any(m, cs, from, to)
    ensures Any(Exec(m, i), cs, from, to)
  {
    var k :| from <= k < to && k < |cs| && Holds(m, cs[k]);
    assert Holds(Exec(m, i), cs[k]);
  }

  /** And only the one it sets can be new. */
  lemma AnyNew(m: Mem, i: Instr, cs: seq<Sign>, from: nat, to: nat)
    requires Any(Exec(m, i), cs, from, to) && !Any(m, cs, from, to)
    ensures Sets(i).Some? && Sets(i).value in cs
  {
    var k :| from <= k < to && k < |cs| && Holds(Exec(m, i), cs[k]);
    assert !Holds(m, cs[k]);
  }

  lemma PendingStays(s: Shop, s1: Shop, t: Task, w: Wait)
    requires Enabled(s, Next(t)) && s1 == NextStep(s, t) && WakePending(s, w)
    requires s.threads[t].rest[0] != Wake(w) && (s.threads[t].started ==> s.threads[t].rest[0] != SetResetOrStop)
    ensures WakePending(s1, w)
  {
    var u :| u in s.threads && s.threads[u].started && Wake(w) in s.threads[u].rest;
    if u == t {
      var rest := s.threads[t].rest;
      assert rest == [rest[0]] + rest[1..];
    }
    assert s1.threads[u].started && Wake(w) in s1.threads[u].rest;
  }

  lemma NextThreads(s: Shop, t: Task)
    requires Ok(s) && Enabled(s, Next(t))
    ensures forall u :: u in NextStep(s, t).threads ==> ThreadOk(NextStep(s, t).mem, NextStep(s, t).threads[u])
  {
    var s1 := NextStep(s, t);
    assert ThreadOk(s.mem, s.threads[t]);
    assert [ClearRead, ClearWrite][1..] == [ClearWrite] && [ClearWrite][1..] == [];
    assert s.mem.reset ==> s1.mem.reset;
    assert ThreadOk(s1.mem, s1.threads[t]);
  }

  lemma NextWatchful(s: Shop, t: Task, w: Wait)
    requires Ok(s) && Enabled(s, Next(t)) && w in s.desks
    ensures Watchful(NextStep(s, t), w, NextStep(s, t).desks[w])
  {
    var s1, d, i := NextStep(s, t), s.desks[w], s.threads[t].rest[0];
    assert Watchful(s, w, d) && ThreadOk(s.mem, s.threads[t]);
    if (d.pc.Rechecking? || d.pc.Parked?) && i != Wake(w) {
      var j, n := Seen(w, d.pc), |Rechecks(w)|;
      assert s1.desks[w] == d && (s1.mem == s.mem || s1.mem == Exec(s.mem, i));
      if Any(s1.mem, Rechecks(w), 0, j) {
        if Any(s.mem, Rechecks(w), 0, j) {
          WatchfulOld(s, s1, t, w, j, n);
        } else {
          WatchfulNew(s, s1, t, w, j, n);
        }
      }
    }
  }

  lemma WatchfulOld(s: Shop, s1: Shop, t: Task, w: Wait, j: nat, n: nat)
    requires Enabled(s, Next(t)) && s1 == NextStep(s, t) && w in s.desks && ThreadOk(s.mem, s.threads[t])
    requires s.threads[t].rest[0] != Wake(w)
    requires s.desks[w].woken || WakePending(s, w) || Any(s.mem, Rechecks(w), j, n)
    ensures s.desks[w].woken || WakePending(s1, w) || Any(s1.mem, Rechecks(w), j, n)
  {
    if WakePending(s, w) {
      PendingStays(s, s1, t, w);
    } else if Any(s.mem, Rechecks(w), j, n) {
      AnyGrows(s.mem, s.threads[t].rest[0], Rechecks(w), j, n);
    }
  }

  lemma WatchfulNew(s: Shop, s1: Shop, t: Task, w: Wait, j: nat, n: nat)
    requires Enabled(s, Next(t)) && s1 == NextStep(s, t) && w in s.desks && ThreadOk(s.mem, s.threads[t])
    requires s.threads[t].rest[0] != Wake(w) && j <= n == |Rechecks(w)|
    requires Any(s1.mem, Rechecks(w), 0, j) && !Any(s.mem, Rechecks(w), 0, j)
    ensures WakePending(s1, w) || Any(s1.mem, Rechecks(w), j, n)
  {
    var p := s.threads[t].rest;
    assert s1.mem == Exec(s.mem, p[0]);
    AnyNew(s.mem, p[0], Rechecks(w), 0, j);
    if Covered(p) {
      assert Wake(w) in p[1..] && s1.threads[t] == Thread(p[1..], true);
    } else {
      var k := if w == Reading then 2 else 1;
      assert Rechecks(w)[k] == IsReset && Holds(s.mem, IsReset) && Holds(s1.mem, Rechecks(w)[k]);
      assert k >= j;
    }
  }

  lemma NextOk(s: Shop, t: Task)
    requires Ok(s) && Enabled(s, Next(t))
    ensures Ok(NextStep(s, t))
  {
    var s1, d, i := NextStep(s, t), s.desks[Reading], s.threads[t].rest[0];
    NextThreads(s, t);
    forall w | w in s1.desks
      ensures Watchful(s1, w, s1.desks[w])
    {
      NextWatchful(s, t, w);
    }
    if d.pc.Checking? && d.passes == 2 {
      AnyGrows(s.mem, i, Checks(Reading), d.pc.i, 3);
    }
    assert Bounded(s1.mem, s1.desks[Reading]);
  }

  /** A task consuming what it found disturbs no other wait. */
  lemma OthersUnmoved(s: Shop, s1: Shop, w: Wait, v: Wait)
    requires Ok(s) && w in s.desks && v in s.desks && v != w
    requires s1.threads == s.threads && w in s1.desks && s1.desks == s.desks[w := s1.desks[w]]
    requires forall c :: (c in Rechecks(v) || (v == Reading && c in Checks(v))) ==>
               (Holds(s1.mem, c) <==> Holds(s.mem, c))
    ensures Watchful(s1, v, s1.desks[v])
    ensures v == Reading ==> Bounded(s1.mem, s1.desks[v])
  {
    var d, cs, n := s.desks[v], Rechecks(v), |Rechecks(v)|;
    assert Watchful(s, v, d);
    assert forall k :: 0 <= k < n ==> (Holds(s1.mem, cs[k]) <==> Holds(s.mem, cs[k]));
    assert WakePending(s, v) ==> WakePending(s1, v);
    if v == Reading {
      assert forall k :: 0 <= k < 3 ==> (Holds(s1.mem, Checks(v)[k]) <==> Holds(s.mem, Checks(v)[k]));
    }
  }

  /** The looking task itself. */
  lemma LookerOk(s: Shop, w: Wait, take: nat)
    requires Ok(s) && Enabled(s, Look(w, take))
    ensures var s1 := LookStep(s, w, take);
            Watchful(s1, w, s1.desks[w]) && (w == Reading ==> Bounded(s1.mem, s1.desks[w]))
  {
    var s1, d := LookStep(s, w, take), s.desks[w];
    assert Watchful(s, w, d);
    if d.pc.Rechecking? && s1.desks[w].pc != Returned && !s1.desks[w].pc.Checking? {
      assert s1.mem == s.mem && (WakePending(s, w) ==> WakePending(s1, w));
      if s1.desks[w].pc.Rechecking? {
        NotHere(s.mem, Rechecks(w), d.pc.j, |Rechecks(w)|);
      }
    }
    if w == Reading {
      assert Bounded(s.mem, d);
      if d.pc.Checking? && d.pc.i < 3 && !Holds(s.mem, Checks(w)[d.pc.i]) {
        NotHere(s.mem, Checks(w), d.pc.i, 3);
      }
      if d.pc.Rechecking? && s1.desks[w].pc.Checking? {
        var c := Rechecks(w)[d.pc.j];
        var k := match c case IsReset => 0 case Data => 1 case _ => 2;
        assert Checks(w)[k] == c && Holds(s1.mem, Checks(w)[k]);
      }
    }
  }

  lemma NotHere(m: Mem, cs: seq<Sign>, i: nat, n: nat)
    requires i < n == |cs| && !Holds(m, cs[i])
    ensures Any(m, cs, i, n) ==> Any(m, cs, i + 1, n)
    ensures Any(m, cs, 0, i + 1) ==> Any(m, cs, 0, i)
  {
  }

  lemma LookMem(s: Shop, w: Wait, take: nat, v: Wait, c: Sign)
    requires Enabled(s, Look(w, take)) && v != w && (c in Rechecks(v) || c in Checks(v))
    ensures Holds(LookStep(s, w, take).mem, c) <==> Holds(s.mem, c)
  {
  }

  lemma LookShape(s: Shop, w: Wait, take: nat)
    requires Enabled(s, Look(w, take))
    ensures var s1 := LookStep(s, w, take);
            && s1.threads == s.threads && w in s1.desks && s1.desks == s.desks[w := s1.desks[w]]
            && s1.mem.reset == s.mem.reset
  {
  }

  lemma LookOk(s: Shop, w: Wait, take: nat)
    requires Ok(s) && Enabled(s, Look(w, take))
    ensures Ok(LookStep(s, w, take))
  {
    hide LookStep, Watchful, Bounded, Covered;
    var s1 := LookStep(s, w, take);
    LookShape(s, w, take);
    LookerOk(s, w, take);
    forall v | v in s1.desks && v != w
      ensures Watchful(s1, v, s1.desks[v]) && (v == Reading ==> Bounded(s1.mem, s1.desks[v]))
    {
      forall c | c in Rechecks(v) || c in Checks(v)
        ensures Holds(s1.mem, c) <==> Holds(s.mem, c)
      {
        LookMem(s, w, take, v, c);
      }
      OthersUnmoved(s, s1, w, v);
    }
  }

  lemma NotifyOk(s: Shop, t: Task, p: seq<Instr>)
    requires Ok(s) && t !in s.threads && Notifier(p)
    ensures Ok(s.(threads := s.threads[t := Thread(p, false)]))
  {
    var s1 := s.(threads := s.threads[t := Thread(p, false)]);
    NotifiersAreCovered(p);
    StopsOnlyFirst(p);
    hide Covered, Notifier;
    forall w | w in s1.desks
      ensures Watchful(s1, w, s1.desks[w])
    {
      assert Watchful(s, w, s.desks[w]);
      if WakePending(s, w) {
        var u :| u in s.threads && s.threads[u].started && Wake(w) in s.threads[u].rest;
        assert u in s1.threads && s1.threads[u] == s.threads[u];
      }
    }
  }

  lemma StopsOnlyFirst(p: seq<Instr>)
    requires Notifier(p)
    ensures forall i :: 1 <= i < |p| ==> p[i] != SetResetOrStop
  {
  }

  lemma StepOk(s: Shop, ev: Event)
    requires Ok(s) && Enabled(s, ev)
    ensures Ok(Step(s, ev))
  {
    match ev {
      case Next(t) => NextOk(s, t);
      case Look(w, take) => LookOk(s, w, take);
      case Notify(t, p) => NotifyOk(s, t, p);
      case Poll(w) => PollOk(s, w);
      case Register(w) => RegisterOk(s, w);
    }
    hide Ok;
  }

  lemma PollOk(s: Shop, w: Wait)
    requires Ok(s) && Enabled(s, Poll(w))
    ensures Ok(Step(s, Poll(w)))
  {
    DeskChange(s, Step(s, Poll(w)), w);
  }

  lemma RegisterOk(s: Shop, w: Wait)
    requires Ok(s) && Enabled(s, Register(w))
    ensures Ok(Step(s, Register(w)))
  {
    DeskChange(s, Step(s, Register(w)), w);
  }

  lemma DeskChange(s: Shop, s1: Shop, w: Wait)
    requires Ok(s) && w in s.desks && w in s1.desks && s1 == s.(desks := s.desks[w := s1.desks[w]])
    requires Watchful(s1, w, s1.desks[w]) && (w == Reading ==> Bounded(s1.mem, s1.desks[w]))
    ensures Ok(s1)
  {
    forall v | v in s1.desks && v != w
      ensures Watchful(s1, v, s1.desks[v]) && (v == Reading ==> Bounded(s1.mem, s1.desks[v]))
    {
      OthersUnmoved(s, s1, w, v);
    }
  }

  lemma {:induction false} RunOk(s: Shop, tr: seq<Event>)
    requires Ok(s) && Legal(s, tr)
    ensures Ok(Run(s, tr))
    decreases |tr|
  {
    hide Ok;
    if tr != [] {
      StepOk(s, tr[0]);
      RunOk(Step(s, tr[0]), tr[1..]);
    }
  }

  lemma AlwaysOk(credit: nat, acked: bool, tr: seq<Event>)
    requires Legal(Fresh(credit, acked), tr)
    ensures Ok(Run(Fresh(credit, acked), tr))
  {
    assert Ok(Fresh(credit, acked));
    hide Ok;
    RunOk(Fresh(credit, acked), tr);
  }

  /**
  No lost wakeup: in every interleaving, a parked task for which any sign it waits for is
  there has been woken, or some notifier has made its update and is still on its way to the wake.
  */
  lemma NoLostWakeup(credit: nat, acked: bool, tr: seq<Event>, w: Wait, c: Sign)
    requires Legal(Fresh(credit, acked), tr)
    requires var s := Run(Fresh(credit, acked), tr);
             w in s.desks && s.desks[w].pc.Parked? && c in Rechecks(w) && Holds(s.mem, c)
    ensures var s := Run(Fresh(credit, acked), tr); s.desks[w].woken || WakePending(s, w)
  {
    AlwaysOk(credit, acked, tr);
    var s := Run(Fresh(credit, acked), tr);
    assert Watchful(s, w, s.desks[w]);
    var k :| 0 <= k < |Rechecks(w)| && Rechecks(w)[k] == c;
    assert Any(s.mem, Rechecks(w), 0, |Rechecks(w)|);
  }

  /** `poll_read` goes round its loop at most twice, whatever arrives or closes meanwhile. */
  lemma ReadLoopsAtMostTwice(credit: nat, acked: bool, tr: seq<Event>)
    requires Legal(Fresh(credit, acked), tr)
    ensures var d := Run(Fresh(credit, acked), tr).desks;
            Reading in d && (!d[Reading].pc.Returned? ==> d[Reading].passes <= 2)
  {
    AlwaysOk(credit, acked, tr);
  }
}
