/** With the receiver's threshold within the sender's window, a stream out of credit can always get some again. */
module Progress {
  import opened Base
  import opened Frames
  import opened Ids
  import opened Streams
  import opened Endpoints
  import opened Pairs
  import opened Network
  import opened Delivering
  import opened Guarantees
  import opened Termination
  import opened Scenarios
  import opened Drops
  import opened Settling
  import opened Deadlock
  import opened Losses
  import opened Sizes

  /** Turns of background tasks, and reads of stream `id` by `p`. */
  predicate TasksAndReads(t: Trace, p: Role, id: u32) {
    forall ev :: ev in t ==> Autonomous(ev.act) || (ev.who == p && On(ev, id) && ev.act.what.Read?)
  }

  /** Held at both ends and reset at neither. */
  predicate Well(n: Net, id: u32) {
    && id in n.client.entries && Live(n.client.entries[id]) && !n.client.entries[id].stream.state.reset
    && id in n.server.entries && Live(n.server.entries[id]) && !n.server.entries[id].stream.state.reset
  }

  lemma WellAt(n: Net, r: Role, id: u32)
    requires NetOk(n) && BothOpen(n) && TidyNet(n, id) && Well(n, id)
    ensures Lookup(End(n, r), id) && !StreamAt(n, r, id).state.reset && Rst(id) !in Pipe(n, r)
  {
    hide NetOk;
    StaysRegistered(n, r, id);
  }

  /** No RST is under way, so no task resets the stream. */
  lemma StepWell(n: Net, ev: Event, id: u32)
    requires NetOk(n) && TidyNet(n, id) && BothOpen(n) && Well(n, id)
    requires Enabled(n, ev) && Autonomous(ev.act) && BothOpen(Step(n, ev))
    ensures Well(Step(n, ev), id)
  {
    hide NetOk, TidyNet, Step, BothOpen;
    WellAt(n, ev.who, id);
    WellAt(n, ev.who.Peer(), id);
    TaskSameUser(n, ev, Client, id);
    TaskSameUser(n, ev, Server, id);
    NotReset(n, ev, id);
  }

  lemma NotReset(n: Net, ev: Event, id: u32)
    requires NetOk(n) && Enabled(n, ev) && Autonomous(ev.act) && BothOpen(Step(n, ev))
    requires Lookup(End(n, ev.who), id) && id in End(n, ev.who.Peer()).entries && Rst(id) !in Pipe(n, ev.who.Peer())
    requires !StreamAt(n, ev.who, id).state.reset && !StreamAt(n, ev.who.Peer(), id).state.reset
    ensures forall r: Role :: id in End(Step(n, ev), r).entries ==> !StreamAt(Step(n, ev), r, id).state.reset
  {
    hide NetOk, ReaderStep;
    if ev.act.Deliver? {
      assert ev == Event(ev.who, Deliver);
      ReaderBides(n, ev.who, id);
      assert Wire(n, ev.who.Peer())[0] in Pipe(n, ev.who.Peer());
    }
  }

  lemma {:induction false} PeacefulWell(n: Net, t: Trace, id: u32)
    requires NetOk(n) && AllTidy(n) && Peaceful(n, t) && Legal(n, t) && Well(n, id)
    ensures Well(Run(n, t), id)
    decreases |t|
  {
    hide NetOk, TidyNet, Step, Enabled, Well, BothOpen;
    if t != [] {
      assert BothOpen(Step(n, t[0])) && TidyNet(n, id);
      StepKeeps(n, t[0]);
      TidyStep(n, t[0]);
      StepWell(n, t[0], id);
      PeacefulWell(Step(n, t[0]), t[1..], id);
    }
  }

  // ---------------------------------------------------------------- at rest, one read is enough

  /** Reading all there is announces all that is owed. */
  lemma ReadAnnounces(x: Stream, w: u32)
    requires x.buffer != [] && !x.state.reset && x.rx.pending < Threshold(x.rx.initial)
    requires |x.buffer| + x.rx.pending == w && Threshold(x.rx.initial) <= w
    ensures PollRead(x, |x.buffer|).0.frames == [Credit(x.id, w)] && PollRead(x, |x.buffer|).0.signals == []
  {
    ConsumeExact(x.rx.initial, x.rx.pending, |x.buffer|);
  }

  /** `m` follows `n` by turns of tasks and reads. */
  ghost predicate Works(n: Net, m: Net, p: Role, id: u32) {
    exists t: Trace :: Legal(n, t) && TasksAndReads(t, p, id) && Run(n, t) == m
  }

  lemma WorksStep(n: Net, ev: Event, p: Role, id: u32)
    requires Enabled(n, ev) && (Autonomous(ev.act) || (ev.who == p && On(ev, id) && ev.act.what.Read?))
    ensures Works(n, Step(n, ev), p, id)
  {
    hide Step, Enabled;
    OneEvent(n, ev);
  }

  lemma WorksOn(n: Net, m: Net, k: Net, p: Role, id: u32)
    requires Works(n, m, p, id) && Works(m, k, p, id)
    ensures Works(n, k, p, id)
  {
    var t: Trace :| Legal(n, t) && TasksAndReads(t, p, id) && Run(n, t) == m;
    var u: Trace :| Legal(m, u) && TasksAndReads(u, p, id) && Run(m, u) == k;
    RunConcat(n, t, u);
    assert TasksAndReads(t + u, p, id);
  }

  lemma ReadStep(n: Net, p: Role, id: u32, w: u32) returns (m: Net)
    requires Resting(n) && BothOpen(n) && id in End(n, p).entries && End(n, p).entries[id].holder == User
    requires StreamAt(n, p, id).id == id && StreamAt(n, p, id).buffer != [] && !StreamAt(n, p, id).state.reset
    requires StreamAt(n, p, id).rx.pending < Threshold(StreamAt(n, p, id).rx.initial) <= w
    requires |StreamAt(n, p, id).buffer| + StreamAt(n, p, id).rx.pending == w
    ensures Works(n, m, p, id) && BothOpen(m) && End(m, p.Peer()) == End(n, p.Peer()) && Wire(m, p) == [Credit(id, w)]
  {
    hide PollRead, Works;
    var read := Event(p, Use(id, Read(|StreamAt(n, p, id).buffer|)));
    ReadAnnounces(StreamAt(n, p, id), w);
    var n1 := Step(n, read);
    assert End(n1, p).outQ == [Credit(id, w)];
    WorksStep(n, read, p, id);
    m := Step(n1, Event(p, Move));
    WorksStep(n1, Event(p, Move), p, id);
    WorksOn(n, n1, m, p, id);
  }

  lemma CreditStep(n: Net, r: Role, id: u32, w: u32) returns (m: Net)
    requires BothOpen(n) && Lookup(End(n, r), id) && Wire(n, r.Peer()) == [Credit(id, w)] && w > 0
    ensures Works(n, m, r.Peer(), id) && BothOpen(m) && Lookup(End(m, r), id) && StreamAt(m, r, id).tx.credit > 0
  {
    hide Works;
    WorksStep(n, Event(r, Deliver), r.Peer(), id);
    m := Step(n, Event(r, Deliver));
  }

  lemma {:induction false} PeacefulWorks(n: Net, t: Trace, p: Role, id: u32)
    requires Peaceful(n, t)
    ensures TasksAndReads(t, p, id)
    decreases |t|
  {
    hide Step, Enabled;
    if t != [] {
      PeacefulWorks(Step(n, t[0]), t[1..], p, id);
      assert forall ev :: ev in t ==> ev == t[0] || ev in t[1..];
    }
  }

  /** At rest without credit, everything is in the receiver's hands. */
  lemma RestingStarved(c: Config, s: Config, n: Net, r: Role, id: u32)
    requires Reachable(c, s, n) && Resting(n) && BothOpen(n) && Starved(n, r, id)
    requires Max(End(n, r.Peer()).cfg.window / 2, 1) <= End(n, r).cfg.window
    ensures var y := StreamAt(n, r.Peer(), id);
            && y.id == id && y.buffer != [] && y.rx.initial == End(n, r.Peer()).cfg.window
            && y.rx.pending < Threshold(y.rx.initial) && |y.buffer| + y.rx.pending == End(n, r).cfg.window
  {
    hide Reachable, Threshold;
    ThresholdIs(End(n, r.Peer()).cfg.window);
    Invariant(c, s, n);
    EndIsOk(n, r.Peer());
    assert EntryOk(End(n, r.Peer()).entries[id], End(n, r.Peer()).closing, End(n, r.Peer()).cfg.window);
    assert Pipe(n, Client) == [] && Pipe(n, Server) == [];
    assert Flight(n, r, id) == [] && Flight(n, r.Peer(), id) == [];
    CreditConservation(c, s, n, r, id);
    StarvedHasRelief(c, s, n, r, id);
  }

  lemma RestRecovers(c: Config, s: Config, n: Net, r: Role, id: u32) returns (m: Net)
    requires Reachable(c, s, n) && Resting(n) && BothOpen(n) && Starved(n, r, id)
    requires Max(End(n, r.Peer()).cfg.window / 2, 1) <= End(n, r).cfg.window
    requires End(n, r.Peer()).entries[id].holder == User && !StreamAt(n, r.Peer(), id).state.reset
    ensures Works(n, m, r.Peer(), id) && BothOpen(m) && Lookup(End(m, r), id) && StreamAt(m, r, id).tx.credit > 0
  {
    hide Reachable, Works, Resting;
    ThresholdIs(End(n, r.Peer()).cfg.window);
    RestingStarved(c, s, n, r, id);
    var w := End(n, r).cfg.window;
    var n1 := ReadStep(n, r.Peer(), id, w);
    var n2 := CreditStep(n1, r, id, w);
    WorksOn(n, n1, n2, r.Peer(), id);
    m := n2;
  }

  /**
  The counterpart of `StuckForever`: with the receiver's threshold within the sender's window, both
  sessions open and both handles held, a stream out of credit has a continuation of task turns and reads
  after which the sender has credit again.
  */
  lemma StarvedRecovers(c: Config, s: Config, n: Net, r: Role, id: u32) returns (m: Net)
    requires Reachable(c, s, n) && BothOpen(n) && Smooth(n) && Starved(n, r, id) && Well(n, id)
    requires Max(End(n, r.Peer()).cfg.window / 2, 1) <= End(n, r).cfg.window
    requires End(n, r.Peer()).entries[id].holder == User
    ensures Works(n, m, r.Peer(), id) && BothOpen(m) && Lookup(End(m, r), id) && StreamAt(m, r, id).tx.credit > 0
  {
    hide NetOk, AllTidy, Works, Resting, Step, Enabled, Threshold;
    var p := r.Peer();
    var t0: Trace :| Legal(Init(c, s), t0) && Run(Init(c, s), t0) == n;
    ReachableTidy(c, s, t0);
    var t := Settle(n);
    var n1 := Run(n, t);
    assert Works(n, n1, p, id) by { PeacefulWorks(n, t, p, id); SomeRun(n, t, p, id); }
    RunConcat(Init(c, s), t0, t);
    assert Reachable(c, s, n1);
    PeacefulWell(n, t, id);
    PeacefulSameUser(n, t, p, id);
    assert Lookup(End(n1, r), id) && Lookup(End(n1, p), id) && !StreamAt(n1, p, id).state.reset by {
      RestWell(n1, r, id); }
    RunConfig(n, t);
    if StreamAt(n1, r, id).tx.credit > 0 {
      m := n1;
    } else {
      m := RestRecovers(c, s, n1, r, id);
      WorksOn(n, n1, m, p, id);
    }
  }

  lemma SomeRun(n: Net, t: Trace, p: Role, id: u32)
    requires Legal(n, t) && TasksAndReads(t, p, id)
    ensures Works(n, Run(n, t), p, id)
  {
  }

  lemma RestWell(n: Net, r: Role, id: u32)
    requires NetOk(n) && AllTidy(n) && BothOpen(n) && Well(n, id)
    ensures Lookup(End(n, r), id) && Lookup(End(n, r.Peer()), id) && !StreamAt(n, r.Peer(), id).state.reset
  {
    hide NetOk;
    assert TidyNet(n, id);
    WellAt(n, r, id);
    WellAt(n, r.Peer(), id);
  }
}
