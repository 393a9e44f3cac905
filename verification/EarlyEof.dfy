/**
Below the level of whole calls, `poll_read` can report the end of a stream with bytes in its buffer: it finds the
buffer empty, the last bytes and the FIN arrive, and then it finds the read half closed. Here is the run, and the
exact number of bytes such a read leaves behind. The next read finds them.
*/
module EarlyEof {
  import opened Wakeups

  /** The read is about to find the read half closed and to report the end of the stream. */
  predicate EndsHere(s: Shop, take: nat) {
    && Reading in s.desks && s.desks[Reading].pc == Checking(2) && take > 0
    && !s.mem.readOpen
  }

  /** Chunks that a step adds to the buffer. */
  function Pushed(s: Shop, ev: Event): nat
    requires Enabled(s, ev)
  {
    if ev.Next? && s.threads[ev.t].rest[0] == PushBytes then 1 else 0
  }

  /** Chunks added since the reading task last looked at anything, `k` of them before the run. */
  function Since(s: Shop, tr: seq<Event>, k: nat): nat
    requires Legal(s, tr)
    decreases |tr|
  {
    if tr == [] then k
    else Since(Step(s, tr[0]), tr[1..], if tr[0].Look? && tr[0].w == Reading then 0 else k + Pushed(s, tr[0]))
  }

  /** Between its look at the buffer and its look at the flag, all that is buffered came in meanwhile. */
  predicate Counted(s: Shop, k: nat) {
    Reading in s.desks && (s.desks[Reading].pc == Checking(2) ==> s.mem.buffered == k)
  }

  lemma StepCounted(s: Shop, ev: Event, k: nat)
    requires Counted(s, k) && Enabled(s, ev)
    ensures Counted(Step(s, ev), if ev.Look? && ev.w == Reading then 0 else k + Pushed(s, ev))
  {
  }

  lemma {:induction false} RunCounted(s: Shop, tr: seq<Event>, k: nat)
    requires Counted(s, k) && Legal(s, tr)
    ensures Counted(Run(s, tr), Since(s, tr, k))
    decreases |tr|
  {
    hide Counted, Step, Enabled;
    if tr != [] {
      StepCounted(s, tr[0], k);
      RunCounted(Step(s, tr[0]), tr[1..], if tr[0].Look? && tr[0].w == Reading then 0 else k + Pushed(s, tr[0]));
    }
  }

  /**
  The exact statement, in every interleaving: a read that reports the end leaves behind exactly what arrived since
  its look at the buffer; so it leaves nothing if and only if nothing arrived in between.
  */
  lemma EofLeaves(credit: nat, acked: bool, tr: seq<Event>, take: nat)
    requires Legal(Fresh(credit, acked), tr) && EndsHere(Run(Fresh(credit, acked), tr), take)
    ensures var s := Run(Fresh(credit, acked), tr);
            && Enabled(s, Look(Reading, take)) && Step(s, Look(Reading, take)).desks[Reading].pc == Returned
            && Step(s, Look(Reading, take)).mem.buffered == Since(Fresh(credit, acked), tr, 0)
  {
    RunCounted(Fresh(credit, acked), tr, 0);
  }

  lemma {:induction false} Then(s: Shop, tr: seq<Event>, ev: Event)
    requires Legal(s, tr) && Enabled(Run(s, tr), ev)
    ensures Legal(s, tr + [ev]) && Run(s, tr + [ev]) == Step(Run(s, tr), ev)
    decreases |tr|
  {
    hide Step, Enabled;
    if tr == [] {
      assert tr + [ev] == [ev] && [ev][1..] == [];
      assert Legal(Step(s, ev), [ev][1..]) && Run(Step(s, ev), [ev][1..]) == Step(s, ev);
    } else {
      assert (tr + [ev])[1..] == tr[1..] + [ev];
      Then(Step(s, tr[0]), tr[1..], ev);
    }
  }

  /** The read has found no reset and an empty buffer. */
  lemma LooksTwice(credit: nat, acked: bool) returns (tr: seq<Event>)
    ensures Legal(Fresh(credit, acked), tr)
    ensures var s := Run(Fresh(credit, acked), tr);
            && Reading in s.desks && s.desks[Reading].pc == Checking(2) && s.threads == map[]
            && s.mem.buffered == 0 && s.mem.readOpen && !s.mem.reset
  {
    var s0 := Fresh(credit, acked);
    var none: seq<Event> := [];
    assert Legal(s0, none) && Run(s0, none) == s0;
    Then(s0, none, Poll(Reading));
    Then(s0, none + [Poll(Reading)], Look(Reading, 1));
    Then(s0, none + [Poll(Reading)] + [Look(Reading, 1)], Look(Reading, 1));
    tr := none + [Poll(Reading)] + [Look(Reading, 1)] + [Look(Reading, 1)];
  }

  /** The bytes and the FIN arrive between the two looks: end of file, with a chunk in the buffer and no reset. */
  lemma EofCanComeEarly(credit: nat, acked: bool) returns (tr: seq<Event>)
    ensures Legal(Fresh(credit, acked), tr) && EndsHere(Run(Fresh(credit, acked), tr), 1)
    ensures var s := Run(Fresh(credit, acked), tr);
            && s.mem.buffered == 1 && !s.mem.reset
            && Enabled(s, Look(Reading, 1)) && Step(s, Look(Reading, 1)).desks[Reading].pc == Returned
            && Step(s, Look(Reading, 1)).mem.buffered == 1
  {
    var s0 := Fresh(credit, acked);
    tr := LooksTwice(credit, acked);
    Then(s0, tr, Notify(0, PushData));
    Then(s0, tr + [Notify(0, PushData)], Next(0));
    tr := tr + [Notify(0, PushData)] + [Next(0)];
    Then(s0, tr, Notify(1, RemoteFin));
    Then(s0, tr + [Notify(1, RemoteFin)], Next(1));
    tr := tr + [Notify(1, RemoteFin)] + [Next(1)];
  }
}
