/**
`SendWindow` (src/flow/window.rs) under any number of concurrent `poll_acquire`, `grant` and
`close` calls. A step is one atomic load, one weak compare-exchange, which may fail for no
reason, or one store; registering and waking are steps too, and Wakeups.dfy says what they do.
*/
module SendWindowRace {
  import opened Base

  type Task = nat

  datatype Outcome = Acquired(n: u32) | Closed | Pending

  datatype Pc =
    | CheckClosed(desired: u32, again: bool)     // before the fast path, or after registering
    | LoadCredit(desired: u32, again: bool)
    | SwapCredit(desired: u32, again: bool, cur: u32)
    | Register(desired: u32)
    | Took(desired: u32, outcome: Outcome)
    | LoadForGrant(delta: u32)
    | SwapGrant(delta: u32, cur: u32)
    | WakeWaiter
    | StoreClosed
    | Finished

  /** History: who took how much, credit offered by grants that took effect, and credit cut off by saturation. */
  datatype Window = Window(available: u32, closed: bool, pcs: map<Task, Pc>, initial: u32,
                           takes: seq<(Task, u32)>, granted: nat, lost: nat)

  function Total(takes: seq<(Task, u32)>): nat {
    if takes == [] then 0 else Total(takes[..|takes| - 1]) + takes[|takes| - 1].1
  }

  datatype Event =
    | Acquire(t: Task, amount: u32)
    | Grant(t: Task, amount: u32)
    | Close(t: Task)
    | Go(t: Task, spurious: bool)

  function Start(initial: u32): Window {
    Window(initial, false, map[], initial, [], 0, 0)
  }

  predicate Enabled(w: Window, ev: Event) {
    if ev.Go? then ev.t in w.pcs && !w.pcs[ev.t].Took? && !w.pcs[ev.t].Finished? else ev.t !in w.pcs
  }

  function At(w: Window, t: Task, pc: Pc): Window {
    w.(pcs := w.pcs[t := pc])
  }

  function Step(w: Window, ev: Event): Window
    requires Enabled(w, ev)
  {
    match ev
    case Acquire(t, desired) => At(w, t, CheckClosed(desired, false))
    case Grant(t, delta) => At(w, t, if delta == 0 then Finished else LoadForGrant(delta))
    case Close(t) => At(w, t, StoreClosed)
    case Go(t, spurious) => Continue(w, t, spurious)
  }

  function Continue(w: Window, t: Task, spurious: bool): Window
    requires t in w.pcs && !w.pcs[t].Took? && !w.pcs[t].Finished?
  {
    match w.pcs[t]
    case CheckClosed(d, again) => At(w, t, if w.closed then Took(d, Closed) else LoadCredit(d, again))
    case LoadCredit(d, again) =>
      if w.available != 0 then At(w, t, SwapCredit(d, again, w.available))
      else At(w, t, if again then Took(d, Pending) else Register(d))
    case SwapCredit(d, again, cur) =>
      if w.available != cur || spurious then At(w, t, LoadCredit(d, again))
      else
        var take := Min(cur, d);
        At(w, t, Took(d, Acquired(take))).(available := cur - take, takes := w.takes + [(t, take)])
    case Register(d) => At(w, t, CheckClosed(d, true))
    case LoadForGrant(delta) => At(w, t, SwapGrant(delta, w.available))
    case SwapGrant(delta, cur) =>
      if w.available != cur || spurious then At(w, t, SwapGrant(delta, w.available))
      else At(w, t, WakeWaiter).(available := SatAdd(cur, delta), granted := w.granted + delta,
                                 lost := w.lost + cur + delta - SatAdd(cur, delta))
    case WakeWaiter => At(w, t, Finished)
    case StoreClosed => At(w, t, WakeWaiter).(closed := true)
  }

  predicate Legal(w: Window, tr: seq<Event>)
    decreases |tr|
  {
    tr == [] || (Enabled(w, tr[0]) && Legal(Step(w, tr[0]), tr[1..]))
  }

  function Run(w: Window, tr: seq<Event>): Window
    requires Legal(w, tr)
    decreases |tr|
  {
    if tr == [] then w else Run(Step(w, tr[0]), tr[1..])
  }

  predicate PcOk(pc: Pc, closed: bool) {
    match pc
    case SwapCredit(_, _, cur) => cur > 0
    case Took(d, Acquired(n)) => n <= d && (d > 0 ==> n > 0)
    case Took(_, Closed) => closed
    case _ => true
  }

  /** The history lists exactly the calls that returned credit, each once, with what it returned. */
  predicate Faithful(w: Window) {
    && (forall i :: 0 <= i < |w.takes| ==>
          && w.takes[i].0 in w.pcs && w.pcs[w.takes[i].0].Took?
          && w.pcs[w.takes[i].0].outcome == Acquired(w.takes[i].1))
    && (forall t :: t in w.pcs && w.pcs[t].Took? && w.pcs[t].outcome.Acquired? ==> (t, w.pcs[t].outcome.n) in w.takes)
    && (forall i, j :: 0 <= i < j < |w.takes| ==> w.takes[i].0 != w.takes[j].0)
  }

  predicate Ok(w: Window) {
    && Total(w.takes) + w.available + w.lost == w.initial + w.granted
    && (forall t :: t in w.pcs ==> PcOk(w.pcs[t], w.closed))
    && Faithful(w)
  }

  lemma TotalMore(takes: seq<(Task, u32)>, x: (Task, u32))
    ensures Total(takes + [x]) == Total(takes) + x.1
  {
    assert (takes + [x])[..|takes|] == takes;
  }

  lemma ContinueOk(w: Window, t: Task, spurious: bool)
    requires Total(w.takes) + w.available + w.lost == w.initial + w.granted
    requires t in w.pcs && PcOk(w.pcs[t], w.closed) && !w.pcs[t].Took? && !w.pcs[t].Finished?
    ensures var w1 := Continue(w, t, spurious);
            && Total(w1.takes) + w1.available + w1.lost == w1.initial + w1.granted && w1.initial == w.initial
            && w1.pcs == w.pcs[t := w1.pcs[t]] && PcOk(w1.pcs[t], w1.closed) && (w.closed ==> w1.closed)
            && (if w1.pcs[t].Took? && w1.pcs[t].outcome.Acquired? then w1.takes == w.takes + [(t, w1.pcs[t].outcome.n)]
                else w1.takes == w.takes)
  {
    hide Total;
    match w.pcs[t]
    case SwapCredit(d, _, cur) => TotalMore(w.takes, (t, Min(cur, d)));
    case _ =>
  }

  lemma StepFaithful(w: Window, w1: Window, t: Task)
    requires Faithful(w) && t in w1.pcs && w1.pcs == w.pcs[t := w1.pcs[t]]
    requires t in w.pcs ==> !w.pcs[t].Took?
    requires if w1.pcs[t].Took? && w1.pcs[t].outcome.Acquired? then w1.takes == w.takes + [(t, w1.pcs[t].outcome.n)]
             else w1.takes == w.takes
    ensures Faithful(w1)
  {
    assert forall x :: x in w.takes ==> x in w1.takes;
    if w1.takes != w.takes {
      assert w1.takes[|w.takes|] in w1.takes;
    }
  }

  lemma StepPcs(w: Window, w1: Window, t: Task)
    requires (forall k :: k in w.pcs ==> PcOk(w.pcs[k], w.closed)) && (w.closed ==> w1.closed)
    requires t in w1.pcs && w1.pcs == w.pcs[t := w1.pcs[t]] && PcOk(w1.pcs[t], w1.closed)
    ensures forall k :: k in w1.pcs ==> PcOk(w1.pcs[k], w1.closed)
  {
  }

  lemma StepOk(w: Window, ev: Event)
    requires Ok(w) && Enabled(w, ev)
    ensures Ok(Step(w, ev)) && Step(w, ev).initial == w.initial
  {
    hide Continue, Faithful, PcOk, Total;
    if ev.Go? {
      ContinueOk(w, ev.t, ev.spurious);
    } else {
      FreshPc(w, ev);
    }
    StepPcs(w, Step(w, ev), ev.t);
    StepFaithful(w, Step(w, ev), ev.t);
  }

  lemma FreshPc(w: Window, ev: Event)
    requires Enabled(w, ev) && !ev.Go?
    ensures PcOk(Step(w, ev).pcs[ev.t], w.closed)
  {
  }

  lemma {:induction false} RunOk(w: Window, tr: seq<Event>)
    requires Ok(w) && Legal(w, tr)
    ensures Ok(Run(w, tr)) && Run(w, tr).initial == w.initial
    decreases |tr|
  {
    if tr != [] {
      StepOk(w, tr[0]);
      RunOk(Step(w, tr[0]), tr[1..]);
    }
  }

  // ---------------------------------------------------------------- the counter it implements

  /** One operation of an atomic saturating counter. */
  datatype CounterOp = Take(desired: u32) | Add(delta: u32)

  function Counter(value: u32, op: CounterOp): u32 {
    match op
    case Take(d) => value - Min(value, d)
    case Add(delta) => SatAdd(value, delta)
  }

  /** The linearization point of an event, if it is one. */
  function Effect(w: Window, ev: Event): Option<CounterOp>
    requires Enabled(w, ev)
  {
    if !ev.Go? || ev.spurious then None
    else match w.pcs[ev.t]
      case SwapCredit(d, _, cur) => if w.available == cur then Some(Take(d)) else None
      case SwapGrant(delta, cur) => if w.available == cur then Some(Add(delta)) else None
      case _ => None
  }

  /**
  Refinement: each event is invisible in the counter or is exactly one atomic operation on
  it, whose result is what the call goes on to return; and a call that reports no credit
  saw the counter at zero.
  */
  lemma RefinesCounter(w: Window, ev: Event)
    requires Ok(w) && Enabled(w, ev)
    ensures var w1 := Step(w, ev);
            match Effect(w, ev)
            case None =>
              && w1.available == w.available
              && !(w1.pcs[ev.t].Took? && w1.pcs[ev.t].outcome.Acquired?)
              && (w1.pcs[ev.t].Took? && w1.pcs[ev.t].outcome.Pending? ==> w.available == 0)
            case Some(op) =>
              && w1.available == Counter(w.available, op)
              && (op.Take? ==> w1.pcs[ev.t] == Took(op.desired, Acquired(Min(w.available, op.desired))))
              && (op.Add? ==> w1.pcs[ev.t] == WakeWaiter)
  {
  }

  /**
  No interleaving creates credit, and none destroys any but what a grant saturates: what the calls
  returned, what is left and what was cut off add up to what there ever was.
  */
  lemma CreditIsConserved(initial: u32, tr: seq<Event>)
    requires Legal(Start(initial), tr)
    ensures var w := Run(Start(initial), tr);
            && Total(w.takes) + w.available + w.lost == initial + w.granted
            && Faithful(w)
            && (forall t :: t in w.pcs && w.pcs[t].Took? && w.pcs[t].outcome.Acquired? ==>
                  w.pcs[t].outcome.n <= w.pcs[t].desired)
  {
    RunOk(Start(initial), tr);
    var w := Run(Start(initial), tr);
    assert forall t :: t in w.pcs ==> PcOk(w.pcs[t], w.closed);
  }

  /** Without saturation the counter can only hold what fits, so a bounded total of grants loses nothing. */
  lemma {:induction false} SmallGrantsLoseNothing(w: Window, tr: seq<Event>)
    requires Ok(w) && Legal(w, tr) && w.lost == 0
    requires Run(w, tr).granted + w.initial <= U32_MAX
    ensures Run(w, tr).lost == 0
    decreases |tr|
  {
    if tr != [] {
      StepOk(w, tr[0]);
      GrantedGrows(Step(w, tr[0]), tr[1..]);
      SmallGrantsLoseNothing(Step(w, tr[0]), tr[1..]);
    }
  }

  lemma {:induction false} GrantedGrows(w: Window, tr: seq<Event>)
    requires Legal(w, tr)
    ensures w.granted <= Run(w, tr).granted
    decreases |tr|
  {
    if tr != [] {
      GrantedGrows(Step(w, tr[0]), tr[1..]);
    }
  }
}
