/**
`RecvWindow::on_consume` (src/flow/window.rs) called by any number of tasks at once, one
atomic access per step; the weak exchange may fail for no reason.
*/
module RecvWindowRace {
  import opened Base
  import Streams

  type Task = nat

  datatype Pc =
    | Adding(bytes: u32)
    | Draining(cur: u32)
    | Returned(delta: Option<u32>)

  /** History: bytes recorded by fetch_add, how often it wrapped, and who returned which delta. */
  datatype Window = Window(initial: u32, pending: u32, pcs: map<Task, Pc>, recorded: nat, wraps: nat,
                           emits: seq<(Task, u32)>)

  function Total(emits: seq<(Task, u32)>): nat {
    if emits == [] then 0 else Total(emits[..|emits| - 1]) + emits[|emits| - 1].1
  }

  datatype Event = Consume(t: Task, bytes: u32) | Add(t: Task) | Swap(t: Task, spurious: bool)

  function Start(initial: u32): Window {
    Window(initial, 0, map[], 0, 0, [])
  }

  predicate Enabled(w: Window, ev: Event) {
    match ev
    case Consume(t, _) => t !in w.pcs
    case Add(t) => t in w.pcs && w.pcs[t].Adding?
    case Swap(t, _) => t in w.pcs && w.pcs[t].Draining?
  }

  function At(w: Window, t: Task, pc: Pc): Window {
    w.(pcs := w.pcs[t := pc])
  }

  function Step(w: Window, ev: Event): Window
    requires Enabled(w, ev)
  {
    var threshold := Streams.Threshold(w.initial);
    match ev
    case Consume(t, bytes) => At(w, t, if bytes == 0 then Returned(None) else Adding(bytes))
    case Add(t) =>
      var sum := SatAdd(w.pending, w.pcs[t].bytes);
      At(w, t, if sum >= threshold then Draining(sum) else Returned(None))
        .(pending := WrapAdd(w.pending, w.pcs[t].bytes), recorded := w.recorded + w.pcs[t].bytes,
          wraps := if w.pending + w.pcs[t].bytes > U32_MAX then w.wraps + 1 else w.wraps)
    case Swap(t, spurious) =>
      var cur := w.pcs[t].cur;
      if w.pending == cur && !spurious then
        At(w, t, Returned(Some(cur))).(pending := 0, emits := w.emits + [(t, cur)])
      else At(w, t, if w.pending < threshold then Returned(None) else Draining(w.pending))
  }

  predicate Legal(w: Window, tr: seq<Event>)
    decreases |tr|
  {
    tr == [] || (Enabled(w, tr[0]) && Legal(Step(w, tr[0]), tr[1..]))
  }

  function Run(w: Window, tr: seq<Event>): Window
    requires Legal(w, tr)
    decreases |tr|
  {
    if tr == [] then w else Run(Step(w, tr[0]), tr[1..])
  }

  predicate SomeoneDrains(w: Window) {
    exists t :: t in w.pcs && w.pcs[t].Draining?
  }

  /** The history lists exactly the calls that returned a delta, each once, with what it returned. */
  predicate Faithful(w: Window) {
    && (forall i :: 0 <= i < |w.emits| ==>
          w.emits[i].0 in w.pcs && w.pcs[w.emits[i].0] == Returned(Some(w.emits[i].1)))
    && (forall t :: t in w.pcs && w.pcs[t].Returned? && w.pcs[t].delta.Some? ==> (t, w.pcs[t].delta.value) in w.emits)
    && (forall i, j :: 0 <= i < j < |w.emits| ==> w.emits[i].0 != w.emits[j].0)
  }

  predicate Ok(w: Window) {
    var threshold := Streams.Threshold(w.initial);
    && Total(w.emits) + w.pending + w.wraps * (U32_MAX + 1) == w.recorded
    && (forall t :: t in w.pcs && w.pcs[t].Draining? ==> w.pcs[t].cur >= threshold)
    && (forall t :: t in w.pcs && w.pcs[t].Returned? && w.pcs[t].delta.Some? ==> w.pcs[t].delta.value >= threshold)
    && (w.pending >= threshold ==> SomeoneDrains(w))
    && Faithful(w)
  }

  lemma StepFaithful(w: Window, w1: Window, t: Task)
    requires Faithful(w) && t in w1.pcs && w1.pcs == w.pcs[t := w1.pcs[t]]
    requires t in w.pcs ==> !w.pcs[t].Returned?
    requires if w1.pcs[t].Returned? && w1.pcs[t].delta.Some? then w1.emits == w.emits + [(t, w1.pcs[t].delta.value)]
             else w1.emits == w.emits
    ensures Faithful(w1)
  {
    assert forall x :: x in w.emits ==> x in w1.emits;
    if w1.emits != w.emits {
      assert w1.emits[|w.emits|] in w1.emits;
    }
  }

  lemma TotalMore(emits: seq<(Task, u32)>, x: (Task, u32))
    ensures Total(emits + [x]) == Total(emits) + x.1
  {
    assert (emits + [x])[..|emits|] == emits;
  }

  lemma StepTotal(w: Window, ev: Event)
    requires Total(w.emits) + w.pending + w.wraps * (U32_MAX + 1) == w.recorded && Enabled(w, ev)
    ensures var w1 := Step(w, ev); Total(w1.emits) + w1.pending + w1.wraps * (U32_MAX + 1) == w1.recorded
  {
    hide Total;
    if ev.Swap? {
      TotalMore(w.emits, (ev.t, w.pcs[ev.t].cur));
    }
  }

  lemma StepDrains(w: Window, ev: Event)
    requires Enabled(w, ev) && (w.pending >= Streams.Threshold(w.initial) ==> SomeoneDrains(w))
    ensures var w1 := Step(w, ev); w1.pending >= Streams.Threshold(w.initial) ==> SomeoneDrains(w1)
  {
    var w1 := Step(w, ev);
    if w1.pending >= Streams.Threshold(w.initial) {
      if w1.pcs[ev.t].Draining? {
        assert SomeoneDrains(w1);
      } else {
        var t :| t in w.pcs && w.pcs[t].Draining?;
        assert t != ev.t && t in w1.pcs;
      }
    }
  }

  lemma StepOk(w: Window, ev: Event)
    requires Ok(w) && Enabled(w, ev)
    ensures Ok(Step(w, ev)) && Step(w, ev).initial == w.initial
  {
    hide Faithful, Total, SomeoneDrains, Streams.Threshold;
    StepTotal(w, ev);
    StepDrains(w, ev);
    StepFaithful(w, Step(w, ev), ev.t);
  }

  lemma {:induction false} RunOk(w: Window, tr: seq<Event>)
    requires Ok(w) && Legal(w, tr)
    ensures Ok(Run(w, tr)) && Run(w, tr).initial == w.initial
    decreases |tr|
  {
    if tr != [] {
      StepOk(w, tr[0]);
      RunOk(Step(w, tr[0]), tr[1..]);
    }
  }

  /**
  Receive accounting: what was recorded is what the calls returned and what is pending, short of
  2^32 for every wrap; every announcement reaches the threshold; and when no call is under way any
  more, less than a threshold is left unannounced.
  */
  lemma ReceiveAccounting(initial: u32, tr: seq<Event>)
    requires Legal(Start(initial), tr)
    ensures var w := Run(Start(initial), tr);
            && Total(w.emits) + w.pending + w.wraps * (U32_MAX + 1) == w.recorded
            && Faithful(w)
            && (w.recorded <= U32_MAX ==> w.wraps == 0)
            && (forall t :: t in w.pcs && w.pcs[t].Returned? && w.pcs[t].delta.Some? ==>
                  w.pcs[t].delta.value >= Max(initial / 2, 1))
            && (w.pending >= Max(initial / 2, 1) ==> SomeoneDrains(w))
            && ((forall t :: t in w.pcs ==> w.pcs[t].Returned?) ==> w.pending < Max(initial / 2, 1))
  {
    hide Faithful;
    RunOk(Start(initial), tr);
  }

  /** One call goes on until it returns, undisturbed; the first exchange can fail even so, after a wrap. */
  function Settle(w: Window, t: Task): Window
    requires t in w.pcs
  {
    if w.pcs[t].Draining? then Step(w, Swap(t, false)) else w
  }

  /** A call that runs alone behaves as the atomic `OnConsume` of the stream model. */
  lemma AloneIsAtomic(w: Window, t: Task, bytes: u32)
    requires t !in w.pcs
    ensures var (pending, delta) := Streams.OnConsume(w.initial, w.pending, bytes);
            var w1 := Step(w, Consume(t, bytes));
            var w2 := if bytes == 0 then w1 else Step(w1, Add(t));
            var w3 := Settle(Settle(w2, t), t);
            w3.pending == pending && w3.pcs[t] == Returned(delta)
  {
  }
}
