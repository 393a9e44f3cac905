/**
`StreamIdAllocator::allocate` (src/util/id.rs) called by any number of tasks at once: every
load and every weak compare-exchange is a step of its own, and an exchange may fail for no reason.
*/
module IdRace {
  import opened Base
  import opened Ids

  type Task = nat

  datatype Pc = Loading | Swapping(cur: u32, wanted: u32) | Returned(result: Option<u32>)

  /** `issued` is history: who got which id, in the order of the successful exchanges. */
  datatype Race = Race(next: u32, pcs: map<Task, Pc>, issued: seq<(Task, u32)>)

  datatype Event = Call(t: Task) | Load(t: Task) | Swap(t: Task, spurious: bool)

  function Start(role: Role): Race {
    Race(role.FirstId(), map[], [])
  }

  predicate Enabled(s: Race, ev: Event) {
    match ev
    case Call(t) => t !in s.pcs
    case Load(t) => t in s.pcs && s.pcs[t].Loading?
    case Swap(t, _) => t in s.pcs && s.pcs[t].Swapping?
  }

  function Step(s: Race, ev: Event): Race
    requires Enabled(s, ev)
  {
    match ev
    case Call(t) => s.(pcs := s.pcs[t := Loading])
    case Load(t) =>
      (match Advance(s.next)
       case None => s.(pcs := s.pcs[t := Returned(None)])
       case Some(wanted) => s.(pcs := s.pcs[t := Swapping(s.next, wanted)]))
    case Swap(t, spurious) =>
      var Swapping(cur, wanted) := s.pcs[t];
      if s.next != cur || spurious then s.(pcs := s.pcs[t := Loading])
      else Race(wanted, s.pcs[t := Returned(Some(cur))], s.issued + [(t, cur)])
  }

  predicate Legal(s: Race, tr: seq<Event>)
    decreases |tr|
  {
    tr == [] || (Enabled(s, tr[0]) && Legal(Step(s, tr[0]), tr[1..]))
  }

  function Run(s: Race, tr: seq<Event>): Race
    requires Legal(s, tr)
    decreases |tr|
  {
    if tr == [] then s else Run(Step(s, tr[0]), tr[1..])
  }

  predicate Ok(role: Role, s: Race) {
    && s.next == role.FirstId() + 2 * |s.issued|
    && (forall i :: 0 <= i < |s.issued| ==> s.issued[i].1 == role.FirstId() + 2 * i)
    && (forall t :: t in s.pcs && s.pcs[t].Swapping? ==> Advance(s.pcs[t].cur) == Some(s.pcs[t].wanted))
    && (forall i :: 0 <= i < |s.issued| ==>
          s.issued[i].0 in s.pcs && s.pcs[s.issued[i].0] == Returned(Some(s.issued[i].1)))
    && (forall t :: t in s.pcs && s.pcs[t].Returned? && s.pcs[t].result.Some? ==>
          (t, s.pcs[t].result.value) in s.issued)
    && (forall t :: t in s.pcs && s.pcs[t] == Returned(None) ==> Advance(s.next).None?)
  }

  lemma StepOk(role: Role, s: Race, ev: Event)
    requires Ok(role, s) && Enabled(s, ev)
    ensures Ok(role, Step(s, ev))
  {
    var s1 := Step(s, ev);
    if s1.issued != s.issued {
      assert s1.issued == s.issued + [(ev.t, s.pcs[ev.t].cur)];
      assert forall p :: p in s.issued ==> p in s1.issued;
      assert s1.issued[|s.issued|] in s1.issued;
    }
  }

  lemma {:induction false} RunOk(role: Role, s: Race, tr: seq<Event>)
    requires Ok(role, s) && Legal(s, tr)
    ensures Ok(role, Run(s, tr)) && s.next <= Run(s, tr).next
    decreases |tr|
  {
    if tr != [] {
      StepOk(role, s, tr[0]);
      RunOk(role, Step(s, tr[0]), tr[1..]);
    }
  }

  /**
  Every step is invisible, or is one atomic allocation of the abstract counter, made by the caller that
  returns it.
  */
  lemma Linearizes(role: Role, s: Race, ev: Event)
    requires Ok(role, s) && Enabled(s, ev)
    ensures var s1 := Step(s, ev);
            || (&& s1.next == s.next && s1.issued == s.issued
                && (s1.pcs[ev.t] == Returned(None) ==> Advance(s.next).None?)
                && (s1.pcs[ev.t].Returned? ==> s1.pcs[ev.t].result.None?))
            || (&& Advance(s.next) == Some(s1.next) && s1.pcs[ev.t] == Returned(Some(s.next))
                && s1.issued == s.issued + [(ev.t, s.next)])
  {
  }

  /** No two calls get the same id; each id is non-zero, of the role's parity, and the ids issued have no gaps. */
  lemma IdsAreUnique(role: Role, tr: seq<Event>, t: Task, u: Task)
    requires Legal(Start(role), tr)
    requires var s := Run(Start(role), tr);
             && t in s.pcs && s.pcs[t].Returned? && s.pcs[t].result.Some?
             && u in s.pcs && s.pcs[u].Returned? && s.pcs[u].result.Some?
    ensures var s := Run(Start(role), tr);
            var a, b := s.pcs[t].result.value, s.pcs[u].result.value;
            && (a == b ==> t == u)
            && a != 0 && role.Owns(a) && !role.Peer().Owns(a)
            && exists i :: 0 <= i < |s.issued| && s.issued[i] == (t, a) && a == role.FirstId() + 2 * i
  {
    RunOk(role, Start(role), tr);
    var s := Run(Start(role), tr);
    var a, b := s.pcs[t].result.value, s.pcs[u].result.value;
    var i :| 0 <= i < |s.issued| && s.issued[i] == (t, a);
    var j :| 0 <= j < |s.issued| && s.issued[j] == (u, b);
  }

  /**
  Exhaustion is for good: once a call has returned nothing, no later call returns an id, and the counter never
  wraps.
  */
  lemma ExhaustionIsPermanent(role: Role, tr: seq<Event>, more: seq<Event>, t: Task)
    requires Legal(Start(role), tr) && Legal(Run(Start(role), tr), more)
    requires var s := Run(Start(role), tr); t in s.pcs && s.pcs[t] == Returned(None)
    ensures Run(Run(Start(role), tr), more).issued == Run(Start(role), tr).issued
    ensures Advance(Run(Run(Start(role), tr), more).next).None?
  {
    RunOk(role, Start(role), tr);
    var s := Run(Start(role), tr);
    RunOk(role, s, more);
    IssuedGrows(s, more);
    var e := Run(s, more);
    assert e.next == role.FirstId() + 2 * |e.issued| && s.next == role.FirstId() + 2 * |s.issued|;
  }

  lemma {:induction false} IssuedGrows(s: Race, tr: seq<Event>)
    requires Legal(s, tr)
    ensures s.issued <= Run(s, tr).issued
    decreases |tr|
  {
    if tr != [] {
      IssuedGrows(Step(s, tr[0]), tr[1..]);
    }
  }
}
