/**
How far `max_streams` can be overrun. `open` and the reader check the registry's length and
insert later, without a lock in between (src/session/mod.rs, src/session/reader.rs), so here
the check and the insert are steps of their own.
*/
module Admission {
  import opened Base

  /** `between` counts callers that passed the check and have not inserted yet. */
  datatype Gate = Gate(registered: set<u32>, between: nat)

  datatype Event = Check | Insert(id: u32) | GiveUp | Remove(id: u32)

  /** Never more than `crowd` tasks are between their check and their insert. */
  predicate Enabled(max: nat, crowd: nat, g: Gate, ev: Event) {
    match ev
    case Check => |g.registered| < max && g.between < crowd
    case Insert(id) => g.between > 0 && id !in g.registered
    case GiveUp => g.between > 0
    case Remove(_) => true
  }

  function Step(max: nat, crowd: nat, g: Gate, ev: Event): Gate
    requires Enabled(max, crowd, g, ev)
  {
    match ev
    case Check => g.(between := g.between + 1)
    case Insert(id) => Gate(g.registered + {id}, g.between - 1)
    case GiveUp => g.(between := g.between - 1)
    case Remove(id) => g.(registered := g.registered - {id})
  }

  predicate Legal(max: nat, crowd: nat, g: Gate, tr: seq<Event>)
    decreases |tr|
  {
    tr == [] || (Enabled(max, crowd, g, tr[0]) && Legal(max, crowd, Step(max, crowd, g, tr[0]), tr[1..]))
  }

  function Run(max: nat, crowd: nat, g: Gate, tr: seq<Event>): Gate
    requires Legal(max, crowd, g, tr)
    decreases |tr|
  {
    if tr == [] then g else Run(max, crowd, Step(max, crowd, g, tr[0]), tr[1..])
  }

  const Empty := Gate({}, 0)

  lemma Smaller(s: set<u32>, id: u32)
    ensures |s - {id}| <= |s|
  {
    if id !in s {
      assert s - {id} == s;
    }
  }

  lemma {:induction false} BoundHolds(max: nat, crowd: nat, g: Gate, tr: seq<Event>)
    requires crowd > 0 && |g.registered| + g.between <= max + crowd - 1
    requires Legal(max, crowd, g, tr)
    ensures |Run(max, crowd, g, tr).registered| + Run(max, crowd, g, tr).between <= max + crowd - 1
    decreases |tr|
  {
    if tr != [] {
      if tr[0].Remove? {
        Smaller(g.registered, tr[0].id);
      }
      BoundHolds(max, crowd, Step(max, crowd, g, tr[0]), tr[1..]);
    }
  }

  /** At most `crowd - 1` streams above the limit. */
  lemma RegistryBound(max: nat, crowd: nat, tr: seq<Event>)
    requires crowd > 0 && Legal(max, crowd, Empty, tr)
    ensures |Run(max, crowd, Empty, tr).registered| <= max + crowd - 1
  {
    BoundHolds(max, crowd, Empty, tr);
  }

  // ---------------------------------------------------------------- the bound is reached

  ghost predicate Reaches(max: nat, crowd: nat, h: Gate) {
    exists tr :: Legal(max, crowd, Empty, tr) && Run(max, crowd, Empty, tr) == h
  }

  lemma {:induction false} RunConcat(max: nat, crowd: nat, g: Gate, a: seq<Event>, ev: Event)
    requires Legal(max, crowd, g, a) && Enabled(max, crowd, Run(max, crowd, g, a), ev)
    ensures Legal(max, crowd, g, a + [ev])
    ensures Run(max, crowd, g, a + [ev]) == Step(max, crowd, Run(max, crowd, g, a), ev)
    decreases |a|
  {
    if a == [] {
      assert a + [ev] == [ev] && [ev][1..] == [];
    } else {
      assert (a + [ev])[1..] == a[1..] + [ev];
      RunConcat(max, crowd, Step(max, crowd, g, a[0]), a[1..], ev);
    }
  }

  lemma Go(max: nat, crowd: nat, h: Gate, ev: Event)
    requires Reaches(max, crowd, h) && Enabled(max, crowd, h, ev)
    ensures Reaches(max, crowd, Step(max, crowd, h, ev))
  {
    var tr :| Legal(max, crowd, Empty, tr) && Run(max, crowd, Empty, tr) == h;
    RunConcat(max, crowd, Empty, tr, ev);
  }

  /** The ids below `n`. */
  function Ids(n: nat): (s: set<u32>)
    requires n <= U32_MAX
    ensures |s| == n && forall i: u32 :: i in s <==> i < n
  {
    if n == 0 then {} else Ids(n - 1) + {n - 1}
  }

  /** One task at a time fills the registry. */
  lemma {:induction false} Fill(max: nat, crowd: nat, n: nat)
    requires crowd > 0 && n <= max && n <= U32_MAX
    ensures Reaches(max, crowd, Gate(Ids(n), 0))
  {
    if n == 0 {
      assert Legal(max, crowd, Empty, []) && Run(max, crowd, Empty, []) == Gate(Ids(0), 0);
    } else {
      Fill(max, crowd, n - 1);
      Go(max, crowd, Gate(Ids(n - 1), 0), Check);
      Go(max, crowd, Gate(Ids(n - 1), 1), Insert(n - 1));
    }
  }

  /** With one place left, `k` tasks pass the check together. */
  lemma {:induction false} Crowd(max: nat, crowd: nat, k: nat)
    requires 0 < max <= U32_MAX && 0 < crowd && k <= crowd
    ensures Reaches(max, crowd, Gate(Ids(max - 1), k))
  {
    if k == 0 {
      Fill(max, crowd, max - 1);
    } else {
      Crowd(max, crowd, k - 1);
      Go(max, crowd, Gate(Ids(max - 1), k - 1), Check);
    }
  }

  /** And then insert one after the other. */
  lemma {:induction false} Overrun(max: nat, crowd: nat, k: nat)
    requires 0 < max && 0 < crowd && k <= crowd && max + crowd <= U32_MAX
    ensures Reaches(max, crowd, Gate(Ids(max - 1 + k), crowd - k))
  {
    if k == 0 {
      Crowd(max, crowd, crowd);
    } else {
      Overrun(max, crowd, k - 1);
      Go(max, crowd, Gate(Ids(max - 2 + k), crowd - k + 1), Insert(max - 2 + k));
    }
  }

  /** The bound is exact: `crowd` tasks racing through `open` do end `crowd - 1` streams above the limit. */
  lemma BoundIsReached(max: nat, crowd: nat) returns (g: Gate)
    requires 0 < max && 0 < crowd && max + crowd <= U32_MAX
    ensures Reaches(max, crowd, g) && |g.registered| == max + crowd - 1
  {
    Overrun(max, crowd, crowd);
    g := Gate(Ids(max - 1 + crowd), 0);
  }
}
