/** Frames in flight in one direction, projected onto one stream. */
module Channels {
  import opened Base
  import opened Frames

  /** Frames that concern stream `id`: its own, and the session-wide GoAway. */
  predicate Concerns(f: Frame, id: u32) {
    match f
    case Data(i, _, _) => i == id
    case WindowUpdate(i, _, _) => i == id
    case Ping(_, _) => false
    case GoAway(_) => true
  }

  function Project(fs: seq<Frame>, id: u32): seq<Frame> {
    if fs == [] then []
    else (if Concerns(fs[0], id) then [fs[0]] else []) + Project(fs[1..], id)
  }

  lemma {:induction false} ProjectAppend(a: seq<Frame>, b: seq<Frame>, id: u32)
    ensures Project(a + b, id) == Project(a, id) + Project(b, id)
  {
    hide Concerns;
    if a == [] {
      assert a + b == b;
    } else {
      assert (a + b)[0] == a[0] && (a + b)[1..] == a[1..] + b;
      ProjectAppend(a[1..], b, id);
      var first := if Concerns(a[0], id) then [a[0]] else [];
      assert first + (Project(a[1..], id) + Project(b, id)) == (first + Project(a[1..], id)) + Project(b, id);
    }
  }

  lemma {:induction false} ProjectElements(fs: seq<Frame>, id: u32)
    ensures forall f :: f in Project(fs, id) <==> f in fs && Concerns(f, id)
  {
    if fs != [] {
      ProjectElements(fs[1..], id);
      assert fs == [fs[0]] + fs[1..];
    }
  }

  // ---------------------------------------------------------------- what the frames carry

  function CreditOf(f: Frame): nat {
    if f.WindowUpdate? then f.delta else 0
  }

  function Payload(ch: seq<Frame>): seq<u8> {
    if ch == [] then [] else PayloadOf(ch[0]) + Payload(ch[1..])
  }

  function CreditIn(ch: seq<Frame>): nat {
    if ch == [] then 0 else CreditOf(ch[0]) + CreditIn(ch[1..])
  }

  lemma {:induction false} PayloadAppend(a: seq<Frame>, b: seq<Frame>)
    ensures Payload(a + b) == Payload(a) + Payload(b)
    ensures CreditIn(a + b) == CreditIn(a) + CreditIn(b)
  {
    if a == [] {
      assert a + b == b;
    } else {
      assert (a + b)[1..] == a[1..] + b;
      PayloadAppend(a[1..], b);
    }
  }

  lemma Carry(ch: seq<Frame>, f: Frame)
    ensures Payload(ch + [f]) == Payload(ch) + PayloadOf(f)
    ensures CreditIn(ch + [f]) == CreditIn(ch) + CreditOf(f)
    ensures ch != [] ==> Payload(ch) == PayloadOf(ch[0]) + Payload(ch[1..])
  {
    PayloadAppend(ch, [f]);
  }

  // ---------------------------------------------------------------- order

  /** After this frame its sender transmits no more payload on the stream. */
  predicate Terminal(f: Frame) {
    f.GoAway? || (f.Data? && (f.flags.fin || f.flags.rst))
  }

  predicate HasTerminal(ch: seq<Frame>) {
    exists f :: f in ch && Terminal(f)
  }

  predicate HasGoAway(ch: seq<Frame>) {
    exists f :: f in ch && f.GoAway?
  }

  /** No payload follows a FIN, an RST or a GoAway. */
  predicate Quiet(ch: seq<Frame>) {
    forall i, j :: 0 <= i < j < |ch| && Terminal(ch[i]) ==> PayloadOf(ch[j]) == []
  }

  lemma {:induction false} NoPayload(ch: seq<Frame>)
    requires forall i :: 0 <= i < |ch| ==> PayloadOf(ch[i]) == []
    ensures Payload(ch) == []
  {
    if ch != [] {
      NoPayload(ch[1..]);
    }
  }

  /** Behind a terminal frame at the head there is nothing left to deliver. */
  lemma QuietTail(ch: seq<Frame>)
    requires Quiet(ch) && ch != [] && Terminal(ch[0])
    ensures Payload(ch[1..]) == []
  {
    NoPayload(ch[1..]);
  }

  lemma QuietPush(ch: seq<Frame>, f: Frame)
    requires Quiet(ch)
    requires PayloadOf(f) == [] || !HasTerminal(ch)
    ensures Quiet(ch + [f])
  {
  }

  lemma QuietAppend(ch: seq<Frame>, fs: seq<Frame>)
    requires Quiet(ch)
    requires forall g :: g in fs ==> PayloadOf(g) == []
    ensures Quiet(ch + fs)
  {
  }

  lemma {:induction false} PayloadBounds(ch: seq<Frame>, f: Frame)
    requires f in ch
    ensures |PayloadOf(f)| <= |Payload(ch)|
  {
    if f != ch[0] {
      PayloadBounds(ch[1..], f);
    }
  }
}
