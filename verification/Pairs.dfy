/**
The two halves of one stream and the frames of that stream in flight between them.
The invariants here mention one stream only; Network.dfy shows that a step of the whole
system moves at most one pair, except for shutdown, which moves all of them alike.
*/
module Pairs {
  import opened Base
  import opened Frames
  import opened Streams
  import opened Endpoints
  import opened Channels

  datatype Side = Side(entry: Option<Entry>, closing: bool, peerGone: bool, outOpen: bool)

  predicate Live(en: Entry) {
    en.holder != Nobody
  }

  predicate CanWrite(s: Side) {
    s.entry.Some? && Live(s.entry.value) && s.entry.value.stream.state.writeOpen && !s.entry.value.stream.state.reset
  }

  /** Payload arriving now would be kept: the stream is registered, or about to be created. */
  predicate Receptive(s: Side) {
    s.entry.None? || s.entry.value.registered
  }

  function Kept(s: Side): seq<u8> {
    if s.entry.Some? then s.entry.value.stream.log.kept else []
  }

  function Arrived(s: Side): seq<u8> {
    if s.entry.Some? then s.entry.value.stream.log.read + s.entry.value.stream.buffer else []
  }

  /** Send credit of a side; a side not created yet still owns its whole window. */
  function Avail(s: Side, window: int): int {
    if s.entry.Some? then s.entry.value.stream.tx.credit else window
  }

  /** Bytes received and not yet given back as credit. */
  function Owed(s: Side): int {
    if s.entry.Some? then |s.entry.value.stream.buffer| + s.entry.value.stream.rx.pending else 0
  }

  /** The read half ended because the peer said so: a FIN, or its GoAway while the handle was in use. */
  predicate Finished(r: Side) {
    && r.entry.Some?
    && !r.entry.value.stream.state.readOpen && !r.entry.value.stream.state.reset
    && (!r.closing || (r.peerGone && Live(r.entry.value)))
  }

  predicate ResetByPeer(r: Side) {
    r.entry.Some? && r.entry.value.stream.state.reset && !r.entry.value.stream.log.localReset
  }

  // ---------------------------------------------------------------- invariants

  /** What one endpoint alone guarantees about one of its streams. */
  predicate EntryOk(en: Entry, closing: bool, window: u32) {
    var s := en.stream;
    && (s.state.reset ==> !s.state.readOpen && !s.state.writeOpen && s.tx.closed)
    && (s.tx.closed ==> !s.state.writeOpen)
    && (s.finSent ==> !s.state.writeOpen)
    && (s.log.localReset ==> s.state.reset)
    && s.rx.initial == window && s.rx.pending < Threshold(window)
    && (en.registered ==> !closing)
    && (Live(en) && !s.state.reset ==> if closing then !s.state.readOpen && !s.state.writeOpen else en.registered)
    && (!s.acked ==> en.holder in {Opening, Nobody})
    && (!s.acked || en.holder in {Opening, Queued} ==> s.log.wrote == [] && s.log.kept == [])
    && (!closing ==> s.log.kept == s.log.wrote)
  }

  predicate SideOk(s: Side, window: u32) {
    && (s.entry.Some? ==> EntryOk(s.entry.value, s.closing, window))
    && (!s.outOpen ==> s.closing)
    && (s.peerGone ==> s.closing)
  }

  /** Bytes: everything kept is delivered, buffered or in flight, in order. */
  predicate Delivery(got: seq<u8>, kept: seq<u8>, flight: seq<u8>, receptive: bool, finished: bool, cut: bool) {
    && got <= kept
    && |flight| + |got| <= |kept|
    && (receptive ==> kept == got + flight)
    && (finished ==> flight == [] && kept == got)
    && (cut ==> flight == [])
  }

  predicate Bytes(s: Side, r: Side, ch: seq<Frame>) {
    Delivery(Arrived(r), Kept(s), Payload(ch), Receptive(r), Finished(r), ResetByPeer(r))
  }

  /** Ends: nothing is written behind a FIN, an RST or a GoAway. */
  predicate Ends(s: Side, r: Side, ch: seq<Frame>) {
    && Quiet(ch)
    && (forall f :: f in ch ==> Canonical(f))
    && (HasTerminal(ch) ==> !CanWrite(s))
    && (HasGoAway(ch) ==> s.closing)
    && (Finished(r) || ResetByPeer(r) ==> !CanWrite(s))
  }

  /** Credit: the sender's window is split over five places. */
  predicate Ledger(s: Side, r: Side, ch: seq<Frame>, rch: seq<Frame>, window: u32) {
    var total := Avail(s, window) + |Payload(ch)| + Owed(r) + CreditIn(rch);
    && total <= window
    && (Receptive(s) && Receptive(r) ==> total == window)
  }

  predicate Dir(s: Side, r: Side, ch: seq<Frame>, rch: seq<Frame>, window: u32) {
    Bytes(s, r, ch) && Ends(s, r, ch) && Ledger(s, r, ch, rch, window)
  }

  predicate IsSyn(f: Frame) {
    f.Data? && f.flags.syn
  }

  /** Nothing but resets and GoAway. */
  predicate Silent(ch: seq<Frame>) {
    forall f :: f in ch ==> f.GoAway? || (f.Data? && f.flags == RstFlag)
  }

  predicate NoneOwn(ch: seq<Frame>) {
    forall f :: f in ch ==> f.GoAway?
  }

  /** Handshake between the opener `o` and the acceptor `a`. */
  predicate Handshake(o: Side, a: Side, oa: seq<Frame>, ao: seq<Frame>) {
    && (o.entry.None? ==> a.entry.None? && NoneOwn(oa) && NoneOwn(ao))
    && (forall i :: 0 <= i < |oa| && IsSyn(oa[i]) ==>
          i == 0 && a.entry.None? && NoneOwn(ao) && !ResetByPeer(o) && (Finished(o) ==> a.closing))
    && (forall f :: f in ao ==> !IsSyn(f))
    && (a.entry.None? || a.entry.value.holder == Queued ==>
          Silent(ao) && (o.entry.Some? ==> !o.entry.value.stream.acked))
    && (o.entry.Some? ==> o.entry.value.holder != Queued)
  }

  // ---------------------------------------------------------------- user operations

  function After(s: Side, o: EntryOut): Side {
    s.(entry := Some(o.entry))
  }

  function Sent(s: Side, fs: seq<Frame>): seq<Frame> {
    if s.outOpen then fs else []
  }

  /** Reading within the ledger neither truncates, wraps nor saturates. */
  lemma ConsumeExact(initial: u32, pending: u32, n: nat)
    requires pending < Threshold(initial) && pending + n <= U32_MAX
    ensures n % (U32_MAX + 1) == n
    ensures var (p, d) := OnConsume(initial, pending, n);
            p < Threshold(initial) && pending + n == p + if d.Some? then d.value else 0
    ensures OnConsume(initial, pending, n).1.Some? ==> OnConsume(initial, pending, n).1.value >= Threshold(initial)
  {
  }

  lemma ApplyOk(s: Side, act: UserAct, maxFrame: u32, window: u32)
    requires s.entry.Some? && Allowed(s.entry.value, act) && SideOk(s, window)
    requires s.entry.value.stream.rx.pending + |s.entry.value.stream.buffer| <= U32_MAX
    ensures SideOk(After(s, Apply(s.entry.value, act, maxFrame, s.outOpen)), window)
  {
    if act.Read? {
      ConsumeExact(window, s.entry.value.stream.rx.pending, Min(act.cap, |s.entry.value.stream.buffer|));
    }
  }

  // ---------------------------------------------------------------- moves of one direction

  /** The sender goes from `s` to `t`, queueing the frames `fs` (none or one). */
  predicate Speaks(s: Side, t: Side, fs: seq<Frame>, window: u32) {
    && |fs| <= 1
    && (s.closing ==> t.closing)
    && (CanWrite(t) ==> CanWrite(s))
    && (Receptive(t) ==> Receptive(s))
    && Kept(t) == Kept(s) + Payload(fs)
    && Avail(t, window) == Avail(s, window) - |Payload(fs)|
    && (forall f :: f in fs ==>
          && Canonical(f)
          && (PayloadOf(f) != [] ==> CanWrite(s))
          && (Terminal(f) ==> !CanWrite(t))
          && (f.GoAway? ==> t.closing))
  }

  lemma DeliveryGrows(got: seq<u8>, kept: seq<u8>, flight: seq<u8>, receptive: bool, finished: bool, cut: bool,
                      more: seq<u8>)
    requires Delivery(got, kept, flight, receptive, finished, cut)
    requires more != [] ==> !finished && !cut
    ensures Delivery(got, kept + more, flight + more, receptive, finished, cut)
  {
    assert (got + flight) + more == got + (flight + more);
    if more == [] {
      assert flight + more == flight && kept + more == kept;
    }
  }

  lemma SpeakingBytes(s: Side, t: Side, r: Side, ch: seq<Frame>, fs: seq<Frame>, window: u32)
    requires Bytes(s, r, ch) && Ends(s, r, ch)
    requires Speaks(s, t, fs, window)
    ensures Bytes(t, r, ch + fs)
    ensures |Payload(ch + fs)| == |Payload(ch)| + |Payload(fs)|
  {
    PayloadAppend(ch, fs);
    if Payload(fs) != [] {
      Single(fs[0]);
      assert fs == [fs[0]] && CanWrite(s);
    }
    DeliveryGrows(Arrived(r), Kept(s), Payload(ch), Receptive(r), Finished(r), ResetByPeer(r), Payload(fs));
  }

  lemma SpeakingEnds(s: Side, t: Side, r: Side, ch: seq<Frame>, fs: seq<Frame>, window: u32)
    requires Ends(s, r, ch)
    requires Speaks(s, t, fs, window)
    ensures Ends(t, r, ch + fs)
  {
    if fs == [] {
      assert ch + fs == ch;
    } else {
      assert fs == [fs[0]];
      QuietPush(ch, fs[0]);
    }
  }

  lemma Speaking(s: Side, t: Side, r: Side, ch: seq<Frame>, rch: seq<Frame>, fs: seq<Frame>, window: u32)
    requires Dir(s, r, ch, rch, window)
    requires Speaks(s, t, fs, window)
    ensures Dir(t, r, ch + fs, rch, window)
  {
    SpeakingBytes(s, t, r, ch, fs, window);
    SpeakingEnds(s, t, r, ch, fs, window);
  }

  /** The receiver goes from `r` to `t` on its own, queueing the frames `fs` towards the sender. */
  predicate Consumes(r: Side, t: Side, fs: seq<Frame>) {
    && Arrived(t) == Arrived(r)
    && (Receptive(t) ==> Receptive(r))
    && (Finished(t) ==> Finished(r))
    && (ResetByPeer(t) ==> ResetByPeer(r))
    && Owed(t) + CreditIn(fs) <= Owed(r)
    && (Receptive(t) ==> Owed(t) + CreditIn(fs) == Owed(r))
  }

  lemma Consuming(s: Side, r: Side, t: Side, ch: seq<Frame>, rch: seq<Frame>, fs: seq<Frame>, window: u32)
    requires Dir(s, r, ch, rch, window)
    requires Consumes(r, t, fs)
    ensures Dir(s, t, ch, rch + fs, window)
  {
    PayloadAppend(rch, fs);
  }

  // ---------------------------------------------------------------- user operations

  lemma {:induction false} Single(f: Frame)
    ensures Payload([f]) == PayloadOf(f) && CreditIn([f]) == CreditOf(f)
  {
    Carry([], f);
    assert [] + [f] == [f];
  }

  lemma WriteSpeaks(s: Side, act: UserAct, maxFrame: u32, window: u32)
    requires s.entry.Some? && Allowed(s.entry.value, act) && SideOk(s, window) && maxFrame > 0
    requires s.entry.value.stream.id != 0 && act.Write?
    ensures var o := Apply(s.entry.value, act, maxFrame, s.outOpen);
            Speaks(s, After(s, o), Sent(s, o.frames), window)
  {
    var o := Apply(s.entry.value, act, maxFrame, s.outOpen);
    if o.frames != [] {
      Single(o.frames[0]);
    }
  }

  lemma Rejoin(a: seq<u8>, b: seq<u8>, n: nat)
    requires n <= |b|
    ensures (a + b[..n]) + b[n..] == a + b
  {
  }

  lemma ReadShape(s: Stream, cap: nat)
    requires s.rx.pending < Threshold(s.rx.initial) && s.rx.pending + |s.buffer| <= U32_MAX
    requires cap > 0 && !s.state.reset && |s.buffer| > 0
    ensures var n := Min(cap, |s.buffer|);
            var (p, d) := OnConsume(s.rx.initial, s.rx.pending, n);
            var fs := if d.Some? then [Credit(s.id, d.value)] else [];
            PollRead(s, cap).0 == Out(Drained(s, n, p), fs, [])
  {
    ConsumeExact(s.rx.initial, s.rx.pending, Min(cap, |s.buffer|));
  }

  /** One read inside the ledger: order is kept, and what leaves the buffer becomes pending or announced credit. */
  lemma ReadFacts(s: Stream, cap: nat)
    requires s.rx.pending < Threshold(s.rx.initial) && s.rx.pending + |s.buffer| <= U32_MAX && s.id != 0
    ensures var o := PollRead(s, cap).0;
            && o.stream == s.(buffer := o.stream.buffer, rx := s.rx.(pending := o.stream.rx.pending),
                              log := s.log.(read := o.stream.log.read))
            && o.stream.log.read + o.stream.buffer == s.log.read + s.buffer
            && |o.stream.buffer| + o.stream.rx.pending + CreditIn(o.frames) == |s.buffer| + s.rx.pending
            && o.stream.rx.pending < Threshold(s.rx.initial)
            && |o.frames| <= 1 && Payload(o.frames) == []
            && (forall f :: f in o.frames ==> Canonical(f) && f.WindowUpdate?)
  {
    var n := Min(cap, |s.buffer|);
    if cap > 0 && !s.state.reset && n > 0 {
      ReadShape(s, cap);
      ConsumeExact(s.rx.initial, s.rx.pending, n);
      Rejoin(s.log.read, s.buffer, n);
      var o := PollRead(s, cap).0;
      if o.frames != [] {
        Single(o.frames[0]);
      }
    }
  }

  lemma ReadSpeaks(s: Side, act: UserAct, maxFrame: u32, window: u32)
    requires s.entry.Some? && Allowed(s.entry.value, act) && SideOk(s, window) && maxFrame > 0
    requires s.entry.value.stream.id != 0
    requires s.entry.value.stream.rx.pending + |s.entry.value.stream.buffer| <= U32_MAX
    requires act.Read?
    ensures var o := Apply(s.entry.value, act, maxFrame, s.outOpen);
            Speaks(s, After(s, o), Sent(s, o.frames), window)
  {
    ReadFacts(s.entry.value.stream, act.cap);
  }

  lemma FinSpeaks(s: Side, act: UserAct, maxFrame: u32, window: u32)
    requires s.entry.Some? && Allowed(s.entry.value, act) && SideOk(s, window) && maxFrame > 0
    requires s.entry.value.stream.id != 0
    requires s.entry.value.stream.rx.pending + |s.entry.value.stream.buffer| <= U32_MAX
    requires act.Finish? || act.Drop?
    ensures var o := Apply(s.entry.value, act, maxFrame, s.outOpen);
            Speaks(s, After(s, o), Sent(s, o.frames), window)
  {
    var o := Apply(s.entry.value, act, maxFrame, s.outOpen);
    if o.frames != [] {
      Single(o.frames[0]);
    }
  }

  lemma ResetSpeaks(s: Side, act: UserAct, maxFrame: u32, window: u32)
    requires s.entry.Some? && Allowed(s.entry.value, act) && SideOk(s, window) && maxFrame > 0
    requires s.entry.value.stream.id != 0
    requires s.entry.value.stream.rx.pending + |s.entry.value.stream.buffer| <= U32_MAX
    requires act.Reset?
    ensures var o := Apply(s.entry.value, act, maxFrame, s.outOpen);
            Speaks(s, After(s, o), Sent(s, o.frames), window)
  {
    var o := Apply(s.entry.value, act, maxFrame, s.outOpen);
    if o.frames != [] {
      Single(o.frames[0]);
    }
  }

  lemma OpenSpeaks(s: Side, act: UserAct, maxFrame: u32, window: u32)
    requires s.entry.Some? && Allowed(s.entry.value, act) && SideOk(s, window) && maxFrame > 0
    requires s.entry.value.stream.id != 0
    requires s.entry.value.stream.rx.pending + |s.entry.value.stream.buffer| <= U32_MAX
    requires act.Opened? || act.OpenFailed? || act.OpenTimeout?
    ensures var o := Apply(s.entry.value, act, maxFrame, s.outOpen);
            Speaks(s, After(s, o), Sent(s, o.frames), window)
  {
    var o := Apply(s.entry.value, act, maxFrame, s.outOpen);
    if o.frames != [] {
      Single(o.frames[0]);
    }
  }

  lemma ApplySpeaks(s: Side, act: UserAct, maxFrame: u32, window: u32)
    requires s.entry.Some? && Allowed(s.entry.value, act) && SideOk(s, window) && maxFrame > 0
    requires s.entry.value.stream.id != 0
    requires s.entry.value.stream.rx.pending + |s.entry.value.stream.buffer| <= U32_MAX
    ensures var o := Apply(s.entry.value, act, maxFrame, s.outOpen);
            Speaks(s, After(s, o), Sent(s, o.frames), window)
  {
    hide Apply, Speaks;
    match act
    case Write(_) => WriteSpeaks(s, act, maxFrame, window);
    case Read(_) => ReadSpeaks(s, act, maxFrame, window);
    case Finish => FinSpeaks(s, act, maxFrame, window);
    case Drop => FinSpeaks(s, act, maxFrame, window);
    case Reset => ResetSpeaks(s, act, maxFrame, window);
    case _ => OpenSpeaks(s, act, maxFrame, window);
  }

  lemma ReadConsumes(r: Side, act: UserAct, maxFrame: u32, window: u32)
    requires r.entry.Some? && Allowed(r.entry.value, act) && SideOk(r, window) && maxFrame > 0
    requires r.entry.value.stream.id != 0
    requires r.entry.value.stream.rx.pending + |r.entry.value.stream.buffer| <= U32_MAX
    requires act.Read?
    ensures var o := Apply(r.entry.value, act, maxFrame, r.outOpen);
            Consumes(r, After(r, o), Sent(r, o.frames))
  {
    ReadFacts(r.entry.value.stream, act.cap);
  }

  lemma WriteConsumes(r: Side, act: UserAct, maxFrame: u32, window: u32)
    requires r.entry.Some? && Allowed(r.entry.value, act) && SideOk(r, window) && maxFrame > 0
    requires r.entry.value.stream.id != 0
    requires r.entry.value.stream.rx.pending + |r.entry.value.stream.buffer| <= U32_MAX
    requires act.Write?
    ensures var o := Apply(r.entry.value, act, maxFrame, r.outOpen);
            Consumes(r, After(r, o), Sent(r, o.frames))
  {
    var o := Apply(r.entry.value, act, maxFrame, r.outOpen);
    if o.frames != [] {
      Single(o.frames[0]);
    }
  }

  lemma EndConsumes(r: Side, act: UserAct, maxFrame: u32, window: u32)
    requires r.entry.Some? && Allowed(r.entry.value, act) && SideOk(r, window) && maxFrame > 0
    requires r.entry.value.stream.id != 0
    requires r.entry.value.stream.rx.pending + |r.entry.value.stream.buffer| <= U32_MAX
    requires act.Finish? || act.Drop? || act.Reset?
    ensures var o := Apply(r.entry.value, act, maxFrame, r.outOpen);
            Consumes(r, After(r, o), Sent(r, o.frames))
  {
    var o := Apply(r.entry.value, act, maxFrame, r.outOpen);
    if o.frames != [] {
      Single(o.frames[0]);
    }
  }

  lemma OpenConsumes(r: Side, act: UserAct, maxFrame: u32, window: u32)
    requires r.entry.Some? && Allowed(r.entry.value, act) && SideOk(r, window) && maxFrame > 0
    requires r.entry.value.stream.id != 0
    requires r.entry.value.stream.rx.pending + |r.entry.value.stream.buffer| <= U32_MAX
    requires act.Opened? || act.OpenFailed? || act.OpenTimeout?
    ensures var o := Apply(r.entry.value, act, maxFrame, r.outOpen);
            Consumes(r, After(r, o), Sent(r, o.frames))
  {
    var o := Apply(r.entry.value, act, maxFrame, r.outOpen);
    if o.frames != [] {
      Single(o.frames[0]);
    }
  }

  lemma ApplyConsumes(r: Side, act: UserAct, maxFrame: u32, window: u32)
    requires r.entry.Some? && Allowed(r.entry.value, act) && SideOk(r, window) && maxFrame > 0
    requires r.entry.value.stream.id != 0
    requires r.entry.value.stream.rx.pending + |r.entry.value.stream.buffer| <= U32_MAX
    ensures var o := Apply(r.entry.value, act, maxFrame, r.outOpen);
            Consumes(r, After(r, o), Sent(r, o.frames))
  {
    hide Apply, Consumes;
    match act
    case Read(_) => ReadConsumes(r, act, maxFrame, window);
    case Write(_) => WriteConsumes(r, act, maxFrame, window);
    case Finish => EndConsumes(r, act, maxFrame, window);
    case Drop => EndConsumes(r, act, maxFrame, window);
    case Reset => EndConsumes(r, act, maxFrame, window);
    case _ => OpenConsumes(r, act, maxFrame, window);
  }

  // ---------------------------------------------------------------- hearing a frame

  /** The receiver goes from `r` to `t` on taking `f` from the wire. */
  predicate Hears(r: Side, t: Side, f: Frame) {
    && (Receptive(t) ==> Receptive(r))
    && Arrived(t) == (if Receptive(t) then Arrived(r) + PayloadOf(f) else Arrived(r))
    && Owed(t) == (if Receptive(t) then Owed(r) + |PayloadOf(f)| else Owed(r))
    && (Finished(t) ==> Finished(r) || (Terminal(f) && Receptive(r)))
    && (ResetByPeer(t) ==> ResetByPeer(r) || Terminal(f))
    && (Terminal(f) ==> PayloadOf(f) == [])
  }

  lemma DeliveryMoves(got: seq<u8>, kept: seq<u8>, p: seq<u8>, flight: seq<u8>, finished: bool, cut: bool)
    requires Delivery(got, kept, p + flight, true, finished, cut)
    ensures Delivery(got + p, kept, flight, true, finished, cut)
  {
    assert got + (p + flight) == (got + p) + flight;
    assert got + p <= kept;
  }

  lemma Hearing(s: Side, r: Side, t: Side, ch: seq<Frame>, rch: seq<Frame>, fs: seq<Frame>, window: u32)
    requires Dir(s, r, ch, rch, window)
    requires ch != [] && Hears(r, t, ch[0])
    requires CreditIn(fs) == 0
    ensures Dir(s, t, ch[1..], rch + fs, window)
  {
    PayloadAppend(rch, fs);
    HearingBytes(s, r, t, ch);
    HearingEnds(s, r, t, ch);
    assert |Payload(ch)| == |PayloadOf(ch[0])| + |Payload(ch[1..])|;
  }

  lemma HearingBytes(s: Side, r: Side, t: Side, ch: seq<Frame>)
    requires Bytes(s, r, ch) && Ends(s, r, ch)
    requires ch != [] && Hears(r, t, ch[0])
    ensures Bytes(s, t, ch[1..])
  {
    var p, q := PayloadOf(ch[0]), Payload(ch[1..]);
    assert Payload(ch) == p + q;
    if Terminal(ch[0]) {
      QuietTail(ch);
      assert Arrived(r) + [] == Arrived(r);
    }
    if Receptive(t) {
      DeliveryMoves(Arrived(r), Kept(s), p, q, Finished(r), ResetByPeer(r));
    }
  }

  lemma HearingEnds(s: Side, r: Side, t: Side, ch: seq<Frame>)
    requires Ends(s, r, ch)
    requires ch != [] && Hears(r, t, ch[0])
    ensures Ends(s, t, ch[1..])
  {
    assert ch[0] in ch;
    assert forall f :: f in ch[1..] ==> f in ch;
  }

  /** The sender goes from `s` to `t` on taking `f` from the opposite wire, queueing `fs`. */
  predicate Answers(s: Side, t: Side, f: Frame, fs: seq<Frame>, window: u32) {
    && Payload(fs) == []
    && (s.closing ==> t.closing)
    && Kept(t) == Kept(s)
    && (CanWrite(t) ==> CanWrite(s))
    && (Receptive(t) ==> Receptive(s))
    && Avail(t, window) <= Avail(s, window) + CreditOf(f)
    && (Receptive(t) && s.entry.Some? ==> Avail(t, window) == Avail(s, window) + CreditOf(f))
    && (s.entry.None? ==> Avail(t, window) == window)
    && (forall g :: g in fs ==>
          Canonical(g) && PayloadOf(g) == [] && (Terminal(g) ==> !CanWrite(t)) && (g.GoAway? ==> t.closing))
  }

  lemma Answering(s: Side, t: Side, r: Side, ch: seq<Frame>, rch: seq<Frame>, fs: seq<Frame>, window: u32)
    requires Dir(s, r, ch, rch, window)
    requires rch != [] && Answers(s, t, rch[0], fs, window)
    ensures Dir(t, r, ch + fs, rch[1..], window)
  {
    PayloadAppend(ch, fs);
    assert Payload(ch) + [] == Payload(ch);
    assert CreditIn(rch) == CreditOf(rch[0]) + CreditIn(rch[1..]);
    QuietAppend(ch, fs);
    assert Ends(t, r, ch + fs);
  }

  /** A side comes into being: the opener on `open`, the acceptor on the peer's SYN. */
  lemma Creating(s: Side, t: Side, r: Side, ch: seq<Frame>, rch: seq<Frame>, fs: seq<Frame>, window: u32)
    requires Dir(s, r, ch, rch, window)
    requires s.entry.None? && t.entry.Some? && t.closing == s.closing
    requires Kept(t) == [] && t.entry.value.stream.tx.credit == window
    requires !HasTerminal(ch) && !Finished(r) && !ResetByPeer(r)
    requires Payload(fs) == [] && forall g :: g in fs ==> Canonical(g) && PayloadOf(g) == [] && !Terminal(g)
    ensures Dir(t, r, ch + fs, rch, window)
  {
    PayloadAppend(ch, fs);
    assert Payload(ch) + [] == Payload(ch);
    QuietAppend(ch, fs);
    assert Ends(t, r, ch + fs);
  }

  lemma Skipping(s: Side, r: Side, ch: seq<Frame>, rch: seq<Frame>, window: u32)
    requires Dir(s, r, ch, rch, window) && rch != [] && CreditOf(rch[0]) == 0
    ensures Dir(s, r, ch, rch[1..], window)
  {
  }

  function CloseSide(x: Side): Side {
    x.(closing := true, entry := if x.entry.Some? then Some(CloseEntry(x.entry.value)) else None)
  }

  // ---------------------------------------------------------------- frames that are thrown away

  lemma DeliveryThins(got: seq<u8>, kept: seq<u8>, a: seq<u8>, b: seq<u8>, c: seq<u8>, receptive: bool,
                      finished: bool, cut: bool)
    requires Delivery(got, kept, a + b + c, receptive, finished, cut)
    ensures Delivery(got, Cut(kept, |b|, |c|), a + c, receptive, finished, cut)
  {
    var front := kept[..|kept| - |c| - |b|];
    assert got <= front;
    assert Cut(kept, |b|, |c|) == front + kept[|kept| - |c|..];
    if receptive {
      assert kept == (got + a) + b + c;
      assert front == got + a && kept[|kept| - |c|..] == c;
      assert (got + a) + c == got + (a + c);
    }
    if finished {
      assert b == [] && c == [] && front + kept[|kept|..] == kept;
    }
  }

  /** A closing side whose writer throws away the frames `b`. */
  function Thinned(x: Side, b: seq<Frame>, c: seq<Frame>): Side {
    if x.entry.None? then x else x.(entry := Some(Forgotten(x.entry.value, |Payload(b)|, |Payload(c)|)))
  }

  lemma ThinBytes(x: Side, y: Side, a: seq<Frame>, b: seq<Frame>, c: seq<Frame>)
    requires Bytes(x, y, a + b + c)
    ensures Bytes(Thinned(x, b, c), y, a + c)
    ensures |Payload(a + c)| + |Payload(b)| == |Payload(a + b + c)|
    ensures x.entry.None? ==> Payload(b) == []
  {
    PayloadAppend(a + b, c);
    PayloadAppend(a, b);
    PayloadAppend(a, c);
    DeliveryThins(Arrived(y), Kept(x), Payload(a), Payload(b), Payload(c), Receptive(y), Finished(y), ResetByPeer(y));
  }

  lemma ThinQuiet(a: seq<Frame>, b: seq<Frame>, c: seq<Frame>)
    requires Quiet(a + b + c)
    ensures Quiet(a + c)
  {
    var ch, thin := a + b + c, a + c;
    forall i, j | 0 <= i < j < |thin| && Terminal(thin[i])
      ensures PayloadOf(thin[j]) == []
    {
      var k := if i < |a| then i else i + |b|;
      var l := if j < |a| then j else j + |b|;
      assert ch[k] == thin[i] && ch[l] == thin[j];
    }
  }

  lemma ThinEnds(x: Side, y: Side, a: seq<Frame>, b: seq<Frame>, c: seq<Frame>)
    requires Ends(x, y, a + b + c)
    ensures Ends(Thinned(x, b, c), y, a + c)
  {
    ThinQuiet(a, b, c);
    assert forall f :: f in a + c ==> f in a + b + c;
  }

  lemma ThinShakes(x: Side, y: Side, a: seq<Frame>, b: seq<Frame>, c: seq<Frame>, yc: seq<Frame>, xOpens: bool)
    requires if xOpens then Handshake(x, y, a + b + c, yc) else Handshake(y, x, yc, a + b + c)
    ensures var t := Thinned(x, b, c); if xOpens then Handshake(t, y, a + c, yc) else Handshake(y, t, yc, a + c)
    ensures x.entry.None? ==> forall f :: f in b ==> CreditOf(f) == 0
  {
    assert forall f :: f in a + c ==> f in a + b + c;
    assert forall f :: f in b ==> f in a + b + c;
    if xOpens {
      forall i | 0 <= i < |a + c| && IsSyn((a + c)[i])
        ensures i == 0 && y.entry.None? && NoneOwn(yc) && !ResetByPeer(x) && (Finished(x) ==> y.closing)
      {
        var k := if i < |a| then i else i + |b|;
        assert (a + b + c)[k] == (a + c)[i];
      }
    }
  }

  lemma {:induction false} NoCredit(ch: seq<Frame>)
    requires forall f :: f in ch ==> CreditOf(f) == 0
    ensures CreditIn(ch) == 0
  {
    if ch != [] {
      assert ch[0] in ch;
      NoCredit(ch[1..]);
    }
  }

  lemma ThinCredit(a: seq<Frame>, b: seq<Frame>, c: seq<Frame>)
    ensures CreditIn(a + c) + CreditIn(b) == CreditIn(a + b + c)
  {
    PayloadAppend(a + b, c);
    PayloadAppend(a, b);
    PayloadAppend(a, c);
  }

  /** A closing side may throw away any stretch of what it has queued, and the pair is kept. */
  lemma PairThins(x: Side, y: Side, a: seq<Frame>, b: seq<Frame>, c: seq<Frame>, yc: seq<Frame>, wx: u32, wy: u32,
                  xOpens: bool)
    requires PairOk(x, y, a + b + c, yc, wx, wy, xOpens) && SideOk(x, wx) && x.closing
    ensures PairOk(Thinned(x, b, c), y, a + c, yc, wx, wy, xOpens) && SideOk(Thinned(x, b, c), wx)
  {
    ThinBytes(x, y, a, b, c);
    ThinEnds(x, y, a, b, c);
    ThinShakes(x, y, a, b, c, yc, xOpens);
    ThinCredit(a, b, c);
    if x.entry.None? {
      NoCredit(b);
    }
  }

  // ---------------------------------------------------------------- other local moves

  lemma CloseCase(x: Side, code: ErrorCode, window: u32)
    requires SideOk(x, window) && !x.closing && LocalCode(code)
    ensures Speaks(x, CloseSide(x), [GoAway(code)], window)
    ensures Consumes(x, CloseSide(x), [GoAway(code)])
    ensures SideOk(CloseSide(x), window)
  {
    Single(GoAway(code));
    assert Kept(x) + [] == Kept(x);
  }

  lemma AcceptCase(x: Side, id: u32, window: u32)
    requires SideOk(x, window) && !x.closing && x.entry.Some? && x.entry.value.holder == Queued && id != 0
    ensures var t := x.(entry := Some(x.entry.value.(holder := User)));
            Speaks(x, t, [Ack(id)], window) && Consumes(x, t, [Ack(id)]) && SideOk(t, window)
  {
    Single(Ack(id));
    assert Kept(x) + [] == Kept(x);
  }

  lemma ExitCase(x: Side, window: u32)
    ensures Speaks(x, x.(outOpen := false), [], window) && Consumes(x, x.(outOpen := false), [])
  {
    assert Kept(x) + [] == Kept(x);
  }

  lemma OpenerShakes(x: Side, y: Side, xc: seq<Frame>, yc: seq<Frame>, wx: u32, wy: u32, xOpens: bool, code: ErrorCode)
    requires PairOk(x, y, xc, yc, wx, wy, xOpens)
    ensures Shakes(x, CloseSide(x), [GoAway(code)], xOpens) && Shakes(x, x.(outOpen := false), [], xOpens)
  {
  }

  lemma RemoveCase(x: Side, window: u32)
    requires SideOk(x, window) && x.entry.Some?
    requires x.entry.value.holder == Nobody || x.entry.value.stream.state.reset
    ensures var t := x.(entry := Some(x.entry.value.(registered := false)));
            Speaks(x, t, [], window) && Consumes(x, t, []) && SideOk(t, window)
  {
    assert Kept(x) + [] == Kept(x);
  }

  // ---------------------------------------------------------------- handshake moves

  predicate NoSyn(fs: seq<Frame>) {
    forall f :: f in fs ==> !IsSyn(f)
  }

  lemma ShakeOpener(o: Side, t: Side, a: Side, oa: seq<Frame>, ao: seq<Frame>, fs: seq<Frame>)
    requires Handshake(o, a, oa, ao) && NoSyn(fs)
    requires t.entry.Some? == o.entry.Some?
    requires o.entry.None? ==> NoneOwn(fs)
    requires o.entry.Some? ==>
               t.entry.value.stream.acked == o.entry.value.stream.acked && t.entry.value.holder != Queued
    requires (ResetByPeer(t) ==> ResetByPeer(o)) && (Finished(t) ==> Finished(o))
    ensures Handshake(t, a, oa + fs, ao)
  {
  }

  lemma ShakeAcceptor(o: Side, a: Side, t: Side, oa: seq<Frame>, ao: seq<Frame>, fs: seq<Frame>)
    requires Handshake(o, a, oa, ao) && NoSyn(fs)
    requires t.entry.Some? == a.entry.Some? && (a.closing ==> t.closing)
    requires a.entry.None? ==> NoneOwn(fs)
    requires a.entry.Some? && t.entry.value.holder == Queued ==> a.entry.value.holder == Queued && Silent(fs)
    ensures Handshake(o, a.(entry := t.entry, closing := t.closing), oa, ao + fs)
    ensures Handshake(o, t, oa, ao + fs)
  {
    assert forall f :: f in ao + fs <==> f in ao || f in fs;
  }

  lemma ShakeOpenerHears(o: Side, t: Side, a: Side, oa: seq<Frame>, ao: seq<Frame>, fs: seq<Frame>)
    requires Handshake(o, a, oa, ao) && NoSyn(fs) && ao != []
    requires t.entry.Some? == o.entry.Some?
    requires o.entry.None? ==> NoneOwn(fs)
    requires o.entry.Some? ==>
               && (t.entry.value.stream.acked ==>
                     o.entry.value.stream.acked || (ao[0].Data? && ao[0].flags.ack))
               && t.entry.value.holder != Queued
    requires ao[0].GoAway? ==> a.closing && (ResetByPeer(t) ==> ResetByPeer(o))
    ensures Handshake(t, a, oa + fs, ao[1..])
  {
    assert ao[0] in ao;
    assert forall f :: f in ao[1..] ==> f in ao;
  }

  lemma ShakeAcceptorHears(o: Side, a: Side, t: Side, oa: seq<Frame>, ao: seq<Frame>, fs: seq<Frame>)
    requires Handshake(o, a, oa, ao) && NoSyn(fs) && oa != []
    requires t.entry.Some? == a.entry.Some?
    requires a.entry.Some? ==> t.entry.value.holder == a.entry.value.holder
    requires Silent(fs) && (oa[0].GoAway? ==> NoneOwn(fs))
    ensures Handshake(o, t, oa[1..], ao + fs)
  {
    assert oa[0] in oa;
    assert forall f :: f in oa[1..] ==> f in oa;
    assert forall f :: f in ao + fs <==> f in ao || f in fs;
  }

  lemma ShakeCreate(o: Side, a: Side, t: Side, oa: seq<Frame>, ao: seq<Frame>)
    requires Handshake(o, a, oa, ao) && oa != [] && IsSyn(oa[0])
    requires t.entry.Some? && t.entry.value.holder == Queued
    ensures a.entry.None? && Handshake(o, t, oa[1..], ao)
  {
    assert oa[0] in oa;
    assert forall f :: f in oa[1..] ==> f in oa;
  }

  lemma FirstIsGoAway(ch: seq<Frame>)
    requires NoneOwn(ch)
    ensures ch == [] || HasGoAway(ch)
  {
    if ch != [] {
      assert ch[0] in ch;
    }
  }

  lemma ShakeOpen(o: Side, t: Side, a: Side, oa: seq<Frame>, ao: seq<Frame>, syn: Frame)
    requires Handshake(o, a, oa, ao) && o.entry.None? && !HasGoAway(oa)
    requires t.entry.Some? && t.entry.value.holder == Opening && !t.entry.value.stream.acked
    requires !ResetByPeer(t) && !Finished(t)
    ensures oa == [] && Handshake(t, a, oa + [syn], ao)
  {
    FirstIsGoAway(oa);
  }

  // ---------------------------------------------------------------- both directions together

  /** Sides `x` and `y`, frames `xc` from `x` and `yc` from `y`; `xOpens` says which side opened the stream. */
  predicate PairOk(x: Side, y: Side, xc: seq<Frame>, yc: seq<Frame>, wx: u32, wy: u32, xOpens: bool) {
    && Dir(x, y, xc, yc, wx) && Dir(y, x, yc, xc, wy)
    && if xOpens then Handshake(x, y, xc, yc) else Handshake(y, x, yc, xc)
  }

  predicate Shakes(x: Side, t: Side, fs: seq<Frame>, xOpens: bool) {
    && t.entry.Some? == x.entry.Some? && (x.closing ==> t.closing) && NoSyn(fs)
    && (x.entry.None? ==> NoneOwn(fs))
    && (x.entry.Some? ==>
          if xOpens then t.entry.value.stream.acked == x.entry.value.stream.acked && t.entry.value.holder != Queued
          else t.entry.value.holder == Queued ==> x.entry.value.holder == Queued && Silent(fs))
  }

  /** A step of side `x` alone keeps the pair. */
  lemma PairLocal(x: Side, t: Side, y: Side, xc: seq<Frame>, yc: seq<Frame>, fs: seq<Frame>, wx: u32, wy: u32,
                  xOpens: bool)
    requires PairOk(x, y, xc, yc, wx, wy, xOpens)
    requires Speaks(x, t, fs, wx) && Consumes(x, t, fs) && Shakes(x, t, fs, xOpens)
    ensures PairOk(t, y, xc + fs, yc, wx, wy, xOpens)
  {
    Speaking(x, t, y, xc, yc, fs, wx);
    Consuming(y, x, t, yc, xc, fs, wy);
    if xOpens {
      ShakeOpener(x, t, y, xc, yc, fs);
    } else {
      ShakeAcceptor(y, x, t, yc, xc, fs);
    }
  }

  predicate ShakesHearing(x: Side, t: Side, f: Frame, fs: seq<Frame>, xOpens: bool) {
    && t.entry.Some? == x.entry.Some? && NoSyn(fs)
    && (x.entry.Some? ==> t.entry.value.holder == x.entry.value.holder)
    && Silent(fs) && (f.GoAway? || (xOpens && x.entry.None?) ==> NoneOwn(fs))
    && (f.GoAway? ==> (ResetByPeer(t) ==> ResetByPeer(x)))
    && (x.entry.Some? && t.entry.value.stream.acked ==> x.entry.value.stream.acked || (f.Data? && f.flags.ack))
  }

  /** Side `x` takes the first frame addressed to it. */
  lemma PairHears(x: Side, t: Side, y: Side, xc: seq<Frame>, yc: seq<Frame>, fs: seq<Frame>, wx: u32, wy: u32,
                  xOpens: bool)
    requires PairOk(x, y, xc, yc, wx, wy, xOpens) && yc != []
    requires Takes(x, t, yc[0], fs, wx, xOpens)
    ensures PairOk(t, y, xc + fs, yc[1..], wx, wy, xOpens)
  {
    Hearing(y, x, t, yc, xc, fs, wy);
    Answering(x, t, y, xc, yc, fs, wx);
    if xOpens {
      assert yc[0] in yc;
      ShakeOpenerHears(x, t, y, xc, yc, fs);
    } else {
      ShakeAcceptorHears(y, x, t, yc, xc, fs);
    }
  }

  function Fresh(x: Side, en: Entry): Side {
    x.(entry := Some(en))
  }

  lemma PairOpens(x: Side, y: Side, xc: seq<Frame>, yc: seq<Frame>, id: u32, wx: u32, wy: u32)
    requires PairOk(x, y, xc, yc, wx, wy, true) && x.entry.None? && !x.closing && id != 0
    ensures PairOk(Fresh(x, Entry(New(id, Local, wx), true, Opening)), y, xc + [Syn(id)], yc, wx, wy, true)
  {
    var t := Fresh(x, Entry(New(id, Local, wx), true, Opening));
    ShakeOpen(x, t, y, xc, yc, Syn(id));
    Single(Syn(id));
    Creating(x, t, y, xc, yc, [Syn(id)], wx);
    Consuming(y, x, t, yc, xc, [Syn(id)], wy);
  }

  lemma SynHead(x: Side, y: Side, xc: seq<Frame>, yc: seq<Frame>, wx: u32, wy: u32)
    requires PairOk(x, y, xc, yc, wx, wy, false) && !x.closing
    requires yc != [] && IsSyn(yc[0])
    ensures x.entry.None? && xc == [] && !Finished(y) && !ResetByPeer(y)
  {
    FirstIsGoAway(xc);
  }

  lemma PairCreates(x: Side, y: Side, xc: seq<Frame>, yc: seq<Frame>, id: u32, wx: u32, wy: u32)
    requires PairOk(x, y, xc, yc, wx, wy, false) && !x.closing
    requires yc != [] && yc[0] == Syn(id)
    ensures x.entry.None?
    ensures PairOk(Fresh(x, Entry(New(id, Remote, wx), true, Queued)), y, xc, yc[1..], wx, wy, false)
  {
    var t := Fresh(x, Entry(New(id, Remote, wx), true, Queued));
    SynHead(x, y, xc, yc, wx, wy);
    hide Handshake, Dir, Finished, ResetByPeer;
    ShakeCreate(y, x, t, yc, xc);
    CreateSends(x, t, y, yc, id, wx);
    CreateHears(x, t, id, wx);
    hide Hears;
    Hearing(y, x, t, yc, xc, [], wy);
    assert xc + [] == xc;
  }

  lemma CreateSends(x: Side, t: Side, y: Side, yc: seq<Frame>, id: u32, wx: u32)
    requires x.entry.None? && t == Fresh(x, Entry(New(id, Remote, wx), true, Queued))
    requires Dir(x, y, [], yc, wx) && yc != [] && yc[0].Data? && !Finished(y) && !ResetByPeer(y)
    ensures Dir(t, y, [], yc[1..], wx)
  {
    hide Dir, Finished, ResetByPeer;
    var none: seq<Frame> := [];
    Creating(x, t, y, none, yc, none, wx);
    assert none + none == none;
    Skipping(t, y, none, yc, wx);
  }

  lemma CreateHears(x: Side, t: Side, id: u32, wx: u32)
    requires x.entry.None? && t == Fresh(x, Entry(New(id, Remote, wx), true, Queued))
    ensures Hears(x, t, Syn(id))
  {
  }

  /** What is known of the side about to take the frame `yc[0]`. */
  predicate HeadOk(x: Side, f: Frame, xOpens: bool) {
    && Canonical(f)
    && (f.Data? && f.flags.syn ==> !xOpens && x.entry.None?)
    && (!f.GoAway? && x.entry.None? ==> !xOpens && PayloadOf(f) == [])
    && (x.entry.Some? && f.WindowUpdate? ==> x.entry.value.stream.tx.credit + f.delta <= U32_MAX)
    && (PayloadOf(f) != [] ==> !Finished(x) && !ResetByPeer(x))
    && (xOpens && x.entry.Some? ==> x.entry.value.holder != Queued)
  }

  lemma HeadPayload(x: Side, y: Side, yc: seq<Frame>, xc: seq<Frame>, wy: u32, xOpens: bool)
    requires Bytes(y, x, yc) && yc != [] && SideOk(y, wy)
    requires if xOpens then Handshake(x, y, xc, yc) else Handshake(y, x, yc, xc)
    ensures PayloadOf(yc[0]) != [] ==> !Finished(x) && !ResetByPeer(x) && x.entry.Some?
  {
    assert Payload(yc) == PayloadOf(yc[0]) + Payload(yc[1..]);
    if x.entry.None? {
      assert Kept(y) == [];
    }
  }

  lemma PairHead(x: Side, y: Side, xc: seq<Frame>, yc: seq<Frame>, wx: u32, wy: u32, xOpens: bool)
    requires PairOk(x, y, xc, yc, wx, wy, xOpens) && yc != [] && SideOk(y, wy)
    ensures HeadOk(x, yc[0], xOpens)
  {
    assert yc[0] in yc;
    HeadPayload(x, y, yc, xc, wy, xOpens);
    assert CreditIn(yc) == CreditOf(yc[0]) + CreditIn(yc[1..]);
  }

  // ---------------------------------------------------------------- the reader's cases

  /** Side `x` becomes `t` on taking frame `f`, and queues `fs`. */
  predicate Takes(x: Side, t: Side, f: Frame, fs: seq<Frame>, window: u32, xOpens: bool) {
    && Hears(x, t, f) && Answers(x, t, f, fs, window) && CreditIn(fs) == 0
    && ShakesHearing(x, t, f, fs, xOpens)
    && SideOk(t, window)
  }

  /** A frame for a stream the registry does not know. */
  lemma UnknownCase(x: Side, f: Frame, fs: seq<Frame>, window: u32, xOpens: bool)
    requires SideOk(x, window) && !x.closing && f.Data? && HeadOk(x, f, xOpens)
    requires x.entry.Some? ==> !x.entry.value.registered
    requires fs == [] || fs == [Rst(f.id)]
    ensures Takes(x, x, f, fs, window, xOpens)
  {
    if fs != [] {
      Single(fs[0]);
    }
    assert Arrived(x) + [] == Arrived(x);
  }

  lemma KnownPayload(x: Side, f: Frame, window: u32, xOpens: bool)
    requires SideOk(x, window) && x.entry.Some? && x.entry.value.registered
    requires f.Data? && HeadOk(x, f, xOpens) && f.payload != [] && CanRecv(x.entry.value.stream)
    ensures var en := x.entry.value;
            Takes(x, x.(entry := Some(en.(stream := PushData(en.stream, f.payload)))), f, [], window, xOpens)
  {
    var s := x.entry.value.stream;
    assert s.log.read + (s.buffer + f.payload) == (s.log.read + s.buffer) + f.payload;
  }

  lemma KnownFlag(x: Side, f: Frame, window: u32, xOpens: bool)
    requires SideOk(x, window) && x.entry.Some? && x.entry.value.registered
    requires f.Data? && HeadOk(x, f, xOpens) && f.payload == []
    ensures var s := x.entry.value.stream;
            var t := match f.flags
              case Flags(_, true, _, _) => s.(acked := true)
              case Flags(_, _, true, _) => CloseRead(s)
              case _ => CloseWindow(MarkReset(s));
            Takes(x, x.(entry := Some(x.entry.value.(stream := t))), f, [], window, xOpens)
  {
    assert Arrived(x) + [] == Arrived(x);
  }

  lemma KnownCase(x: Side, f: Frame, window: u32, xOpens: bool)
    requires SideOk(x, window) && x.entry.Some? && x.entry.value.registered
    requires f.Data? && HeadOk(x, f, xOpens)
    requires Receive(x.entry.value, f.flags, f.payload).1 == Fine
    ensures var o := Receive(x.entry.value, f.flags, f.payload).0;
            Takes(x, After(x, o), f, [], window, xOpens) && o.frames == []
  {
    hide Takes;
    if f.payload != [] {
      KnownPayload(x, f, window, xOpens);
    } else {
      KnownFlag(x, f, window, xOpens);
      assert x.entry.value.stream.buffer + [] == x.entry.value.stream.buffer;
    }
  }

  /** The only way a frame of a conforming peer faults: payload for a stream its own user has reset. */
  lemma FaultCase(x: Side, f: Frame, code: ErrorCode, window: u32, xOpens: bool)
    requires SideOk(x, window) && x.entry.Some? && x.entry.value.registered
    requires f.Data? && HeadOk(x, f, xOpens) && LocalCode(code)
    requires Receive(x.entry.value, f.flags, f.payload).1 == Fault
    ensures x.entry.value.stream.log.localReset
    ensures Receive(x.entry.value, f.flags, f.payload).0 == EntryOut(x.entry.value, [], [])
    ensures Takes(x, CloseSide(x), f, [GoAway(code)], window, xOpens)
  {
    Single(GoAway(code));
  }

  lemma CreditCase(x: Side, f: Frame, window: u32, xOpens: bool)
    requires SideOk(x, window) && x.entry.Some? && x.entry.value.registered
    requires f.WindowUpdate? && HeadOk(x, f, xOpens)
    ensures var t := x.(entry := Some(x.entry.value.(stream := Grant(x.entry.value.stream, f.delta))));
            Takes(x, t, f, [], window, xOpens)
  {
    assert Arrived(x) + [] == Arrived(x);
  }

  lemma CreditUnknownCase(x: Side, f: Frame, window: u32, xOpens: bool)
    requires SideOk(x, window) && f.WindowUpdate? && HeadOk(x, f, xOpens)
    requires x.entry.Some? ==> !x.entry.value.registered
    ensures Takes(x, x, f, [], window, xOpens)
  {
    assert Arrived(x) + [] == Arrived(x);
  }

  lemma GoAwayCase(x: Side, f: Frame, code: ErrorCode, window: u32, xOpens: bool)
    requires SideOk(x, window) && !x.closing && f.GoAway? && HeadOk(x, f, xOpens) && LocalCode(code)
    ensures Takes(x, CloseSide(x.(peerGone := true)), f, [GoAway(code)], window, xOpens)
  {
    Single(GoAway(code));
    assert Arrived(x) + [] == Arrived(x);
  }
}
