/** One stream under any sequence of calls, from its user, the reader and shutdown, with any peer. */
module StreamRuns {
  import opened Base
  import opened Frames
  import opened Streams
  import opened Channels

  datatype Op =
    | DoWrite(data: seq<u8>, maxFrame: u32, outOpen: bool)
    | DoRead(cap: nat)
    | DoFin
    | DoReset
    | DoDrop
    | OnData(payload: seq<u8>)
    | OnAck
    | OnFin
    | OnReset
    | OnCredit(delta: u32)
    | OnShutdown

  function Perform(s: Stream, op: Op): Out {
    match op
    case DoWrite(data, maxFrame, outOpen) => PollWrite(s, maxFrame, data, outOpen).0
    case DoRead(cap) => PollRead(s, cap).0
    case DoFin => LocalFin(s)
    case DoReset => LocalReset(s)
    case DoDrop => UserDrop(s)
    case OnData(payload) => Out(PushData(s, payload), [], [])
    case OnAck => Out(s.(acked := true), [], [])
    case OnFin => Out(RemoteFin(s), [], [])
    case OnReset => RemoteReset(s)
    case OnCredit(delta) => Out(Grant(s, delta), [], [])
    case OnShutdown => Out(ForceClose(s), [], [])
  }

  function After(s: Stream, ops: seq<Op>): Stream
    decreases |ops|
  {
    if ops == [] then s else After(Perform(s, ops[0]).stream, ops[1..])
  }

  function Emitted(s: Stream, ops: seq<Op>): seq<Frame>
    decreases |ops|
  {
    if ops == [] then [] else Perform(s, ops[0]).frames + Emitted(Perform(s, ops[0]).stream, ops[1..])
  }

  predicate Ended(s: Stream) {
    s.finSent || s.state.reset ==> !s.state.writeOpen
  }

  /** After its own FIN or RST a stream says neither again, and no payload. */
  predicate Disciplined(fs: seq<Frame>) {
    forall i, j :: 0 <= i < j < |fs| && Terminal(fs[i]) ==> !Terminal(fs[j]) && PayloadOf(fs[j]) == []
  }

  predicate Subdued(fs: seq<Frame>) {
    forall f :: f in fs ==> !Terminal(f) && PayloadOf(f) == []
  }

  lemma PerformEnds(s: Stream, op: Op)
    requires Ended(s)
    ensures var o := Perform(s, op);
            && Ended(o.stream) && |o.frames| <= 1
            && (s.finSent ==> o.stream.finSent && Subdued(o.frames))
            && (forall f :: f in o.frames && Terminal(f) ==> o.stream.finSent)
  {
  }

  lemma {:induction false} RunEnds(s: Stream, ops: seq<Op>)
    requires Ended(s)
    ensures Disciplined(Emitted(s, ops))
    ensures s.finSent ==> Subdued(Emitted(s, ops))
    decreases |ops|
  {
    hide Perform;
    if ops != [] {
      var o := Perform(s, ops[0]);
      PerformEnds(s, ops[0]);
      RunEnds(o.stream, ops[1..]);
      var rest := Emitted(o.stream, ops[1..]);
      assert forall i :: 0 <= i < |rest| ==> rest[i] in rest;
      if |o.frames| == 1 {
        assert o.frames[0] in o.frames;
        assert o.frames + rest == [o.frames[0]] + rest;
      } else {
        assert o.frames + rest == rest;
      }
    }
  }

  /** Over any sequence of calls a fresh stream emits at most one frame among FIN and RST, and no payload behind it. */
  lemma OneTerminalFrame(id: u32, origin: Origin, window: u32, ops: seq<Op>)
    ensures Disciplined(Emitted(New(id, origin, window), ops))
  {
    RunEnds(New(id, origin, window), ops);
  }

  predicate NoReopening(s: Stream, t: Stream) {
    && (t.state.readOpen ==> s.state.readOpen)
    && (t.state.writeOpen ==> s.state.writeOpen)
    && (s.state.reset ==> t.state.reset)
    && (s.tx.closed ==> t.tx.closed)
    && (s.acked ==> t.acked) && (s.finSent ==> t.finSent)
  }

  lemma PerformCloses(s: Stream, op: Op)
    ensures NoReopening(s, Perform(s, op).stream)
  {
  }

  /** Flags only ever move towards closed. */
  lemma {:induction false} FlagsOnlyClose(s: Stream, ops: seq<Op>)
    ensures NoReopening(s, After(s, ops))
    decreases |ops|
  {
    hide Perform;
    if ops != [] {
      PerformCloses(s, ops[0]);
      FlagsOnlyClose(Perform(s, ops[0]).stream, ops[1..]);
    }
  }

  /**
  The read half closes only by the peer's FIN or RST, the user's reset or session shutdown; never by a local
  FIN or drop.
  */
  lemma {:induction false} ReadHalfSurvivesFin(s: Stream, ops: seq<Op>)
    requires forall op :: op in ops ==> !op.DoReset? && !op.OnFin? && !op.OnReset? && !op.OnShutdown?
    ensures After(s, ops).state.readOpen == s.state.readOpen
    decreases |ops|
  {
    hide Perform;
    if ops != [] {
      assert ops[0] in ops && forall op :: op in ops[1..] ==> op in ops;
      PerformKeepsReading(s, ops[0]);
      ReadHalfSurvivesFin(Perform(s, ops[0]).stream, ops[1..]);
    }
  }

  lemma PerformKeepsReading(s: Stream, op: Op)
    requires !op.DoReset? && !op.OnFin? && !op.OnReset? && !op.OnShutdown?
    ensures Perform(s, op).stream.state.readOpen == s.state.readOpen
  {
  }

  /** What has arrived can be read, byte for byte, exactly until the stream is reset. */
  lemma ReadableIff(s: Stream, cap: nat)
    requires cap > 0
    ensures PollRead(s, cap).1.Got? <==> !s.state.reset && s.buffer != []
    ensures PollRead(s, cap).1.Got? ==> PollRead(s, cap).1.bytes == s.buffer[..Min(cap, |s.buffer|)]
  {
  }
}
