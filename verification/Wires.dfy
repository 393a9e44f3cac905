/**
Why the system may be modelled with frames on the wire: at the byte level they arrive as sent, up to the first one
that is too long for the reader. And when none ever is.
*/
module Wires {
  import opened Base
  import opened Frames
  import opened Ids
  import opened Streams
  import opened Endpoints
  import opened Network
  import opened Guarantees
  import opened Scenarios
  import opened Deadlock
  import opened Sizes
  import Codec

  /** Whatever the sender's users write, both codecs take it. */
  predicate Carries(sender: Config, receiver: Config) {
    Longest(sender) <= Min(receiver.maxFrame, Codec.ABSOLUTE_MAX)
  }

  lemma CarriesIs(sender: Config, receiver: Config)
    ensures Carries(sender, receiver) <==>
            Min(sender.maxFrame, sender.window) <= Min(receiver.maxFrame, 16 * 1024 * 1024)
  {
  }

  lemma FrameFits(c: Config, s: Config, n: Net, r: Role, f: Frame)
    requires Reachable(c, s, n) && f in Pipe(n, r)
    requires var a, b := End(n, r).cfg, End(n, r.Peer()).cfg;
             Min(a.maxFrame, a.window) <= Min(b.maxFrame, 16 * 1024 * 1024)
    ensures Passes(End(n, r).cfg, f) && Passes(End(n, r.Peer()).cfg, f) && Codec.CanonicalCode(f)
  {
    hide Reachable;
    FramesAreBounded(c, s, n, r, f);
  }

  /**
  In every reachable state, however the connection cuts the bytes of a wire, the receiver's codec yields the
  frames on it up to the first one that is too long, which is an error, and without one leaves nothing over.
  */
  lemma WireIsTransparent(c: Config, s: Config, n: Net, r: Role, chunks: seq<Codec.bytes>)
    requires Reachable(c, s, n)
    ensures forall f :: f in Wire(n, r) ==> Codec.Encodable(Codec.Limit(End(n, r).cfg.maxFrame), f)
    ensures var own, limit := Codec.Limit(End(n, r).cfg.maxFrame), Codec.Limit(End(n, r.Peer()).cfg.maxFrame);
            var k := Codec.Readable(limit, Wire(n, r));
            var got := Codec.FeedAll(limit, Codec.Nothing, chunks);
            Flatten(chunks) == Codec.EncodeAll(own, Wire(n, r)) ==>
              && got.frames == Wire(n, r)[..k]
              && got.error == (if k < |Wire(n, r)| then Some(Codec.TooLong) else None)
              && (k == |Wire(n, r)| ==> got.rest == [])
    ensures Carries(End(n, r).cfg, End(n, r.Peer()).cfg) ==>
              Codec.Readable(Codec.Limit(End(n, r.Peer()).cfg.maxFrame), Wire(n, r)) == |Wire(n, r)|
  {
    hide Reachable;
    var own, limit := Codec.Limit(End(n, r).cfg.maxFrame), Codec.Limit(End(n, r.Peer()).cfg.maxFrame);
    forall f | f in Wire(n, r)
      ensures Passes(End(n, r).cfg, f) && Codec.CanonicalCode(f)
      ensures Carries(End(n, r).cfg, End(n, r.Peer()).cfg) ==> Passes(End(n, r.Peer()).cfg, f)
    {
      assert f in Pipe(n, r);
      FramesAreBounded(c, s, n, r, f);
    }
    if Flatten(chunks) == Codec.EncodeAll(own, Wire(n, r)) {
      Codec.WireRoundTrip(own, limit, Wire(n, r), chunks);
    }
    var k := Codec.Readable(limit, Wire(n, r));
    if k < |Wire(n, r)| {
      assert Wire(n, r)[k] in Wire(n, r);
    }
  }

  // ---------------------------------------------------------------- the exact condition

  function Zeros(k: nat): seq<u8> {
    seq(k, _ => 0)
  }

  /** The opener's half of the first stream once it is established. */
  function NewTx(r: Role, c: Config): Stream {
    New(r.FirstId(), Local, c.window).(acked := true)
  }

  /** And the acceptor, which has sent its ACK. */
  function NewAcceptor(r: Role, s: Config): Endpoint {
    AcceptorAt(r, s, Entry(New(r.FirstId(), Remote, s.window), true, User), [], [Ack(r.FirstId())], [])
  }

  /** `r`, configured by `c`, writes `data` on its first stream in one frame. */
  lemma WriteRun(r: Role, c: Config, s: Config, data: seq<u8>) returns (n: Net)
    requires c.maxStreams > 0 && s.maxStreams > 0 && 0 < |data| <= Longest(c)
    ensures Leads(Start(r, c, s), n)
    ensures var f := Data(r.FirstId(), NoFlags, data);
            n == Place(r, OpenerAt(r, c, Entry(Spent(NewTx(r, c), data), true, User), [f], [Syn(r.FirstId())] + [f]),
                       NewAcceptor(r, s), [], [])
  {
    hide UserStep, ReaderStep, InitiateShutdown, Endpoints.Open, Endpoints.Accept, CloserStep, WriteFailed, WriterExit;
    var write := Event(r, Use(r.FirstId(), Write(data)));
    var n0 := EstablishRun(r, c, s);
    Written(r, c, NewTx(r, c), [], [Syn(r.FirstId())], data);
    assert [] + [Data(r.FirstId(), NoFlags, data)] == [Data(r.FirstId(), NoFlags, data)];
    Then(Start(r, c, s), n0, write);
    n := Step(n0, write);
  }

  lemma ReachesFrom(r: Role, c: Config, s: Config, n: Net)
    requires ValidConfig(c) && ValidConfig(s) && Leads(Start(r, Of(c, s, r), Of(c, s, r.Peer())), n)
    ensures Reachable(c, s, n)
  {
  }

  /** Every frame `r` ever has under way passes both codecs. */
  ghost predicate AllPass(c: Config, s: Config, r: Role) {
    forall n: Net, f: Frame :: Reachable(c, s, n) && f in Pipe(n, r) ==>
      Passes(Of(c, s, r), f) && Passes(Of(c, s, r.Peer()), f)
  }

  /**
  The exact condition: the frames of `r` pass both codecs in every run if and only if the smaller of its window
  and frame size is within the peer's frame size and within the codec's ceiling.
  */
  lemma AllPassIff(c: Config, s: Config, r: Role)
    requires ValidConfig(c) && ValidConfig(s) && c.maxStreams > 0 && s.maxStreams > 0
    ensures var a, b := Of(c, s, r), Of(c, s, r.Peer());
            AllPass(c, s, r) <==> Min(a.maxFrame, a.window) <= Min(b.maxFrame, 16 * 1024 * 1024)
  {
    hide Reachable, Leads;
    var a, b := Of(c, s, r), Of(c, s, r.Peer());
    if Carries(a, b) {
      forall n: Net, f: Frame | Reachable(c, s, n) && f in Pipe(n, r)
        ensures Passes(a, f) && Passes(b, f)
      {
        Invariant(c, s, n);
        FrameFits(c, s, n, r, f);
      }
    } else {
      var n := WriteRun(r, a, b, Zeros(Longest(a)));
      ReachesFrom(r, c, s, n);
      var f := Data(r.FirstId(), NoFlags, Zeros(Longest(a)));
      assert |PayloadOf(f)| == Longest(a) && !(Passes(a, f) && Passes(b, f));
      assert f in End(n, r).outQ && f in Pipe(n, r);
    }
  }

  /** Between such configurations no session ever meets a frame that is too long. */
  lemma SmoothAlways(c: Config, s: Config, n: Net)
    requires Reachable(c, s, n) && Carries(c, s) && Carries(s, c)
    ensures Smooth(n)
  {
    hide Reachable;
    Invariant(c, s, n);
    forall r: Role
      ensures SmoothFrom(n, r)
    {
      forall f | f in Pipe(n, r)
        ensures Passes(End(n, r).cfg, f) && Passes(End(n, r.Peer()).cfg, f)
      {
        FrameFits(c, s, n, r, f);
      }
      assert forall f :: f in End(n, r).outQ ==> f in Pipe(n, r);
    }
  }
}
