/**
One endpoint's half of a logical stream as a value, with every operation of
`src/stream/inner.rs` taken as one atomic transition on it. `src/stream/state.rs`
supplies the three flags and `src/flow/window.rs` the two windows.
No operation looks at the history in `log`.
*/
module Streams {
  import opened Base
  import opened Frames

  datatype Origin = Local | Remote

  /** The three flags of `StreamState`. */
  datatype State = State(readOpen: bool, writeOpen: bool, reset: bool)

  datatype SendWindow = SendWindow(credit: u32, closed: bool)

  datatype RecvWindow = RecvWindow(initial: u32, pending: u32)

  /**
  History: bytes accepted by poll_write, those of them the writer did not throw away, bytes returned
  by poll_read, and whether this side did the reset.
  */
  datatype History = History(wrote: seq<u8>, kept: seq<u8>, read: seq<u8>, localReset: bool)

  datatype Stream = Stream(
    id: u32,
    state: State,
    tx: SendWindow,
    rx: RecvWindow,
    buffer: seq<u8>,
    acked: bool,
    finSent: bool,
    log: History)

  /** What an operation leaves behind: the stream, frames offered to the writer, ids sent to the closer. */
  datatype Out = Out(stream: Stream, frames: seq<Frame>, signals: seq<u32>)

  function New(id: u32, origin: Origin, window: u32): Stream {
    Stream(id, State(true, true, false), SendWindow(window, false), RecvWindow(window, 0), [],
           origin == Remote, false, History([], [], [], false))
  }

  predicate CanRecv(s: Stream) {
    s.state.readOpen && !s.state.reset
  }

  // ---------------------------------------------------------------- flags

  function CloseRead(s: Stream): Stream {
    s.(state := s.state.(readOpen := false))
  }

  function CloseWrite(s: Stream): Stream {
    s.(state := s.state.(writeOpen := false))
  }

  function MarkReset(s: Stream): Stream {
    s.(state := State(false, false, true))
  }

  // ---------------------------------------------------------------- windows

  function Threshold(initial: u32): u32 {
    Max(initial / 2, 1)
  }

  /** Half the window, and at least one byte. */
  lemma ThresholdIs(initial: u32)
    ensures Threshold(initial) == Max(initial / 2, 1)
  {
  }

  function Grant(s: Stream, delta: u32): Stream {
    s.(tx := s.tx.(credit := SatAdd(s.tx.credit, delta)))
  }

  function CloseWindow(s: Stream): Stream {
    s.(tx := s.tx.(closed := true))
  }

  /**
  `RecvWindow::on_consume` run without interference. The counter wraps and the
  local sum saturates, so the first exchange can fail even with nobody else there;
  the retry then works with the wrapped value.
  */
  function OnConsume(initial: u32, pending: u32, bytes: u32): (r: (u32, Option<u32>)) {
    if bytes == 0 then (pending, None)
    else
      var stored := WrapAdd(pending, bytes);
      if SatAdd(pending, bytes) >= Threshold(initial) && stored >= Threshold(initial)
      then (0, Some(stored))
      else (stored, None)
  }

  // ---------------------------------------------------------------- inbound

  function PushData(s: Stream, payload: seq<u8>): Stream {
    s.(buffer := s.buffer + payload)
  }

  function RemoteFin(s: Stream): Stream {
    CloseRead(s)
  }

  function RemoteReset(s: Stream): Out {
    Out(CloseWindow(MarkReset(s)), [], [s.id])
  }

  function ForceClose(s: Stream): Stream {
    CloseWindow(CloseWrite(CloseRead(s)))
  }

  // ---------------------------------------------------------------- outbound

  /** The first `n` bytes leave the buffer and `pending` bytes of credit are owed. */
  function Drained(s: Stream, n: nat, pending: u32): Stream
    requires n <= |s.buffer|
  {
    s.(buffer := s.buffer[n..], rx := s.rx.(pending := pending), log := s.log.(read := s.log.read + s.buffer[..n]))
  }

  datatype ReadOutcome = ReadReset | Eof | ReadPending | Got(bytes: seq<u8>)

  function PollRead(s: Stream, cap: nat): (Out, ReadOutcome) {
    if cap == 0 then (Out(s, [], []), Got([]))
    else if s.state.reset then (Out(s, [], []), ReadReset)
    else
      var n := Min(cap, |s.buffer|);
      if n > 0 then
        var bytes := s.buffer[..n];
        var (pending, delta) := OnConsume(s.rx.initial, s.rx.pending, n % (U32_MAX + 1));
        (Out(Drained(s, n, pending), if delta.Some? then [Credit(s.id, delta.value)] else [], []), Got(bytes))
      else if !s.state.readOpen then (Out(s, [], []), Eof)
      else (Out(s, [], []), ReadPending)
  }

  /** `bytes` are accepted and paid for. */
  function Spent(s: Stream, bytes: seq<u8>): Stream
    requires |bytes| <= s.tx.credit
  {
    s.(tx := s.tx.(credit := s.tx.credit - |bytes|),
       log := s.log.(wrote := s.log.wrote + bytes, kept := s.log.kept + bytes))
  }

  datatype WriteOutcome = WriteReset | BrokenPipe | WritePending | Accepted(n: nat)

  /** `outOpen` is false once the session's writer has exited, so that sending to it fails. */
  function PollWrite(s: Stream, maxFrame: u32, data: seq<u8>, outOpen: bool): (Out, WriteOutcome) {
    if s.state.reset then (Out(s, [], []), WriteReset)
    else if !s.state.writeOpen then (Out(s, [], []), BrokenPipe)
    else if data == [] then (Out(s, [], []), Accepted(0))
    else if s.tx.closed then (Out(s, [], []), BrokenPipe)
    else if s.tx.credit == 0 then (Out(s, [], []), WritePending)
    else
      var n := Min(s.tx.credit, Min(|data|, maxFrame));
      if outOpen then (Out(Spent(s, data[..n]), [Data(s.id, NoFlags, data[..n])], []), Accepted(n))
      else (Out(CloseWrite(Grant(s.(tx := s.tx.(credit := s.tx.credit - n)), n)), [], []), BrokenPipe)
  }

  function LocalFin(s: Stream): Out {
    if s.state.reset || !s.state.writeOpen then Out(s, [], [])
    else Out(CloseWrite(s).(finSent := true), if s.finSent then [] else [Fin(s.id)], [])
  }

  function LocalReset(s: Stream): Out {
    if s.state.reset then Out(MarkReset(s), [], [])
    else
      Out(CloseWindow(MarkReset(s)).(finSent := true, log := s.log.(localReset := true)),
          if s.finSent then [] else [Rst(s.id)], [s.id])
  }

  function UserDrop(s: Stream): Out {
    var o := if s.state.writeOpen && !s.state.reset then LocalFin(s) else Out(s, [], []);
    o.(signals := o.signals + [s.id])
  }
}
