/**
`src/stream` and `src/flow` as they run: objects whose methods update them in place. Every
method is proved against the value-level operation of the same name in `Streams`, which is what
the theorems about whole runs are about. Calls run here without interference from other tasks.
*/
module StreamImpl {
  import opened Base
  import opened Frames
  import S = Streams

  // ---------------------------------------------------------------- shared primitives

  /** An unbounded channel, seen from both ends; `sent` is everything it ever took. */
  class Channel<T> {
    var items: seq<T>
    var isOpen: bool
    ghost var sent: seq<T>

    constructor ()
      ensures items == [] && isOpen && sent == []
    {
      items, isOpen, sent := [], true, [];
    }

    /** `xs` was offered: taken in order while the receiver is alive, dropped otherwise. */
    twostate predicate Took(xs: seq<T>)
      reads this
    {
      && isOpen == old(isOpen)
      && items == (if isOpen then old(items) + xs else old(items))
      && sent == (if isOpen then old(sent) + xs else old(sent))
    }

    method Send(x: T) returns (ok: bool)
      modifies this
      ensures ok == isOpen && Took([x])
    {
      if isOpen {
        items, sent := items + [x], sent + [x];
      }
      return isOpen;
    }

    /** The receiver goes away, and what is still queued with it. */
    method Close()
      modifies this`isOpen, this`items
      ensures !isOpen && items == []
    {
      isOpen, items := false, [];
    }

    method TryRecv() returns (r: Option<T>)
      modifies this
      ensures isOpen == old(isOpen) && sent == old(sent)
      ensures match r
              case None => old(items) == [] && items == []
              case Some(x) => old(items) == [x] + items
    {
      if items == [] {
        return None;
      }
      r, items := Some(items[0]), items[1..];
    }
  }

  /** An atomic counter. The next `spurious` weak exchanges on it fail for no reason. */
  class AtomicU32 {
    var value: u32
    var spurious: nat

    constructor (v: u32, hiccups: nat)
      ensures value == v && spurious == hiccups
    {
      value, spurious := v, hiccups;
    }

    method FetchAdd(n: u32) returns (prev: u32)
      modifies this`value
      ensures prev == old(value) && value == WrapAdd(prev, n)
    {
      prev, value := value, WrapAdd(value, n);
    }

    method CompareExchangeWeak(expected: u32, desired: u32) returns (ok: bool, actual: u32)
      modifies this
      ensures actual == old(value)
      ensures ok ==> actual == expected && value == desired && spurious == old(spurious)
      ensures !ok ==> value == old(value)
      ensures !ok ==> spurious < old(spurious) || (actual != expected && spurious == old(spurious))
    {
      actual := value;
      if spurious > 0 {
        spurious := spurious - 1;
        return false, actual;
      }
      if value != expected {
        return false, actual;
      }
      value := desired;
      return true, actual;
    }
  }

  /** The caller's buffer for a read. */
  class ReadBuf {
    const space: array<u8>
    var filled: nat

    ghost predicate Valid()
      reads this
    {
      filled <= space.Length
    }

    function Filled(): seq<u8>
      requires Valid()
      reads this, space
    {
      space[..filled]
    }

    function Remaining(): (n: nat)
      requires Valid()
      reads this
    {
      space.Length - filled
    }

    constructor (capacity: nat)
      ensures Valid() && Filled() == [] && Remaining() == capacity && fresh(space)
    {
      space := new u8[capacity];
      filled := 0;
    }

    method PutSlice(part: seq<u8>)
      requires Valid() && |part| <= Remaining()
      modifies this, space
      ensures Valid() && Filled() == old(Filled()) + part
    {
      var i := 0;
      while i < |part|
        invariant 0 <= i <= |part| && filled == old(filled)
        invariant space[..filled + i] == old(Filled()) + part[..i]
      {
        space[filled + i] := part[i];
        i := i + 1;
      }
      filled := filled + |part|;
    }
  }

  // ---------------------------------------------------------------- src/stream/recv.rs

  lemma {:induction false} FlatAppend(chunks: seq<seq<u8>>, last: seq<u8>)
    ensures Flatten(chunks + [last]) == Flatten(chunks) + last
  {
    if chunks == [] {
      assert chunks + [last] == [last] && [last][1..] == [];
      assert Flatten([last]) == last + [];
    } else {
      assert (chunks + [last])[1..] == chunks[1..] + [last];
      FlatAppend(chunks[1..], last);
      assert chunks[0] + (Flatten(chunks[1..]) + last) == (chunks[0] + Flatten(chunks[1..])) + last;
    }
  }

  /** Taking `n` bytes off the first chunk takes them off the whole. */
  lemma FlatFront(chunks: seq<seq<u8>>, n: nat)
    requires chunks != [] && n <= |chunks[0]|
    ensures n <= |Flatten(chunks)| && Flatten(chunks)[..n] == chunks[0][..n]
    ensures Flatten([chunks[0][n..]] + chunks[1..]) == Flatten(chunks)[n..]
  {
    var cut := [chunks[0][n..]] + chunks[1..];
    assert cut[0] == chunks[0][n..] && cut[1..] == chunks[1..];
    SplitFront(chunks[0], Flatten(chunks[1..]), n);
  }

  lemma SplitFront(a: seq<u8>, b: seq<u8>, n: nat)
    requires n <= |a|
    ensures (a + b)[..n] == a[..n] && (a + b)[n..] == a[n..] + b
  {
  }

  lemma TakeMore(all: seq<u8>, done: nat, n: nat)
    requires done + n <= |all|
    ensures all[..done] + all[done..][..n] == all[..done + n] && all[done..][n..] == all[done + n..]
  {
  }

  class RecvBuffer {
    var queue: seq<seq<u8>>

    function Contents(): seq<u8>
      reads this
    {
      Flatten(queue)
    }

    constructor ()
      ensures Contents() == []
    {
      queue := [];
    }

    method Push(chunk: seq<u8>)
      modifies this
      ensures Contents() == old(Contents()) + chunk
    {
      if chunk != [] {
        FlatAppend(queue, chunk);
        queue := queue + [chunk];
      }
    }

    method IsEmpty() returns (b: bool)
      ensures b <==> Contents() == []
    {
      var i := 0;
      while i < |queue|
        invariant 0 <= i <= |queue| && Flatten(queue[i..]) == Contents()
      {
        assert queue[i..][1..] == queue[i + 1..];
        if queue[i] != [] {
          return false;
        }
        i := i + 1;
      }
      return true;
    }

    /** As many buffered bytes as fit move to `buf`, in order. */
    method ReadInto(buf: ReadBuf) returns (total: nat)
      requires buf.Valid()
      modifies this, buf, buf.space
      ensures buf.Valid() && total == Min(old(buf.Remaining()), |old(Contents())|)
      ensures buf.Filled() == old(buf.Filled()) + old(Contents())[..total]
      ensures Contents() == old(Contents())[total..]
    {
      total := 0;
      ghost var all, before := Contents(), buf.Filled();
      while buf.Remaining() > 0 && queue != []
        invariant buf.Valid() && total <= |all| && buf.Remaining() + total == old(buf.Remaining())
        invariant Contents() == all[total..] && buf.Filled() == before + all[..total]
        decreases |Contents()| + |queue|
      {
        var front := queue[0];
        if front == [] {
          queue := queue[1..];
        } else {
          var n := Min(buf.Remaining(), |front|);
          FlatFront(queue, n);
          TakeMore(all, total, n);
          assert before + all[..total] + front[..n] == before + all[..total + n];
          buf.PutSlice(front[..n]);
          queue := [front[n..]] + queue[1..];
          total := total + n;
          if queue[0] == [] {
            queue := queue[1..];
          }
        }
      }
    }
  }

  // ---------------------------------------------------------------- src/stream/state.rs

  class StreamState {
    var readOpen: bool
    var writeOpen: bool
    var reset: bool

    function View(): S.State
      reads this
    {
      S.State(readOpen, writeOpen, reset)
    }

    constructor ()
      ensures View() == S.State(true, true, false)
    {
      readOpen, writeOpen, reset := true, true, false;
    }

    /** True exactly on the call that closes the half. */
    method CloseRead() returns (first: bool)
      modifies this
      ensures first == old(readOpen) && View() == old(View()).(readOpen := false)
    {
      first, readOpen := readOpen, false;
    }

    method CloseWrite() returns (first: bool)
      modifies this
      ensures first == old(writeOpen) && View() == old(View()).(writeOpen := false)
    {
      first, writeOpen := writeOpen, false;
    }

    method MarkReset() returns (first: bool)
      modifies this
      ensures first == !old(reset) && View() == S.State(false, false, true)
    {
      first, reset := !reset, true;
      readOpen := false;
      writeOpen := false;
    }
  }

  // ---------------------------------------------------------------- src/flow/window.rs

  datatype AcquireOutcome = Acquired(n: u32) | Blocked | Closed

  class SendWindow {
    const available: AtomicU32
    var closed: bool

    function View(): S.SendWindow
      reads this, available
    {
      S.SendWindow(available.value, closed)
    }

    constructor (initial: u32, hiccups: nat)
      ensures View() == S.SendWindow(initial, false) && fresh(available)
    {
      available := new AtomicU32(initial, hiccups);
      closed := false;
    }

    /** Takes as much of `desired` as there is, and fails only when there is nothing. */
    method TryTake(desired: u32) returns (r: Option<u32>)
      modifies available
      ensures match r
              case None => old(available.value) == 0 && available.value == 0
              case Some(n) => 0 < old(available.value) == available.value + n && n == Min(old(available.value), desired)
    {
      while true
        invariant available.value == old(available.value)
        decreases available.spurious
      {
        var cur := available.value;
        if cur == 0 {
          return None;
        }
        var take := Min(cur, desired);
        var ok, _ := available.CompareExchangeWeak(cur, cur - take);
        if ok {
          return Some(take);
        }
      }
    }

    method PollAcquire(desired: u32) returns (r: AcquireOutcome)
      modifies available
      ensures closed ==> r == Closed && available.value == old(available.value)
      ensures !closed && old(available.value) == 0 ==> r == Blocked && available.value == 0
      ensures !closed && old(available.value) > 0 ==>
                && r == Acquired(Min(old(available.value), desired))
                && available.value == old(available.value) - r.n
    {
      if closed {
        return Closed;
      }
      var taken := TryTake(desired);
      if taken.Some? {
        return Acquired(taken.value);
      }
      // The waker is registered here, and the window looked at once more.
      if closed {
        return Closed;
      }
      taken := TryTake(desired);
      match taken
      case Some(n) => return Acquired(n);
      case None => return Blocked;
    }

    method Grant(delta: u32)
      modifies available
      ensures available.value == SatAdd(old(available.value), delta)
    {
      if delta == 0 {
        return;
      }
      var cur := available.value;
      while true
        invariant cur == available.value == old(available.value)
        decreases available.spurious
      {
        var ok, actual := available.CompareExchangeWeak(cur, SatAdd(cur, delta));
        if ok {
          return;
        }
        cur := actual;
      }
    }

    method Close()
      modifies this`closed
      ensures closed
    {
      closed := true;
    }
  }

  class RecvWindow {
    const initial: u32
    const pending: AtomicU32

    function View(): S.RecvWindow
      reads pending
    {
      S.RecvWindow(initial, pending.value)
    }

    constructor (window: u32, hiccups: nat)
      ensures View() == S.RecvWindow(window, 0) && fresh(pending)
    {
      initial := window;
      pending := new AtomicU32(0, hiccups);
    }

    /** The exchange is first tried with the saturated sum, which need not be what the counter holds. */
    method OnConsume(bytes: u32) returns (r: Option<u32>)
      modifies pending
      ensures (pending.value, r) == S.OnConsume(initial, old(pending.value), bytes)
    {
      if bytes == 0 {
        return None;
      }
      var threshold := Max(initial / 2, 1);
      var prev := pending.FetchAdd(bytes);
      var sum := SatAdd(prev, bytes);
      if sum < threshold {
        return None;
      }
      var cur := sum;
      while true
        invariant pending.value == WrapAdd(prev, bytes)
        invariant cur == sum || cur == pending.value
        invariant cur >= threshold
        decreases pending.spurious, if cur == pending.value then 0 else 1
      {
        var ok, actual := pending.CompareExchangeWeak(cur, 0);
        if ok {
          return Some(cur);
        }
        if actual < threshold {
          return None;
        }
        cur := actual;
      }
    }
  }

  // ---------------------------------------------------------------- src/stream/inner.rs

  datatype ReadPoll = ReadReady | ReadBlocked | ReadError

  /**
  What a read of at most `room` bytes answers: an error exactly on a reset stream, a wait exactly when there is nothing
  and more may come, and otherwise what is there, which at the end of the stream is nothing.
  */
  predicate Answers(s: S.Stream, room: nat, r: ReadPoll, got: seq<u8>) {
    && (r == ReadError <==> room > 0 && s.state.reset)
    && (r == ReadBlocked <==> room > 0 && !s.state.reset && s.buffer == [] && s.state.readOpen)
    && got == if r == ReadError then [] else s.buffer[..Min(room, |s.buffer|)]
  }

  datatype AckPoll = Acked | AckReset | AckClosed | AckBlocked

  class StreamInner {
    const id: u32
    const maxFrame: u32
    const state: StreamState
    const sendWindow: SendWindow
    const recvWindow: RecvWindow
    const recv: RecvBuffer
    const out: Channel<Frame>
    const closer: Channel<u32>
    var ackReceived: bool
    var finSent: bool
    ghost var log: S.History

    /** What belongs to this stream alone. */
    ghost const Repr: set<object>

    ghost predicate Valid() {
      && Repr == {this, state, sendWindow, sendWindow.available, recvWindow, recvWindow.pending, recv}
      && sendWindow.available != recvWindow.pending
      && {out as object, closer} !! Repr
      && (out as object) != closer
    }

    ghost function View(): (v: S.Stream)
      requires Valid()
      reads Repr
      ensures v.id == id
    {
      S.Stream(id, state.View(), sendWindow.View(), recvWindow.View(), recv.Contents(), ackReceived, finSent, log)
    }

    /** The call changed the stream, queued frames and signalled the closer as `o` says. */
    twostate predicate Did(o: S.Out)
      requires Valid()
      reads Repr, out, closer
    {
      View() == o.stream && out.Took(o.frames) && closer.Took(o.signals)
    }

    constructor (id: u32, origin: S.Origin, window: u32, maxFrame: u32, out: Channel<Frame>, closer: Channel<u32>,
                 hiccups: nat)
      requires (out as object) != closer
      ensures Valid() && fresh(Repr) && View() == S.New(id, origin, window)
      ensures this.id == id && this.maxFrame == maxFrame && this.out == out && this.closer == closer
    {
      this.id, this.maxFrame, this.out, this.closer := id, maxFrame, out, closer;
      var flags := new StreamState();
      var tx := new SendWindow(window, hiccups);
      var rx := new RecvWindow(window, hiccups);
      var buffer := new RecvBuffer();
      state, sendWindow, recvWindow, recv := flags, tx, rx, buffer;
      Repr := {this, flags, tx, tx.available, rx, rx.pending, buffer};
      ackReceived, finSent, log := origin == S.Remote, false, S.History([], [], [], false);
    }

    predicate CanRecv()
      requires Valid()
      reads Repr
      ensures CanRecv() <==> S.CanRecv(View())
    {
      state.readOpen && !state.reset
    }

    method PushData(payload: seq<u8>)
      requires Valid()
      modifies recv
      ensures View() == S.PushData(old(View()), payload)
    {
      if payload == [] {
        assert recv.Contents() + [] == recv.Contents();
        return;
      }
      recv.Push(payload);
    }

    method RemoteFin()
      requires Valid()
      modifies state
      ensures View() == S.RemoteFin(old(View()))
    {
      var _ := state.CloseRead();
    }

    method RemoteReset()
      requires Valid()
      modifies Repr, closer
      ensures Did(S.RemoteReset(old(View())))
    {
      var _ := state.MarkReset();
      sendWindow.Close();
      var _ := closer.Send(id);
    }

    method GrantSendCredit(delta: u32)
      requires Valid()
      modifies Repr
      ensures View() == S.Grant(old(View()), delta)
    {
      sendWindow.Grant(delta);
    }

    method MarkAcked()
      requires Valid()
      modifies this`ackReceived
      ensures View() == old(View()).(acked := true)
    {
      ackReceived := true;
    }

    /** One poll of `wait_acked`. */
    method PollAcked() returns (r: AckPoll)
      requires Valid()
      ensures View().acked <==> r == Acked
      ensures r == AckReset <==> !View().acked && View().state.reset
      ensures r == AckClosed <==> !View().acked && !View().state.reset && !View().state.writeOpen
    {
      if ackReceived {
        return Acked;
      }
      if state.reset {
        return AckReset;
      }
      if !state.writeOpen {
        return AckClosed;
      }
      // The waker is registered here, and everything looked at once more.
      if ackReceived {
        return Acked;
      } else if state.reset {
        return AckReset;
      } else if !state.writeOpen {
        return AckClosed;
      } else {
        return AckBlocked;
      }
    }

    method ForceClose()
      requires Valid()
      modifies Repr
      ensures View() == S.ForceClose(old(View()))
    {
      var _ := state.CloseRead();
      var _ := state.CloseWrite();
      sendWindow.Close();
    }

    /**
    Without interference the second look at the buffer and the flags finds what the first one
    found, so the loop of the source runs once; `Wakeups` has the interleavings.
    */
    method PollRead(buf: ReadBuf) returns (r: ReadPoll)
      requires Valid() && buf.Valid() && {buf, buf.space} !! Repr + {out, closer}
      modifies Repr, out, buf, buf.space
      ensures buf.Valid()
      ensures var (o, res) := S.PollRead(old(View()), old(buf.Remaining()));
              && View() == o.stream && out.Took(o.frames) && o.signals == []
              && r == (match res case ReadReset => ReadError case ReadPending => ReadBlocked case _ => ReadReady)
              && buf.Filled() == old(buf.Filled()) + (if res.Got? then res.bytes else [])
      ensures old(buf.Filled()) <= buf.Filled()
      ensures Answers(old(View()), old(buf.Remaining()), r, buf.Filled()[|old(buf.Filled())|..])
      ensures View().log.read == old(View()).log.read + buf.Filled()[|old(buf.Filled())|..]
    {
      assert buf.Filled() == buf.Filled() + [];
      assert recv.Contents()[0..] == recv.Contents();
      if buf.Remaining() == 0 {
        assert out.items + [] == out.items && out.sent + [] == out.sent;
        return ReadReady;
      }
      if state.reset {
        assert out.items + [] == out.items && out.sent + [] == out.sent;
        return ReadError;
      }
      var consumed := recv.ReadInto(buf);
      if consumed > 0 {
        log := log.(read := log.read + old(recv.Contents())[..consumed]);
        var delta := recvWindow.OnConsume(consumed % (U32_MAX + 1));
        if delta.Some? {
          var _ := out.Send(Credit(id, delta.value));
        } else {
          assert out.items + [] == out.items && out.sent + [] == out.sent;
        }
        return ReadReady;
      }
      assert out.items + [] == out.items && out.sent + [] == out.sent;
      if !state.readOpen {
        return ReadReady;
      }
      return ReadBlocked;
    }

    method PollWrite(data: seq<u8>) returns (r: S.WriteOutcome)
      requires Valid()
      modifies Repr, out
      ensures var (o, res) := S.PollWrite(old(View()), maxFrame, data, out.isOpen);
              View() == o.stream && out.Took(o.frames) && o.signals == [] && r == res
      ensures var k := if r.Accepted? then r.n else 0;
              && 0 <= k <= |data| && View().log.wrote == old(View()).log.wrote + data[..k]
              && View().tx.credit == old(View()).tx.credit - k
    {
      assert log.wrote + data[..0] == log.wrote;
      assert out.items + [] == out.items && out.sent + [] == out.sent;
      if state.reset {
        return S.WriteReset;
      }
      if !state.writeOpen {
        return S.BrokenPipe;
      }
      if data == [] {
        return S.Accepted(0);
      }
      var want := Min(|data|, maxFrame);
      var got := sendWindow.PollAcquire(want);
      match got
      case Closed => return S.BrokenPipe;
      case Blocked => return S.WritePending;
      case Acquired(n) =>
        var ok := out.Send(Data(id, NoFlags, data[..n]));
        if !ok {
          sendWindow.Grant(n);
          var _ := state.CloseWrite();
          return S.BrokenPipe;
        }
        log := log.(wrote := log.wrote + data[..n], kept := log.kept + data[..n]);
        return S.Accepted(n);
    }

    method LocalFin()
      requires Valid()
      modifies Repr, out
      ensures var o := S.LocalFin(old(View()));
              View() == o.stream && out.Took(o.frames) && o.signals == []
    {
      assert out.items + [] == out.items && out.sent + [] == out.sent;
      if state.reset {
        return;
      }
      var first := state.CloseWrite();
      if !first {
        return;
      }
      var already := finSent;
      finSent := true;
      if !already {
        var _ := out.Send(Fin(id));
      }
    }

    method LocalReset()
      requires Valid()
      modifies Repr, out, closer
      ensures Did(S.LocalReset(old(View())))
    {
      assert out.items + [] == out.items && out.sent + [] == out.sent;
      assert closer.items + [] == closer.items && closer.sent + [] == closer.sent;
      var first := state.MarkReset();
      if !first {
        return;
      }
      log := log.(localReset := true);
      var already := finSent;
      finSent := true;
      if !already {
        var _ := out.Send(Rst(id));
      }
      sendWindow.Close();
      var _ := closer.Send(id);
    }

    method OnUserDrop()
      requires Valid()
      modifies Repr, out, closer
      ensures Did(S.UserDrop(old(View())))
    {
      assert out.items + [] == out.items && out.sent + [] == out.sent;
      if state.writeOpen && !state.reset {
        LocalFin();
      }
      var _ := closer.Send(id);
    }
  }
}
