/**
One session as a value: `src/session/inner.rs`, `reader.rs`, `mod.rs` and `manager.rs`.
Every `Arc<StreamInner>` ever created is kept in `entries`; an entry says whether the
registry still refers to it and who holds the handle.
*/
module Endpoints {
  import opened Base
  import opened Frames
  import opened Ids
  import opened Streams
  import opened Channels
  import Codec

  datatype Config = Config(window: u32, maxFrame: u32, maxStreams: nat)

  /** Who owns the stream: a pending `open`, the accept queue, the user's `Stream`, or nobody any more. */
  datatype Holder = Opening | Queued | User | Nobody

  datatype Entry = Entry(stream: Stream, registered: bool, holder: Holder)

  datatype Endpoint = Endpoint(
    role: Role,
    cfg: Config,
    nextId: u32,
    entries: map<u32, Entry>,
    acceptQ: seq<u32>,
    closerQ: seq<u32>,
    outQ: seq<Frame>,
    outOpen: bool,
    closing: bool,
    peerGone: bool,
    sent: seq<Frame>,      // history: every frame the writer queue took
    accepted: seq<u32>)    // history: ids handed out by accept, in order

  function NewEndpoint(role: Role, cfg: Config): Endpoint {
    Endpoint(role, cfg, role.FirstId(), map[], [], [], [], true, false, false, [], [])
  }

  // ---------------------------------------------------------------- queues and registry

  /** Send on the unbounded writer channel; a closed channel drops the frames. */
  function Push(e: Endpoint, fs: seq<Frame>): Endpoint {
    if e.outOpen then e.(outQ := e.outQ + fs, sent := e.sent + fs) else e
  }

  function Put(e: Endpoint, id: u32, en: Entry): Endpoint {
    e.(entries := e.entries[id := en])
  }

  function Registered(e: Endpoint): set<u32> {
    set id | id in e.entries && e.entries[id].registered
  }

  predicate Lookup(e: Endpoint, id: u32) {
    id in e.entries && e.entries[id].registered
  }

  // ---------------------------------------------------------------- user operations on one stream

  datatype UserAct =
    | Write(data: seq<u8>)
    | Read(cap: nat)
    | Finish
    | Reset
    | Drop
    | Opened
    | OpenFailed
    | OpenTimeout

  datatype EntryOut = EntryOut(entry: Entry, frames: seq<Frame>, signals: seq<u32>)

  /**
  Which operations are possible. The timeout may win its race against an ACK or a
  reset that lands after the last poll, so nothing is assumed of the flags there.
  */
  predicate Allowed(en: Entry, act: UserAct) {
    match act
    case Opened => en.holder == Opening && en.stream.acked
    case OpenFailed => en.holder == Opening && !en.stream.acked && (en.stream.state.reset || !en.stream.state.writeOpen)
    case OpenTimeout => en.holder == Opening
    case _ => en.holder == User
  }

  function Keep(en: Entry, o: Out): EntryOut {
    EntryOut(en.(stream := o.stream), o.frames, o.signals)
  }

  function Apply(en: Entry, act: UserAct, maxFrame: u32, outOpen: bool): EntryOut
    requires Allowed(en, act)
  {
    match act
    case Write(data) => Keep(en, PollWrite(en.stream, maxFrame, data, outOpen).0)
    case Read(cap) => Keep(en, PollRead(en.stream, cap).0)
    case Finish => Keep(en, LocalFin(en.stream))
    case Reset => Keep(en, LocalReset(en.stream))
    case Drop => Keep(en.(holder := Nobody), UserDrop(en.stream))
    case Opened => EntryOut(en.(holder := User), [], [])
    case OpenFailed => EntryOut(en.(holder := Nobody, registered := false), [], [])
    case OpenTimeout => EntryOut(en.(holder := Nobody, registered := false), [Rst(en.stream.id)], [])
  }

  function UserStep(e: Endpoint, id: u32, act: UserAct): Endpoint
    requires id in e.entries && Allowed(e.entries[id], act)
  {
    var o := Apply(e.entries[id], act, e.cfg.maxFrame, e.outOpen);
    Push(Put(e, id, o.entry), o.frames).(closerQ := e.closerQ + o.signals)
  }

  // ---------------------------------------------------------------- open and accept

  predicate CanOpen(e: Endpoint) {
    && !e.closing && !e.peerGone
    && |Registered(e)| < e.cfg.maxStreams
    && Advance(e.nextId).Some?
    && !Lookup(e, e.nextId)
    && e.outOpen
  }

  /** The synchronous prefix of `Session::open`, up to waiting for the ACK. */
  function Open(e: Endpoint): Endpoint {
    if e.closing || e.peerGone || |Registered(e)| >= e.cfg.maxStreams || Advance(e.nextId).None? then e
    else
      var id := e.nextId;
      var e1 := e.(nextId := Advance(id).value);
      if Lookup(e1, id) || !e1.outOpen then e1
      else Push(Put(e1, id, Entry(New(id, Local, e.cfg.window), true, Opening)), [Syn(id)])
  }

  function Accept(e: Endpoint): Endpoint
    requires !e.closing && e.acceptQ != [] && e.acceptQ[0] in e.entries
  {
    var id := e.acceptQ[0];
    if e.outOpen then
      var e1 := Put(e, id, e.entries[id].(holder := User));
      Push(e1, [Ack(id)]).(acceptQ := e.acceptQ[1..], accepted := e.accepted + [id])
    else
      Put(e, id, e.entries[id].(holder := Nobody)).(acceptQ := e.acceptQ[1..])
  }

  // ---------------------------------------------------------------- shutdown and closer

  function CloseEntry(en: Entry): Entry {
    if en.registered then Entry(ForceClose(en.stream), false, en.holder) else en
  }

  function InitiateShutdown(e: Endpoint, code: ErrorCode): Endpoint {
    if e.closing then e
    else Push(e, [GoAway(code)]).(
         closing := true,
         entries := map id | id in e.entries :: CloseEntry(e.entries[id]))
  }

  /** One iteration of the closer task. */
  function CloserStep(e: Endpoint): Endpoint
    requires e.closerQ != []
  {
    var id := e.closerQ[0];
    var e1 := if id in e.entries then Put(e, id, e.entries[id].(registered := false)) else e;
    e1.(closerQ := e.closerQ[1..])
  }

  // ---------------------------------------------------------------- writer

  /** The codec built for this configuration, of a writer or a reader, takes the frame. */
  predicate Passes(cfg: Config, f: Frame) {
    Codec.Encodable(Codec.Limit(cfg.maxFrame), f)
  }

  /** `bytes` without the `n` of them that stand in front of the last `behind`. */
  function Cut(bytes: seq<u8>, n: nat, behind: nat): (r: seq<u8>)
    ensures |r| <= |bytes|
  {
    if n + behind <= |bytes| then bytes[..|bytes| - behind - n] + bytes[|bytes| - behind..] else bytes
  }

  /** The first `k` frames of the queue are thrown away; their payload leaves the history of what was kept. */
  function Forget(e: Endpoint, k: nat): Endpoint
    requires k <= |e.outQ|
  {
    e.(outQ := e.outQ[k..],
       entries := map id | id in e.entries ::
         Forgotten(e.entries[id], |Payload(Project(e.outQ[..k], id))|, |Payload(Project(e.outQ[k..], id))|))
  }

  function Forgotten(en: Entry, n: nat, behind: nat): Entry {
    en.(stream := en.stream.(log := en.stream.log.(kept := Cut(en.stream.log.kept, n, behind))))
  }

  /** `write_one` fails on a frame the codec refuses: the frame is lost, and the rest of the queue still goes out. */
  function WriteFailed(e: Endpoint): Endpoint
    requires e.outQ != []
  {
    InitiateShutdown(Forget(e, 1), InternalError)
  }

  /** The writer has drained its queue, up to a frame the codec refuses, and exits. */
  function WriterExit(e: Endpoint): Endpoint {
    Forget(e, |e.outQ|).(outOpen := false)
  }

  // ---------------------------------------------------------------- inbound dispatch

  datatype Verdict = Fine | Fault

  /** The tail of `handle_data`, once the stream is known. */
  function Receive(en: Entry, flags: Flags, payload: seq<u8>): (EntryOut, Verdict) {
    var s0 := if flags.ack then en.stream.(acked := true) else en.stream;
    if payload != [] && !CanRecv(s0) then (Keep(en, LocalReset(s0)), Fault)
    else
      var s1 := PushData(s0, payload);
      var s2 := if flags.fin then RemoteFin(s1) else s1;
      (Keep(en, if flags.rst then RemoteReset(s2) else Out(s2, [], [])), Fine)
  }

  function HandleKnown(e: Endpoint, id: u32, flags: Flags, payload: seq<u8>): (Endpoint, Verdict) {
    if !Lookup(e, id) then
      (if flags.ack || flags.rst then e else Push(e, [Rst(id)]), Fine)
    else
      var (o, v) := Receive(e.entries[id], flags, payload);
      (Push(Put(e, id, o.entry), o.frames).(closerQ := e.closerQ + o.signals), v)
  }

  function HandleData(e: Endpoint, id: u32, flags: Flags, payload: seq<u8>): (Endpoint, Verdict) {
    if id == 0 then (e, Fault)
    else if !flags.syn then HandleKnown(e, id, flags, payload)
    else if e.role.Owns(id) then (e, Fault)
    else if e.peerGone || |Registered(e)| >= e.cfg.maxStreams then (Push(e, [Rst(id)]), Fine)
    else if Lookup(e, id) then (e, Fault)
    else
      var en := Entry(New(id, Remote, e.cfg.window), true, Queued);
      HandleKnown(Put(e, id, en).(acceptQ := e.acceptQ + [id]), id, flags, payload)
  }

  function Dispatch(e: Endpoint, f: Frame): (Endpoint, Verdict) {
    match f
    case Data(id, flags, payload) => HandleData(e, id, flags, payload)
    case WindowUpdate(id, _, delta) =>
      (if Lookup(e, id) then Put(e, id, e.entries[id].(stream := Grant(e.entries[id].stream, delta))) else e, Fine)
    case Ping(flags, n) => (if flags.ack then e else Push(e, [Pong(n)]), Fine)
    case GoAway(code) => (InitiateShutdown(e.(peerGone := true), code), Fine)
  }

  /** The reader loop's reaction to one decoded frame. */
  function ReaderStep(e: Endpoint, f: Frame): Endpoint {
    var (e1, v) := Dispatch(e, f);
    if v == Fault then InitiateShutdown(e1, ProtocolError) else e1
  }
}
