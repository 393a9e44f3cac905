/** In-memory frames: `src/protocol/frame.rs` and the error codes of `src/error.rs`. */
module Frames {
  import opened Base

  datatype Flags = Flags(syn: bool, ack: bool, fin: bool, rst: bool)

  const NoFlags := Flags(false, false, false, false)
  const SynFlag := Flags(true, false, false, false)
  const AckFlag := Flags(false, true, false, false)
  const FinFlag := Flags(false, false, true, false)
  const RstFlag := Flags(false, false, false, true)

  datatype ErrorCode =
    | Normal
    | ProtocolError
    | InternalError
    | FlowControlError
    | StreamLimit
    | InvalidVersion
    | Timeout
    | Unknown(code: u32)

  function CodeToWire(c: ErrorCode): u32 {
    match c
    case Normal => 0
    case ProtocolError => 1
    case InternalError => 2
    case FlowControlError => 3
    case StreamLimit => 4
    case InvalidVersion => 5
    case Timeout => 6
    case Unknown(v) => v
  }

  function CodeFromWire(v: u32): ErrorCode {
    match v
    case 0 => Normal
    case 1 => ProtocolError
    case 2 => InternalError
    case 3 => FlowControlError
    case 4 => StreamLimit
    case 5 => InvalidVersion
    case 6 => Timeout
    case _ => Unknown(v)
  }

  datatype Frame =
    | Data(id: u32, flags: Flags, payload: seq<u8>)
    | WindowUpdate(id: u32, flags: Flags, delta: u32)
    | Ping(flags: Flags, opaqueValue: u32)
    | GoAway(code: ErrorCode)

  function PayloadOf(f: Frame): seq<u8> {
    if f.Data? then f.payload else []
  }

  function Syn(id: u32): Frame { Data(id, SynFlag, []) }
  function Ack(id: u32): Frame { Data(id, AckFlag, []) }
  function Fin(id: u32): Frame { Data(id, FinFlag, []) }
  function Rst(id: u32): Frame { Data(id, RstFlag, []) }
  function Credit(id: u32, delta: u32): Frame { WindowUpdate(id, NoFlags, delta) }
  function PingRequest(n: u32): Frame { Ping(NoFlags, n) }
  function Pong(n: u32): Frame { Ping(AckFlag, n) }

  /** Codes the library itself puts into a GoAway. */
  predicate LocalCode(c: ErrorCode) {
    c in {Normal, ProtocolError, InternalError, Timeout}
  }

  /** Frames the library itself builds: a lone lifecycle flag, a non-empty payload, a credit, a ping or a GoAway. */
  predicate Canonical(f: Frame) {
    match f
    case Data(id, flags, payload) =>
      id != 0 && (if payload == [] then flags in {SynFlag, AckFlag, FinFlag, RstFlag} else flags == NoFlags)
    case WindowUpdate(id, flags, delta) => id != 0 && flags == NoFlags && delta > 0
    case Ping(flags, _) => flags in {NoFlags, AckFlag}
    case GoAway(code) => LocalCode(code)
  }
}
