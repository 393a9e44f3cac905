/** Roles and stream identifiers: the sequential part of `src/util/id.rs`. */
module Ids {
  import opened Base

  datatype Role = Client | Server {
    function FirstId(): u32 {
      if this == Client then 1 else 2
    }

    predicate Owns(id: u32) {
      if this == Client then id % 2 != 0 else id != 0 && id % 2 == 0
    }

    function Peer(): Role {
      if this == Client then Server else Client
    }
  }

  /** The value stored by one successful `allocate`; `None` once adding two would leave 32 bits. */
  function Advance(next: u32): Option<u32> {
    if next + 2 > U32_MAX then None else Some(next + 2)
  }

  /** The role whose allocator can produce a non-zero id. */
  function Opener(id: u32): Role {
    if id % 2 != 0 then Client else Server
  }
}
