/** Eight-bit numbers, and the numbering of connectors towards the platform. */
module Numbering {

  type Byte = n: int | 0 <= n < 256

  /** EchCONIDtoRemoteID: a station with one connector calls it 0, one with several counts from 1. */
  function ToRemote(con: Byte, total: Byte): Byte { if total > 1 then (con + 1) % 256 else 0 }

  /** EchRemoteIDtoCONID. */
  function FromRemote(id: Byte): Byte { if id == 0 then 0 else id - 1 }
}
