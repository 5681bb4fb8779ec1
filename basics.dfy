/** Small value types shared by the relay and the telemetry model. */
module Basics {

  /** An optional value; `None` also stands for a C# `null` reference. */
  datatype Option<T> = None | Some(value: T)

  /** An octet of a datagram. */
  type byte = x: int | 0 <= x < 0x100

  /** A C# `ushort`: a DNS message ID, a UDP port. */
  type uint16 = x: int | 0 <= x < 0x1_0000

  /** A C# `long`. */
  type int64 = x: int | -0x8000_0000_0000_0000 <= x < 0x8000_0000_0000_0000
}
