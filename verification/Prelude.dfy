/** Small vocabulary shared by every module of the project. */
module Prelude {

  datatype Option<+T> = None | Some(value: T)

  /** An IPv4 address as the 32-bit number it is on the wire. */
  type Ipv4 = i: int | 0 <= i < 0x1_0000_0000 witness 0
}
