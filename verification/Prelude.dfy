/** Small shared vocabulary. */
module Prelude {

  datatype Option<+T> = None | Some(value: T)

  /** The machine's states and events are 32-bit words, its transition keys 64-bit words. */
  type uint32 = x: int | 0 <= x < 0x1_0000_0000
  type uint64 = x: int | 0 <= x < 0x1_0000_0000_0000_0000
}
