/** Machine-level scalar types shared by every component. */
module Types {

  /** An 8-bit byte (Rust `u8`): arithmetic on it wraps modulo 256, as
      `wrapping_add`/`wrapping_sub` and the shifts do. */
  type u8 = bv8

  /** A 16-bit word (Rust `u16`) as the decoder sees it: an opcode and the
      operand fields it extracts with shifts and masks. */
  type u16 = bv16

  /** A `u16` used as an address (PC, I, a stack slot). The interpreter
      only adds to and subtracts from these, and an overflowing `u16` step
      panics, so they are plain integers in range and every such step
      carries a precondition. */
  type Addr = a: int | 0 <= a < 0x1_0000

  /** A register index. The interpreter holds these in a `u8` and indexes
      the 16-entry register array with them, which panics from 16 up. */
  type Reg = r: int | 0 <= r < 16

  datatype Option<T> = None | Some(value: T)
}
