/** The fixed-width integer types of the Rust code that the model needs. */
module Ints {

  newtype u8 = x: int | 0 <= x < 0x100

  newtype i32 = x: int | -0x8000_0000 <= x < 0x8000_0000
}
