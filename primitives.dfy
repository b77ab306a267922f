/** Kotlin's `Int` (a 32-bit two's-complement integer) and its nullable types `T?`. */
module Primitives {

  /** A value of type `T?`: `None` stands for `null`. */
  datatype Option<+T> = None | Some(value: T)

  const INT_MIN: int := -0x8000_0000
  const INT_MAX: int := 0x7FFF_FFFF

  /** Kotlin's `Int`. */
  newtype Int32 = x: int | INT_MIN <= x <= INT_MAX
}
