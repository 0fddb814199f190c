/** Java's fixed-width signed integer types, as Dafny newtypes over `int`. */
module JavaTypes {

  /** Java `int`: 32-bit two's complement. */
  newtype int32 = x: int | -0x8000_0000 <= x < 0x8000_0000

  /** Java `long`: 64-bit two's complement. */
  newtype int64 = x: int | -0x8000_0000_0000_0000 <= x < 0x8000_0000_0000_0000

  /** `Integer.MAX_VALUE`. */
  const IntegerMaxValue: int32 := 0x7fff_ffff
}
