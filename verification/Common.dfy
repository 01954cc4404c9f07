/** Types that several components share. */
module Common {

  datatype Option<T> = None | Some(value: T)

  /** The machine's signed 64-bit integers. */
  type Int64 = x: int | -0x8000_0000_0000_0000 <= x < 0x8000_0000_0000_0000
}
