/** Go values that need a model: nil and the machine integers. */
module GoTypes {
  // A nil interface, a nil pointer or a nil slice is None.
  datatype Option<+T> = None | Some(value: T)

  type Int32 = x: int | -0x8000_0000 <= x < 0x8000_0000
  type Int64 = x: int | -0x8000_0000_0000_0000 <= x < 0x8000_0000_0000_0000

  // The int64 that an exact result is stored as.
  function Wrap64(x: int): Int64 {
    (x + 0x8000_0000_0000_0000) % 0x1_0000_0000_0000_0000 - 0x8000_0000_0000_0000
  }

  // Nanoseconds divided by 1e9; Go's division truncates toward zero.
  function Seconds(ns: Int64): Int64 {
    var n: int := ns;
    if n >= 0 then n / 1_000_000_000 else -(-n / 1_000_000_000)
  }
}
