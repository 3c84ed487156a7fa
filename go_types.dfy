/**
 * Go's fixed-width integers and byte slices, as the fixture generators use them.
 * Integers in Dafny are unbounded: every width the Go code relies on is a subset
 * type here, and the one place where the Go code can wrap around (adding to a
 * uint64) is written out with WrapUint64.
 */
module GoTypes {

  newtype byte = b: int | 0 <= b < 256

  /** A Go []byte, by value. */
  type Bytes = seq<byte>

  const TWO_TO_THE_32: int := 0x1_0000_0000
  const TWO_TO_THE_63: int := 0x8000_0000_0000_0000
  const TWO_TO_THE_64: int := 0x1_0000_0000_0000_0000

  type uint32 = x: int | 0 <= x < TWO_TO_THE_32
  type uint64 = x: int | 0 <= x < TWO_TO_THE_64

  /** Go's `int` on a 64-bit platform. */
  type int64 = x: int | -TWO_TO_THE_63 <= x < TWO_TO_THE_63

  /** The value of `uint64(x)` after unsigned 64-bit wrap-around. */
  function WrapUint64(x: int): (r: uint64)
    ensures 0 <= x < TWO_TO_THE_64 ==> r == x
  {
    x % TWO_TO_THE_64
  }

  /** How many times `for i := 0; i < n; i++` runs: n when positive, else 0. */
  function Iterations(n: int): (r: nat)
    ensures n >= 0 ==> r == n
    ensures n < 0 ==> r == 0
  {
    if n < 0 then 0 else n
  }
}
