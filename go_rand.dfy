/**
 * The parts of Go's math/rand that the fixture generators draw from. The
 * process-wide source is not modelled: each draw is an arbitrary value, and a
 * caller may rely on nothing but the range stated in the contract.
 */
module GoRand {
  import opened GoTypes

  /** rand.Read: overwrites every byte of `buf` with an arbitrary value. */
  method Read(buf: array<byte>)
    modifies buf
  {
    for i := 0 to buf.Length {
      buf[i] := *;
    }
  }

  /** rand.Uint32: an arbitrary 32-bit value. */
  method Uint32() returns (r: uint32)
  {
    r := *;
  }

  /** rand.Uint64: an arbitrary 64-bit value. */
  method Uint64() returns (r: uint64)
  {
    r := *;
  }

  /** rand.Intn: an arbitrary value in [0, n); Go panics when n <= 0. */
  method Intn(n: int) returns (r: int)
    requires 0 < n
    ensures 0 <= r < n
  {
    r :| 0 <= r < n;
  }
}
