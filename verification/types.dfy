/** Values shared by every part of the model. */
module Types {
  datatype Option<+T> = None | Some(value: T)

  newtype byte = x: int | 0 <= x < 256

  /** A 128-bit port address in memory order; two are equal when memcmp says so. */
  datatype Gid = Gid(bytes: seq<byte>)

  /** `struct HostKey`: the pair of hosts that share one physical queue pair. */
  datatype HostKey = HostKey(srcGid: Gid, dstGid: Gid)

  const TWO_32: int := 0x1_0000_0000
  const TWO_64: int := 0x1_0000_0000_0000_0000

  /** `(int) n` for a `size_t` n. */
  function AsInt32(n: nat): int {
    var low := n % TWO_32;
    if low < 0x8000_0000 then low else low - TWO_32
  }

  /** `(ptrdiff_t) n` for a 64-bit unsigned n. */
  function AsInt64(n: nat): int {
    var low := n % TWO_64;
    if low < 0x8000_0000_0000_0000 then low else low - TWO_64
  }

  predicate IsInt32(i: int) { -0x8000_0000 <= i < 0x8000_0000 }

  /** `[a, a + n)` and `[b, b + m)` have no address in common. */
  predicate Disjoint(a: nat, n: nat, b: nat, m: nat) {
    a + n <= b || b + m <= a
  }
}
