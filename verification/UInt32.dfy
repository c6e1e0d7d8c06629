/** Unsigned 32-bit integers and their wrapping addition. */
module UInt32 {
  const UINT32_SIZE := 0x1_0000_0000

  type uint32 = n: nat | n < UINT32_SIZE

  /** Addition wraps around; both operands are below the size of the type. */
  function Add32(a: uint32, b: uint32): uint32 {
    if a + b < UINT32_SIZE then a + b else a + b - UINT32_SIZE
  }

  lemma {:induction false} ProductGap(n: nat, a: int, b: int)
    requires a < b
    ensures n * b >= n * a + n
  {
    assert n * b == n * a + n * (b - a);
    assert n * (b - a) == n + n * (b - a - 1);
  }

  lemma {:induction false} RemainderUnique(x: nat, n: nat, q: nat, r: nat)
    requires r < n && x == n * q + r
    ensures x % n == r
  {
    assert x == n * (x / n) + x % n;
    if q < x / n { ProductGap(n, q, x / n); }
    if x / n < q { ProductGap(n, x / n, q); }
  }

  lemma {:induction false} WrapOnce(x: nat, n: nat)
    requires x < 2 * n
    ensures x % n == if x < n then x else x - n
  {
    if x < n { RemainderUnique(x, n, 0, x); } else { RemainderUnique(x, n, 1, x - n); }
  }
}
