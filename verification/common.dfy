/** Result codes and the buffer contract shared by every driver. */
module Common {

  datatype Option<+T> = None | Some(value: T)

  datatype Errno = Ok | EINVAL | ENOTSUP | EBUSY | EACCES | EFAULT | EMSGSIZE | EIO

  const U16_MAX: nat := 0xFFFF
  const U32_MAX: nat := 0xFFFF_FFFF

  /** A buffer as the application passes it: an address (0 is NULL) and a length in bytes. */
  datatype Span = Span(addr: nat, len: nat)

  /** The memory cell `p` belongs to `s`. */
  predicate Covers(s: Span, p: nat) {
    s.addr <= p < s.addr + s.len
  }

  ghost predicate Disjoint(a: Span, b: Span) {
    forall p :: !(Covers(a, p) && Covers(b, p))
  }

  /** The screening done before any UART DMA transfer. */
  function BufferCheck(s: Span): (r: Errno)
    ensures r == Ok <==> s.addr != 0 && 1 <= s.len <= U16_MAX
    ensures r == EMSGSIZE <==> s.addr != 0 && s.len > U16_MAX
  {
    if s.addr == 0 || s.len == 0 then EINVAL
    else if s.len > U16_MAX then EMSGSIZE
    else Ok
  }

  /** The driver's overlap test: it only ever subtracts the smaller address from the larger one. */
  predicate Overlaps(offered: Span, current: Span) {
    if offered.addr <= current.addr
    then current.addr - offered.addr < offered.len
    else offered.addr - current.addr < current.len
  }

  /** The subtraction-only test is exact: it answers whether the two spans share a memory cell. */
  lemma OverlapsIsExact(offered: Span, current: Span)
    requires offered.len > 0 && current.len > 0
    ensures Overlaps(offered, current) <==> !Disjoint(offered, current)
  {
    if Overlaps(offered, current) {
      var p := if offered.addr <= current.addr then current.addr else offered.addr;
      assert Covers(offered, p) && Covers(current, p);
    }
  }
}

/** Remainders of multiples. */
module Arithmetic {

  lemma MultipleBelow(d: int, total: nat)
    requires 0 - total < d * total < total
    ensures d == 0
  {
  }

  lemma ModOf(q: nat, r: nat, total: nat)
    requires r < total
    ensures (q * total + r) % total == r
  {
    var x := q * total + r;
    var d: int := x / total - q;
    assert d * total == r - x % total by {
      assert x == (x / total) * total + x % total;
    }
    assert 0 - total < d * total < total;
    MultipleBelow(d, total);
  }

  lemma ModStep(moved: nat, total: nat)
    requires total > 0
    ensures (moved + 1) % total == if moved % total == total - 1 then 0 else moved % total + 1
  {
    var q, r := moved / total, moved % total;
    assert moved + 1 == q * total + (r + 1);
    if r == total - 1 {
      assert moved + 1 == (q + 1) * total;
      ModOf(q + 1, 0, total);
    } else {
      ModOf(q, r + 1, total);
    }
  }

  lemma ScaleSum(q: nat, n: nat, r: nat, w: nat)
    ensures (q * n + r) * w == q * (n * w) + r * w
  {
  }

  lemma ScaleBelow(r: nat, n: nat, w: nat)
    requires r < n && w > 0
    ensures r * w < n * w
  {
  }

  lemma ModScale(m: nat, n: nat, w: nat)
    requires n > 0 && w > 0
    ensures n * w > 0 && (m * w) % (n * w) == (m % n) * w < n * w
  {
    var q, r := m / n, m % n;
    assert m == q * n + r;
    ScaleSum(q, n, r, w);
    ScaleBelow(r, n, w);
    ModOf(q, r * w, n * w);
  }

  lemma {:induction false} ModMinus(n: nat, m: nat)
    requires n >= m > 0
    ensures n % m == (n - m) % m
  {
    assert n == (n / m) * m + n % m;
    assert n - m == (n / m - 1) * m + n % m;
    ModOf(n / m - 1, n % m, m);
  }
}
