/** Machine words, and the few facts about remainders by a variable modulus that the models need. */
module Arith {
  type Byte = b: nat | b < 256

  const U32: nat := 0x1_0000_0000
  const U64: nat := 0x1_0000_0000_0000_0000

  function Max(a: int, b: int): int { if a < b then b else a }

  lemma MulAtLeast(k: int, n: int)
    requires k >= 1 && n > 0
    ensures k * n >= n
  {
  }

  lemma MulStep(k: int, n: int)
    ensures k * n == (k - 1) * n + n
  {
  }

  /** Division with remainder has one answer. */
  lemma DivModUnique(x: int, q: int, n: int, r: int)
    requires n > 0 && 0 <= r < n && x == q * n + r
    ensures x / n == q && x % n == r
  {
    var p, s := x / n, x % n;
    assert x == p * n + s;
    if q > p {
      MulAtLeast(q - p, n);
    } else if p > q {
      MulAtLeast(p - q, n);
    }
  }

  lemma ModShift(a: nat, b: nat, n: nat)
    requires n > 0
    ensures (a % n + b) % n == (a + b) % n
  {
    var q, s := a / n, (a % n + b) / n;
    var r := (a % n + b) % n;
    assert a == q * n + a % n;
    assert a % n + b == s * n + r;
    assert a + b == (q + s) * n + r by {
      assert (q + s) * n == q * n + s * n;
    }
    DivModUnique(a + b, q + s, n, r);
  }

  /** A sum of two residues wraps at most once. */
  lemma ModOnce(c: nat, d: nat, n: nat)
    requires c < n && d <= n
    ensures (c + d) % n == if c + d < n then c + d else c + d - n
  {
    if c + d < n {
      DivModUnique(c + d, 0, n, c + d);
    } else {
      DivModUnique(c + d, 1, n, c + d - n);
    }
  }
}
