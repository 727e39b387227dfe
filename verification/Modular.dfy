/** Reduction modulo a ring's size. */
module Modular {

  lemma ModInside(pos: nat, k: nat, n: nat)
    requires n > 0 && pos % n + k < n
    ensures (pos + k) % n == pos % n + k
  {
    ModUnique(pos + k, pos / n, pos % n + k, n);
  }

  lemma ModUnique(x: int, q: int, r: int, n: int)
    requires n > 0 && 0 <= r < n && x == q * n + r
    ensures x % n == r
  {
    if x / n > q {
      assert (x / n - q) * n >= n by { MulAtLeast(x / n - q, n); }
    } else if x / n < q {
      assert (q - x / n) * n >= n by { MulAtLeast(q - x / n, n); }
    }
    assert x == x / n * n + x % n;
  }

  lemma MulAtLeast(a: int, n: int)
    requires a >= 1 && n > 0
    ensures a * n >= n
  {
  }

  lemma ModWrap(pos: nat, k: nat, n: nat)
    requires n > 0 && pos % n + k == n
    ensures (pos + k) % n == 0
  {
    ModUnique(pos + k, pos / n + 1, 0, n);
  }

  // Positions less than a lap apart never share an offset.
  lemma LapDistinct(p: nat, q: nat, n: nat)
    requires n > 0 && p < q < p + n
    ensures p % n != q % n
  {
    var d := q - p;
    if p % n + d < n {
      ModInside(p, d, n);
    } else {
      ModUnique(q, p / n + 1, p % n + d - n, n);
    }
  }
}
