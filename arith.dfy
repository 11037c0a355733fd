/** Facts about integer multiplication and division that the solver does not find unaided. */
module Arith {

  lemma Distrib(a: int, b: int, w: int)
    ensures (a + b) * w == a * w + b * w
  {
  }

  lemma MulPos(d: int, w: int)
    requires d >= 1 && w > 0
    ensures d * w >= w
  {
  }

  lemma MulMono(a: int, b: int, w: int)
    requires w > 0 && a < b
    ensures a * w + w <= b * w
  {
    Distrib(a, b - a, w);
    MulPos(b - a, w);
  }

  /** Quotient and remainder are the only ones of their kind. */
  lemma DivUnique(m: int, w: int, q: int, r: int)
    requires w > 0 && 0 <= r < w && m == q * w + r
    ensures m / w == q && m % w == r
  {
    var q', r' := m / w, m % w;
    assert m == q' * w + r';
    if q' > q {
      MulMono(q, q', w);
    } else if q' < q {
      MulMono(q', q, w);
    }
  }

  /** Taking `w` away from `n` does not change its remainder modulo `w`. */
  lemma ModStep(n: nat, w: nat)
    requires 1 <= w <= n
    ensures (n - w) % w == n % w
  {
    var q, r := n / w, n % w;
    assert n == q * w + r;
    Distrib(q - 1, 1, w);
    DivUnique(n - w, w, q - 1, r);
  }

  /** A multiple of `2 * c` has an even length whose half is a multiple of `c`. */
  lemma HalfOfMultiple(n: nat, c: int)
    requires c >= 1 && n % (c * 2) == 0
    ensures n % 2 == 0 && (n / 2) % c == 0
  {
    var q := n / (c * 2);
    assert n == q * (c * 2);
    assert n == (q * c) * 2;
    DivUnique(n, 2, q * c, 0);
    DivUnique(q * c, c, q, 0);
  }

  /** Twice a multiple of `c` is a multiple of `c * 2`. */
  lemma DoubleMultiple(m: nat, c: int)
    requires c >= 1 && m % c == 0
    ensures (2 * m) % (c * 2) == 0
  {
    var q := m / c;
    assert m == q * c;
    assert 2 * m == q * (c * 2);
    DivUnique(2 * m, c * 2, q, 0);
  }
}
