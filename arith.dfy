/** Ceiling division and the division facts the renderer's column arithmetic rests on. */
module Arith {

  /** The number of items of `(0..n).step_by(w)`: n / w rounded up. */
  function CeilDiv(n: nat, w: nat): nat
    requires w > 0
  {
    (n + w - 1) / w
  }

  /** Euclidean division is determined by its quotient/remainder equation. */
  lemma DivUnique(n: nat, d: nat, q: nat, r: nat)
    requires d > 0 && r < d && n == q * d + r
    ensures n / d == q && n % d == r
  {
    var q', r' := n / d, n % d;
    assert n == q' * d + r';
    if q < q' {
      MulMono(d, q + 1, q');
    } else if q' < q {
      MulMono(d, q' + 1, q);
    }
  }

  /** `w * CeilDiv(n, w)` is the least multiple of `w` that is at least `n`. */
  lemma CeilDivBounds(n: nat, w: nat)
    requires w > 0
    ensures n <= w * CeilDiv(n, w) < n + w
  {
    var m := n + w - 1;
    assert m == w * (m / w) + m % w;
  }

  /** Below the ceiling exactly the multiples of `w` under `n`. */
  lemma CeilDivLeast(n: nat, w: nat, k: nat)
    requires w > 0
    ensures w * k < n <==> k < CeilDiv(n, w)
  {
    CeilDivBounds(n, w);
    var c := CeilDiv(n, w);
    if k < c {
      MulMono(w, k + 1, c);
    } else {
      MulMono(w, c, k);
    }
  }

  lemma MulMono(w: nat, a: nat, b: nat)
    requires a <= b
    ensures w * a <= w * b
  {
  }

  lemma MulSplit(w: nat, k: nat, c: nat)
    requires k <= c
    ensures w * k + (c - k) * w == w * c
  {
  }

  /** Ceiling division of an exact multiple. */
  lemma CeilDivMultiple(w: nat, k: nat)
    requires w > 0
    ensures CeilDiv(w * k, w) == k
  {
    DivUnique(w * k + w - 1, w, k, w - 1);
  }

  /** A multiple of `w` is covered exactly by its ceiling quotient. */
  lemma CeilDivExact(n: nat, w: nat)
    requires w > 0 && n % w == 0
    ensures w * CeilDiv(n, w) == n
  {
    assert n == w * (n / w);
    CeilDivMultiple(w, n / w);
  }

  /** Taking `k` steps of `w` off the range leaves `k` fewer steps. */
  lemma CeilDivSub(n: nat, w: nat, k: nat)
    requires w > 0 && w * k <= n
    ensures CeilDiv(n - w * k, w) == CeilDiv(n, w) - k
  {
    var m := n - w * k + w - 1;
    var q, r := m / w, m % w;
    assert m == q * w + r;
    DivUnique(n + w - 1, w, q + k, r);
  }

  /** Scaling numerator and denominator by the same positive factor keeps the quotient. */
  lemma DivCancel(a: nat, b: nat, k: nat)
    requires b > 0 && k > 0
    ensures (a * k) / (b * k) == a / b
  {
    var q, r := a / b, a % b;
    assert a == q * b + r;
    assert a * k == q * (b * k) + r * k;
    assert r * k < b * k;
    DivUnique(a * k, b * k, q, r * k);
  }
}
