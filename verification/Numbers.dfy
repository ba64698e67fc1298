/** Powers of two, products, quotients and the sizes of sets. */
module Numbers {

  function Pow2(n: nat): (p: nat)
    ensures p >= 1
  {
    if n == 0 then 1 else 2 * Pow2(n - 1)
  }

  lemma {:induction false} Pow2Sum(a: nat, b: nat)
    ensures Pow2(a + b) == Pow2(a) * Pow2(b)
  {
    if b > 0 {
      Pow2Sum(a, b - 1);
      assert Pow2(a + b) == 2 * Pow2(a + (b - 1));
      assert 2 * (Pow2(a) * Pow2(b - 1)) == Pow2(a) * (2 * Pow2(b - 1));
    }
  }

  lemma {:induction false} StepBelow(k: nat, m: nat, b: nat)
    requires k < m
    ensures k * b + b <= m * b
  {
    assert m * b == k * b + (m - k) * b;
    assert (m - k) * b == (m - k - 1) * b + b;
  }

  /** Quotient and remainder are the only way to write a number as q * b + r with r < b. */
  lemma {:induction false} DivMod(x: nat, q: nat, r: nat, b: nat)
    requires x == q * b + r && r < b
    ensures x / b == q && x % b == r
  {
    var k := x / b;
    assert x == k * b + x % b;
    if k < q {
      StepBelow(k, q, b);
    } else if q < k {
      StepBelow(q, k, b);
    }
  }

  /** Taking the remainder by p * q splits into a quotient part and a remainder by p. */
  lemma {:induction false} ModProduct(x: nat, p: nat, q: nat)
    requires p > 0 && q > 0
    ensures p * q > 0 && x % (p * q) == (x / p) % q * p + x % p
  {
    var y, r := x / p, x % p;
    var z, t := y / q, y % q;
    assert x == y * p + r;
    assert y == z * q + t;
    SplitProduct(x, p, q, y, r, z, t);
  }

  lemma {:induction false} SplitProduct(x: nat, p: nat, q: nat, y: nat, r: nat, z: nat, t: nat)
    requires x == y * p + r && r < p && y == z * q + t && t < q
    ensures p * q > 0 && x % (p * q) == t * p + r
  {
    StepBelow(0, p, q);
    StepBelow(t, q, p);
    Distribute(z, q, t, p);
    assert q * p == p * q;
    DivMod(x, z, t * p + r, p * q);
  }

  lemma {:induction false} Distribute(z: nat, q: nat, t: nat, p: nat)
    ensures (z * q + t) * p == z * (p * q) + t * p
  {
    calc {
      (z * q + t) * p;
      z * q * p + t * p;
      z * (q * p) + t * p;
      { assert q * p == p * q; }
      z * (p * q) + t * p;
    }
  }

  lemma {:induction false} SubsetSize<T>(a: set<T>, b: set<T>)
    requires a <= b
    ensures |a| <= |b|
  {
    assert b == a + (b - a);
    assert |b| == |a| + |b - a|;
  }
}
