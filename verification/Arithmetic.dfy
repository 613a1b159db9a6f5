// Facts about products and quotients that the solver does not find alone.

module Arithmetic {

  lemma {:induction false} AtLeast(p: nat, d: nat)
    requires d > 0
    ensures p * d >= p
  {
    if d > 1 {
      AtLeast(p, d - 1);
      assert p * d == p * (d - 1) + p;
    }
  }

  /** A multiple of `p` strictly between `-p` and `p` is zero. */
  lemma {:induction false} SmallProduct(p: int, d: int)
    requires p >= 0
    ensures if d > 0 then p * d >= p else if d < 0 then p * d <= -p else p * d == 0
  {
    if d > 0 {
      AtLeast(p, d);
    } else if d < 0 {
      AtLeast(p, -d);
      assert p * d == -(p * -d);
    }
  }

  /** Quotient and remainder are determined by their equation. */
  lemma {:induction false} Division(n: int, d: int, q: int, r: int)
    requires n == q * d + r && 0 <= r < d
    ensures n / d == q && n % d == r
  {
    var e := n / d - q;
    assert d * e == r - n % d by {
      assert n == d * (n / d) + n % d;
      assert d * e == d * (n / d) - d * q;
    }
    SmallProduct(d, e);
  }

  /** The number of values of a tensor shape. */
  function Product(dims: seq<int>): int {
    if dims == [] then 1 else Product(dims[..|dims| - 1]) * dims[|dims| - 1]
  }

  lemma {:induction false} ProductStep(dims: seq<int>, i: nat)
    requires i < |dims|
    ensures Product(dims[..i + 1]) == Product(dims[..i]) * dims[i]
  {
    assert dims[..i + 1][..i] == dims[..i];
  }

  /** One dimension is its own product, and dimensions side by side multiply. */
  lemma {:induction false} ProductOfParts(a: seq<int>, b: seq<int>)
    ensures Product(a + b) == Product(a) * Product(b)
    ensures |a| == 1 ==> Product(a) == a[0]
  {
    if |a| == 1 {
      assert a[..0] == [];
    }
    if b == [] {
      assert a + b == a;
    } else {
      var init, last := b[..|b| - 1], b[|b| - 1];
      ProductOfParts(a, init);
      assert (a + b)[..|a + b| - 1] == a + init;
      Associate(Product(a), Product(init), last);
    }
  }

  lemma Associate(x: int, y: int, z: int)
    ensures x * y * z == x * (y * z)
  {
  }

  lemma {:induction false} ProductZero(dims: seq<int>)
    requires 0 in dims
    ensures Product(dims) == 0
  {
    var init, last := dims[..|dims| - 1], dims[|dims| - 1];
    assert dims == init + [last];
    if last != 0 {
      ProductZero(init);
    }
  }

  /** Dimensions of at least one only make the product grow. */
  lemma {:induction false} ProductGrows(dims: seq<int>, i: nat)
    requires i <= |dims| && forall d :: d in dims ==> d >= 1
    ensures 1 <= Product(dims[..i]) <= Product(dims)
    decreases |dims| - i, i
  {
    if i < |dims| {
      ProductGrows(dims, i + 1);
      ProductStep(dims, i);
      assert dims[i] in dims;
      assert forall d :: d in dims[..i] ==> d in dims;
      ProductPositive(dims[..i]);
      AtLeast(Product(dims[..i]), dims[i]);
    } else {
      assert dims[..i] == dims;
      ProductPositive(dims);
    }
  }

  lemma {:induction false} ProductPositive(dims: seq<int>)
    requires forall d :: d in dims ==> d >= 1
    ensures Product(dims) >= 1
  {
    if dims != [] {
      var init := dims[..|dims| - 1];
      assert dims[|dims| - 1] in dims && forall d :: d in init ==> d in dims;
      ProductPositive(init);
      AtLeast(Product(init), dims[|dims| - 1]);
    }
  }

  /** `a > n / d` asks whether `a * d` exceeds `n`. */
  lemma {:induction false} ExceedsQuotient(a: int, n: int, d: int)
    requires d >= 1
    ensures a > n / d <==> a * d > n
  {
    var e := a - n / d;
    assert a * d - n == d * e - n % d;
    SmallProduct(d, e);
  }
}
