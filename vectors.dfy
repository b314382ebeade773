/**
 * Finite real vectors: sums, dot products, dropping one entry, dividing by a
 * scalar, and the algebra that the similarity and weighting proofs rest on
 * (bilinearity facts and the Cauchy-Schwarz inequality with its equality case).
 */
module Vectors {

  /** The sum of the entries of s. */
  function Sum(s: seq<real>): real
  {
    if |s| == 0 then 0.0 else s[0] + Sum(s[1..])
  }

  /** The dot product of two vectors of the same length. */
  function Dot(a: seq<real>, b: seq<real>): real
    requires |a| == |b|
  {
    if |a| == 0 then 0.0 else a[0] * b[0] + Dot(a[1..], b[1..])
  }

  /** s without its entry at position d; the entries after d move down by one. */
  function Drop<T>(s: seq<T>, d: nat): (r: seq<T>)
    requires d < |s|
    ensures |r| == |s| - 1
  {
    s[..d] + s[d + 1..]
  }

  /** Every entry of s divided by t. */
  function DivideBy(s: seq<real>, t: real): (r: seq<real>)
    requires t != 0.0
    ensures |r| == |s|
  {
    seq(|s|, k requires 0 <= k < |s| => s[k] / t)
  }

  /** All entries of v are zero. */
  predicate IsZero(v: seq<real>)
  {
    forall k :: 0 <= k < |v| ==> v[k] == 0.0
  }

  /** n is the Euclidean norm of v: the non-negative square root of v . v. */
  predicate IsNorm(v: seq<real>, n: real)
  {
    n >= 0.0 && n * n == Dot(v, v)
  }

  /** nb * a == na * b entry by entry: for non-zero norms na and nb, a and b point the same way. */
  predicate Proportional(a: seq<real>, b: seq<real>, na: real, nb: real)
  {
    |a| == |b| && forall k :: 0 <= k < |a| ==> nb * a[k] == na * b[k]
  }

  /** The combination alpha * x + beta * y of two numbers. */
  function Mix(alpha: real, x: real, beta: real, y: real): real
  {
    alpha * x + beta * y
  }

  /** alpha * a + beta * b, entry by entry. */
  function Combine(alpha: real, a: seq<real>, beta: real, b: seq<real>): (r: seq<real>)
    requires |a| == |b|
    ensures |r| == |a|
  {
    seq(|a|, k requires 0 <= k < |a| => Mix(alpha, a[k], beta, b[k]))
  }

  /** Dropping an entry takes exactly that entry out of the sum. */
  lemma {:induction false} SumDrop(s: seq<real>, d: nat)
    requires d < |s|
    ensures Sum(Drop(s, d)) == Sum(s) - s[d]
  {
    if d == 0 {
      assert Drop(s, d) == s[1..];
    } else {
      assert Drop(s, d) == [s[0]] + Drop(s[1..], d - 1);
      assert Drop(s, d)[1..] == Drop(s[1..], d - 1);
      SumDrop(s[1..], d - 1);
    }
  }

  /** Past the head, dropping entry d of s drops entry d - 1 of its tail. */
  lemma DropTail<T>(s: seq<T>, d: nat)
    requires 0 < d < |s|
    ensures Drop(s, d)[0] == s[0] && Drop(s, d)[1..] == Drop(s[1..], d - 1)
    ensures s[1..][d - 1] == s[d]
  {
  }

  /** Dropping the same position from both vectors takes exactly that product out of the dot product. */
  lemma {:induction false} DotDrop(a: seq<real>, b: seq<real>, d: nat)
    requires |a| == |b| && d < |a|
    ensures Dot(Drop(a, d), Drop(b, d)) == Dot(a, b) - a[d] * b[d]
  {
    if d == 0 {
      assert Drop(a, d) == a[1..] && Drop(b, d) == b[1..];
    } else {
      DropTail(a, d);
      DropTail(b, d);
      DotDrop(a[1..], b[1..], d - 1);
    }
  }

  lemma {:induction false} SumDivideBy(s: seq<real>, t: real)
    requires t != 0.0
    ensures Sum(DivideBy(s, t)) == Sum(s) / t
  {
    if |s| > 0 {
      assert DivideBy(s, t)[1..] == DivideBy(s[1..], t);
      SumDivideBy(s[1..], t);
    }
  }

  lemma {:induction false} DotDivideBy(a: seq<real>, b: seq<real>, t: real)
    requires |a| == |b| && t != 0.0
    ensures Dot(a, DivideBy(b, t)) == Dot(a, b) / t
  {
    if |a| > 0 {
      assert DivideBy(b, t)[1..] == DivideBy(b[1..], t);
      DotDivideBy(a[1..], b[1..], t);
      DivideSum(a[0], b[0], Dot(a[1..], b[1..]), t);
    }
  }

  /**
   * The average of a weighted by s with entry d left out, written over the
   * whole vectors: the weighted sum less entry d's term, over the weights'
   * total less entry d's weight.
   */
  function AverageWithout(a: seq<real>, s: seq<real>, d: nat): real
    requires |a| == |s| && d < |s| && Sum(s) - s[d] != 0.0
  {
    (Dot(a, s) - a[d] * s[d]) / (Sum(s) - s[d])
  }

  /** Normalising the weights without entry d and taking the dot product with a without entry d gives that average. */
  lemma DropWeighted(a: seq<real>, s: seq<real>, d: nat)
    requires |a| == |s| && d < |s| && Sum(s) - s[d] != 0.0
    ensures Sum(Drop(s, d)) == Sum(s) - s[d]
    ensures Dot(Drop(a, d), DivideBy(Drop(s, d), Sum(Drop(s, d)))) == AverageWithout(a, s, d)
  {
    SumDrop(s, d);
    DotDrop(a, s, d);
    DotDivideBy(Drop(a, d), Drop(s, d), Sum(Drop(s, d)));
  }

  /** A non-zero quantity divided by itself is 1. */
  lemma SelfQuotient(x: real, y: real)
    requires x == y && y != 0.0
    ensures x / y == 1.0
  {
  }

  /** x * (y / t) + z / t == (x * y + z) / t */
  lemma DivideSum(x: real, y: real, z: real, t: real)
    requires t != 0.0
    ensures x * (y / t) + z / t == (x * y + z) / t
  {
    assert x * (y / t) == (x * y) / t;
  }

  lemma {:induction false} DotSymmetric(a: seq<real>, b: seq<real>)
    requires |a| == |b|
    ensures Dot(a, b) == Dot(b, a)
  {
    if |a| > 0 {
      DotSymmetric(a[1..], b[1..]);
    }
  }

  /** The entries of the zero vector add up to zero. */
  lemma {:induction false} SumZero(s: seq<real>)
    requires IsZero(s)
    ensures Sum(s) == 0.0
  {
    if |s| > 0 {
      assert IsZero(s[1..]) by {
        forall k | 0 <= k < |s| - 1 ensures s[1..][k] == 0.0 {
          assert s[1..][k] == s[k + 1];
        }
      }
      SumZero(s[1..]);
    }
  }

  /** A product with a positive factor vanishes only when the other factor does. */
  lemma ZeroProduct(p: real, y: real)
    requires p > 0.0 && p * y == 0.0
    ensures y == 0.0
  {
    if y > 0.0 {
      ProductPositive(p, y, p * y);
    } else if y < 0.0 {
      ProductNegative(p, y, p * y);
    }
  }

  /** The product ab = a * b of two reals of the same strict sign is positive. */
  lemma ProductPositive(a: real, b: real, ab: real)
    requires ab == a * b
    requires (a > 0.0 && b > 0.0) || (a < 0.0 && b < 0.0)
    ensures ab > 0.0
  {
    if a < 0.0 {
      assert a * b == (-a) * (-b);
    }
  }

  /** The product ab = a * b of two reals of the same weak sign is non-negative. */
  lemma ProductNonnegative(a: real, b: real, ab: real)
    requires ab == a * b
    requires (a >= 0.0 && b >= 0.0) || (a <= 0.0 && b <= 0.0)
    ensures ab >= 0.0
  {
    if a < 0.0 {
      assert a * b == (-a) * (-b);
    }
  }

  /** The product ab = a * b of a positive and a negative real is negative. */
  lemma ProductNegative(a: real, b: real, ab: real)
    requires ab == a * b
    requires a > 0.0 && b < 0.0
    ensures ab < 0.0
  {
    assert a * b == -(a * (-b));
  }

  lemma {:induction false} DotSelfNonnegative(v: seq<real>)
    ensures Dot(v, v) >= 0.0
  {
    if |v| > 0 {
      DotSelfNonnegative(v[1..]);
      ProductNonnegative(v[0], v[0], v[0] * v[0]);
    }
  }

  /** One non-zero entry makes v . v positive. */
  lemma {:induction false} DotSelfPositive(v: seq<real>, k: nat)
    requires k < |v| && v[k] != 0.0
    ensures Dot(v, v) > 0.0
  {
    DotSelfNonnegative(v[1..]);
    ProductNonnegative(v[0], v[0], v[0] * v[0]);
    if k == 0 {
      ProductPositive(v[0], v[0], v[0] * v[0]);
    } else {
      DotSelfPositive(v[1..], k - 1);
    }
  }

  /** v . v is never negative, and it is zero exactly when v is the zero vector. */
  lemma DotSelf(v: seq<real>)
    ensures Dot(v, v) >= 0.0
    ensures Dot(v, v) == 0.0 <==> IsZero(v)
  {
    DotSelfNonnegative(v);
    if IsZero(v) {
      DotZero(v, v);
    } else {
      var k :| 0 <= k < |v| && v[k] != 0.0;
      DotSelfPositive(v, k);
    }
  }

  /** Anything dotted with the zero vector is zero. */
  lemma {:induction false} DotZero(a: seq<real>, b: seq<real>)
    requires |a| == |b| && IsZero(a)
    ensures Dot(a, b) == 0.0
  {
    if |a| > 0 {
      assert IsZero(a[1..]) by {
        forall k | 0 <= k < |a| - 1 ensures a[1..][k] == 0.0 {
          assert a[1..][k] == a[k + 1];
        }
      }
      DotZero(a[1..], b[1..]);
    }
  }

  /** A vector's norm is zero exactly when the vector is zero. */
  lemma NormZero(v: seq<real>, n: real)
    requires IsNorm(v, n)
    ensures n == 0.0 <==> IsZero(v)
  {
    DotSelf(v);
    if n != 0.0 {
      ProductPositive(n, n, n * n);
    }
  }

  /** The quadratic form alpha^2 aa + 2 alpha beta ab + beta^2 bb. */
  function Quadratic(alpha: real, beta: real, aa: real, ab: real, bb: real): real
  {
    alpha * alpha * aa + 2.0 * alpha * beta * ab + beta * beta * bb
  }

  /** Expansion of the squared length of alpha * a + beta * b. */
  lemma DotCombineSelf(alpha: real, a: seq<real>, beta: real, b: seq<real>)
    requires |a| == |b|
    ensures var c := Combine(alpha, a, beta, b);
      Dot(c, c) == Quadratic(alpha, beta, Dot(a, a), Dot(a, b), Dot(b, b))
  {
    var c := Combine(alpha, a, beta, b);
    DotCombineLeft(alpha, a, beta, b, c);
    DotCombineLeft(alpha, a, beta, b, a);
    DotCombineLeft(alpha, a, beta, b, b);
    DotSymmetric(a, c);
    DotSymmetric(b, c);
    DotSymmetric(a, b);
    ExpandSquare(alpha, beta, Dot(a, a), Dot(a, b), Dot(b, a), Dot(b, b),
                 Dot(c, a), Dot(a, c), Dot(c, b), Dot(b, c), Dot(c, c));
  }

  /** The dot product is linear in its first argument. */
  lemma {:induction false} DotCombineLeft(alpha: real, a: seq<real>, beta: real, b: seq<real>, v: seq<real>)
    requires |a| == |b| == |v|
    ensures Dot(Combine(alpha, a, beta, b), v) == Mix(alpha, Dot(a, v), beta, Dot(b, v))
  {
    if |a| > 0 {
      var c := Combine(alpha, a, beta, b);
      CombineTail(alpha, a, beta, b);
      DotCombineLeft(alpha, a[1..], beta, b[1..], v[1..]);
      LinearStep(alpha, beta, a[0], b[0], c[0], v[0],
                 Dot(a[1..], v[1..]), Dot(b[1..], v[1..]), Dot(c[1..], v[1..]),
                 Dot(a, v), Dot(b, v), Dot(c, v));
    }
  }

  /** The tail of a combination is the combination of the tails. */
  lemma CombineTail(alpha: real, a: seq<real>, beta: real, b: seq<real>)
    requires |a| == |b| && |a| > 0
    ensures Combine(alpha, a, beta, b)[1..] == Combine(alpha, a[1..], beta, b[1..])
  {
    var c, c' := Combine(alpha, a, beta, b), Combine(alpha, a[1..], beta, b[1..]);
    forall k | 0 <= k < |c'| ensures c[1..][k] == c'[k] {
      assert a[1..][k] == a[k + 1] && b[1..][k] == b[k + 1];
    }
  }

  /**
   * One step of DotCombineLeft on numbers: with z = alpha x + beta y, adding
   * the products with w to a linear dot product of the tails keeps it linear.
   */
  lemma LinearStep(alpha: real, beta: real, x: real, y: real, z: real, w: real,
                   av: real, bv: real, cv: real, av': real, bv': real, cv': real)
    requires z == Mix(alpha, x, beta, y) && cv == Mix(alpha, av, beta, bv)
    requires av' == x * w + av && bv' == y * w + bv && cv' == z * w + cv
    ensures cv' == Mix(alpha, av', beta, bv')
  {
  }

  /**
   * With c = alpha a + beta b: c . a, c . b and c . c written by linearity,
   * together with the symmetry of the dot product, give the quadratic form.
   */
  lemma ExpandSquare(alpha: real, beta: real, aa: real, ab: real, ba: real, bb: real,
                     ca: real, ac: real, cb: real, bc: real, cc: real)
    requires ca == Mix(alpha, aa, beta, ba) && cb == Mix(alpha, ab, beta, bb)
    requires cc == Mix(alpha, ac, beta, bc)
    requires ac == ca && bc == cb && ba == ab
    ensures cc == Quadratic(alpha, beta, aa, ab, bb)
  {
  }

  /** If p is positive and p * e is not negative, e is not negative. */
  lemma PositiveFactor(p: real, e: real, pe: real)
    requires p > 0.0 && pe == p * e && pe >= 0.0
    ensures e >= 0.0
  {
    if e < 0.0 {
      ProductNegative(p, e, pe);
    }
  }

  /**
   * The arithmetic core of Cauchy-Schwarz: with aa = na^2 and bb = nb^2, the
   * squared lengths of nb * a - na * b and nb * a + na * b are 2p(p - d) and
   * 2p(p + d) for p = na * nb; both being non-negative bounds d by p.
   */
  lemma SquaredLengthsBound(na: real, nb: real, aa: real, bb: real, d: real, minus: real, plus: real)
    requires na > 0.0 && nb > 0.0 && aa == na * na && bb == nb * nb
    requires minus == Quadratic(nb, -na, aa, d, bb) && plus == Quadratic(nb, na, aa, d, bb)
    requires minus >= 0.0 && plus >= 0.0
    ensures -(na * nb) <= d <= na * nb
  {
    var p := na * nb;
    ProductPositive(na, nb, p);
    assert minus == 2.0 * (p * (p - d));
    assert plus == 2.0 * (p * (p + d));
    PositiveFactor(p, p - d, p * (p - d));
    PositiveFactor(p, p + d, p * (p + d));
  }

  /** The Cauchy-Schwarz inequality, stated with the norms of the two vectors. */
  lemma CauchySchwarz(a: seq<real>, b: seq<real>, na: real, nb: real)
    requires |a| == |b| && IsNorm(a, na) && IsNorm(b, nb)
    ensures -(na * nb) <= Dot(a, b) <= na * nb
  {
    if na == 0.0 || nb == 0.0 {
      if na == 0.0 {
        NormZero(a, na);
        DotZero(a, b);
      } else {
        NormZero(b, nb);
        DotZero(b, a);
        DotSymmetric(a, b);
      }
    } else {
      var minus := Combine(nb, a, -na, b);
      var plus := Combine(nb, a, na, b);
      DotCombineSelf(nb, a, -na, b);
      DotCombineSelf(nb, a, na, b);
      DotSelf(minus);
      DotSelf(plus);
      SquaredLengthsBound(na, nb, Dot(a, a), Dot(b, b), Dot(a, b), Dot(minus, minus), Dot(plus, plus));
    }
  }

  /** The arithmetic core of the equality case: with d = na * nb the squared length of nb * a - na * b is 0. */
  lemma SquaredLengthVanishes(na: real, nb: real, aa: real, bb: real, d: real, minus: real)
    requires aa == na * na && bb == nb * nb && d == na * nb
    requires minus == Quadratic(nb, -na, aa, d, bb)
    ensures minus == 0.0
  {
  }

  /**
   * Equality in Cauchy-Schwarz: when a . b equals the product of two non-zero
   * norms, the vectors point the same way, nb * a == na * b entry by entry.
   */
  lemma CauchySchwarzEquality(a: seq<real>, b: seq<real>, na: real, nb: real)
    requires |a| == |b| && IsNorm(a, na) && IsNorm(b, nb)
    requires Dot(a, b) == na * nb
    ensures Proportional(a, b, na, nb)
  {
    var minus := Combine(nb, a, -na, b);
    DotCombineSelf(nb, a, -na, b);
    SquaredLengthVanishes(na, nb, Dot(a, a), Dot(b, b), Dot(a, b), Dot(minus, minus));
    DotSelf(minus);
    ZeroDifference(a, b, na, nb);
  }

  /** nb * a - na * b is zero exactly where nb * a[k] and na * b[k] agree. */
  lemma ZeroDifference(a: seq<real>, b: seq<real>, na: real, nb: real)
    requires |a| == |b| && IsZero(Combine(nb, a, -na, b))
    ensures Proportional(a, b, na, nb)
  {
    forall k | 0 <= k < |a| ensures nb * a[k] == na * b[k] {
      var c := Combine(nb, a, -na, b);
      assert c[k] == nb * a[k] + (-na) * b[k] == 0.0;
      NegatedProduct(na, b[k]);
    }
  }

  lemma NegatedProduct(x: real, y: real)
    ensures (-x) * y == -(x * y)
  {
  }
}
