/**
 * The user-by-user cosine similarity matrix of the spend matrix. The norm of
 * each spend row is supplied alongside the matrix (NormsOf), since the model
 * has no square root; a row whose norm is zero is similar to nothing, itself
 * included, which is how the zero row comes out of the similarity routine.
 */
module Similarity {
  import opened Vectors
  import opened Aggregation

  /** norms[i] is the Euclidean norm of spend row i. */
  predicate NormsOf(pm: SpendMatrix, norms: seq<real>)
  {
    |norms| == |pm.cells| && forall i :: 0 <= i < |norms| ==> IsNorm(pm.cells[i], norms[i])
  }

  /** The cosine of the angle between a and b, whose norms are na and nb; 0 when either norm is 0. */
  function Cosine(a: seq<real>, b: seq<real>, na: real, nb: real): real
    requires |a| == |b|
  {
    if na == 0.0 || nb == 0.0 then 0.0 else Dot(a, b) / (na * nb)
  }

  /** The similarity of every user to every user (app.py lines 192-194), rows and columns both indexed by user. */
  function SimilarityMatrix(pm: SpendMatrix, norms: seq<real>): (sim: seq<seq<real>>)
    requires Dense(pm) && |norms| == |pm.users|
    ensures |sim| == |pm.users|
    ensures forall i :: 0 <= i < |sim| ==> |sim[i]| == |pm.users|
    ensures forall i, j :: 0 <= i < |sim| && 0 <= j < |sim| ==>
      sim[i][j] == Cosine(pm.cells[i], pm.cells[j], norms[i], norms[j])
  {
    seq(|pm.users|, i requires 0 <= i < |pm.users| =>
      seq(|pm.users|, j requires 0 <= j < |pm.users| => Cosine(pm.cells[i], pm.cells[j], norms[i], norms[j])))
  }

  lemma CosineSymmetric(a: seq<real>, b: seq<real>, na: real, nb: real)
    requires |a| == |b|
    ensures Cosine(a, b, na, nb) == Cosine(b, a, nb, na)
  {
    DotSymmetric(a, b);
    assert na * nb == nb * na;
  }

  /** A vector is fully similar to itself unless it is zero, and then similar to nothing. */
  lemma CosineSelf(a: seq<real>, na: real)
    requires IsNorm(a, na)
    ensures Cosine(a, a, na, na) == if IsZero(a) then 0.0 else 1.0
  {
    NormZero(a, na);
    if na != 0.0 {
      ProductPositive(na, na, na * na);
      SelfQuotient(Dot(a, a), na * na);
    }
  }

  /** x / p lies in [-1, 1] when x lies in [-p, p]. */
  lemma QuotientBound(x: real, p: real)
    requires p > 0.0 && -p <= x <= p
    ensures -1.0 <= x / p <= 1.0
  {
    var q := x / p;
    assert q * p == x;
    if q > 1.0 {
      ProductPositive(q - 1.0, p, (q - 1.0) * p);
    }
    if q < -1.0 {
      ProductPositive(-1.0 - q, p, (-1.0 - q) * p);
    }
  }

  /** The norm of row i. */
  lemma RowNorm(pm: SpendMatrix, norms: seq<real>, i: nat)
    requires Dense(pm) && NormsOf(pm, norms) && i < |pm.users|
    ensures IsNorm(pm.cells[i], norms[i]) && |pm.cells[i]| == |pm.merchants|
  {
  }

  /** Cosine similarity lies between -1 and 1. */
  lemma CosineBounded(a: seq<real>, b: seq<real>, na: real, nb: real)
    requires |a| == |b| && IsNorm(a, na) && IsNorm(b, nb)
    ensures -1.0 <= Cosine(a, b, na, nb) <= 1.0
  {
    if na != 0.0 && nb != 0.0 {
      CauchySchwarz(a, b, na, nb);
      ProductPositive(na, nb, na * nb);
      QuotientBound(Dot(a, b), na * nb);
    }
  }

  /** Similarity 1 between two vectors means both are non-zero and nb * a == na * b. */
  lemma CosineOne(a: seq<real>, b: seq<real>, na: real, nb: real)
    requires |a| == |b| && IsNorm(a, na) && IsNorm(b, nb)
    requires Cosine(a, b, na, nb) == 1.0
    ensures !IsZero(a) && !IsZero(b)
    ensures Proportional(a, b, na, nb)
  {
    NormZero(a, na);
    NormZero(b, nb);
    assert Dot(a, b) == na * nb;
    CauchySchwarzEquality(a, b, na, nb);
  }

  /** The similarity matrix is symmetric. */
  lemma SimilaritySymmetric(pm: SpendMatrix, norms: seq<real>, i: nat, j: nat)
    requires Dense(pm) && |norms| == |pm.users| && i < |pm.users| && j < |pm.users|
    ensures var sim := SimilarityMatrix(pm, norms); sim[i][j] == sim[j][i]
  {
    CosineSymmetric(pm.cells[i], pm.cells[j], norms[i], norms[j]);
  }

  /** Every user is fully similar to itself, except a user whose spend row is all zero, whose similarity to itself is 0. */
  lemma SimilarityDiagonal(pm: SpendMatrix, norms: seq<real>, i: nat)
    requires Dense(pm) && NormsOf(pm, norms) && i < |pm.users|
    ensures SimilarityMatrix(pm, norms)[i][i] == if IsZero(pm.cells[i]) then 0.0 else 1.0
  {
    CosineSelf(pm.cells[i], norms[i]);
  }

  /** Every similarity lies between -1 and 1. */
  lemma SimilarityBounded(pm: SpendMatrix, norms: seq<real>, i: nat, j: nat)
    requires Dense(pm) && NormsOf(pm, norms) && i < |pm.users| && j < |pm.users|
    ensures -1.0 <= SimilarityMatrix(pm, norms)[i][j] <= 1.0
  {
    CosineBounded(pm.cells[i], pm.cells[j], norms[i], norms[j]);
  }

  /** A user whose spend row is all zero has similarity 0 to every user, in both directions. */
  lemma ZeroRowIsolated(pm: SpendMatrix, norms: seq<real>, i: nat, j: nat)
    requires Dense(pm) && NormsOf(pm, norms) && i < |pm.users| && j < |pm.users|
    requires IsZero(pm.cells[i])
    ensures SimilarityMatrix(pm, norms)[i][j] == 0.0 && SimilarityMatrix(pm, norms)[j][i] == 0.0
  {
    NormZero(pm.cells[i], norms[i]);
  }

  /**
   * Two users of similarity 1 have non-zero rows pointing the same way:
   * norms[j] * cells[i][k] == norms[i] * cells[j][k] at every merchant k.
   */
  lemma FullSimilarityMeansSameDirection(pm: SpendMatrix, norms: seq<real>, i: nat, j: nat)
    requires Dense(pm) && NormsOf(pm, norms) && i < |pm.users| && j < |pm.users|
    requires SimilarityMatrix(pm, norms)[i][j] == 1.0
    ensures !IsZero(pm.cells[i]) && !IsZero(pm.cells[j])
    ensures Proportional(pm.cells[i], pm.cells[j], norms[i], norms[j])
  {
    RowNorm(pm, norms, i);
    RowNorm(pm, norms, j);
    CosineOne(pm.cells[i], pm.cells[j], norms[i], norms[j]);
  }
}
