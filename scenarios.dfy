/**
 * A worked example: three users and two merchants. U1 has spent at A only,
 * U2 at A and B, and U3's two transactions at A cancel out (a purchase and
 * its refund), so U3's row is zero.
 */
module Scenarios {
  import opened Options
  import opened Vectors
  import opened Labels
  import opened Aggregation
  import opened Similarity
  import opened Recommender

  function ExampleTransactions(): seq<Transaction>
  {
    [ Transaction("U2", "A", 2.0), Transaction("U1", "A", 3.0), Transaction("U2", "B", 4.0),
      Transaction("U2", "A", 4.0), Transaction("U3", "A", 5.0), Transaction("U3", "A", -5.0) ]
  }

  function ExampleMatrix(): SpendMatrix
  {
    SpendMatrix(["U1", "U2", "U3"], ["A", "B"], [[3.0, 0.0], [3.0, 4.0], [0.0, 0.0]])
  }

  /** The row norms of the example: 3, 5 (from 3 * 3 + 4 * 4) and 0. */
  function ExampleNorms(): seq<real>
  {
    [3.0, 5.0, 0.0]
  }

  lemma Sum3(a: real, b: real, c: real)
    ensures Sum([a, b, c]) == a + b + c
  {
    assert [a, b, c][1..] == [b, c] && [b, c][1..] == [c] && [c][1..] == [];
    assert Sum([c]) == c;
    assert Sum([b, c]) == b + c;
  }

  lemma Dot3(a: real, b: real, c: real, x: real, y: real, z: real)
    ensures Dot([a, b, c], [x, y, z]) == a * x + b * y + c * z
  {
    assert [a, b, c][1..] == [b, c] && [b, c][1..] == [c] && [c][1..] == [];
    assert [x, y, z][1..] == [y, z] && [y, z][1..] == [z] && [z][1..] == [];
    assert Dot([c], [z]) == c * z;
    assert Dot([b, c], [y, z]) == b * y + c * z;
  }

  lemma Dot2(a: real, b: real, x: real, y: real)
    ensures Dot([a, b], [x, y]) == a * x + b * y
  {
    assert [a, b][1..] == [b] && [b][1..] == [];
    assert [x, y][1..] == [y] && [y][1..] == [];
    assert Dot([b], [y]) == b * y;
  }

  /** The example's labels are in ascending order. */
  lemma ExampleLabelsAscending()
    ensures Increasing(["U1", "U2", "U3"]) && Increasing(["A", "B"])
  {
    assert Below("1", "2") && Below("2", "3") && Below("1", "3");
    assert Below("U1", "U2") && Below("U2", "U3") && Below("U1", "U3");
    assert Below("A", "B");
  }

  /** The label columns of the example table, in table order. */
  lemma ExampleColumns(txs: seq<Transaction>)
    requires txs == ExampleTransactions()
    ensures UserColumn(txs) == ["U2", "U1", "U2", "U2", "U3", "U3"]
    ensures MerchantColumn(txs) == ["A", "A", "B", "A", "A", "A"]
  {
  }

  /** The distinct users and merchants of the example, in ascending order. */
  lemma ExampleLabels(us: seq<string>, ms: seq<string>)
    requires us == ["U2", "U1", "U2", "U2", "U3", "U3"] && ms == ["A", "A", "B", "A", "A", "A"]
    ensures SortedDistinct(us) == ["U1", "U2", "U3"] && SortedDistinct(ms) == ["A", "B"]
  {
    var wantUsers: seq<string> := ["U1", "U2", "U3"];
    var wantMerchants: seq<string> := ["A", "B"];
    ExampleLabelsAscending();
    assert Elements(us) == Elements(wantUsers) by {
      assert us[1] == wantUsers[0] && us[0] == wantUsers[1] && us[4] == wantUsers[2];
    }
    assert Elements(ms) == Elements(wantMerchants) by {
      assert ms[0] == wantMerchants[0] && ms[2] == wantMerchants[1];
    }
    IncreasingUnique(SortedDistinct(us), wantUsers);
    IncreasingUnique(SortedDistinct(ms), wantMerchants);
  }

  /** U1 paid A once. */
  lemma ExampleAmountsU1A()
    ensures Amounts(ExampleTransactions(), "U1", "A") == [3.0]
  {
  }

  /** U1 never paid B. */
  lemma ExampleAmountsU1B()
    ensures Amounts(ExampleTransactions(), "U1", "B") == []
  {
  }

  /** U2 paid A twice. */
  lemma ExampleAmountsU2A()
    ensures Amounts(ExampleTransactions(), "U2", "A") == [2.0, 4.0]
  {
  }

  /** U2 paid B once. */
  lemma ExampleAmountsU2B()
    ensures Amounts(ExampleTransactions(), "U2", "B") == [4.0]
  {
  }

  /** U3's purchase at A was refunded. */
  lemma ExampleAmountsU3A()
    ensures Amounts(ExampleTransactions(), "U3", "A") == [5.0, -5.0]
  {
  }

  /** U3 never paid B. */
  lemma ExampleAmountsU3B()
    ensures Amounts(ExampleTransactions(), "U3", "B") == []
  {
  }

  /** The totals of the example's amounts. */
  lemma ExampleSums(one: seq<real>, two: seq<real>, refunded: seq<real>)
    requires one == [4.0] && two == [2.0, 4.0] && refunded == [5.0, -5.0]
    ensures Sum(one) == 4.0 && Sum(two) == 6.0 && Sum(refunded) == 0.0
  {
    assert two[1..] == one && one[1..] == [];
    assert refunded[1..] == [-5.0] && [-5.0][1..] == [];
    assert Sum(one) == 4.0 && Sum([-5.0]) == -5.0;
  }

  /** The means of the example's amounts. */
  lemma ExampleMeans(one: seq<real>, two: seq<real>, refunded: seq<real>)
    requires one == [4.0] && two == [2.0, 4.0] && refunded == [5.0, -5.0]
    ensures MeanOrZero(one) == 4.0 && MeanOrZero(two) == 3.0 && MeanOrZero(refunded) == 0.0
  {
    ExampleSums(one, two, refunded);
    assert MeanOrZero(two) == 6.0 / 2.0;
    assert MeanOrZero(refunded) == 0.0 / 2.0;
    assert MeanOrZero(one) == 4.0 / 1.0;
  }

  /** The cells the pivot forms for the example's labels, given the example's amounts. */
  lemma ExampleCells(txs: seq<Transaction>, users: seq<UserId>, merchants: seq<Merchant>)
    requires users == ["U1", "U2", "U3"] && merchants == ["A", "B"]
    requires Amounts(txs, "U1", "A") == [3.0] && Amounts(txs, "U1", "B") == []
    requires Amounts(txs, "U2", "A") == [2.0, 4.0] && Amounts(txs, "U2", "B") == [4.0]
    requires Amounts(txs, "U3", "A") == [5.0, -5.0] && Amounts(txs, "U3", "B") == []
    ensures PivotCells(txs, users, merchants) == ExampleMatrix().cells
  {
    var cells := PivotCells(txs, users, merchants);
    var want := ExampleMatrix().cells;
    ExampleMeans([4.0], [2.0, 4.0], [5.0, -5.0]);
    assert MeanOrZero([3.0]) == 3.0 by {
      assert [3.0][1..] == [];
    }
    assert users[0] == "U1" && users[1] == "U2" && users[2] == "U3" && merchants[0] == "A" && merchants[1] == "B";
    assert cells[0] == want[0];
    assert cells[1] == want[1];
    assert cells[2] == want[2];
  }

  /** A table with the example's label columns and amounts pivots to the example matrix. */
  lemma PivotOfExampleShape(txs: seq<Transaction>)
    requires UserColumn(txs) == ["U2", "U1", "U2", "U2", "U3", "U3"]
    requires MerchantColumn(txs) == ["A", "A", "B", "A", "A", "A"]
    requires Amounts(txs, "U1", "A") == [3.0] && Amounts(txs, "U1", "B") == []
    requires Amounts(txs, "U2", "A") == [2.0, 4.0] && Amounts(txs, "U2", "B") == [4.0]
    requires Amounts(txs, "U3", "A") == [5.0, -5.0] && Amounts(txs, "U3", "B") == []
    ensures BuildSpendMatrix(txs) == ExampleMatrix()
  {
    var users := SortedDistinct(UserColumn(txs));
    var merchants := SortedDistinct(MerchantColumn(txs));
    ExampleLabels(UserColumn(txs), MerchantColumn(txs));
    ExampleCells(txs, users, merchants);
    assert BuildSpendMatrix(txs) == SpendMatrix(users, merchants, PivotCells(txs, users, merchants));
  }

  /** Pivoting the example transactions gives the example matrix: U2's two amounts at A average to 3. */
  lemma ExamplePivot(txs: seq<Transaction>)
    requires txs == ExampleTransactions()
    ensures BuildSpendMatrix(txs) == ExampleMatrix()
  {
    ExampleColumns(txs);
    ExampleAmountsU1A();
    ExampleAmountsU1B();
    ExampleAmountsU2A();
    ExampleAmountsU2B();
    ExampleAmountsU3A();
    ExampleAmountsU3B();
    PivotOfExampleShape(txs);
  }

  /** The example's rows have the example's norms. */
  lemma ExampleNormsHold(pm: SpendMatrix, norms: seq<real>)
    requires pm == ExampleMatrix() && norms == ExampleNorms()
    ensures WellFormed(pm) && NormsOf(pm, norms)
  {
    ExampleLabelsAscending();
    Dot2(3.0, 0.0, 3.0, 0.0);
    Dot2(3.0, 4.0, 3.0, 4.0);
    Dot2(0.0, 0.0, 0.0, 0.0);
  }

  /** The similarities of every user to U1 and to U3: U2 is 9 / 15 similar to U1, and U3 similar to nobody. */
  lemma ExampleSimilarities(pm: SpendMatrix, norms: seq<real>, sim: seq<seq<real>>)
    requires pm == ExampleMatrix() && norms == ExampleNorms() && Dense(pm)
    requires sim == SimilarityMatrix(pm, norms)
    ensures SquareOver(sim, 3)
    ensures SimColumn(sim, 0) == [1.0, 0.6, 0.0] && SimColumn(sim, 2) == [0.0, 0.0, 0.0]
  {
    Dot2(3.0, 0.0, 3.0, 0.0);
    Dot2(3.0, 4.0, 3.0, 0.0);
    assert sim[0][0] == 9.0 / 9.0 == 1.0;
    assert sim[1][0] == 9.0 / 15.0 == 0.6;
    assert sim[2][0] == 0.0 && sim[0][2] == 0.0 && sim[1][2] == 0.0 && sim[2][2] == 0.0;
  }

  /** U1's estimates are 3 at A and 4 at B: U2's spend, since U3's weight is 0. */
  lemma ExampleEstimatesForU1(pm: SpendMatrix, sim: seq<seq<real>>)
    requires pm == ExampleMatrix() && SquareOver(sim, 3) && SimColumn(sim, 0) == [1.0, 0.6, 0.0]
    ensures Estimates(pm, sim, 0, 0) == Some([3.0, 4.0])
  {
    var col := SimColumn(sim, 0);
    Sum3(1.0, 0.6, 0.0);
    assert Column(pm.cells, 0) == [3.0, 3.0, 0.0] && Column(pm.cells, 1) == [0.0, 4.0, 0.0];
    Dot3(3.0, 3.0, 0.0, 1.0, 0.6, 0.0);
    Dot3(0.0, 4.0, 0.0, 1.0, 0.6, 0.0);
    EstimateValue(pm, sim, 0, 0, 0, 4.8, 3.0, 0.6, 3.0);
    EstimateValue(pm, sim, 0, 0, 1, 2.4, 0.0, 0.6, 4.0);
    var est := Estimates(pm, sim, 0, 0).value;
    assert est == [3.0, 4.0];
  }

  /** An estimate whose formula's numerator is q times its denominator is q. */
  lemma EstimateValue(pm: SpendMatrix, sim: seq<seq<real>>, u: nat, d: nat, j: nat, dot: real, own: real, total: real, q: real)
    requires Dense(pm) && SquareOver(sim, |pm.users|) && u < |pm.users| && d < |pm.users| && j < |pm.merchants|
    requires |pm.users| > 1
    requires Dot(Column(pm.cells, j), SimColumn(sim, u)) == dot
    requires pm.cells[d][j] * SimColumn(sim, u)[d] == own
    requires Sum(SimColumn(sim, u)) - SimColumn(sim, u)[d] == total
    requires total != 0.0 && dot - own == q * total
    ensures Estimates(pm, sim, u, d).Some? && Estimates(pm, sim, u, d).value[j] == q
  {
    EstimateFormula(pm, sim, u, d, j);
    var col, a := SimColumn(sim, u), Column(pm.cells, j);
    assert a[d] == pm.cells[d][j];
    QuotientIs(Dot(a, col) - a[d] * col[d], Sum(col) - col[d], q);
  }

  /** x / y is q when x is q times a non-zero y. */
  lemma QuotientIs(x: real, y: real, q: real)
    requires y != 0.0 && x == q * y
    ensures x / y == q
  {
  }

  /** A user with a single unvisited merchant j is recommended j alone, at its estimate. */
  lemma OnlyCandidate(pm: SpendMatrix, sim: seq<seq<real>>, u: nat, j: nat, topN: int)
    requires WellFormed(pm) && SquareOver(sim, |pm.users|) && u < |pm.users| && j < |pm.merchants|
    requires Estimates(pm, sim, u, u).Some? && ZeroCount(pm.cells[u]) == 1 && pm.cells[u][j] == 0.0 && topN >= 1
    ensures Recommend(pm, sim, pm.users[u], topN) == [Recommendation(pm.merchants[j], Estimates(pm, sim, u, u).value[j])]
  {
    var est := Estimates(pm, sim, u, u).value;
    RecommendIsTopOfRanking(pm, sim, u, topN);
    var ranking := Ranking(pm, est, u);
    assert Recommendation(pm.merchants[j], est[j]) in ranking;
  }

  /** With those estimates, U1's one unvisited merchant B is recommended. */
  lemma ExampleForU1(pm: SpendMatrix, sim: seq<seq<real>>)
    requires pm == ExampleMatrix() && WellFormed(pm) && SquareOver(sim, 3)
    requires Estimates(pm, sim, 0, 0) == Some([3.0, 4.0])
    ensures Recommend(pm, sim, "U1", 5) == [Recommendation("B", 4.0)]
  {
    assert ZeroCount(pm.cells[0]) == 1 by {
      assert pm.cells[0][1..] == [0.0] && [0.0][1..] == [];
    }
    OnlyCandidate(pm, sim, 0, 1, 5);
  }

  /** U2 has visited every merchant, so nothing is left to recommend. */
  lemma ExampleForU2(pm: SpendMatrix, sim: seq<seq<real>>)
    requires pm == ExampleMatrix() && WellFormed(pm) && SquareOver(sim, 3)
    ensures Recommend(pm, sim, "U2", 5) == []
  {
    assert ZeroCount(pm.cells[1]) == 0 by {
      assert pm.cells[1][1..] == [4.0] && [4.0][1..] == [];
    }
    assert pm.users[1] == "U2";
  }

  /** U3 is similar to nobody, so its peers' weights are undefined and nothing is recommended. */
  lemma ExampleForU3(pm: SpendMatrix, sim: seq<seq<real>>)
    requires pm == ExampleMatrix() && WellFormed(pm) && SquareOver(sim, 3)
    requires SimColumn(sim, 2) == [0.0, 0.0, 0.0]
    ensures Recommend(pm, sim, "U3", 5) == []
  {
    Sum3(0.0, 0.0, 0.0);
    ZeroSimilaritySumRecommendsNothing(pm, sim, 2, 5);
    assert pm.users[2] == "U3";
  }

  /**
   * U1 is recommended B alone, estimated at 4: U1's peers are U2 (similarity
   * 9 / 15) and U3 (similarity 0), so U2 carries all the weight. U2 has
   * visited every merchant, U3 is similar to nobody, and an unknown user gets
   * nothing. Each call leaves top_n at its default of 5, as the dashboard does.
   */
  lemma ExampleRecommendations(pm: SpendMatrix, norms: seq<real>, sim: seq<seq<real>>)
    requires pm == ExampleMatrix() && norms == ExampleNorms() && WellFormed(pm)
    requires sim == SimilarityMatrix(pm, norms) && SquareOver(sim, |pm.users|)
    ensures NormsOf(pm, norms)
    ensures Recommend(pm, sim, "U1") == [Recommendation("B", 4.0)]
    ensures Recommend(pm, sim, "U2") == []
    ensures Recommend(pm, sim, "U3") == []
    ensures Recommend(pm, sim, "U9") == []
  {
    ExampleNormsHold(pm, norms);
    ExampleSimilarities(pm, norms, sim);
    ExampleEstimatesForU1(pm, sim);
    ExampleForU1(pm, sim);
    ExampleForU2(pm, sim);
    ExampleForU3(pm, sim);
  }
}
