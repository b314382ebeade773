/**
 * The spend matrix: the pivot of the transaction table with one row per user,
 * one column per merchant, and in each cell the mean amount of that user's
 * transactions at that merchant, or 0 where the pair was never seen.
 */
module Aggregation {
  import opened Options
  import opened Vectors
  import opened Labels

  type UserId = string
  type Merchant = string

  /** A transaction row, reduced to the three columns the pivot reads. */
  datatype Transaction = Transaction(user: UserId, merchant: Merchant, amount: real)

  /** Row labels, column labels, and the rows of cells. */
  datatype SpendMatrix = SpendMatrix(users: seq<UserId>, merchants: seq<Merchant>, cells: seq<seq<real>>)

  /** One row per user, and every row has one cell per merchant. */
  predicate Dense(pm: SpendMatrix)
  {
    |pm.cells| == |pm.users| && forall i :: 0 <= i < |pm.cells| ==> |pm.cells[i]| == |pm.merchants|
  }

  /** Dense, with both label sequences ascending and free of repeats, as the pivot table builds them. */
  predicate WellFormed(pm: SpendMatrix)
  {
    Dense(pm) && Increasing(pm.users) && Increasing(pm.merchants)
  }

  /** The amounts of the transactions of user u at merchant m, in table order. */
  function Amounts(txs: seq<Transaction>, u: UserId, m: Merchant): seq<real>
  {
    if |txs| == 0 then []
    else (if txs[0].user == u && txs[0].merchant == m then [txs[0].amount] else []) + Amounts(txs[1..], u, m)
  }

  /** The amount x occurs among the amounts of u at m as often as the table holds the row (u, m, x). */
  lemma {:induction false} AmountsMembers(txs: seq<Transaction>, u: UserId, m: Merchant, x: real)
    ensures multiset(Amounts(txs, u, m))[x] == multiset(txs)[Transaction(u, m, x)]
  {
    if |txs| > 0 {
      AmountsMembers(txs[1..], u, m, x);
      AmountsFirst(txs, u, m, x);
    }
  }

  /** How the first row of the table adds to the counts on both sides. */
  lemma AmountsFirst(txs: seq<Transaction>, u: UserId, m: Merchant, x: real)
    requires |txs| > 0
    ensures var n := if txs[0] == Transaction(u, m, x) then 1 else 0;
      multiset(Amounts(txs, u, m))[x] == n + multiset(Amounts(txs[1..], u, m))[x] &&
      multiset(txs)[Transaction(u, m, x)] == n + multiset(txs[1..])[Transaction(u, m, x)]
  {
    var t := txs[0];
    var first := if t.user == u && t.merchant == m then [t.amount] else [];
    assert txs == [t] + txs[1..];
    assert Amounts(txs, u, m) == first + Amounts(txs[1..], u, m);
  }

  /** The arithmetic mean of s, and 0 for no values at all (the pivot's fill value). */
  function MeanOrZero(s: seq<real>): (r: real)
    ensures |s| == 0 ==> r == 0.0
    ensures |s| > 0 ==> r * (|s| as real) == Sum(s)
  {
    if |s| == 0 then 0.0 else Sum(s) / (|s| as real)
  }

  /** n values between lo and hi add up to between n lo and n hi. */
  lemma {:induction false} SumWithin(s: seq<real>, lo: real, hi: real)
    requires forall k :: 0 <= k < |s| ==> lo <= s[k] <= hi
    ensures lo * (|s| as real) <= Sum(s) <= hi * (|s| as real)
  {
    if |s| > 0 {
      SumWithin(s[1..], lo, hi);
      assert lo * (|s| as real) == lo + lo * (|s[1..]| as real);
      assert hi * (|s| as real) == hi + hi * (|s[1..]| as real);
    }
  }

  /** A mean lies between the least and the greatest of the values averaged. */
  lemma MeanWithin(s: seq<real>, lo: real, hi: real)
    requires |s| > 0
    requires forall k :: 0 <= k < |s| ==> lo <= s[k] <= hi
    ensures lo <= MeanOrZero(s) <= hi
  {
    SumWithin(s, lo, hi);
    ScaledWithin(lo, hi, MeanOrZero(s), |s| as real, Sum(s));
  }

  /** With n positive, lo n <= q n <= hi n places q between lo and hi. */
  lemma ScaledWithin(lo: real, hi: real, q: real, n: real, t: real)
    requires n > 0.0 && q * n == t && lo * n <= t <= hi * n
    ensures lo <= q <= hi
  {
    if q < lo {
      ProductPositive(lo - q, n, (lo - q) * n);
    }
    if q > hi {
      ProductPositive(q - hi, n, (q - hi) * n);
    }
  }

  /** The user column of the transaction table. */
  function UserColumn(txs: seq<Transaction>): (r: seq<UserId>)
    ensures forall u :: u in r <==> exists t :: t in txs && t.user == u
  {
    var r := seq(|txs|, k requires 0 <= k < |txs| => txs[k].user);
    assert forall u :: (exists t :: t in txs && t.user == u) ==> u in r by {
      forall u | exists t :: t in txs && t.user == u ensures u in r {
        var t :| t in txs && t.user == u;
        var k :| 0 <= k < |txs| && txs[k] == t;
        assert r[k] == u;
      }
    }
    r
  }

  /** The merchant column of the transaction table. */
  function MerchantColumn(txs: seq<Transaction>): (r: seq<Merchant>)
    ensures forall m :: m in r <==> exists t :: t in txs && t.merchant == m
  {
    var r := seq(|txs|, k requires 0 <= k < |txs| => txs[k].merchant);
    assert forall m :: (exists t :: t in txs && t.merchant == m) ==> m in r by {
      forall m | exists t :: t in txs && t.merchant == m ensures m in r {
        var t :| t in txs && t.merchant == m;
        var k :| 0 <= k < |txs| && txs[k] == t;
        assert r[k] == m;
      }
    }
    r
  }

  /**
   * The pivot of the transaction table (app.py line 189): rows are the users
   * seen, columns the merchants seen, both in ascending order, and each cell
   * is the mean amount of its pair, or 0 for a pair never seen.
   */
  function BuildSpendMatrix(txs: seq<Transaction>): (pm: SpendMatrix)
    ensures WellFormed(pm)
    ensures forall u :: u in pm.users <==> exists t :: t in txs && t.user == u
    ensures forall m :: m in pm.merchants <==> exists t :: t in txs && t.merchant == m
    ensures forall i, j :: 0 <= i < |pm.users| && 0 <= j < |pm.merchants| ==>
      pm.cells[i][j] == MeanOrZero(Amounts(txs, pm.users[i], pm.merchants[j]))
  {
    var users := SortedDistinct(UserColumn(txs));
    var merchants := SortedDistinct(MerchantColumn(txs));
    assert forall u :: u in users <==> u in Elements(users);
    assert forall m :: m in merchants <==> m in Elements(merchants);
    SpendMatrix(users, merchants, PivotCells(txs, users, merchants))
  }

  /** The cells of the pivot for the given row and column labels. */
  function PivotCells(txs: seq<Transaction>, users: seq<UserId>, merchants: seq<Merchant>): (cells: seq<seq<real>>)
    ensures |cells| == |users|
    ensures forall i :: 0 <= i < |users| ==> |cells[i]| == |merchants|
    ensures forall i, j :: 0 <= i < |users| && 0 <= j < |merchants| ==>
      cells[i][j] == MeanOrZero(Amounts(txs, users[i], merchants[j]))
  {
    seq(|users|, i requires 0 <= i < |users| =>
      seq(|merchants|, j requires 0 <= j < |merchants| => MeanOrZero(Amounts(txs, users[i], merchants[j]))))
  }

  /** The cell of user u and merchant m, if both are labels of the matrix. */
  function SpendAt(pm: SpendMatrix, u: UserId, m: Merchant): (r: Option<real>)
    requires Dense(pm)
    ensures r.Some? <==> u in pm.users && m in pm.merchants
  {
    match (IndexOf(pm.users, u), IndexOf(pm.merchants, m))
    case (Some(i), Some(j)) => Some(pm.cells[i][j])
    case _ => None
  }

  /** Looking up the cell at row i and column j of a well-formed matrix by its labels gives that cell. */
  lemma SpendAtIndex(pm: SpendMatrix, i: nat, j: nat)
    requires WellFormed(pm) && i < |pm.users| && j < |pm.merchants|
    ensures SpendAt(pm, pm.users[i], pm.merchants[j]) == Some(pm.cells[i][j])
  {
    IncreasingDistinct(pm.users);
    IncreasingDistinct(pm.merchants);
    IndexOfDistinct(pm.users, i);
    IndexOfDistinct(pm.merchants, j);
  }

  /**
   * In the pivot of a transaction table, the spend of a user and a merchant
   * that both occur is the mean amount of their transactions, and 0 when the
   * two never occur in the same transaction.
   */
  lemma SpendIsMean(txs: seq<Transaction>, u: UserId, m: Merchant)
    requires exists t :: t in txs && t.user == u
    requires exists t :: t in txs && t.merchant == m
    ensures var pm := BuildSpendMatrix(txs);
      SpendAt(pm, u, m) == Some(MeanOrZero(Amounts(txs, u, m)))
    ensures (forall x :: Transaction(u, m, x) !in txs) ==> SpendAt(BuildSpendMatrix(txs), u, m) == Some(0.0)
  {
    var pm := BuildSpendMatrix(txs);
    var t :| t in txs && t.user == u;
    var t' :| t' in txs && t'.merchant == m;
    assert u in pm.users && m in pm.merchants;
    var i :| 0 <= i < |pm.users| && pm.users[i] == u;
    var j :| 0 <= j < |pm.merchants| && pm.merchants[j] == m;
    SpendAtIndex(pm, i, j);
    if forall x :: Transaction(u, m, x) !in txs {
      NoRowsNoAmounts(txs, u, m);
    }
  }

  /** A pair with no row in the table has no amounts. */
  lemma {:induction false} NoRowsNoAmounts(txs: seq<Transaction>, u: UserId, m: Merchant)
    requires forall x :: Transaction(u, m, x) !in txs
    ensures Amounts(txs, u, m) == []
  {
    if |txs| > 0 {
      assert txs[0] in txs;
      NoRowsNoAmounts(txs[1..], u, m);
    }
  }
}
