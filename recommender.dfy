/**
 * Merchant recommendations for one user (get_recommendations, app.py lines
 * 197-208): the other users' similarities to the target become weights, the
 * weighted sum of their spend estimates the target's spend at each merchant,
 * and the merchants the target has not spent at are returned best first.
 */
module Recommender {
  import opened Options
  import opened Vectors
  import opened Labels
  import opened Aggregation
  import opened Similarity

  /** A recommended merchant with its estimated spend. */
  datatype Recommendation = Recommendation(merchant: Merchant, estimate: real)

  /** sim is an n-by-n matrix. */
  predicate SquareOver(sim: seq<seq<real>>, n: nat)
  {
    |sim| == n && forall p :: 0 <= p < n ==> |sim[p]| == n
  }

  /** Column u of the similarity matrix: how similar each user is to user u. */
  function SimColumn(sim: seq<seq<real>>, u: nat): (col: seq<real>)
    requires SquareOver(sim, |sim|) && u < |sim|
    ensures |col| == |sim|
    ensures forall p :: 0 <= p < |sim| ==> col[p] == sim[p][u]
  {
    seq(|sim|, p requires 0 <= p < |sim| => sim[p][u])
  }

  /** Column j of the spend matrix: every user's spend at merchant j. */
  function Column(cells: seq<seq<real>>, j: nat): (col: seq<real>)
    requires forall p :: 0 <= p < |cells| ==> j < |cells[p]|
    ensures |col| == |cells|
    ensures forall p :: 0 <= p < |cells| ==> col[p] == cells[p][j]
  {
    seq(|cells|, p requires 0 <= p < |cells| => cells[p][j])
  }

  /**
   * The peers' similarities divided by their total (app.py line 202). No
   * peers give no weights; peers whose similarities add up to zero give none
   * either, since the division is undefined.
   */
  function PeerWeights(sims: seq<real>): (w: Option<seq<real>>)
    ensures w.None? <==> |sims| > 0 && Sum(sims) == 0.0
    ensures w.Some? ==> |w.value| == |sims|
    ensures w.Some? && |sims| > 0 ==> Sum(w.value) == 1.0
  {
    if |sims| == 0 then Some([])
    else if Sum(sims) == 0.0 then None
    else
      SumDivideBy(sims, Sum(sims));
      SelfQuotient(Sum(sims), Sum(sims));
      Some(DivideBy(sims, Sum(sims)))
  }

  /**
   * Leaving user d out of u's similarity column leaves one peer fewer than
   * there are users, and when the peers' similarities do not add up to zero
   * their weights add up to 1 (app.py lines 201-202).
   */
  lemma PeerWeightsSumToOne(sim: seq<seq<real>>, u: nat, d: nat)
    requires SquareOver(sim, |sim|) && u < |sim| && d < |sim| && |sim| > 1
    requires Sum(SimColumn(sim, u)) - SimColumn(sim, u)[d] != 0.0
    ensures var peers := Drop(SimColumn(sim, u), d);
      |peers| == |sim| - 1 && PeerWeights(peers).Some? &&
      |PeerWeights(peers).value| == |sim| - 1 && Sum(PeerWeights(peers).value) == 1.0
  {
    SumDrop(SimColumn(sim, u), d);
  }

  /**
   * The estimated spend of user u at every merchant, with user d left out of
   * the peers (app.py lines 201-204): the dot product of each merchant column
   * without row d and the peer weights.
   */
  function Estimates(pm: SpendMatrix, sim: seq<seq<real>>, u: nat, d: nat): (r: Option<seq<real>>)
    requires Dense(pm) && SquareOver(sim, |pm.users|) && u < |pm.users| && d < |pm.users|
    ensures r.None? <==> |pm.users| > 1 && Sum(SimColumn(sim, u)) - SimColumn(sim, u)[d] == 0.0
    ensures r.Some? ==> |r.value| == |pm.merchants|
  {
    SumDrop(SimColumn(sim, u), d);
    match PeerWeights(Drop(SimColumn(sim, u), d))
    case None => None
    case Some(w) =>
      Some(seq(|pm.merchants|, j requires 0 <= j < |pm.merchants| => Dot(Drop(Column(pm.cells, j), d), w)))
  }

  /**
   * The reference estimate of user u's spend at merchant j with user d left
   * out: the spend at j of every user p other than d times sim(p, u), summed,
   * over the sum of those similarities; 0 when there is no other user.
   */
  function WeightedAverage(pm: SpendMatrix, sim: seq<seq<real>>, u: nat, d: nat, j: nat): real
    requires Dense(pm) && SquareOver(sim, |pm.users|) && u < |pm.users| && d < |pm.users| && j < |pm.merchants|
    requires |pm.users| == 1 || Sum(SimColumn(sim, u)) - SimColumn(sim, u)[d] != 0.0
  {
    if |pm.users| == 1 then 0.0 else AverageWithout(Column(pm.cells, j), SimColumn(sim, u), d)
  }

  /**
   * Each estimate, formed from the normalised peer weights, is the reference
   * estimate: the spend at j times the similarity to u, summed over all users
   * but d, over the similarity sum of all users but d; 0 with no peers.
   */
  lemma EstimateFormula(pm: SpendMatrix, sim: seq<seq<real>>, u: nat, d: nat, j: nat)
    requires Dense(pm) && SquareOver(sim, |pm.users|) && u < |pm.users| && d < |pm.users|
    requires Estimates(pm, sim, u, d).Some? && j < |pm.merchants|
    ensures Estimates(pm, sim, u, d).value[j] == WeightedAverage(pm, sim, u, d, j)
    ensures var col := SimColumn(sim, u);
      Estimates(pm, sim, u, d).value[j] ==
        if |pm.users| == 1 then 0.0
        else (Dot(Column(pm.cells, j), col) - pm.cells[d][j] * col[d]) / (Sum(col) - col[d])
  {
    var col, a := SimColumn(sim, u), Column(pm.cells, j);
    SumDrop(col, d);
    assert Estimates(pm, sim, u, d).value[j] == Dot(Drop(a, d), PeerWeights(Drop(col, d)).value);
    if |pm.users| > 1 {
      DropWeighted(a, col, d);
      assert a[d] == pm.cells[d][j];
    }
  }

  /** How many entries of s are zero. */
  function ZeroCount(s: seq<real>): nat
  {
    if |s| == 0 then 0 else (if s[0] == 0.0 then 1 else 0) + ZeroCount(s[1..])
  }

  /** No two recommendations name the same merchant. */
  predicate DistinctMerchants(s: seq<Recommendation>)
  {
    forall i, j :: 0 <= i < j < |s| ==> s[i].merchant != s[j].merchant
  }

  /**
   * The merchants from position k on at which own is zero, each with its
   * estimate, in column order (the mask of app.py line 206).
   */
  function CandidatesFrom(merchants: seq<Merchant>, own: seq<real>, est: seq<real>, k: nat): (r: seq<Recommendation>)
    requires |own| == |merchants| && |est| == |merchants| && k <= |merchants|
    ensures |r| == ZeroCount(own[k..])
    ensures forall x :: x in r <==>
      exists j :: k <= j < |merchants| && own[j] == 0.0 && x == Recommendation(merchants[j], est[j])
    ensures Distinct(merchants) ==> DistinctMerchants(r)
    decreases |merchants| - k
  {
    if k == |merchants| then []
    else
      assert own[k..][1..] == own[k + 1..];
      var rest := CandidatesFrom(merchants, own, est, k + 1);
      assert Distinct(merchants) ==> forall x :: x in rest ==> x.merchant != merchants[k];
      if own[k] == 0.0 then [Recommendation(merchants[k], est[k])] + rest else rest
  }

  /** The unvisited merchants of a user whose spend row is own, with their estimates. */
  function Candidates(merchants: seq<Merchant>, own: seq<real>, est: seq<real>): (r: seq<Recommendation>)
    requires |own| == |merchants| && |est| == |merchants|
    ensures |r| == ZeroCount(own)
    ensures forall x :: x in r <==>
      exists j :: 0 <= j < |merchants| && own[j] == 0.0 && x == Recommendation(merchants[j], est[j])
    ensures Distinct(merchants) ==> DistinctMerchants(r)
  {
    assert own[0..] == own;
    CandidatesFrom(merchants, own, est, 0)
  }

  /** Estimates that differ only at merchants already visited give the same candidates. */
  lemma {:induction false} CandidatesAgree(merchants: seq<Merchant>, own: seq<real>, e1: seq<real>, e2: seq<real>, k: nat)
    requires |own| == |merchants| && |e1| == |merchants| && |e2| == |merchants| && k <= |merchants|
    requires forall j :: 0 <= j < |merchants| && own[j] == 0.0 ==> e1[j] == e2[j]
    ensures CandidatesFrom(merchants, own, e1, k) == CandidatesFrom(merchants, own, e2, k)
    decreases |merchants| - k
  {
    if k < |merchants| {
      CandidatesAgree(merchants, own, e1, e2, k + 1);
    }
  }

  /** The ranking order: higher estimate first, and for equal estimates the smaller merchant name first. */
  predicate Before(x: Recommendation, y: Recommendation)
  {
    x.estimate > y.estimate || (x.estimate == y.estimate && Below(x.merchant, y.merchant))
  }

  lemma BeforeTransitive(x: Recommendation, y: Recommendation, z: Recommendation)
    requires Before(x, y) && Before(y, z)
    ensures Before(x, z)
  {
    if x.estimate == y.estimate && y.estimate == z.estimate {
      BelowTransitive(x.merchant, y.merchant, z.merchant);
    }
  }

  /** Two recommendations for different merchants are ordered one way or the other. */
  lemma BeforeTotal(x: Recommendation, y: Recommendation)
    requires x.merchant != y.merchant
    ensures Before(x, y) || Before(y, x)
  {
    BelowTotal(x.merchant, y.merchant);
  }

  /** Strictly in ranking order. */
  predicate Ranked(s: seq<Recommendation>)
  {
    forall i, j :: 0 <= i < j < |s| ==> Before(s[i], s[j])
  }

  /** Estimates never increase along s. */
  predicate NonIncreasing(s: seq<Recommendation>)
  {
    forall i, j :: 0 <= i < j < |s| ==> s[i].estimate >= s[j].estimate
  }

  lemma RankedNonIncreasing(s: seq<Recommendation>)
    requires Ranked(s)
    ensures NonIncreasing(s)
  {
    forall i, j | 0 <= i < j < |s| ensures s[i].estimate >= s[j].estimate {
      assert Before(s[i], s[j]);
    }
  }

  /** Putting h in front of a ranked sequence that h is before and does not share a merchant with keeps it ranked. */
  lemma RankedCons(h: Recommendation, t: seq<Recommendation>)
    requires Ranked(t) && DistinctMerchants(t)
    requires forall y :: y in t ==> Before(h, y) && y.merchant != h.merchant
    ensures Ranked([h] + t) && DistinctMerchants([h] + t)
  {
    var s := [h] + t;
    forall i, j | 0 <= i < j < |s| ensures Before(s[i], s[j]) && s[i].merchant != s[j].merchant {
      assert s[j] == t[j - 1];
      if i > 0 {
        assert s[i] == t[i - 1];
      }
    }
  }

  /** The tail of a ranked sequence is ranked and comes after its head. */
  lemma RankedTail(s: seq<Recommendation>)
    requires Ranked(s) && DistinctMerchants(s) && |s| > 0
    ensures Ranked(s[1..]) && DistinctMerchants(s[1..])
    ensures forall y :: y in s[1..] ==> Before(s[0], y) && y.merchant != s[0].merchant
  {
    forall y | y in s[1..] ensures Before(s[0], y) && y.merchant != s[0].merchant {
      var j :| 0 <= j < |s[1..]| && s[1..][j] == y;
      assert s[j + 1] == y;
    }
    forall i, j | 0 <= i < j < |s[1..]| ensures Before(s[1..][i], s[1..][j]) && s[1..][i].merchant != s[1..][j].merchant {
      assert s[1..][i] == s[i + 1] && s[1..][j] == s[j + 1];
    }
  }

  /** x put into its place in a ranked sequence that does not name its merchant. */
  function InsertRanked(s: seq<Recommendation>, x: Recommendation): (r: seq<Recommendation>)
    requires Ranked(s) && DistinctMerchants(s)
    requires forall y :: y in s ==> y.merchant != x.merchant
    ensures Ranked(r) && DistinctMerchants(r)
    ensures multiset(r) == multiset(s) + multiset{x}
  {
    if |s| == 0 then [x]
    else if Before(x, s[0]) then
      BeforeHeadBeforeAll(x, s);
      RankedCons(x, s);
      [x] + s
    else
      RankedTail(s);
      var t := InsertRanked(s[1..], x);
      InsertAfterHead(s, x, t);
      RankedCons(s[0], t);
      [s[0]] + t
  }

  /** What comes before the head of a ranked sequence comes before all of it. */
  lemma BeforeHeadBeforeAll(x: Recommendation, s: seq<Recommendation>)
    requires Ranked(s) && |s| > 0 && Before(x, s[0])
    ensures forall y :: y in s ==> Before(x, y)
  {
    forall y | y in s ensures Before(x, y) {
      if y != s[0] {
        BeforeTransitive(x, s[0], y);
      }
    }
  }

  /** x inserted after the head of s: everything inserted into the tail comes after the head. */
  lemma InsertAfterHead(s: seq<Recommendation>, x: Recommendation, t: seq<Recommendation>)
    requires Ranked(s) && DistinctMerchants(s) && |s| > 0
    requires forall y :: y in s ==> y.merchant != x.merchant
    requires !Before(x, s[0])
    requires multiset(t) == multiset(s[1..]) + multiset{x}
    ensures forall y :: y in t ==> Before(s[0], y) && y.merchant != s[0].merchant
    ensures multiset([s[0]] + t) == multiset(s) + multiset{x}
  {
    BeforeTotal(x, s[0]);
    RankedTail(s);
    forall y | y in t ensures Before(s[0], y) && y.merchant != s[0].merchant {
      assert y in multiset(t);
    }
    assert s == [s[0]] + s[1..];
  }

  /** The recommendations in ranking order (the descending sort of app.py line 206). */
  function SortRanked(rs: seq<Recommendation>): (r: seq<Recommendation>)
    requires DistinctMerchants(rs)
    ensures Ranked(r) && DistinctMerchants(r)
    ensures multiset(r) == multiset(rs)
  {
    if |rs| == 0 then []
    else
      DistinctTail(rs);
      var t := SortRanked(rs[1..]);
      OthersThanHead(rs, t);
      InsertRanked(t, rs[0])
  }

  /** The tail of a sequence without repeated merchants has none either. */
  lemma DistinctTail(rs: seq<Recommendation>)
    requires DistinctMerchants(rs) && |rs| > 0
    ensures DistinctMerchants(rs[1..])
  {
    forall i, j | 0 <= i < j < |rs[1..]| ensures rs[1..][i].merchant != rs[1..][j].merchant {
      assert rs[1..][i] == rs[i + 1] && rs[1..][j] == rs[j + 1];
    }
  }

  /** A permutation of the tail of rs names no merchant of its head, and with the head added is a permutation of rs. */
  lemma OthersThanHead(rs: seq<Recommendation>, t: seq<Recommendation>)
    requires DistinctMerchants(rs) && |rs| > 0 && multiset(t) == multiset(rs[1..])
    ensures forall y :: y in t ==> y.merchant != rs[0].merchant
    ensures multiset(t) + multiset{rs[0]} == multiset(rs)
  {
    forall y | y in t ensures y.merchant != rs[0].merchant {
      assert y in multiset(rs[1..]);
      var j :| 0 <= j < |rs[1..]| && rs[1..][j] == y;
      assert rs[j + 1] == y;
    }
    assert rs == [rs[0]] + rs[1..];
  }

  /**
   * The first n entries of s (head(n), app.py line 208): all of s when n is
   * at least |s|, and for negative n all but the last -n entries.
   */
  function Head<T>(s: seq<T>, n: int): (r: seq<T>)
    ensures |r| <= |s| && r == s[..|r|]
    ensures n >= 0 ==> |r| == if n < |s| then n else |s|
    ensures n < 0 ==> |r| == if |s| + n > 0 then |s| + n else 0
  {
    if n >= 0 then (if n < |s| then s[..n] else s)
    else if |s| + n > 0 then s[..|s| + n]
    else []
  }

  /** A shorter head is a prefix of a longer one. */
  lemma HeadPrefix<T>(s: seq<T>, n: int, n': int)
    requires 0 <= n <= n'
    ensures Head(s, n) == Head(s, n')[..|Head(s, n)|]
  {
  }

  /** Every unvisited merchant of user u with its estimate, in ranking order, before the cut to top_n. */
  function Ranking(pm: SpendMatrix, est: seq<real>, u: nat): (r: seq<Recommendation>)
    requires WellFormed(pm) && u < |pm.users| && |est| == |pm.merchants|
    ensures Ranked(r) && DistinctMerchants(r)
    ensures |r| == ZeroCount(pm.cells[u])
    ensures forall x :: x in r <==>
      exists j :: 0 <= j < |pm.merchants| && pm.cells[u][j] == 0.0 && x == Recommendation(pm.merchants[j], est[j])
  {
    IncreasingDistinct(pm.merchants);
    var c := Candidates(pm.merchants, pm.cells[u], est);
    var r := SortRanked(c);
    assert |r| == |multiset(r)| == |multiset(c)| == |c|;
    assert forall x :: x in r <==> x in c by {
      forall x ensures x in r <==> x in c {
        assert x in r <==> x in multiset(r);
        assert x in c <==> x in multiset(c);
      }
    }
    r
  }

  /**
   * The recommendations for user u with user d left out of the peers. The
   * source leaves out the user of greatest similarity to u; see
   * DroppingTopPeerIsDroppingSelf for why that comes to leaving out u.
   */
  function Rank(pm: SpendMatrix, sim: seq<seq<real>>, u: nat, d: nat, topN: int): (r: seq<Recommendation>)
    requires WellFormed(pm) && SquareOver(sim, |pm.users|) && u < |pm.users| && d < |pm.users|
    ensures Ranked(r) && DistinctMerchants(r)
    ensures topN >= 0 ==> |r| <= topN
    ensures |r| <= ZeroCount(pm.cells[u])
    ensures forall x :: x in r ==>
      exists j :: 0 <= j < |pm.merchants| && pm.cells[u][j] == 0.0 && pm.merchants[j] == x.merchant
  {
    match Estimates(pm, sim, u, d)
    case None => []
    case Some(est) =>
      var ranking := Ranking(pm, est, u);
      var r := Head(ranking, topN);
      assert forall x :: x in r ==> x in ranking;
      r
  }

  /**
   * get_recommendations (app.py lines 197-208): nothing for a user who is
   * not a row of the spend matrix; otherwise at most top_n merchants, each a
   * merchant of the matrix at which the user's recorded spend is 0, no
   * merchant twice, best estimate first.
   */
  function Recommend(pm: SpendMatrix, sim: seq<seq<real>>, userId: UserId, topN: int := 5): (r: seq<Recommendation>)
    requires WellFormed(pm) && SquareOver(sim, |pm.users|)
    ensures userId !in pm.users ==> r == []
    ensures topN >= 0 ==> |r| <= topN
    ensures NonIncreasing(r) && Ranked(r) && DistinctMerchants(r)
    ensures forall x :: x in r ==> SpendAt(pm, userId, x.merchant) == Some(0.0)
    ensures forall u :: 0 <= u < |pm.users| && pm.users[u] == userId ==> |r| <= ZeroCount(pm.cells[u])
  {
    IncreasingDistinct(pm.users);
    match IndexOf(pm.users, userId)
    case None => []
    case Some(u) =>
      var r := Rank(pm, sim, u, u, topN);
      RankedNonIncreasing(r);
      UnvisitedLookup(pm, u, r);
      r
  }

  /** Merchants whose cell in row u is 0 are looked up, by labels, with spend 0. */
  lemma UnvisitedLookup(pm: SpendMatrix, u: nat, r: seq<Recommendation>)
    requires WellFormed(pm) && u < |pm.users|
    requires forall x :: x in r ==>
      exists j :: 0 <= j < |pm.merchants| && pm.cells[u][j] == 0.0 && pm.merchants[j] == x.merchant
    ensures forall x :: x in r ==> SpendAt(pm, pm.users[u], x.merchant) == Some(0.0)
  {
    forall x | x in r ensures SpendAt(pm, pm.users[u], x.merchant) == Some(0.0) {
      var j :| 0 <= j < |pm.merchants| && pm.cells[u][j] == 0.0 && pm.merchants[j] == x.merchant;
      SpendAtIndex(pm, u, j);
    }
  }

  /** For a user who is a row of the spend matrix, Recommend ranks with that user left out of the peers. */
  lemma RecommendKnownUser(pm: SpendMatrix, sim: seq<seq<real>>, u: nat, topN: int)
    requires WellFormed(pm) && SquareOver(sim, |pm.users|) && u < |pm.users|
    ensures Recommend(pm, sim, pm.users[u], topN) == Rank(pm, sim, u, u, topN)
  {
    IncreasingDistinct(pm.users);
    IndexOfDistinct(pm.users, u);
  }

  /**
   * When the similarities of the other users to u add up to zero, the weights
   * are undefined and nothing is recommended.
   */
  lemma ZeroSimilaritySumRecommendsNothing(pm: SpendMatrix, sim: seq<seq<real>>, u: nat, topN: int)
    requires WellFormed(pm) && SquareOver(sim, |pm.users|) && u < |pm.users|
    requires |pm.users| > 1 && Sum(SimColumn(sim, u)) - SimColumn(sim, u)[u] == 0.0
    ensures Recommend(pm, sim, pm.users[u], topN) == []
  {
    RecommendKnownUser(pm, sim, u, topN);
  }

  /**
   * Otherwise the result is exactly the first min(top_n, z) entries of the
   * ranking of all z unvisited merchants (for negative top_n, all but the
   * last -top_n of them).
   */
  lemma RecommendIsTopOfRanking(pm: SpendMatrix, sim: seq<seq<real>>, u: nat, topN: int)
    requires WellFormed(pm) && SquareOver(sim, |pm.users|) && u < |pm.users|
    requires |pm.users| == 1 || Sum(SimColumn(sim, u)) - SimColumn(sim, u)[u] != 0.0
    ensures Estimates(pm, sim, u, u).Some?
    ensures var r := Recommend(pm, sim, pm.users[u], topN);
      var ranking := Ranking(pm, Estimates(pm, sim, u, u).value, u);
      var z := ZeroCount(pm.cells[u]);
      r == ranking[..|r|] &&
      (topN >= 0 ==> |r| == if topN < z then topN else z) &&
      (topN < 0 ==> |r| == if z + topN > 0 then z + topN else 0)
  {
    RecommendKnownUser(pm, sim, u, topN);
  }

  /** An entry of the ranking for user u names an unvisited merchant with its estimate. */
  lemma RankingEntry(pm: SpendMatrix, est: seq<real>, u: nat, x: Recommendation)
    requires WellFormed(pm) && u < |pm.users| && |est| == |pm.merchants|
    requires x in Ranking(pm, est, u)
    ensures exists j :: 0 <= j < |pm.merchants| && pm.merchants[j] == x.merchant && pm.cells[u][j] == 0.0 && x.estimate == est[j]
  {
  }

  /**
   * Every recommended merchant is unvisited and carries the estimate of the
   * user's spend there, and every estimate is the reference estimate with the
   * user left out of its own peers.
   */
  lemma RecommendEstimates(pm: SpendMatrix, sim: seq<seq<real>>, u: nat, topN: int)
    requires WellFormed(pm) && SquareOver(sim, |pm.users|) && u < |pm.users|
    requires |pm.users| == 1 || Sum(SimColumn(sim, u)) - SimColumn(sim, u)[u] != 0.0
    ensures Estimates(pm, sim, u, u).Some?
    ensures forall i :: 0 <= i < |Recommend(pm, sim, pm.users[u], topN)| ==>
      RecommendsEstimate(pm, Estimates(pm, sim, u, u).value, u, Recommend(pm, sim, pm.users[u], topN)[i])
    ensures forall j :: 0 <= j < |pm.merchants| ==> Estimates(pm, sim, u, u).value[j] == WeightedAverage(pm, sim, u, u, j)
  {
    forall i | 0 <= i < |Recommend(pm, sim, pm.users[u], topN)|
      ensures RecommendsEstimate(pm, Estimates(pm, sim, u, u).value, u, Recommend(pm, sim, pm.users[u], topN)[i])
    {
      RecommendationEntry(pm, sim, u, topN, i);
    }
    EstimatesAreWeightedAverages(pm, sim, u);
  }

  /** x names a merchant that user u has not visited, and carries that merchant's estimate. */
  predicate RecommendsEstimate(pm: SpendMatrix, est: seq<real>, u: nat, x: Recommendation)
    requires Dense(pm) && u < |pm.users| && |est| == |pm.merchants|
  {
    exists j :: 0 <= j < |pm.merchants| && pm.merchants[j] == x.merchant && pm.cells[u][j] == 0.0 && x.estimate == est[j]
  }

  /** Recommendation i names an unvisited merchant and carries its estimate. */
  lemma RecommendationEntry(pm: SpendMatrix, sim: seq<seq<real>>, u: nat, topN: int, i: nat)
    requires WellFormed(pm) && SquareOver(sim, |pm.users|) && u < |pm.users|
    requires |pm.users| == 1 || Sum(SimColumn(sim, u)) - SimColumn(sim, u)[u] != 0.0
    requires i < |Recommend(pm, sim, pm.users[u], topN)|
    ensures Estimates(pm, sim, u, u).Some?
    ensures RecommendsEstimate(pm, Estimates(pm, sim, u, u).value, u, Recommend(pm, sim, pm.users[u], topN)[i])
  {
    RecommendInRanking(pm, sim, u, topN, i);
    RankingEntry(pm, Estimates(pm, sim, u, u).value, u, Recommend(pm, sim, pm.users[u], topN)[i]);
  }

  /** With u left out of its own peers, every estimate for u is the reference weighted average. */
  lemma EstimatesAreWeightedAverages(pm: SpendMatrix, sim: seq<seq<real>>, u: nat)
    requires Dense(pm) && SquareOver(sim, |pm.users|) && u < |pm.users|
    requires |pm.users| == 1 || Sum(SimColumn(sim, u)) - SimColumn(sim, u)[u] != 0.0
    ensures Estimates(pm, sim, u, u).Some?
    ensures forall j :: 0 <= j < |pm.merchants| ==> Estimates(pm, sim, u, u).value[j] == WeightedAverage(pm, sim, u, u, j)
  {
    forall j | 0 <= j < |pm.merchants| ensures Estimates(pm, sim, u, u).value[j] == WeightedAverage(pm, sim, u, u, j) {
      EstimateFormula(pm, sim, u, u, j);
    }
  }

  /** What Recommend returns for a known user is drawn from the ranking of that user's unvisited merchants. */
  lemma RecommendInRanking(pm: SpendMatrix, sim: seq<seq<real>>, u: nat, topN: int, i: nat)
    requires WellFormed(pm) && SquareOver(sim, |pm.users|) && u < |pm.users|
    requires |pm.users| == 1 || Sum(SimColumn(sim, u)) - SimColumn(sim, u)[u] != 0.0
    requires i < |Recommend(pm, sim, pm.users[u], topN)|
    ensures Estimates(pm, sim, u, u).Some?
    ensures Recommend(pm, sim, pm.users[u], topN)[i] in Ranking(pm, Estimates(pm, sim, u, u).value, u)
  {
    RecommendKnownUser(pm, sim, u, topN);
  }

  /** With top_n at least the number of unvisited merchants, every unvisited merchant is recommended. */
  lemma AllUnvisitedRecommended(pm: SpendMatrix, sim: seq<seq<real>>, u: nat, topN: int)
    requires WellFormed(pm) && SquareOver(sim, |pm.users|) && u < |pm.users|
    requires |pm.users| == 1 || Sum(SimColumn(sim, u)) - SimColumn(sim, u)[u] != 0.0
    requires topN >= ZeroCount(pm.cells[u])
    ensures var r := Recommend(pm, sim, pm.users[u], topN);
      forall j :: 0 <= j < |pm.merchants| && pm.cells[u][j] == 0.0 ==>
        exists i :: 0 <= i < |r| && r[i].merchant == pm.merchants[j]
  {
    RecommendKnownUser(pm, sim, u, topN);
    var r := Recommend(pm, sim, pm.users[u], topN);
    var est := Estimates(pm, sim, u, u).value;
    var ranking := Ranking(pm, est, u);
    assert r == ranking;
    forall j | 0 <= j < |pm.merchants| && pm.cells[u][j] == 0.0
      ensures exists i :: 0 <= i < |r| && r[i].merchant == pm.merchants[j]
    {
      assert Recommendation(pm.merchants[j], est[j]) in ranking;
    }
  }

  /** Asking for fewer recommendations gives a prefix of asking for more. */
  lemma RecommendTopNPrefix(pm: SpendMatrix, sim: seq<seq<real>>, userId: UserId, n: int, n': int)
    requires WellFormed(pm) && SquareOver(sim, |pm.users|)
    requires 0 <= n <= n'
    ensures var r := Recommend(pm, sim, userId, n);
      r == Recommend(pm, sim, userId, n')[..|r|]
  {
    match IndexOf(pm.users, userId)
    case None =>
    case Some(u) =>
      match Estimates(pm, sim, u, u)
      case None =>
      case Some(est) =>
        HeadPrefix(Ranking(pm, est, u), n, n');
  }

  /**
   * The source leaves out the first user of the similarity column sorted in
   * descending order, which is some user d of greatest similarity to u, not
   * necessarily u itself. Whichever such d it is, the recommendations are the
   * same as with u left out: either u's row is zero and every similarity is
   * zero, or d and u both have similarity 1 and d's row points the same way
   * as u's, so d, like u, has spent nothing at the merchants u has not visited.
   */
  lemma DroppingTopPeerIsDroppingSelf(pm: SpendMatrix, norms: seq<real>, u: nat, d: nat, topN: int)
    requires WellFormed(pm) && NormsOf(pm, norms) && u < |pm.users| && d < |pm.users|
    requires forall p :: 0 <= p < |pm.users| ==> SimilarityMatrix(pm, norms)[p][u] <= SimilarityMatrix(pm, norms)[d][u]
    ensures var sim := SimilarityMatrix(pm, norms);
      Rank(pm, sim, u, d, topN) == Rank(pm, sim, u, u, topN)
  {
    var sim := SimilarityMatrix(pm, norms);
    if d != u {
      if IsZero(pm.cells[u]) {
        ZeroRowNoPeers(pm, norms, u);
      } else {
        SimilarityDiagonal(pm, norms, u);
        SimilarityBounded(pm, norms, d, u);
        if Estimates(pm, sim, u, d).Some? {
          var ed := Estimates(pm, sim, u, d).value;
          var eu := Estimates(pm, sim, u, u).value;
          forall j | 0 <= j < |pm.merchants| && pm.cells[u][j] == 0.0 ensures ed[j] == eu[j] {
            FullPeerSameEstimate(pm, norms, u, d, j);
          }
          CandidatesAgree(pm.merchants, pm.cells[u], ed, eu, 0);
        }
      }
    }
  }

  /** A user whose spend row is zero has similarity 0 to every user, so the similarities to it add up to 0. */
  lemma ZeroRowNoPeers(pm: SpendMatrix, norms: seq<real>, u: nat)
    requires WellFormed(pm) && NormsOf(pm, norms) && u < |pm.users| && IsZero(pm.cells[u])
    ensures var col := SimColumn(SimilarityMatrix(pm, norms), u);
      IsZero(col) && Sum(col) == 0.0
  {
    var col := SimColumn(SimilarityMatrix(pm, norms), u);
    forall p | 0 <= p < |pm.users| ensures col[p] == 0.0 {
      ZeroRowIsolated(pm, norms, u, p);
    }
    SumZero(col);
  }

  /**
   * When d is fully similar to u, leaving out d or u gives the same estimate
   * at a merchant u has not visited: d has spent nothing there either.
   */
  lemma FullPeerSameEstimate(pm: SpendMatrix, norms: seq<real>, u: nat, d: nat, j: nat)
    requires WellFormed(pm) && NormsOf(pm, norms) && u < |pm.users| && d < |pm.users| && j < |pm.merchants|
    requires SimilarityMatrix(pm, norms)[d][u] == 1.0 && SimilarityMatrix(pm, norms)[u][u] == 1.0
    requires pm.cells[u][j] == 0.0
    requires Estimates(pm, SimilarityMatrix(pm, norms), u, d).Some?
    ensures Estimates(pm, SimilarityMatrix(pm, norms), u, u).Some?
    ensures Estimates(pm, SimilarityMatrix(pm, norms), u, d).value[j] == Estimates(pm, SimilarityMatrix(pm, norms), u, u).value[j]
  {
    var sim := SimilarityMatrix(pm, norms);
    FullSimilarityMeansSameDirection(pm, norms, d, u);
    assert norms[u] * pm.cells[d][j] == norms[d] * pm.cells[u][j];
    NormZero(pm.cells[u], norms[u]);
    ZeroProduct(norms[u], pm.cells[d][j]);
    EstimateFormula(pm, sim, u, d, j);
    EstimateFormula(pm, sim, u, u, j);
  }

  /**
   * From the transaction table to the recommendations: a user without
   * transactions gets none, and every merchant recommended to a user occurs
   * in the table and has a mean amount of 0 for that user.
   */
  lemma RecommendFromTransactions(txs: seq<Transaction>, norms: seq<real>, userId: UserId, topN: int)
    requires NormsOf(BuildSpendMatrix(txs), norms)
    ensures var pm := BuildSpendMatrix(txs);
      var r := Recommend(pm, SimilarityMatrix(pm, norms), userId, topN);
      ((forall t :: t in txs ==> t.user != userId) ==> r == []) &&
      forall x :: x in r ==>
        (exists t :: t in txs && t.merchant == x.merchant) && MeanOrZero(Amounts(txs, userId, x.merchant)) == 0.0
  {
    var pm := BuildSpendMatrix(txs);
    var r := Recommend(pm, SimilarityMatrix(pm, norms), userId, topN);
    forall x | x in r
      ensures (exists t :: t in txs && t.merchant == x.merchant) && MeanOrZero(Amounts(txs, userId, x.merchant)) == 0.0
    {
      assert SpendAt(pm, userId, x.merchant) == Some(0.0);
      SpendIsMean(txs, userId, x.merchant);
    }
  }
}
