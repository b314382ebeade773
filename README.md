# Merchant recommender: a Dafny model

This project models the merchant recommender of the transactions dashboard
(`app.py`, lines 188-208). The recommender is user-based collaborative
filtering in three stages:

1. **Spend matrix** (`pivot_table`, line 189). The transaction table becomes
   a matrix with one row per user and one column per merchant. Both label
   sets come out sorted ascending. Each cell holds the mean amount of that
   user's transactions at that merchant, or 0 for a pair never seen.
2. **Similarity matrix** (`cosine_similarity`, lines 192-194). This is the
   user-by-user cosine of the spend rows. A zero row is similar to nothing,
   itself included.
3. **`get_recommendations(user_id, top_n)`** (lines 197-208).
   - An unknown user gets nothing.
   - Otherwise the user's similarity column, minus its top entry, gives the
     peers. Their similarities are divided by their total to form weights.
   - Each merchant's estimated spend is the weighted sum of the peers' spend
     there.
   - The merchants the user has not spent at are sorted by estimate,
     descending, and the first `top_n` are returned.

The model works in exact arithmetic (`real`). It is made of functions over
sequences, as the source is made of whole-table expressions, plus lemmas
about them. Modules:

- `Vectors` (`vectors.dfy`): sums, dot products, and the Cauchy-Schwarz
  inequality with its equality case.
- `Labels` (`labels.dfy`): string order, the sorted distinct label
  sequences of the pivot, and label lookup.
- `Aggregation` (`aggregation.dfy`): transactions and the spend matrix.
- `Similarity` (`similarity.dfy`): cosine and the similarity matrix.
- `Recommender` (`recommender.dfy`): weights, estimates, candidates, ranking,
  `head`, and `Recommend`.
- `Scenarios` (`scenarios.dfy`): one worked example, traced end to end from
  six transactions to the recommendations of each user.
- `Options` (`options.dfy`): the `Option` type.

Decisions where the model has to pick a reading:

- **Norms.** A square root cannot be defined here, so the norm of each spend
  row is an input. `NormsOf` pins it down exactly: it is non-negative and its
  square is the row's dot product with itself.
- **The dropped peer (line 201).** The code drops the first entry of the
  similarity column after sorting it descending. That entry is *some* user of
  greatest similarity, not necessarily the target. `Rank` takes the dropped
  user `d` as a parameter. `DroppingTopPeerIsDroppingSelf` proves that every
  such `d` gives the same result as dropping the target, which is what
  `Recommend` does.
- **Peer order.** The code orders peers by similarity before combining them.
  The model keeps matrix order, because a weighted sum does not depend on
  order in exact arithmetic.
- **In-code corner cases.**
  - A single-user matrix has no peers. The code then computes an empty
    product, which gives estimates of 0 for every merchant. The model does
    the same.
  - Peers whose similarities sum to 0 make line 202 divide by zero. The
    model returns no recommendations in that case (see "Left out").
- **Ordering.** The code's sort leaves the order of equal estimates open.
  The model breaks ties by merchant name ascending (`Before`).
- **`top_n`.** It defaults to 5, as in the signature at line 197. The
  dashboard's one call (line 216) relies on that default. It follows `head`
  exactly, including a negative `top_n`, which drops the last `-top_n`
  entries. The code never checks the argument, so a zero or negative `top_n`
  is not rejected in the model either.

## Model

| member | source | states |
|---|---|---|
| Aggregation.AmountsMembers | app.py:189 | each amount x occurs among the amounts grouped for (u, m) exactly as many times as the table holds the transaction (u, m, x), so repeated amounts keep their weight in the mean |
| Aggregation.MeanOrZero | app.py:189 | the aggregate of a group is its mean (mean times count equals the sum), and 0 for an empty group (the fill value) |
| Aggregation.MeanWithin | app.py:189 | a mean cell lies between the least and the greatest amount averaged |
| Aggregation.BuildSpendMatrix | app.py:189 | the pivot is dense, its users and merchants are exactly those occurring in the table, ascending and without repeats, and each cell is the mean amount of its pair or 0 |
| Aggregation.SpendAt | app.py:189 | a cell can be looked up by labels exactly when both labels belong to the matrix |
| Aggregation.SpendAtIndex | app.py:189 | looking up the labels of row i and column j gives cell (i, j) |
| Aggregation.SpendIsMean | app.py:189 | for a user and a merchant that both occur, the spend is the mean amount of their transactions, and 0 when they never occur together |
| Labels.SortedDistinct | app.py:189 | the pivot labels are ascending and hold exactly the values of the label column |
| Labels.IncreasingUnique | app.py:189 | an ascending label sequence is determined by its set of labels |
| Labels.BelowTotal | app.py:189 | any two different labels are ordered one way or the other |
| Labels.BelowTransitive | app.py:189 | the label order is transitive |
| Labels.BelowIrreflexive | app.py:189 | no label is below itself |
| Labels.IndexOf | app.py:198 | a user index is found exactly when the user is a row label, at the user's first position |
| Labels.IndexOfDistinct | app.py:198 | in a label sequence without repeats, looking up the label at position k finds k |
| Vectors.CauchySchwarz | app.py:192-194 | a . b lies between -(na nb) and na nb for norms na and nb |
| Vectors.CauchySchwarzEquality | app.py:192-194 | a . b equal to na nb forces nb a = na b entry by entry |
| Vectors.DotSelf | app.py:192-194 | v . v is non-negative, and zero exactly for the zero vector |
| Vectors.NormZero | app.py:192-194 | a norm is zero exactly for the zero vector |
| Similarity.SimilarityMatrix | app.py:192-194 | the similarity matrix is users by users, and entry (i, j) is the cosine of rows i and j, or 0 when either row is zero |
| Similarity.CosineSymmetric | app.py:192-194 | cosine is symmetric |
| Similarity.CosineSelf | app.py:192-194 | a vector's cosine with itself is 1, or 0 for the zero vector |
| Similarity.CosineBounded | app.py:192-194 | cosine lies in [-1, 1] |
| Similarity.CosineOne | app.py:192-194 | cosine 1 means both vectors are non-zero and point the same way |
| Similarity.SimilaritySymmetric | app.py:192-194 | sim(i, j) == sim(j, i) |
| Similarity.SimilarityDiagonal | app.py:192-194 | sim(i, i) is 1 for a non-zero spend row and 0 for a zero row |
| Similarity.SimilarityBounded | app.py:192-194 | every similarity lies in [-1, 1] |
| Similarity.ZeroRowIsolated | app.py:192-194 | a user with a zero spend row has similarity 0 to everyone, in both directions |
| Similarity.FullSimilarityMeansSameDirection | app.py:192-194 | two users of similarity 1 have non-zero rows pointing the same way |
| Recommender.SimColumn | app.py:201 | the similarity column of u holds every user's similarity to u |
| Recommender.PeerWeights | app.py:201-202 | there are no weights only when there are peers and their similarities sum to 0; otherwise one weight per peer, summing to 1 with at least one peer, and empty with none |
| Recommender.PeerWeightsSumToOne | app.py:201-202 | leaving one user out leaves one peer fewer than users, and a non-zero similarity sum gives weights summing to 1 |
| Recommender.Estimates | app.py:201-204 | estimates exist exactly when there are no peers or the peers' similarity sum is non-zero, one per merchant |
| Recommender.EstimateFormula | app.py:202-204 | each estimate at merchant j equals the reference weighted average, and written out: the sum over all users of spend(p, j) sim(p, u) minus the dropped user's term, over the similarity sum minus the dropped user's similarity; 0 with no peers |
| Recommender.Candidates | app.py:205-206 | the candidates are exactly the unvisited merchants with their estimates, one per unvisited merchant, no merchant twice |
| Recommender.CandidatesAgree | app.py:205-206 | the candidates depend only on the estimates at unvisited merchants |
| Recommender.BeforeTotal | app.py:206 | the ranking order compares any two different recommendations |
| Recommender.BeforeTransitive | app.py:206 | the ranking order is transitive |
| Recommender.RankedNonIncreasing | app.py:206 | a ranked list has non-increasing estimates |
| Recommender.SortRanked | app.py:206 | sorting gives a ranked permutation of the candidates |
| Recommender.Ranking | app.py:205-206 | the ranking is ranked, one entry per unvisited merchant, and holds exactly the unvisited merchants with their estimates |
| Recommender.Head | app.py:208 | head(n) is a prefix of length min(n, len), and for negative n all but the last -n entries |
| Recommender.HeadPrefix | app.py:208 | a smaller head is a prefix of a larger one |
| Recommender.Rank | app.py:200-208 | with any user dropped from the peers, the result is ranked, has no merchant twice, has at most top_n entries and at most as many as unvisited merchants, and holds only unvisited merchants |
| Recommender.Recommend | app.py:197-208 | an unknown user gets nothing; otherwise at most top_n merchants (5 by default), estimates non-increasing, no merchant twice, each one a merchant at which the user's spend is 0 |
| Recommender.RecommendKnownUser | app.py:197-201 | for a known user the result is the ranking with that user left out of its peers |
| Recommender.ZeroSimilaritySumRecommendsNothing | app.py:201-202 | peers whose similarities sum to zero lead to no recommendation |
| Recommender.RecommendIsTopOfRanking | app.py:206-208 | the result is exactly the first min(top_n, #unvisited) entries of the ranking of unvisited merchants (for negative top_n, all but the last -top_n) |
| Recommender.RankingEntry | app.py:205-206 | every ranking entry is an unvisited merchant carrying its estimate |
| Recommender.RecommendEstimates | app.py:202-206 | every recommendation is an unvisited merchant with its estimate, and every estimate is the weighted average over the other users |
| Recommender.RecommendInRanking | app.py:206-208 | every recommendation comes from the ranking |
| Recommender.AllUnvisitedRecommended | app.py:205-208 | with top_n at least the number of unvisited merchants, every unvisited merchant is recommended |
| Recommender.RecommendTopNPrefix | app.py:208 | asking for fewer recommendations gives a prefix of asking for more |
| Recommender.DroppingTopPeerIsDroppingSelf | app.py:201 | dropping any user of greatest similarity to u gives the same recommendations as dropping u itself |
| Recommender.ZeroRowNoPeers | app.py:192-194 | the similarity column of a zero-row user is zero and sums to 0 |
| Recommender.FullPeerSameEstimate | app.py:201-204 | when d is fully similar to u, dropping d or u gives the same estimate at every merchant u has not visited |
| Recommender.RecommendFromTransactions | app.py:189-208 | from the table: a user without transactions gets nothing, and every recommended merchant occurs in the table and has mean amount 0 for the user |
| Scenarios.ExamplePivot | app.py:189 | the six example transactions pivot to the 3-by-2 example matrix; a refunded purchase averages to 0 |
| Scenarios.ExampleSimilarities | app.py:192-194 | in the example, U2 is 9/15 similar to U1 and U3 is similar to nobody |
| Scenarios.ExampleEstimatesForU1 | app.py:201-204 | U1's estimates in the example are 3 at A and 4 at B |
| Scenarios.ExampleRecommendations | app.py:197-208 | in the example, whose norms are the rows' norms, with top_n at its default of 5, U1 is recommended B at 4, while U2 (nothing unvisited), U3 (no similar peer) and an unknown user get nothing |

## Left out

- Reading the transaction and segment tables from the database (app.py:183-186). The transaction table is an input sequence.
- All user-interface code: widgets, charts, filters, KPI figures, the fraud and segmentation sections, and the CSV export.
- The timestamp, category and city columns of a transaction. The pivot reads only user, merchant and amount.
- Floating point. Amounts, similarities and estimates are exact reals, so rounding, overflow, NaN amounts and infinities are not modelled. Nor are rows with a missing user or merchant, which the pivot drops: a `Transaction` always has both.
- Recommender.Recommend: peers whose similarities add up to zero with at least one peer present make line 202 divide by zero. The code then carries NaN or infinite estimates (infinite when non-zero similarities cancel, such as 0.5 and -0.5), of which it returns up to top_n. The model cannot represent those values and returns no recommendations instead.
- Square roots. The norm of each spend row is an input constrained by `NormsOf` rather than computed.
- The library internals of `cosine_similarity` and of pandas. Only the mathematical result is modelled. On an empty transaction table, `cosine_similarity` raises; the model gives an empty matrix, so every user is unknown.
- Recommender.Rank: the peers are combined in matrix order, not in the similarity-sorted order of line 201. The weighted sum does not depend on that order in exact arithmetic.
- Recommender.SortRanked: equal estimates are ordered by merchant name ascending. The sort at line 206 leaves their order unspecified, so the model fixes one of the orders the code may produce.
- The fill value 0 and a genuine mean of 0 cannot be told apart, as in the code: a user whose purchases at a merchant cancel out counts as not having visited it.
