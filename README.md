# Product recommendation engine — Dafny model

This project models the product recommendation engine of a customer
insights application (`code/src/Utils/recommendations.py`). It blends
similarity to other customers' purchases (collaborative filtering) with
rule-based matching against the customer's interests (contextual
filtering). The engine takes
a customer record, the population of customer records and a precomputed
customer-similarity matrix. It returns a ranked, explained list of at most
five products. The model covers the local paths only; the remote-service
branches are left out.

- **Risk** (`risk.dfy`): `assess_risk` adds 0.3 for a sentiment below -0.5 and
  0.2 for an engagement below 30, then clamps at 1.0. The model proves the
  exact value in each case. The result always lies in [0, 0.5], so the clamp
  never binds.
- **Scoring** (`scoring.dfy`): `score_recommendation` starts at 0.5 and adds
  the interest, purchase-category, insurance, engagement and sentiment
  adjustments, then clamps to [0, 1]. `Score` is the specification as a sum
  of named adjustments. `ScoreRecommendation` accumulates the score as the
  source does. `PurchaseCategories` builds the purchase categories with the
  source's nested loops; both are proved equal to their specifications.
- **Reasons** (`reasons.dfy`): `get_reason` draws one phrase for each
  condition that applies, in the source's order. It uses a fallback pool when
  no condition applies, then joins a random sample of one or two phrases.
  The phrase pools are a parameter (`Phrasebook`) required to be non-empty
  with non-empty phrases. Random choices are non-deterministic choices. The
  result is specified by `Explains`: some drawing along the applicable
  conditions, followed by one phrase, or two phrases at distinct positions
  joined by one space.
- **Engine** (`engine.dfy`), the rest of `recommend_products`:
  - the row lookup by customer name;
  - `np.argsort` and the three most similar customers without the customer's own row;
  - the peers' purchases minus the customer's own;
  - the interest filter with its fallback;
  - the interest catalogue;
  - the strategy switch;
  - scoring, the stable descending sort and the cut to five.

  `recommend_new_customer` is the catalogue-only path, always scored as
  "contextual".
- **Support**:
  - `seqs.dfy` holds sequence helpers.
  - `ranking.dfy` holds the stable descending sort `SortDesc` with its
    permutation, order, stability and map-commutation lemmas. It models
    Python's `sorted(..., reverse=True)`, which keeps equal keys in input
    order.
  - `text.dfy` models `str.lower()` on ASCII letters and the substring test
    `in`.
  - `customers.dfy` holds the records.
  - `catalog.dfy` holds the two static tables and the keys of the
    product-phrase table.

The strategy label is a datatype. The source compares it only with
"collaborative" and "contextual", so `Hybrid` stands for every other label.

The source raises an `IndexError` when the customer is absent (the `[0]` on an
empty match list), where the design describes a not-found error. The model
returns `Failure(CustomerNotFound(name))` exactly in that case.

## Model

| member | source | states |
|---|---|---|
| Risk.AssessRisk | code/src/Utils/recommendations.py:151-157 | the risk is in [0, 0.5], and it is 0 exactly when sentiment >= -0.5 and engagement >= 30 |
| Risk.AssessRiskCases | code/src/Utils/recommendations.py:151-157 | the risk is exactly 0, 0.3, 0.2 or 0.5 in the four sentiment/engagement cases |
| Risk.RiskClampNeverBinds | code/src/Utils/recommendations.py:151-157 | the penalties sum to at most 0.5, so `min(risk, 1.0)` returns the sum unchanged |
| Text.Lower | code/src/Utils/recommendations.py:164 | `str.lower()` keeps the length and lowers each character in place |
| Text.ContainsIffOccurs | code/src/Utils/recommendations.py:164 | Python's `needle in hay` holds exactly when `needle` occurs at some offset of `hay` |
| Scoring.CategoriesOfMembers | code/src/Utils/recommendations.py:173-188 | a category is a purchase category exactly when some purchase in the history is listed under it in the table |
| Scoring.PurchaseCategories | code/src/Utils/recommendations.py:173-188 | the nested loops over purchases and table entries produce exactly the purchase categories of the history |
| Scoring.Clamp | code/src/Utils/recommendations.py:206 | the result is in [0, 1], equals its input inside [0, 1], and is 0 below and 1 above |
| Scoring.ClampMonotone | code/src/Utils/recommendations.py:206 | the clamp preserves the order of raw scores |
| Scoring.Score | code/src/Utils/recommendations.py:160-206 | the score is always in [0, 1] |
| Scoring.RawScore | code/src/Utils/recommendations.py:161-204 | the unclamped score lies between 0.3 and 1.45 plus the sentiment adjustment; an interest match puts it at 0.8 or more, and at risk <= 0.5 a product without a match stays at 0.75 or less, each shifted by the sentiment adjustment |
| Scoring.NoInsuranceBoostAtLowRisk | code/src/Utils/recommendations.py:195-196 | at any risk <= 0.5, which is every risk the engine assesses, the insurance adjustment is 0 |
| Scoring.InterestMatchNeverRanksBelow | code/src/Utils/recommendations.py:163-170 | at risk <= 0.5, a product that matches an interest has a higher raw score and a no lower score than one that matches none, for every strategy |
| Scoring.ScoreRecommendation | code/src/Utils/recommendations.py:160-206 | the running accumulation of adjustments ends, after the clamp, at `Score`, so it is in [0, 1] |
| Reasons.KindsOfMembers | code/src/Utils/recommendations.py:216-334 | a reason kind is listed exactly when its condition holds: interest match, purchase-category match, product phrase, sentiment > 0.5, sentiment < -0.5, engagement > 80, risk > 0.5 on an insurance product, age < 30, age > 50, high social activity |
| Reasons.ReasonKindsNonEmpty | code/src/Utils/recommendations.py:336-343 | the list of applicable reasons is never empty, and it holds the fallback exactly when the fallback is its only entry |
| Reasons.ExclusiveBranches | code/src/Utils/recommendations.py:276-325 | the upbeat reason applies exactly when sentiment > 0.5 and the downbeat one exactly when sentiment < -0.5; the two never both apply; the same holds for the age branches (< 30, > 50) |
| Reasons.NoProtectionReason | code/src/Utils/recommendations.py:301-309 | the insurance reason never applies, because the assessed risk never exceeds 0.5 |
| Reasons.ExplanationNonEmpty | code/src/Utils/recommendations.py:346 | every possible outcome of the reason generator is a non-empty string |
| Reasons.Choose | code/src/Utils/recommendations.py:274 | `random.choice` returns an element of the pool |
| Reasons.AppendIf | code/src/Utils/recommendations.py:273-274 | a conditional append adds exactly one phrase from the condition's pool when the condition holds, and nothing otherwise |
| Reasons.EvaluateConditions | code/src/Utils/recommendations.py:216-328 | the conditions are evaluated as the source tests them, with the `elif` branches excluded and the purchase categories built by loops |
| Reasons.ConditionalReasons | code/src/Utils/recommendations.py:216-334 | the reasons list holds one phrase from the pool of each applicable condition, in the source's order |
| Reasons.CollectReasons | code/src/Utils/recommendations.py:210-343 | the reasons list follows the applicable conditions, or is a single fallback phrase when none applies |
| Reasons.SampleAndJoin | code/src/Utils/recommendations.py:346 | the result is the only reason, or two reasons at distinct positions joined by one space |
| Reasons.GetReason | code/src/Utils/recommendations.py:209-346 | the reason is a possible outcome of the generator for this product and customer, and it is non-empty |
| Engine.FirstIndexOf | code/src/Utils/recommendations.py:34 | no index exactly when no row carries the name; otherwise the first row that carries it |
| Engine.DescendingIndices | code/src/Utils/recommendations.py:37 | the sorted positions cover every row position, and their similarities never increase |
| Engine.ArgSort | code/src/Utils/recommendations.py:37 | `np.argsort`: every position appears exactly once, each is in range, and similarities never decrease along the order |
| Engine.TopThree | code/src/Utils/recommendations.py:37 | `argsort(row)[-3:][::-1]` has min(3, n) distinct in-range positions, most similar first |
| Engine.TopThreeDominates | code/src/Utils/recommendations.py:37 | a position outside the top three is no more similar than any position inside it |
| Engine.Without | code/src/Utils/recommendations.py:38 | the list comprehension keeps exactly the entries different from the customer's own row |
| Engine.WithoutNoDuplicates | code/src/Utils/recommendations.py:38 | dropping the customer's own row keeps distinct positions distinct |
| Engine.WithoutKeepsOrder | code/src/Utils/recommendations.py:38 | dropping the customer's own row keeps the most-similar-first order |
| Engine.SimilarUsers | code/src/Utils/recommendations.py:37-38 | the similar users are exactly the top three positions other than the customer's own row, distinct and most similar first; there are min(3, n) of them, one fewer when the customer's own row is among the top three |
| Engine.WithoutCount | code/src/Utils/recommendations.py:38 | the comprehension drops exactly the occurrences of the customer's own row, so the list shrinks by their number |
| Engine.WithoutCountNoDuplicates | code/src/Utils/recommendations.py:38 | on duplicate-free positions, dropping the customer's own row removes one entry when it is present and none otherwise |
| Engine.SimilarUsersAreMostSimilar | code/src/Utils/recommendations.py:37-38 | every other customer left out of the similar users is no more similar than any chosen one |
| Engine.PeerPurchasesMembers | code/src/Utils/recommendations.py:41-43 | a product is collected exactly when some similar customer's history contains it |
| Engine.Enumerate | code/src/Utils/recommendations.py:47 | `list(s)` holds every element of the set exactly once |
| Engine.CollaborativePool | code/src/Utils/recommendations.py:41-47 | the collaborative list is duplicate-free and holds exactly the peers' purchases minus the customer's own |
| Engine.MatchingOnlyMembers | code/src/Utils/recommendations.py:50-53 | the filter keeps exactly the items that contain an interest case-insensitively, and keeps a duplicate-free list duplicate-free |
| Engine.MatchingOnlyEmpty | code/src/Utils/recommendations.py:50-57 | the filter keeps nothing exactly when no item contains an interest |
| Engine.FilteredSet | code/src/Utils/recommendations.py:50-57 | as a set, the filter with its fallback is the matching items when some item matches, and the whole pool otherwise |
| Engine.FilterByInterests | code/src/Utils/recommendations.py:50-57 | if some item matches, exactly the matching items are kept in order; otherwise the unfiltered list is kept |
| Engine.ContextRecsMembers | code/src/Utils/recommendations.py:74-77 | a product is a contextual candidate exactly when it is in the catalogue of one of the customer's known interests |
| Engine.ContextCandidates | code/src/Utils/recommendations.py:74-77 | the loop extends by the catalogue products of each known interest, in interest order |
| Engine.CombineCandidates | code/src/Utils/recommendations.py:83-88 | "collaborative" gives the filtered list, "contextual" the catalogue list, and any other label a duplicate-free union of both |
| Engine.Candidates | code/src/Utils/recommendations.py:41-88 | the candidate list is the one the strategy selects from the collaborative set and the contextual list |
| Engine.CandidatesOrigin | code/src/Utils/recommendations.py:37-88 | a collaborative candidate was bought by a similar customer other than the customer, and never by the customer; a contextual candidate is in the catalogue of one of the customer's interests; a hybrid candidate is one or the other |
| Engine.RankedIsStableOrder | code/src/Utils/recommendations.py:96 | the ranking is a permutation of the candidates, ordered by non-increasing score, with equal scores in candidate order |
| Engine.TopFiveProperties | code/src/Utils/recommendations.py:91-96 | the result has min(5, candidates) entries with non-increasing scores; each is for a candidate, carries the shared risk and has a non-empty reason |
| Engine.RankAndExplain | code/src/Utils/recommendations.py:91-96 | scoring, explaining, sorting by score and keeping five yields the first five ranked candidates, each with its score, the risk and a possible reason |
| Engine.RecommendProducts | code/src/Utils/recommendations.py:33-96 | a failure happens exactly when the name is absent, and then it is CustomerNotFound; otherwise the result is the top five of the strategy's candidates at the assessed risk, with at most 5 entries |
| Engine.RecommendNewCustomer | code/src/Utils/recommendations.py:118-148 | the top five of the catalogue candidates scored as "contextual"; each product is in the catalogue of one of the interests, and empty interests give an empty list |
| Ranking.SortDesc | code/src/Utils/recommendations.py:96 | `sorted(..., reverse=True)` returns as many entries as it is given; the lemmas below state that they are the same entries, ordered and stable |
| Seqs.Take | code/src/Utils/recommendations.py:96 | `[:5]` keeps min(5, n) entries, the first ones in order |
| Seqs.Reverse | code/src/Utils/recommendations.py:37 | `[::-1]` keeps the length and puts entry i at position n - 1 - i |
| Ranking.SortDescPermutes | code/src/Utils/recommendations.py:96 | the sort is a permutation of its input |
| Ranking.SortDescOrdered | code/src/Utils/recommendations.py:96 | the sort output has non-increasing keys |
| Ranking.SortDescStable | code/src/Utils/recommendations.py:96 | for each key value, the entries with that key keep their input order |
| Ranking.SortDescMap | code/src/Utils/recommendations.py:96 | sorting records by score and then projecting their products equals sorting the products by the same score |

## Left out

- The remote-service branches of both entry points (lines 10-31 and 100-116): network calls with a fallback to the local path.
- `plot_customer_insights` (lines 349-416): chart construction and the wall clock.
- `code/src/main.py` (the UI), `code/src/Utils/embeddings.py` (how the similarity matrix is computed) and `code/src/Utils/data_processing.py` (loading records) are not part of this model. The similarity matrix is an input, required to be square with one row per customer (`Aligned`).
- The phrase texts. The pools are an abstract `Phrasebook` with one pool per reason kind. In the source the product pool is the product's own entry of the product-phrase table, and the interest and purchase pools are built from the matching interests and the purchase history. One pool per kind stands for all of these, so `Explains` captures the outcomes for one product and customer at a time, not the source's set of outcomes across several products under one fixed book. Only the conditions that select a pool, and the sampling and joining, are modelled.
- Randomness: `random.choice` and `random.sample` are non-deterministic choices.
- Floating point: scores, risks, sentiment and engagement are exact reals.
- `str.lower()` is modelled for ASCII letters only, without Unicode case mapping.
- Engine.ArgSort: numpy's default sort is not stable. The model fixes one order among equal similarities (the reverse of a stable descending sort), so which of several equally similar customers is chosen is one of numpy's possible choices, not necessarily numpy's.
- Engine.Enumerate: the iteration order of a Python set is not modelled. Any duplicate-free order of the set's elements is allowed.
- Record validation and malformed input (missing keys, wrong types) are not modelled: a `Customer` always has every field with its type.
