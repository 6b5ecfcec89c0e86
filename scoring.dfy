/**
 * The recommendation scorer: 0.5 plus five additive adjustments, clamped to [0, 1].
 * `Score` is the specification; `ScoreRecommendation` is the procedure, which
 * builds the purchase categories with nested loops and accumulates the score.
 */
module Scoring {
  import opened Text
  import opened Customers
  import opened Catalog

  /** Some token occurs in the product name, ignoring case. */
  predicate MatchesAny(product: string, tokens: seq<string>) {
    exists i :: 0 <= i < |tokens| && Contains(Lower(product), Lower(tokens[i]))
  }

  /** The categories whose purchase list holds `purchase`. */
  function CategoriesOfProduct(purchase: string): set<string> {
    set cat | cat in PurchaseCategoryTable && purchase in PurchaseCategoryTable[cat]
  }

  /** The categories implied by a purchase history. */
  function CategoriesOf(history: seq<string>): set<string> {
    if history == [] then {}
    else CategoriesOf(history[..|history| - 1]) + CategoriesOfProduct(history[|history| - 1])
  }

  /** A category is implied exactly when some purchase is listed under it. */
  lemma {:induction false} CategoriesOfMembers(history: seq<string>, cat: string)
    ensures cat in CategoriesOf(history) <==>
      cat in PurchaseCategoryTable && exists j :: 0 <= j < |history| && history[j] in PurchaseCategoryTable[cat]
  {
    if history != [] {
      var init := history[..|history| - 1];
      CategoriesOfMembers(init, cat);
      if cat in PurchaseCategoryTable && exists j :: 0 <= j < |history| && history[j] in PurchaseCategoryTable[cat] {
        var j :| 0 <= j < |history| && history[j] in PurchaseCategoryTable[cat];
        if j < |init| { assert init[j] == history[j]; }
      }
    }
  }

  predicate CategoryMatch(product: string, history: seq<string>) {
    exists cat :: cat in CategoriesOf(history) && Contains(Lower(product), Lower(cat))
  }

  function InterestAdjustment(product: string, c: Customer, strategy: Strategy): real {
    if MatchesAny(product, c.interests) then 0.3 + (if strategy == Contextual then 0.2 else 0.0)
    else -0.2
  }

  function CategoryAdjustment(product: string, c: Customer, strategy: Strategy): real {
    if CategoryMatch(product, c.history) then 0.15 + (if strategy == Collaborative then 0.2 else 0.0)
    else 0.0
  }

  function InsuranceAdjustment(product: string, risk: real): real {
    if risk > 0.5 && Contains(product, "Insurance") then 0.2 else 0.0
  }

  function EngagementAdjustment(c: Customer): real {
    if c.engagement > 80.0 then 0.1 else 0.0
  }

  function SentimentAdjustment(c: Customer): real {
    if c.sentiment > 0.0 then 0.05 * c.sentiment else 0.0
  }

  /**
   * The score before clamping. The strategy bonuses for interest (contextual)
   * and category (collaborative) never both apply, so the largest raw score is
   * 0.5 + 0.5 + 0.15 + 0.2 + 0.1, plus the sentiment bonus; the smallest is 0.5 - 0.2.
   * Without an interest match and with no insurance boost it is at most
   * 0.5 - 0.2 + 0.35 + 0.1; with a match it is at least 0.5 + 0.3.
   */
  function RawScore(product: string, c: Customer, risk: real, strategy: Strategy): (raw: real)
    ensures 0.3 + SentimentAdjustment(c) <= raw <= 1.45 + SentimentAdjustment(c)
    ensures MatchesAny(product, c.interests) ==> raw >= 0.8 + SentimentAdjustment(c)
    ensures risk <= 0.5 && !MatchesAny(product, c.interests) ==> raw <= 0.75 + SentimentAdjustment(c)
  {
    0.5 + InterestAdjustment(product, c, strategy) + CategoryAdjustment(product, c, strategy)
    + InsuranceAdjustment(product, risk) + EngagementAdjustment(c) + SentimentAdjustment(c)
  }

  function Clamp(x: real): (r: real)
    ensures 0.0 <= r <= 1.0
    ensures 0.0 <= x <= 1.0 ==> r == x
    ensures x < 0.0 ==> r == 0.0
    ensures x > 1.0 ==> r == 1.0
  {
    var lo := if x >= 0.0 then x else 0.0;
    if lo <= 1.0 then lo else 1.0
  }

  function Score(product: string, c: Customer, risk: real, strategy: Strategy): (s: real)
    ensures 0.0 <= s <= 1.0
  {
    Clamp(RawScore(product, c, risk, strategy))
  }

  /** The clamp is monotone, so a larger raw score never yields a smaller score. */
  lemma ClampMonotone(x: real, y: real)
    requires x <= y
    ensures Clamp(x) <= Clamp(y)
  {
  }

  /** A risk from the risk assessor (at most 0.5) never triggers the insurance boost. */
  lemma NoInsuranceBoostAtLowRisk(product: string, risk: real)
    requires risk <= 0.5
    ensures InsuranceAdjustment(product, risk) == 0.0
  {
  }

  /**
   * With a risk of at most 0.5 a product matching an interest never scores
   * below one that matches none, whatever the strategy.
   */
  lemma InterestMatchNeverRanksBelow(p: string, q: string, c: Customer, risk: real, strategy: Strategy)
    requires risk <= 0.5
    requires MatchesAny(p, c.interests) && !MatchesAny(q, c.interests)
    ensures RawScore(p, c, risk, strategy) > RawScore(q, c, risk, strategy)
    ensures Score(p, c, risk, strategy) >= Score(q, c, risk, strategy)
  {
    ClampMonotone(RawScore(q, c, risk, strategy), RawScore(p, c, risk, strategy));
  }

  /** `purchase_categories`: for each purchase, every category listing it. */
  method PurchaseCategories(history: seq<string>) returns (cats: set<string>)
    ensures cats == CategoriesOf(history)
  {
    cats := {};
    var i := 0;
    while i < |history|
      invariant 0 <= i <= |history|
      invariant cats == CategoriesOf(history[..i])
    {
      var remaining := PurchaseCategoryTable.Keys;
      while remaining != {}
        invariant remaining <= PurchaseCategoryTable.Keys
        invariant cats == CategoriesOf(history[..i]) + (CategoriesOfProduct(history[i]) - remaining)
        decreases remaining
      {
        var cat :| cat in remaining;
        if history[i] in PurchaseCategoryTable[cat] {
          cats := cats + {cat};
        }
        remaining := remaining - {cat};
      }
      assert history[..i + 1][..i] == history[..i];
      i := i + 1;
    }
    assert history[..i] == history;
  }

  /** `score_recommendation`, accumulating into a running score as the source does. */
  method ScoreRecommendation(product: string, c: Customer, risk: real, strategy: Strategy)
    returns (score: real)
    ensures score == Score(product, c, risk, strategy)
    ensures 0.0 <= score <= 1.0
  {
    var base := 0.5;
    if MatchesAny(product, c.interests) {
      base := base + 0.3;
      if strategy == Contextual {
        base := base + 0.2;
      }
    } else {
      base := base - 0.2;
    }
    var cats := PurchaseCategories(c.history);
    if exists cat :: cat in cats && Contains(Lower(product), Lower(cat)) {
      base := base + 0.15;
      if strategy == Collaborative {
        base := base + 0.2;
      }
    }
    if risk > 0.5 && Contains(product, "Insurance") {
      base := base + 0.2;
    }
    if c.engagement > 80.0 {
      base := base + 0.1;
    }
    if c.sentiment > 0.0 {
      base := base + 0.05 * c.sentiment;
    }
    score := Clamp(base);
  }
}
