/**
 * The reason generator. Each applicable condition contributes one phrase
 * drawn from that condition's pool; a fallback pool is used when none
 * applies; the answer is one drawn phrase, or two phrases at distinct
 * positions joined by a single space.
 *
 * The phrase pools are a parameter (`book`); only their non-emptiness matters.
 */
module Reasons {
  import opened Text
  import opened Customers
  import opened Catalog
  import opened Risk
  import opened Scoring

  /** The conditions, in the order the source tests them. */
  datatype ReasonKind =
    | InterestReason
    | PurchaseReason
    | ProductReason
    | UpbeatReason
    | DownbeatReason
    | EngagementReason
    | ProtectionReason
    | YoungReason
    | SeniorReason
    | SocialReason
    | FallbackReason

  /** The phrase pool for each condition. */
  type Phrasebook = ReasonKind -> seq<string>

  ghost predicate WellStocked(book: Phrasebook) {
    forall k :: |book(k)| > 0 && forall i :: 0 <= i < |book(k)| ==> book(k)[i] != []
  }

  /** `ks` with `k` appended when `cond` holds. */
  function Push(ks: seq<ReasonKind>, cond: bool, k: ReasonKind): seq<ReasonKind> {
    if cond then ks + [k] else ks
  }

  /** Which of the source's conditions hold; the `elif` branches are already excluded. */
  datatype Conditions = Conditions(
    interest: bool, purchase: bool, productPhrase: bool, upbeat: bool, downbeat: bool,
    engaged: bool, protection: bool, young: bool, senior: bool, social: bool)

  function ConditionsOf(product: string, c: Customer): Conditions {
    Conditions(
      MatchesAny(product, c.interests),
      CategoryMatch(product, c.history),
      product in ProductsWithPhrase,
      c.sentiment > 0.5,
      !(c.sentiment > 0.5) && c.sentiment < -0.5,
      c.engagement > 80.0,
      AssessRisk(c) > 0.5 && Contains(product, "Insurance"),
      c.age < 30,
      !(c.age < 30) && c.age > 50,
      c.social == High)
  }

  /** The conditions that hold, each once, in the order the source tests them. */
  function KindsOf(f: Conditions): seq<ReasonKind> {
    var ks := Push([], f.interest, InterestReason);
    var ks := Push(ks, f.purchase, PurchaseReason);
    var ks := Push(ks, f.productPhrase, ProductReason);
    var ks := Push(ks, f.upbeat, UpbeatReason);
    var ks := Push(ks, f.downbeat, DownbeatReason);
    var ks := Push(ks, f.engaged, EngagementReason);
    var ks := Push(ks, f.protection, ProtectionReason);
    var ks := Push(ks, f.young, YoungReason);
    var ks := Push(ks, f.senior, SeniorReason);
    Push(ks, f.social, SocialReason)
  }

  /** The candidate reasons' conditions: the fallback exactly when nothing else applies. */
  function ReasonKinds(product: string, c: Customer): seq<ReasonKind> {
    WithFallback(KindsOf(ConditionsOf(product, c)))
  }

  function WithFallback(ks: seq<ReasonKind>): seq<ReasonKind> {
    if ks == [] then [FallbackReason] else ks
  }

  /** `drawn` holds one phrase from the pool of each applicable condition, in order. */
  ghost predicate DrawnFor(drawn: seq<string>, product: string, c: Customer, book: Phrasebook) {
    DrawnAlong(drawn, ReasonKinds(product, c), book)
  }

  /** `reason` is the single drawn phrase, or two phrases at distinct positions joined by one space. */
  ghost predicate PickedFrom(reason: string, drawn: seq<string>) {
    || (|drawn| == 1 && reason == drawn[0])
    || (|drawn| >= 2 && exists i, j :: 0 <= i < |drawn| && 0 <= j < |drawn| && i != j && reason == drawn[i] + " " + drawn[j])
  }

  /** `reason` is a possible outcome of the reason generator. */
  ghost predicate Explains(reason: string, product: string, c: Customer, book: Phrasebook) {
    exists drawn :: DrawnFor(drawn, product, c, book) && PickedFrom(reason, drawn)
  }

  /** `reasons` holds, position by position, a phrase from the pool of `kinds`. */
  ghost predicate DrawnAlong(reasons: seq<string>, kinds: seq<ReasonKind>, book: Phrasebook)
    decreases |reasons|
  {
    && |reasons| == |kinds|
    && (reasons != [] ==>
          && reasons[|reasons| - 1] in book(kinds[|kinds| - 1])
          && DrawnAlong(reasons[..|reasons| - 1], kinds[..|kinds| - 1], book))
  }

  lemma {:induction false} DrawnAlongAt(reasons: seq<string>, kinds: seq<ReasonKind>, book: Phrasebook, i: nat)
    requires DrawnAlong(reasons, kinds, book)
    requires i < |reasons|
    ensures |kinds| == |reasons| && reasons[i] in book(kinds[i])
    decreases |reasons|
  {
    if i < |reasons| - 1 {
      DrawnAlongAt(reasons[..|reasons| - 1], kinds[..|kinds| - 1], book, i);
    }
  }

  /** The candidate list is never empty, and holds the fallback only when alone. */
  lemma {:induction false} ReasonKindsNonEmpty(product: string, c: Customer)
    ensures |ReasonKinds(product, c)| >= 1
    ensures FallbackReason in ReasonKinds(product, c) <==> ReasonKinds(product, c) == [FallbackReason]
  {
    KindsOfMembers(ConditionsOf(product, c), FallbackReason);
  }

  /** A kind is in the pushed list exactly when it was there or is the one pushed. */
  lemma PushMembers(ks: seq<ReasonKind>, cond: bool, k: ReasonKind, x: ReasonKind)
    ensures x in Push(ks, cond, k) <==> x in ks || (cond && x == k)
  {
  }

  /** `KindsOf` lists exactly the kinds whose condition holds. */
  lemma {:induction false} KindsOfMembers(f: Conditions, x: ReasonKind)
    ensures x in KindsOf(f) <==>
      || (f.interest && x == InterestReason) || (f.purchase && x == PurchaseReason)
      || (f.productPhrase && x == ProductReason) || (f.upbeat && x == UpbeatReason)
      || (f.downbeat && x == DownbeatReason) || (f.engaged && x == EngagementReason)
      || (f.protection && x == ProtectionReason) || (f.young && x == YoungReason)
      || (f.senior && x == SeniorReason) || (f.social && x == SocialReason)
  {
    var k1 := Push([], f.interest, InterestReason);
    PushMembers([], f.interest, InterestReason, x);
    var k2 := Push(k1, f.purchase, PurchaseReason);
    PushMembers(k1, f.purchase, PurchaseReason, x);
    var k3 := Push(k2, f.productPhrase, ProductReason);
    PushMembers(k2, f.productPhrase, ProductReason, x);
    var k4 := Push(k3, f.upbeat, UpbeatReason);
    PushMembers(k3, f.upbeat, UpbeatReason, x);
    var k5 := Push(k4, f.downbeat, DownbeatReason);
    PushMembers(k4, f.downbeat, DownbeatReason, x);
    var k6 := Push(k5, f.engaged, EngagementReason);
    PushMembers(k5, f.engaged, EngagementReason, x);
    var k7 := Push(k6, f.protection, ProtectionReason);
    PushMembers(k6, f.protection, ProtectionReason, x);
    var k8 := Push(k7, f.young, YoungReason);
    PushMembers(k7, f.young, YoungReason, x);
    var k9 := Push(k8, f.senior, SeniorReason);
    PushMembers(k8, f.senior, SeniorReason, x);
    PushMembers(k9, f.social, SocialReason, x);
    assert KindsOf(f) == Push(k9, f.social, SocialReason);
  }

  /** Apart from the fallback, the candidate list holds exactly what the conditions list holds. */
  lemma FallbackMembers(ks: seq<ReasonKind>, x: ReasonKind)
    requires x != FallbackReason
    ensures x in WithFallback(ks) <==> x in ks
  {
  }

  /**
   * The two sentiment conditions and the two age conditions are exclusive,
   * and each holds exactly at its threshold.
   */
  lemma {:induction false} ExclusiveBranches(product: string, c: Customer)
    ensures UpbeatReason in ReasonKinds(product, c) <==> c.sentiment > 0.5
    ensures DownbeatReason in ReasonKinds(product, c) <==> c.sentiment < -0.5
    ensures YoungReason in ReasonKinds(product, c) <==> c.age < 30
    ensures SeniorReason in ReasonKinds(product, c) <==> c.age > 50
    ensures !(UpbeatReason in ReasonKinds(product, c) && DownbeatReason in ReasonKinds(product, c))
    ensures !(YoungReason in ReasonKinds(product, c) && SeniorReason in ReasonKinds(product, c))
  {
    var f := ConditionsOf(product, c);
    KindsOfMembers(f, UpbeatReason);
    KindsOfMembers(f, DownbeatReason);
    KindsOfMembers(f, YoungReason);
    KindsOfMembers(f, SeniorReason);
    FallbackMembers(KindsOf(f), UpbeatReason);
    FallbackMembers(KindsOf(f), DownbeatReason);
    FallbackMembers(KindsOf(f), YoungReason);
    FallbackMembers(KindsOf(f), SeniorReason);
  }

  /** The protection reason never applies: assessed risk never exceeds 0.5. */
  lemma {:induction false} NoProtectionReason(product: string, c: Customer)
    ensures ProtectionReason !in ReasonKinds(product, c)
  {
    var f := ConditionsOf(product, c);
    assert !f.protection;
    KindsOfMembers(f, ProtectionReason);
    FallbackMembers(KindsOf(f), ProtectionReason);
  }

  /** Every possible outcome of the reason generator is a non-empty string. */
  lemma {:induction false} ExplanationNonEmpty(reason: string, product: string, c: Customer, book: Phrasebook)
    requires WellStocked(book)
    requires Explains(reason, product, c, book)
    ensures reason != []
  {
    var drawn :| DrawnFor(drawn, product, c, book) && PickedFrom(reason, drawn);
    var ks := ReasonKinds(product, c);
    if |drawn| >= 2 {
      var i, j :| 0 <= i < |drawn| && 0 <= j < |drawn| && i != j && reason == drawn[i] + " " + drawn[j];
      DrawnAlongAt(drawn, ks, book, i);
      assert |reason| > |drawn[i]|;
    } else {
      DrawnAlongAt(drawn, ks, book, 0);
    }
  }

  /** A uniformly random choice, modelled as any element of the pool. */
  method Choose(pool: seq<string>) returns (phrase: string)
    requires |pool| > 0
    ensures phrase in pool
  {
    var k :| 0 <= k < |pool|;
    phrase := pool[k];
  }

  /** When `cond` holds, append one phrase chosen from the pool of `kind`. */
  method AppendIf(cond: bool, kind: ReasonKind, book: Phrasebook, reasons: seq<string>, ghost kinds: seq<ReasonKind>)
    returns (reasons': seq<string>, ghost kinds': seq<ReasonKind>)
    requires WellStocked(book)
    requires DrawnAlong(reasons, kinds, book)
    ensures kinds' == Push(kinds, cond, kind)
    ensures DrawnAlong(reasons', kinds', book)
    ensures !cond ==> reasons' == reasons
    ensures cond ==> |reasons'| == |reasons| + 1 && reasons'[..|reasons|] == reasons && reasons'[|reasons|] in book(kind)
  {
    reasons', kinds' := reasons, kinds;
    if cond {
      var phrase := Choose(book(kind));
      reasons', kinds' := reasons + [phrase], kinds + [kind];
      assert reasons'[..|reasons|] == reasons && kinds'[..|kinds|] == kinds;
    }
  }

  /** The tests of `get_reason`, evaluated as the source does (purchase categories by nested loops). */
  method EvaluateConditions(product: string, c: Customer) returns (f: Conditions)
    ensures f == ConditionsOf(product, c)
  {
    var cats := PurchaseCategories(c.history);
    var purchaseMatch := exists cat :: cat in cats && Contains(Lower(product), Lower(cat));
    var risk := AssessRisk(c);
    f := Conditions(
      MatchesAny(product, c.interests),
      purchaseMatch,
      product in ProductsWithPhrase,
      c.sentiment > 0.5,
      !(c.sentiment > 0.5) && c.sentiment < -0.5,   // elif
      c.engagement > 80.0,
      risk > 0.5 && Contains(product, "Insurance"),
      c.age < 30,
      !(c.age < 30) && c.age > 50,                   // elif
      c.social == High);
  }

  /** The conditional appends of `get_reason`, in the source's order. */
  method ConditionalReasons(f: Conditions, book: Phrasebook) returns (reasons: seq<string>)
    requires WellStocked(book)
    ensures DrawnAlong(reasons, KindsOf(f), book)
  {
    ghost var kinds: seq<ReasonKind>;
    reasons, kinds := AppendIf(f.interest, InterestReason, book, [], []);
    reasons, kinds := AppendIf(f.purchase, PurchaseReason, book, reasons, kinds);
    reasons, kinds := AppendIf(f.productPhrase, ProductReason, book, reasons, kinds);
    reasons, kinds := AppendIf(f.upbeat, UpbeatReason, book, reasons, kinds);
    reasons, kinds := AppendIf(f.downbeat, DownbeatReason, book, reasons, kinds);
    reasons, kinds := AppendIf(f.engaged, EngagementReason, book, reasons, kinds);
    reasons, kinds := AppendIf(f.protection, ProtectionReason, book, reasons, kinds);
    reasons, kinds := AppendIf(f.young, YoungReason, book, reasons, kinds);
    reasons, kinds := AppendIf(f.senior, SeniorReason, book, reasons, kinds);
    reasons, kinds := AppendIf(f.social, SocialReason, book, reasons, kinds);
  }

  /** The list `reasons` built by `get_reason`, fallback included. */
  method CollectReasons(product: string, c: Customer, book: Phrasebook) returns (reasons: seq<string>)
    requires WellStocked(book)
    ensures DrawnFor(reasons, product, c, book)
  {
    var f := EvaluateConditions(product, c);
    reasons := ConditionalReasons(f, book);
    ghost var kinds := KindsOf(f);
    reasons, kinds := AppendIf(reasons == [], FallbackReason, book, reasons, kinds);
    assert kinds == WithFallback(KindsOf(f));
  }

  /** Sample one phrase, or two at distinct positions when there are several, and join them with a space. */
  method SampleAndJoin(reasons: seq<string>) returns (reason: string)
    requires |reasons| > 0
    ensures PickedFrom(reason, reasons)
  {
    if |reasons| == 1 {
      reason := reasons[0];
    } else {
      var i, j :| 0 <= i < |reasons| && 0 <= j < |reasons| && i != j;
      reason := reasons[i] + " " + reasons[j];
    }
  }

  /** `get_reason`: collect one phrase per applicable condition, then sample one or two. */
  method GetReason(product: string, c: Customer, book: Phrasebook) returns (reason: string)
    requires WellStocked(book)
    ensures Explains(reason, product, c, book)
    ensures reason != []
  {
    var reasons := CollectReasons(product, c, book);
    ReasonKindsNonEmpty(product, c);
    reason := SampleAndJoin(reasons);
    ExplanationNonEmpty(reason, product, c, book);
  }
}
