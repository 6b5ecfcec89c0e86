/**
 * The recommendation engine: candidate pools, strategy, scoring, ranking and
 * the top-5 cut, for customers in the population and for new customers.
 */
module Engine {
  import opened Seqs
  import opened Ranking
  import opened Customers
  import opened Catalog
  import opened Risk
  import opened Scoring
  import opened Reasons

  // ---------------------------------------------------------------- lookup

  /** The first row of the population carrying `name`, if any. */
  function FirstIndexOf(population: seq<Customer>, name: string): (r: Option<nat>)
    ensures r.None? <==> forall i :: 0 <= i < |population| ==> population[i].name != name
    ensures r.Some? ==>
      && r.value < |population|
      && population[r.value].name == name
      && forall j :: 0 <= j < r.value ==> population[j].name != name
  {
    if population == [] then None
    else if population[0].name == name then Some(0)
    else match FirstIndexOf(population[1..], name)
      case None => None
      case Some(i) => Some(i + 1)
  }

  /** The similarity matrix is square and has one row per customer. */
  ghost predicate Aligned(sim: seq<seq<real>>, n: nat) {
    |sim| == n && forall i :: 0 <= i < n ==> |sim[i]| == n
  }

  // ------------------------------------------------------- similar users

  function RowKey(row: seq<real>): nat -> real {
    (i: nat) => if i < |row| then row[i] else 0.0
  }

  /** The row positions by decreasing similarity, equal values in position order. */
  function ByDecreasingSimilarity(row: seq<real>): (d: seq<nat>)
    ensures |d| == |row|
  {
    SortDesc(Indices(|row|), RowKey(row))
  }

  /** Every position appears, and the similarities along the order never increase. */
  lemma {:induction false} DescendingIndices(row: seq<real>)
    ensures forall a :: 0 <= a < |row| ==> ByDecreasingSimilarity(row)[a] < |row|
    ensures forall k :: 0 <= k < |row| ==> k in ByDecreasingSimilarity(row)
    ensures forall a, b :: 0 <= a < b < |row| ==>
      row[ByDecreasingSimilarity(row)[a]] >= row[ByDecreasingSimilarity(row)[b]]
    ensures NoDuplicates(ByDecreasingSimilarity(row))
  {
    var d := ByDecreasingSimilarity(row);
    SortDescPermutes(Indices(|row|), RowKey(row));
    assert NoDuplicates(d) by {
      PermutationNoDuplicates(Indices(|row|), d);
    }
    forall a | 0 <= a < |d| ensures d[a] < |row| {
      assert d[a] in multiset(d);
      MultisetOfIndices(|row|, d[a]);
    }
    forall k | 0 <= k < |row| ensures k in d {
      MultisetOfIndices(|row|, k);
      assert k in multiset(d);
    }
    SortDescOrdered(Indices(|row|), RowKey(row));
    forall a, b | 0 <= a < b < |d| ensures row[d[a]] >= row[d[b]] {
      assert RowKey(row)(d[a]) >= RowKey(row)(d[b]);
    }
  }

  /**
   * `np.argsort(row)`: every position exactly once, in non-decreasing order of
   * similarity. numpy leaves the order of equal values unspecified; this
   * model fixes one.
   */
  function ArgSort(row: seq<real>): (order: seq<nat>)
    ensures |order| == |row|
    ensures forall a :: 0 <= a < |order| ==> order[a] < |row|
    ensures forall k :: 0 <= k < |row| ==> k in order
    ensures forall a, b :: 0 <= a < b < |order| ==> row[order[a]] <= row[order[b]]
    ensures NoDuplicates(order)
  {
    DescendingIndices(row);
    var d := ByDecreasingSimilarity(row);
    var order := Reverse(d);
    forall k | 0 <= k < |row| ensures k in order {
      assert k in d;
      var a :| 0 <= a < |d| && d[a] == k;
      assert order[|d| - 1 - a] == k;
    }
    order
  }

  /** The last three positions of the ascending order, reversed: the (at most) three most similar positions, most similar first. */
  function TopThree(row: seq<real>): (top: seq<nat>)
    ensures |top| == Min(3, |row|)
    ensures forall t :: 0 <= t < |top| ==> top[t] < |row|
    ensures NoDuplicates(top)
    ensures forall a, b :: 0 <= a < b < |top| ==> row[top[a]] >= row[top[b]]
  {
    var order := ArgSort(row);
    Reverse(order[|order| - Min(3, |order|)..])
  }

  /** A position left out of the top three is no more similar than any position in it. */
  lemma {:induction false} TopThreeDominates(row: seq<real>, u: nat, k: nat)
    requires u in TopThree(row)
    requires k < |row| && k !in TopThree(row)
    ensures row[k] <= row[u]
  {
    var order := ArgSort(row);
    var n := |order|;
    var start := n - Min(3, n);
    var tail := order[start..];
    var top := Reverse(tail);
    assert top == TopThree(row);
    var t :| 0 <= t < |top| && top[t] == u;
    var q := start + (|tail| - 1 - t);
    assert tail[|tail| - 1 - t] == u;
    assert order[q] == u;
    forall q' | start <= q' < n ensures order[q'] in top {
      assert top[|tail| - 1 - (q' - start)] == tail[q' - start];
    }
    assert k in order;
    var p :| 0 <= p < n && order[p] == k;
    assert p < start;
    assert row[order[p]] <= row[order[q]];
  }

  /** `xs` with every occurrence of `x` dropped, order kept. */
  function Without(xs: seq<nat>, x: nat): (r: seq<nat>)
    ensures |r| <= |xs|
    ensures forall y :: y in r <==> y in xs && y != x
  {
    if xs == [] then []
    else (if xs[0] != x then [xs[0]] else []) + Without(xs[1..], x)
  }

  /** Dropping entries keeps a duplicate-free list duplicate-free. */
  lemma {:induction false} WithoutNoDuplicates(xs: seq<nat>, x: nat)
    requires NoDuplicates(xs)
    ensures NoDuplicates(Without(xs, x))
  {
    if xs != [] {
      var rest := xs[1..];
      assert NoDuplicates(rest) by {
        forall i, j | 0 <= i < j < |rest| ensures rest[i] != rest[j] {
          assert rest[i] == xs[i + 1] && rest[j] == xs[j + 1];
        }
      }
      WithoutNoDuplicates(rest, x);
      var r' := Without(rest, x);
      if xs[0] != x {
        assert xs[0] !in rest by {
          forall i | 0 <= i < |rest| ensures rest[i] != xs[0] {
            assert rest[i] == xs[i + 1];
          }
        }
        assert Without(xs, x) == [xs[0]] + r';
        forall b | 0 <= b < |r'| ensures r'[b] != xs[0] {
          assert r'[b] in r';
        }
      } else {
        assert Without(xs, x) == r';
      }
    }
  }

  /** Dropping entries keeps a list ordered by decreasing similarity ordered. */
  lemma {:induction false} WithoutKeepsOrder(xs: seq<nat>, x: nat, row: seq<real>)
    requires forall a :: 0 <= a < |xs| ==> xs[a] < |row|
    requires forall a, b :: 0 <= a < b < |xs| ==> row[xs[a]] >= row[xs[b]]
    ensures forall a :: 0 <= a < |Without(xs, x)| ==> Without(xs, x)[a] < |row|
    ensures forall a, b :: 0 <= a < b < |Without(xs, x)| ==>
      row[Without(xs, x)[a]] >= row[Without(xs, x)[b]]
  {
    var r := Without(xs, x);
    forall a | 0 <= a < |r| ensures r[a] < |row| {
      assert r[a] in r;
      var i :| 0 <= i < |xs| && xs[i] == r[a];
    }
    if xs != [] {
      var rest := xs[1..];
      WithoutKeepsOrder(rest, x, row);
      var r' := Without(rest, x);
      if xs[0] != x {
        assert r == [xs[0]] + r';
        forall b | 0 <= b < |r'| ensures row[xs[0]] >= row[r'[b]] {
          assert r'[b] in rest;
          var i :| 0 <= i < |rest| && rest[i] == r'[b];
          assert rest[i] == xs[i + 1];
        }
      } else {
        assert r == r';
      }
    }
  }

  /** Dropping `x` removes exactly its occurrences. */
  lemma {:induction false} WithoutCount(xs: seq<nat>, x: nat)
    ensures |Without(xs, x)| == |xs| - multiset(xs)[x]
  {
    if xs != [] {
      WithoutCount(xs[1..], x);
      assert xs == [xs[0]] + xs[1..];
      assert multiset(xs) == multiset{xs[0]} + multiset(xs[1..]);
    }
  }

  /** From a duplicate-free list, dropping `x` removes one entry when `x` is present and none otherwise. */
  lemma WithoutCountNoDuplicates(xs: seq<nat>, x: nat)
    requires NoDuplicates(xs)
    ensures |Without(xs, x)| == |xs| - (if x in xs then 1 else 0)
  {
    WithoutCount(xs, x);
    NoDuplicatesCount(xs);
    assert x in xs <==> x in multiset(xs);
  }

  /**
   * `similar_users`: the top three without the customer's own position, most
   * similar first; one fewer than the top three exactly when the customer is
   * among them.
   */
  function SimilarUsers(row: seq<real>, idx: nat): (users: seq<nat>)
    ensures |users| <= 3
    ensures forall u :: u in users <==> u in TopThree(row) && u != idx
    ensures |users| == Min(3, |row|) - (if idx in TopThree(row) then 1 else 0)
    ensures idx !in users
    ensures forall u :: u in users ==> u < |row|
    ensures NoDuplicates(users)
    ensures forall a, b :: 0 <= a < b < |users| ==> users[a] < |row| && users[b] < |row| && row[users[a]] >= row[users[b]]
  {
    var top := TopThree(row);
    assert forall u :: u in top ==> u < |row|;
    WithoutKeepsOrder(top, idx, row);
    WithoutNoDuplicates(top, idx);
    WithoutCountNoDuplicates(top, idx);
    Without(top, idx)
  }

  /** Every other customer left out of the similar users is no more similar than any chosen one. */
  lemma {:induction false} SimilarUsersAreMostSimilar(row: seq<real>, idx: nat, u: nat, k: nat)
    requires u in SimilarUsers(row, idx)
    requires k < |row| && k != idx && k !in SimilarUsers(row, idx)
    ensures row[k] <= row[u]
  {
    TopThreeDominates(row, u, k);
  }

  // ------------------------------------------------- collaborative pool

  /** Everything bought by the given customers. */
  function PeerPurchases(population: seq<Customer>, users: seq<nat>): set<string>
    requires forall j :: 0 <= j < |users| ==> users[j] < |population|
  {
    if users == [] then {}
    else PeerPurchases(population, users[..|users| - 1]) + SetOf(population[users[|users| - 1]].history)
  }

  lemma {:induction false} PeerPurchasesMembers(population: seq<Customer>, users: seq<nat>, x: string)
    requires forall j :: 0 <= j < |users| ==> users[j] < |population|
    ensures x in PeerPurchases(population, users) <==>
      exists j :: 0 <= j < |users| && x in population[users[j]].history
  {
    if users != [] {
      var init := users[..|users| - 1];
      PeerPurchasesMembers(population, init, x);
      if exists j :: 0 <= j < |users| && x in population[users[j]].history {
        var j :| 0 <= j < |users| && x in population[users[j]].history;
        if j < |init| { assert init[j] == users[j]; }
      }
    }
  }

  /** `list(s)` for a set: every element once, in an order the model leaves open. */
  method Enumerate(s: set<string>) returns (xs: seq<string>)
    ensures SetOf(xs) == s
    ensures NoDuplicates(xs)
  {
    xs := [];
    var rest := s;
    while rest != {}
      invariant rest <= s
      invariant SetOf(xs) == s - rest
      invariant NoDuplicates(xs)
      decreases rest
    {
      var x :| x in rest;
      assert SetOf(xs + [x]) == SetOf(xs) + {x};
      xs := xs + [x];
      rest := rest - {x};
    }
  }

  /** `collab_recs`: the similar customers' purchases minus the customer's own, as a list. */
  method CollaborativePool(population: seq<Customer>, users: seq<nat>, own: seq<string>)
    returns (collab: seq<string>)
    requires forall j :: 0 <= j < |users| ==> users[j] < |population|
    ensures NoDuplicates(collab)
    ensures SetOf(collab) == PeerPurchases(population, users) - SetOf(own)
  {
    var gathered: set<string> := {};
    for j := 0 to |users|
      invariant gathered == PeerPurchases(population, users[..j])
    {
      assert users[..j + 1][..j] == users[..j];
      gathered := gathered + SetOf(population[users[j]].history);
    }
    assert users[..|users|] == users;
    collab := Enumerate(gathered - SetOf(own));
  }

  /** The items of `xs` that contain an interest, in order. */
  function MatchingOnly(xs: seq<string>, interests: seq<string>): seq<string> {
    if xs == [] then []
    else
      var last := xs[|xs| - 1];
      MatchingOnly(xs[..|xs| - 1], interests) + (if MatchesAny(last, interests) then [last] else [])
  }

  lemma {:induction false} MatchingOnlyMembers(xs: seq<string>, interests: seq<string>)
    ensures forall x :: x in MatchingOnly(xs, interests) <==> x in xs && MatchesAny(x, interests)
    ensures NoDuplicates(xs) ==> NoDuplicates(MatchingOnly(xs, interests))
  {
    if xs != [] {
      var init := xs[..|xs| - 1];
      MatchingOnlyMembers(init, interests);
      assert xs == init + [xs[|xs| - 1]];
      if NoDuplicates(xs) {
        assert NoDuplicates(init);
        assert xs[|xs| - 1] !in init;
      }
    }
  }

  /** Nothing is kept exactly when no item contains an interest. */
  lemma {:induction false} MatchingOnlyEmpty(xs: seq<string>, interests: seq<string>)
    ensures MatchingOnly(xs, interests) == [] <==> forall i :: 0 <= i < |xs| ==> !MatchesAny(xs[i], interests)
  {
    MatchingOnlyMembers(xs, interests);
    var m := MatchingOnly(xs, interests);
    if m != [] {
      assert m[0] in m;
      var i :| 0 <= i < |xs| && xs[i] == m[0];
    }
    if exists i :: 0 <= i < |xs| && MatchesAny(xs[i], interests) {
      var i :| 0 <= i < |xs| && MatchesAny(xs[i], interests);
      assert xs[i] in m;
    }
  }

  /** As a set, the interest filter with its fallback is `InterestFiltered`. */
  lemma {:induction false} FilteredSet(xs: seq<string>, interests: seq<string>)
    ensures var m := MatchingOnly(xs, interests);
      SetOf(if m == [] then xs else m) == InterestFiltered(SetOf(xs), interests)
    ensures NoDuplicates(xs) ==> NoDuplicates(MatchingOnly(xs, interests))
  {
    MatchingOnlyMembers(xs, interests);
    MatchingOnlyEmpty(xs, interests);
    if exists x :: x in SetOf(xs) && MatchesAny(x, interests) {
      var x :| x in SetOf(xs) && MatchesAny(x, interests);
      var i :| 0 <= i < |xs| && xs[i] == x;
    }
  }

  /** `filtered_collab_recs`: the matching items, or all of them when none matches. */
  method FilterByInterests(collab: seq<string>, interests: seq<string>) returns (filtered: seq<string>)
    ensures (exists i :: 0 <= i < |collab| && MatchesAny(collab[i], interests)) ==>
      filtered == MatchingOnly(collab, interests)
    ensures (forall i :: 0 <= i < |collab| ==> !MatchesAny(collab[i], interests)) ==>
      filtered == collab
    ensures SetOf(filtered) == InterestFiltered(SetOf(collab), interests)
    ensures NoDuplicates(collab) ==> NoDuplicates(filtered)
  {
    filtered := [];
    for i := 0 to |collab|
      invariant filtered == MatchingOnly(collab[..i], interests)
    {
      assert collab[..i + 1][..i] == collab[..i];
      if MatchesAny(collab[i], interests) {
        filtered := filtered + [collab[i]];
      }
    }
    assert collab[..|collab|] == collab;
    MatchingOnlyEmpty(collab, interests);
    if filtered == [] {
      filtered := collab;
    }
    FilteredSet(collab, interests);
  }

  /** The collaborative candidates as a set: the matching ones, or the whole pool when none matches. */
  function InterestFiltered(pool: set<string>, interests: seq<string>): set<string> {
    if exists x :: x in pool && MatchesAny(x, interests)
    then set x | x in pool && MatchesAny(x, interests)
    else pool
  }

  // ----------------------------------------------------- contextual pool

  function CatalogProducts(interest: string): seq<string> {
    if interest in InterestMap then InterestMap[interest] else []
  }

  /** The catalogue products of each interest, in interest order (repeats kept). */
  function ContextRecs(interests: seq<string>): seq<string> {
    if interests == [] then []
    else ContextRecs(interests[..|interests| - 1]) + CatalogProducts(interests[|interests| - 1])
  }

  /** A contextual candidate is exactly a catalogue product of one of the interests. */
  lemma {:induction false} ContextRecsMembers(interests: seq<string>, x: string)
    ensures x in ContextRecs(interests) <==>
      exists i :: 0 <= i < |interests| && interests[i] in InterestMap && x in InterestMap[interests[i]]
  {
    if interests != [] {
      var init := interests[..|interests| - 1];
      ContextRecsMembers(init, x);
      if exists i :: 0 <= i < |interests| && interests[i] in InterestMap && x in InterestMap[interests[i]] {
        var i :| 0 <= i < |interests| && interests[i] in InterestMap && x in InterestMap[interests[i]];
        if i < |init| { assert init[i] == interests[i]; }
      }
    }
  }

  /** `context_recs`: extend by the catalogue products of each known interest. */
  method ContextCandidates(interests: seq<string>) returns (context: seq<string>)
    ensures context == ContextRecs(interests)
  {
    context := [];
    for i := 0 to |interests|
      invariant context == ContextRecs(interests[..i])
    {
      assert interests[..i + 1][..i] == interests[..i];
      if interests[i] in InterestMap {
        context := context + InterestMap[interests[i]];
      }
    }
    assert interests[..|interests|] == interests;
  }

  // ------------------------------------------------------ candidates

  /** `all_recs` by strategy; the hybrid union is `list(set(...))`, in an open order. */
  method CombineCandidates(filtered: seq<string>, context: seq<string>, strategy: Strategy)
    returns (cands: seq<string>)
    ensures strategy == Collaborative ==> cands == filtered
    ensures strategy == Contextual ==> cands == context
    ensures strategy == Hybrid ==> NoDuplicates(cands) && SetOf(cands) == SetOf(filtered) + SetOf(context)
  {
    match strategy
    case Collaborative => cands := filtered;
    case Contextual => cands := context;
    case Hybrid =>
      cands := Enumerate(SetOf(filtered + context));
  }

  /** The collaborative candidates as a set, for the given similar customers. */
  ghost function CollaborativeSet(c: Customer, population: seq<Customer>, peers: seq<nat>): set<string>
    requires forall j :: 0 <= j < |peers| ==> peers[j] < |population|
  {
    InterestFiltered(PeerPurchases(population, peers) - SetOf(c.history), c.interests)
  }

  /** `all_recs` for a strategy, from the collaborative set and the contextual list. */
  ghost predicate StrategyCandidates(cands: seq<string>, collab: set<string>, context: seq<string>, strategy: Strategy) {
    match strategy
    case Collaborative => NoDuplicates(cands) && SetOf(cands) == collab
    case Contextual => cands == context
    case Hybrid => NoDuplicates(cands) && SetOf(cands) == collab + SetOf(context)
  }

  /** The candidate lists `recommend_products` can produce for a customer of the population. */
  ghost predicate CandidatesFor(c: Customer, population: seq<Customer>, sim: seq<seq<real>>,
                                strategy: Strategy, cands: seq<string>)
  {
    match FirstIndexOf(population, c.name)
    case None => false
    case Some(idx) =>
      idx < |sim| &&
      var peers := SimilarUsers(sim[idx], idx);
      (forall j :: 0 <= j < |peers| ==> peers[j] < |population|) &&
      StrategyCandidates(cands, CollaborativeSet(c, population, peers), ContextRecs(c.interests), strategy)
  }

  /** Build the collaborative pool, filter it by interest, build the catalogue list, and combine them by strategy. */
  method Candidates(c: Customer, population: seq<Customer>, peers: seq<nat>, strategy: Strategy)
    returns (cands: seq<string>)
    requires forall j :: 0 <= j < |peers| ==> peers[j] < |population|
    ensures StrategyCandidates(cands, CollaborativeSet(c, population, peers), ContextRecs(c.interests), strategy)
  {
    var collab := CollaborativePool(population, peers, c.history);
    var filtered := FilterByInterests(collab, c.interests);
    var context := ContextCandidates(c.interests);
    cands := CombineCandidates(filtered, context, strategy);
  }

  /**
   * Under the collaborative strategy every candidate was bought by one of the
   * similar customers and never by the customer; under the contextual one every
   * candidate is a catalogue product of one of the customer's interests; under
   * any other label every candidate is one or the other.
   */
  lemma {:induction false} CandidatesOrigin(c: Customer, population: seq<Customer>, sim: seq<seq<real>>,
                                            strategy: Strategy, cands: seq<string>, idx: nat, x: string)
    requires Aligned(sim, |population|)
    requires FirstIndexOf(population, c.name) == Some(idx)
    requires CandidatesFor(c, population, sim, strategy, cands)
    requires x in cands
    ensures strategy == Collaborative ==>
      && x !in c.history
      && exists j :: j in SimilarUsers(sim[idx], idx) && j != idx && j < |population| && x in population[j].history
    ensures strategy == Contextual ==>
      exists k :: 0 <= k < |c.interests| && c.interests[k] in InterestMap && x in InterestMap[c.interests[k]]
    ensures strategy == Hybrid ==>
      || (&& x !in c.history
          && exists j :: j in SimilarUsers(sim[idx], idx) && j != idx && j < |population| && x in population[j].history)
      || exists k :: 0 <= k < |c.interests| && c.interests[k] in InterestMap && x in InterestMap[c.interests[k]]
  {
    var peers := SimilarUsers(sim[idx], idx);
    if strategy == Hybrid {
      assert x in SetOf(cands);
      if x in CollaborativeSet(c, population, peers) {
        PeerPurchasesMembers(population, peers, x);
        var j :| 0 <= j < |peers| && x in population[peers[j]].history;
        assert peers[j] in peers;
      } else {
        assert x in SetOf(ContextRecs(c.interests));
        ContextRecsMembers(c.interests, x);
      }
    }
    if strategy == Collaborative {
      assert x in SetOf(cands);
      assert x in CollaborativeSet(c, population, peers);
      PeerPurchasesMembers(population, peers, x);
      var j :| 0 <= j < |peers| && x in population[peers[j]].history;
      assert peers[j] in peers;
    }
    if strategy == Contextual {
      ContextRecsMembers(c.interests, x);
    }
  }

  // ------------------------------------------------------ ranking

  function ProductOf(r: Recommendation): string { r.product }

  function ByScore(r: Recommendation): real { r.score }

  function RankKey(c: Customer, risk: real, strategy: Strategy): string -> real {
    p => Score(p, c, risk, strategy)
  }

  /** The candidates in the order of the stable descending sort by score. */
  function Ranked(cands: seq<string>, c: Customer, risk: real, strategy: Strategy): seq<string> {
    SortDesc(cands, RankKey(c, risk, strategy))
  }

  /** A ranked list only rearranges the candidates, by non-increasing score, stably. */
  lemma RankedIsStableOrder(cands: seq<string>, c: Customer, risk: real, strategy: Strategy)
    ensures multiset(Ranked(cands, c, risk, strategy)) == multiset(cands)
    ensures var r := Ranked(cands, c, risk, strategy);
      forall i, j :: 0 <= i < j < |r| ==> Score(r[i], c, risk, strategy) >= Score(r[j], c, risk, strategy)
    ensures forall v :: WithKey(Ranked(cands, c, risk, strategy), RankKey(c, risk, strategy), v)
                        == WithKey(cands, RankKey(c, risk, strategy), v)
  {
    var key := RankKey(c, risk, strategy);
    SortDescPermutes(cands, key);
    SortDescOrdered(cands, key);
    forall v ensures WithKey(SortDesc(cands, key), key, v) == WithKey(cands, key, v) {
      SortDescStable(cands, key, v);
    }
  }

  /** An entry built for candidate `r.product`: its score, the shared risk and a possible reason. */
  ghost predicate EntryFor(r: Recommendation, c: Customer, risk: real, strategy: Strategy, book: Phrasebook) {
    && r.score == Score(r.product, c, risk, strategy)
    && r.risk == risk
    && Explains(r.reason, r.product, c, book)
  }

  /** What both entry points return: the first five of the ranked candidates, each explained. */
  ghost predicate TopFive(recs: seq<Recommendation>, cands: seq<string>, c: Customer, risk: real,
                          strategy: Strategy, book: Phrasebook)
  {
    && MapSeq(ProductOf, recs) == Take(Ranked(cands, c, risk, strategy), 5)
    && (forall i :: 0 <= i < |recs| ==> EntryFor(recs[i], c, risk, strategy, book))
  }

  /**
   * The returned list has at most five entries, in non-increasing score
   * order, each for a candidate, all with the same risk and a non-empty reason.
   */
  lemma {:induction false} TopFiveProperties(recs: seq<Recommendation>, cands: seq<string>, c: Customer,
                                             risk: real, strategy: Strategy, book: Phrasebook)
    requires WellStocked(book)
    requires TopFive(recs, cands, c, risk, strategy, book)
    ensures |recs| == Min(5, |cands|)
    ensures forall i, j :: 0 <= i < j < |recs| ==> recs[i].score >= recs[j].score
    ensures forall i :: 0 <= i < |recs| ==> recs[i].product in cands && recs[i].risk == risk && recs[i].reason != []
  {
    var ranked := Ranked(cands, c, risk, strategy);
    RankedIsStableOrder(cands, c, risk, strategy);
    assert |MapSeq(ProductOf, recs)| == |recs|;
    forall i | 0 <= i < |recs|
      ensures recs[i].product in cands && recs[i].reason != []
    {
      assert recs[i].product == MapSeq(ProductOf, recs)[i] == ranked[i];
      assert ranked[i] in multiset(ranked);
      ExplanationNonEmpty(recs[i].reason, recs[i].product, c, book);
    }
    forall i, j | 0 <= i < j < |recs| ensures recs[i].score >= recs[j].score {
      assert recs[i].product == ranked[i] && recs[j].product == ranked[j];
    }
  }

  /** Score and explain every candidate, sort the entries by score (stably, highest first) and keep the first five. */
  method RankAndExplain(cands: seq<string>, c: Customer, risk: real, strategy: Strategy, book: Phrasebook)
    returns (recs: seq<Recommendation>)
    requires WellStocked(book)
    ensures TopFive(recs, cands, c, risk, strategy, book)
    ensures |recs| == Min(5, |cands|)
  {
    var final: seq<Recommendation> := [];
    for k := 0 to |cands|
      invariant |final| == k
      invariant forall i :: 0 <= i < k ==> final[i].product == cands[i]
      invariant forall i :: 0 <= i < k ==> EntryFor(final[i], c, risk, strategy, book)
    {
      var score := ScoreRecommendation(cands[k], c, risk, strategy);
      var reason := GetReason(cands[k], c, book);
      final := final + [Recommendation(cands[k], score, reason, risk)];
    }
    var sorted := SortDesc(final, ByScore);
    recs := Take(sorted, 5);

    assert MapSeq(ProductOf, final) == cands;
    SortDescMap(final, ProductOf, ByScore, RankKey(c, risk, strategy));
    MapTake(ProductOf, sorted, 5);
    SortDescPermutes(final, ByScore);
    forall i | 0 <= i < |recs| ensures EntryFor(recs[i], c, risk, strategy, book) {
      assert recs[i] == sorted[i];
      assert sorted[i] in multiset(final);
    }
  }

  // ------------------------------------------------------ entry points

  /** `recommend_products` without the remote-service branch. */
  method RecommendProducts(c: Customer, population: seq<Customer>, sim: seq<seq<real>>,
                           strategy: Strategy, book: Phrasebook)
    returns (result: Result<seq<Recommendation>>, ghost cands: seq<string>)
    requires Aligned(sim, |population|)
    requires WellStocked(book)
    ensures result.Failure? <==> forall i :: 0 <= i < |population| ==> population[i].name != c.name
    ensures result.Failure? ==> result.error == CustomerNotFound(c.name)
    ensures result.Success? ==>
      && CandidatesFor(c, population, sim, strategy, cands)
      && TopFive(result.value, cands, c, AssessRisk(c), strategy, book)
      && |result.value| <= 5
  {
    var found := FirstIndexOf(population, c.name);
    if found.None? {
      return Failure(CustomerNotFound(c.name)), [];
    }
    var idx := found.value;
    var peers := SimilarUsers(sim[idx], idx);
    forall j | 0 <= j < |peers| ensures peers[j] < |population| {
      assert peers[j] in peers;
    }
    var all := Candidates(c, population, peers, strategy);
    var risk := AssessRisk(c);
    var recs := RankAndExplain(all, c, risk, strategy, book);
    result, cands := Success(recs), all;
    TopFiveProperties(recs, all, c, risk, strategy, book);
  }

  /** `recommend_new_customer` without the remote-service branch: catalogue candidates only. */
  method RecommendNewCustomer(c: Customer, book: Phrasebook) returns (recs: seq<Recommendation>)
    requires WellStocked(book)
    ensures TopFive(recs, ContextRecs(c.interests), c, AssessRisk(c), Contextual, book)
    ensures forall i :: 0 <= i < |recs| ==>
      exists k :: 0 <= k < |c.interests| && c.interests[k] in InterestMap && recs[i].product in InterestMap[c.interests[k]]
    ensures c.interests == [] ==> recs == []
  {
    var context := ContextCandidates(c.interests);
    var risk := AssessRisk(c);
    recs := RankAndExplain(context, c, risk, Contextual, book);
    TopFiveProperties(recs, context, c, risk, Contextual, book);
    forall i | 0 <= i < |recs| ensures exists k :: 0 <= k < |c.interests| && c.interests[k] in InterestMap && recs[i].product in InterestMap[c.interests[k]] {
      ContextRecsMembers(c.interests, recs[i].product);
    }
  }
}
