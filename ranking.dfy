/** The weighted scoring and ranking of the exploratory search. Each product
    found is scored by adding the user's 1-5 ratings of the attributes it
    has; the scored products are sorted by score, highest first, keeping the
    order of equal scores; the first five are the best matches. */
module Ranker {
  import opened Values
  import opened Extractor
  import opened ExtractorProperties
  import opened ProductFilter

  /** The user's ratings in the order they were entered: attribute name, rating. */
  type Priorities = seq<(string, int)>

  /** Every rating is between 1 and 5, as the rating prompt insists. */
  predicate ValidRatings(priorities: Priorities)
  {
    forall i :: 0 <= i < |priorities| ==> 1 <= priorities[i].1 <= 5
  }

  /** What one rating adds: the rating when the attribute is present and not `False`. */
  function Weight(features: Attributes, entry: (string, int)): int
  {
    match Lookup(features, entry.0)
    case Some(v) => if Counts(v) then entry.1 else 0
    case None => 0
  }

  /** A product's score: the sum of what each rating adds. */
  function Score(features: Attributes, priorities: Priorities): int
  {
    if priorities == [] then 0
    else Score(features, priorities[..|priorities| - 1]) + Weight(features, priorities[|priorities| - 1])
  }

  /** With ratings from 1 to 5 a score is never negative and at most five per rating. */
  lemma {:induction false} ScoreBounds(features: Attributes, priorities: Priorities)
    requires ValidRatings(priorities)
    ensures 0 <= Score(features, priorities) <= 5 * |priorities|
  {
    if priorities != [] {
      var init := priorities[..|priorities| - 1];
      assert ValidRatings(init) by {
        forall i | 0 <= i < |init| ensures 1 <= init[i].1 <= 5 {
          assert init[i] == priorities[i];
        }
      }
      ScoreBounds(features, init);
    }
  }

  /** A score adds up the ratings of the attributes present and not `False`,
      whatever order the ratings come in: appending ratings adds their score. */
  lemma {:induction false} ScoreAppend(features: Attributes, a: Priorities, b: Priorities)
    ensures Score(features, a + b) == Score(features, a) + Score(features, b)
    decreases |b|
  {
    if b == [] {
      assert a + b == a;
    } else {
      var b' := b[..|b| - 1];
      assert (a + b)[..|a + b| - 1] == a + b';
      assert (a + b)[|a + b| - 1] == b[|b| - 1];
      ScoreAppend(features, a, b');
    }
  }

  /** A rating of a key adds the rating exactly when the key was extracted
      with a value other than `False`. */
  lemma WeightOf(features: Attributes, k: Key, rating: int)
    ensures Weight(features, (KeyName(k), rating)) == (if k in features && Counts(features[k]) then rating else 0)
  {
    KeyNameParses(k);
  }

  lemma {:induction false} ScorePair(features: Attributes, a: (string, int), b: (string, int))
    ensures Score(features, [a, b]) == Weight(features, a) + Weight(features, b)
  {
    var p: Priorities := [a, b];
    var q: Priorities := p[..1];
    assert q == [a];
    assert q[..0] == [];
    assert Score(features, q) == Weight(features, a);
    assert Score(features, p) == Score(features, q) + Weight(features, b);
  }

  /** With ratings `{cpu: 5, ram: 3}`, a product with a processor and memory
      scores 8, and one with a processor and no memory scores 5. */
  lemma ScoreExample(features: Attributes)
    requires Cpu in features && Ram in features
    requires features[Cpu].Str? && features[Ram].Str?
    ensures Score(features, [(KeyName(Cpu), 5), (KeyName(Ram), 3)]) == 8
    ensures Score(features - {Ram}, [(KeyName(Cpu), 5), (KeyName(Ram), 3)]) == 5
  {
    ScorePair(features, (KeyName(Cpu), 5), (KeyName(Ram), 3));
    ScorePair(features - {Ram}, (KeyName(Cpu), 5), (KeyName(Ram), 3));
    WeightOf(features, Cpu, 5);
    WeightOf(features, Ram, 3);
    WeightOf(features - {Ram}, Cpu, 5);
    WeightOf(features - {Ram}, Ram, 3);
  }

  /** `subscription_required: False` adds nothing to a score. */
  lemma FalseAddsNothing(features: Attributes, rating: int)
    requires SubscriptionRequired in features && features[SubscriptionRequired] == Bool(false)
    ensures Score(features, [(KeyName(SubscriptionRequired), rating)]) == 0
  {
    var p: Priorities := [(KeyName(SubscriptionRequired), rating)];
    assert p[..0] == [];
    WeightOf(features, SubscriptionRequired, rating);
  }

  /** The attributes the scoring re-extracts for a product: from its name,
      with an empty description (the product records carry no description).
      A product without a name is read as having the empty name. */
  function RescoredFeatures(p: Product): Attributes
  {
    Features(OrElse(p.name, ""), "")
  }

  /** The re-extraction as written: it lowercases `product["name"]`, which
      fails (`None` has no `lower`) for a product whose hit had no title. */
  function RescoredFeaturesAsWritten(p: Product): Option<Attributes>
  {
    if p.name.None? then None else Some(Features(p.name.value, ""))
  }

  /** A hit without a title passes the filter when no criteria are given,
      and the record it becomes breaks the scoring as written. */
  lemma UntitledHitBreaksScoring(h: Hit)
    requires h.title.None?
    ensures Filtered([h], [], map[]) == [ToProduct(h)]
    ensures RescoredFeaturesAsWritten(Filtered([h], [], map[])[0]).None?
  {
    NoCriteriaKeepsAll([h]);
  }

  /** Nothing extracted, nothing scored. */
  lemma {:induction false} ScoreOfNothing(priorities: Priorities)
    ensures Score(map[], priorities) == 0
  {
    if priorities != [] {
      ScoreOfNothing(priorities[..|priorities| - 1]);
    }
  }

  /** The corrected re-extraction agrees with the source wherever the source
      does not fail; an untitled product has no attributes and scores 0. */
  lemma RescoredFeaturesCorrected(p: Product, priorities: Priorities)
    ensures p.name.Some? ==> RescoredFeaturesAsWritten(p) == Some(RescoredFeatures(p))
    ensures p.name.None? ==> RescoredFeatures(p) == map[] && Score(RescoredFeatures(p), priorities) == 0
  {
    if p.name.None? {
      NoTextNoFeatures();
      ScoreOfNothing(priorities);
    }
  }

  /** The scoring loop for one product. */
  method ScoreProduct(product: Product, priorities: Priorities) returns (score: int)
    ensures score == Score(RescoredFeatures(product), priorities)
  {
    score := 0;
    var productAttrs := ExtractFeatures(OrElse(product.name, ""), "");
    for i := 0 to |priorities|
      invariant score == Score(productAttrs, priorities[..i])
    {
      assert priorities[..i + 1][..i] == priorities[..i];
      var (userAttr, userRating) := priorities[i];
      var found := Lookup(productAttrs, userAttr);
      if found.Some? && found.value != Bool(false) {
        score := score + userRating;
      }
    }
    assert priorities[..|priorities|] == priorities;
  }

  /** A product with its score. */
  type Scored = (int, Product)

  /** Puts `x` after every element whose score is at least `x`'s. */
  function Insert(s: seq<Scored>, x: Scored): seq<Scored>
  {
    if s == [] || s[|s| - 1].0 >= x.0 then s + [x]
    else Insert(s[..|s| - 1], x) + [s[|s| - 1]]
  }

  /** `list.sort(key=lambda x: x[0], reverse=True)`: by descending score,
      and stable, as Python's sort is even when reversed. */
  function SortByScore(s: seq<Scored>): seq<Scored>
  {
    if s == [] then [] else Insert(SortByScore(s[..|s| - 1]), s[|s| - 1])
  }

  predicate Descending(s: seq<Scored>)
  {
    forall i, j :: 0 <= i < j < |s| ==> s[i].0 >= s[j].0
  }

  /** The elements of `s` with score `v`, in order. */
  function WithScore(s: seq<Scored>, v: int): seq<Scored>
  {
    if s == [] then []
    else WithScore(s[..|s| - 1], v) + (if s[|s| - 1].0 == v then [s[|s| - 1]] else [])
  }

  lemma {:induction false} InsertDescending(s: seq<Scored>, x: Scored)
    requires Descending(s)
    ensures Descending(Insert(s, x))
    ensures multiset(Insert(s, x)) == multiset(s) + multiset{x}
    ensures |Insert(s, x)| == |s| + 1
    ensures forall i :: 0 <= i < |Insert(s, x)| ==> Insert(s, x)[i] == x || Insert(s, x)[i] in s
  {
    if s != [] && s[|s| - 1].0 < x.0 {
      var init := s[..|s| - 1];
      InsertDescending(init, x);
      assert s == init + [s[|s| - 1]];
      var r := Insert(init, x);
      forall i | 0 <= i < |r|
        ensures r[i].0 >= s[|s| - 1].0
      {
        if r[i] != x {
          assert r[i] in init;
        }
      }
    }
  }

  lemma {:induction false} WithScoreAppend(a: seq<Scored>, b: seq<Scored>, v: int)
    ensures WithScore(a + b, v) == WithScore(a, v) + WithScore(b, v)
    decreases |b|
  {
    if b == [] {
      assert a + b == a;
    } else {
      var b' := b[..|b| - 1];
      assert (a + b)[..|a + b| - 1] == a + b';
      assert (a + b)[|a + b| - 1] == b[|b| - 1];
      WithScoreAppend(a, b', v);
    }
  }

  lemma WithScoreSingle(x: Scored, v: int)
    ensures WithScore([x], v) == if x.0 == v then [x] else []
  {
    assert [x][..0] == [];
  }

  /** Inserting `x` puts it after every element of the same score. */
  lemma {:induction false} InsertWithScore(s: seq<Scored>, x: Scored, v: int)
    ensures WithScore(Insert(s, x), v) == WithScore(s + [x], v)
  {
    if s == [] || s[|s| - 1].0 >= x.0 {
      assert Insert(s, x) == s + [x];
    } else {
      var init := s[..|s| - 1];
      var last := s[|s| - 1];
      assert s == init + [last];
      assert Insert(s, x) == Insert(init, x) + [last];
      WithScoreSingle(x, v);
      WithScoreSingle(last, v);
      calc {
        WithScore(Insert(s, x), v);
        { WithScoreAppend(Insert(init, x), [last], v); }
        WithScore(Insert(init, x), v) + WithScore([last], v);
        { InsertWithScore(init, x, v); }
        WithScore(init + [x], v) + WithScore([last], v);
        { WithScoreAppend(init, [x], v); }
        WithScore(init, v) + WithScore([x], v) + WithScore([last], v);
        WithScore(init, v) + WithScore([last], v) + WithScore([x], v);
        { WithScoreAppend(init, [last], v); }
        WithScore(s, v) + WithScore([x], v);
        { WithScoreAppend(s, [x], v); }
        WithScore(s + [x], v);
      }
    }
  }

  /** The sort orders by descending score, keeps every element, and keeps
      the order of the elements of each score. */
  lemma {:induction false} SortByScoreSpec(s: seq<Scored>)
    ensures Descending(SortByScore(s))
    ensures multiset(SortByScore(s)) == multiset(s)
    ensures |SortByScore(s)| == |s|
    ensures forall v :: WithScore(SortByScore(s), v) == WithScore(s, v)
  {
    if s != [] {
      var init := s[..|s| - 1];
      var x := s[|s| - 1];
      SortByScoreSpec(init);
      InsertDescending(SortByScore(init), x);
      assert s == init + [x];
      forall v
        ensures WithScore(SortByScore(s), v) == WithScore(s, v)
      {
        InsertWithScore(SortByScore(init), x, v);
        WithScoreAppend(SortByScore(init), [x], v);
        WithScoreAppend(init, [x], v);
      }
    }
  }

  /** Each product found, with its score. */
  function ScoredList(products: seq<Product>, priorities: Priorities): seq<Scored>
  {
    seq(|products|, i requires 0 <= i < |products| => (Score(RescoredFeatures(products[i]), priorities), products[i]))
  }

  /** The best matches: the first `min(5, n)` products by descending score. */
  function BestMatches(products: seq<Product>, priorities: Priorities): seq<Product>
  {
    var ranked := SortByScore(ScoredList(products, priorities));
    var n := if |ranked| < 5 then |ranked| else 5;
    seq(n, j requires 0 <= j < n => ranked[j].1)
  }

  /** The best matches are the `min(5, n)` first of the ranking; the ranking
      holds every product found with its own score, by descending score,
      equal scores in the order found; no product left out scores higher
      than one kept. */
  lemma BestMatchesSpec(products: seq<Product>, priorities: Priorities)
    ensures var scored := ScoredList(products, priorities);
      var ranked := SortByScore(scored);
      var best := BestMatches(products, priorities);
      && |best| == (if |products| < 5 then |products| else 5)
      && |ranked| == |products|
      && (forall j :: 0 <= j < |best| ==> best[j] == ranked[j].1)
      && multiset(ranked) == multiset(scored)
      && (forall j :: 0 <= j < |ranked| ==> ranked[j].0 == Score(RescoredFeatures(ranked[j].1), priorities))
      && (forall v :: WithScore(ranked, v) == WithScore(scored, v))
      && (forall j, k :: 0 <= j < |best| <= k < |ranked| ==> ranked[j].0 >= ranked[k].0)
  {
    var scored := ScoredList(products, priorities);
    var ranked := SortByScore(scored);
    SortByScoreSpec(scored);
    forall j | 0 <= j < |ranked|
      ensures ranked[j].0 == Score(RescoredFeatures(ranked[j].1), priorities)
    {
      assert ranked[j] in multiset(scored);
      var i :| 0 <= i < |scored| && scored[i] == ranked[j];
    }
  }

  /** The scoring, sorting and selection of the exploratory search. */
  method RankProducts(products: seq<Product>, priorities: Priorities) returns (best: seq<Product>)
    ensures best == BestMatches(products, priorities)
  {
    var scoredProducts: seq<Scored> := [];
    for i := 0 to |products|
      invariant scoredProducts == ScoredList(products[..i], priorities)
    {
      var score := ScoreProduct(products[i], priorities);
      scoredProducts := scoredProducts + [(score, products[i])];
    }
    assert products[..|products|] == products;
    scoredProducts := SortByScore(scoredProducts);
    var n := if |scoredProducts| < 5 then |scoredProducts| else 5;
    best := seq(n, j requires 0 <= j < n => scoredProducts[j].1);
  }
}
