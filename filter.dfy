/** The product filter inside `search_google_products`: each raw search hit
    is kept when its title or snippet mentions every keyword and the
    attributes extracted from it include every required attribute with an
    equal value; kept hits become product records, in the order of the hits.
    The search request itself is not modelled: the hits are an input. */
module ProductFilter {
  import opened Text
  import opened Values
  import opened Extractor

  /** A raw search hit. A field the search result lacks is `None`. */
  datatype Hit = Hit(
    title: Option<string>,
    snippet: Option<string>,
    extractedPrice: Option<Value>,
    link: Option<string>,
    source: Option<string>,
    thumbnail: Option<string>)

  /** The record the filter builds for a kept hit. `name`, `url`, `source`
      and `image` are copied from the hit as they are, `None` included. */
  datatype Product = Product(
    name: Option<string>,
    price: Value,
    url: Option<string>,
    source: Option<string>,
    image: Option<string>,
    attributes: Attributes)

  /** `p.get("title", "")` */
  function TitleOf(h: Hit): string
  {
    OrElse(h.title, "")
  }

  /** `p.get("snippet", "")`, the text the extractor reads as description. */
  function SnippetOf(h: Hit): string
  {
    OrElse(h.snippet, "")
  }

  /** Every keyword, lowercased, occurs in the lowercased title or snippet. */
  predicate KeywordsMatch(keywords: seq<string>, title: string, description: string)
  {
    forall i :: 0 <= i < |keywords| ==>
      Contains(Lower(title), Lower(keywords[i])) || Contains(Lower(description), Lower(keywords[i]))
  }

  /** The attribute called `name` is present in `features` and equal, under
      Python's `==`, to `wanted`. */
  predicate AttributeMatches(features: Attributes, name: string, wanted: Value)
  {
    match Lookup(features, name)
    case None => false
    case Some(v) => PyEq(v, wanted)
  }

  /** Every required attribute matches. */
  predicate Satisfies(features: Attributes, required: map<string, Value>)
  {
    forall name :: name in required ==> AttributeMatches(features, name, required[name])
  }

  /** The filter's decision for one hit. */
  predicate Keep(h: Hit, keywords: seq<string>, required: map<string, Value>)
  {
    KeywordsMatch(keywords, TitleOf(h), SnippetOf(h))
    && Satisfies(Features(TitleOf(h), SnippetOf(h)), required)
  }

  /** The record for a kept hit; a missing price becomes `"N/A"`. */
  function ToProduct(h: Hit): Product
  {
    Product(h.title, OrElse(h.extractedPrice, Str("N/A")), h.link, h.source, h.thumbnail,
            Features(TitleOf(h), SnippetOf(h)))
  }

  /** The filter's test as a function of the hit. */
  function KeepBy(keywords: seq<string>, required: map<string, Value>): Hit -> bool
  {
    (h: Hit) => Keep(h, keywords, required)
  }

  /** The records of the hits `keep` accepts, in the order of the hits. */
  function Select(hits: seq<Hit>, keep: Hit -> bool): seq<Product>
  {
    if hits == [] then []
    else
      var last := hits[|hits| - 1];
      Select(hits[..|hits| - 1], keep) + (if keep(last) then [ToProduct(last)] else [])
  }

  /** What the filter returns for the hits of one search. */
  function Filtered(hits: seq<Hit>, keywords: seq<string>, required: map<string, Value>): seq<Product>
  {
    Select(hits, KeepBy(keywords, required))
  }

  /** The positions of the hits `keep` accepts, in increasing order. */
  function Positions(hits: seq<Hit>, keep: Hit -> bool): seq<nat>
  {
    if hits == [] then []
    else Positions(hits[..|hits| - 1], keep) + (if keep(hits[|hits| - 1]) then [|hits| - 1] else [])
  }

  /** The positions are valid positions of `hits`, in increasing order, and
      a position is among them exactly when `keep` accepts the hit there. */
  lemma {:induction false} PositionsSpec(hits: seq<Hit>, keep: Hit -> bool)
    ensures var pos := Positions(hits, keep);
      && (forall j :: 0 <= j < |pos| ==> pos[j] < |hits|)
      && (forall j, k :: 0 <= j < k < |pos| ==> pos[j] < pos[k])
      && (forall i :: 0 <= i < |hits| ==> (keep(hits[i]) <==> i in pos))
  {
    if hits != [] {
      var init := hits[..|hits| - 1];
      PositionsSpec(init, keep);
      assert forall i :: 0 <= i < |init| ==> init[i] == hits[i];
    }
  }

  /** The `j`-th record is the record of the `j`-th accepted hit. */
  lemma {:induction false} SelectAtPositions(hits: seq<Hit>, keep: Hit -> bool)
    ensures var r := Select(hits, keep);
      var pos := Positions(hits, keep);
      && |r| == |pos|
      && forall j :: 0 <= j < |pos| ==> pos[j] < |hits| && r[j] == ToProduct(hits[pos[j]])
  {
    PositionsSpec(hits, keep);
    if hits != [] {
      var init := hits[..|hits| - 1];
      SelectAtPositions(init, keep);
      PositionsSpec(init, keep);
      var p0 := Positions(init, keep);
      forall j | 0 <= j < |p0|
        ensures hits[p0[j]] == init[p0[j]]
      {
      }
    }
  }

  /** A hit is kept exactly when the filter's test holds for it; the kept
      hits appear in their original order, each as its record. */
  lemma FilteredIsKeptHits(hits: seq<Hit>, keywords: seq<string>, required: map<string, Value>)
    ensures var r := Filtered(hits, keywords, required);
      var pos := Positions(hits, KeepBy(keywords, required));
      && |r| == |pos|
      && (forall j :: 0 <= j < |pos| ==> pos[j] < |hits| && r[j] == ToProduct(hits[pos[j]]))
      && (forall j, k :: 0 <= j < k < |pos| ==> pos[j] < pos[k])
      && (forall i :: 0 <= i < |hits| ==> (Keep(hits[i], keywords, required) <==> i in pos))
  {
    PositionsSpec(hits, KeepBy(keywords, required));
    SelectAtPositions(hits, KeepBy(keywords, required));
  }

  /** Selecting from a concatenation selects from each part: nothing is reordered. */
  lemma {:induction false} SelectAppend(a: seq<Hit>, b: seq<Hit>, keep: Hit -> bool)
    ensures Select(a + b, keep) == Select(a, keep) + Select(b, keep)
    decreases |b|
  {
    if b == [] {
      assert a + b == a;
    } else {
      var b' := b[..|b| - 1];
      assert (a + b)[..|a + b| - 1] == a + b';
      assert (a + b)[|a + b| - 1] == b[|b| - 1];
      SelectAppend(a, b', keep);
    }
  }

  /** Filtering the hits of two result pages is filtering each page. */
  lemma FilteredAppend(a: seq<Hit>, b: seq<Hit>, keywords: seq<string>, required: map<string, Value>)
    ensures Filtered(a + b, keywords, required) == Filtered(a, keywords, required) + Filtered(b, keywords, required)
  {
    SelectAppend(a, b, KeepBy(keywords, required));
  }

  /** A test that accepts every hit keeps them all. */
  lemma {:induction false} SelectAll(hits: seq<Hit>, keep: Hit -> bool)
    requires forall h :: keep(h)
    ensures |Select(hits, keep)| == |hits|
    ensures forall i :: 0 <= i < |hits| ==> Select(hits, keep)[i] == ToProduct(hits[i])
  {
    if hits != [] {
      var init := hits[..|hits| - 1];
      SelectAll(init, keep);
      assert keep(hits[|hits| - 1]);
      assert Select(hits, keep) == Select(init, keep) + [ToProduct(hits[|hits| - 1])];
    }
  }

  /** Without keywords and required attributes every hit is kept. */
  lemma NoCriteriaKeepsAll(hits: seq<Hit>)
    ensures |Filtered(hits, [], map[])| == |hits|
    ensures forall i :: 0 <= i < |hits| ==> Filtered(hits, [], map[])[i] == ToProduct(hits[i])
  {
    SelectAll(hits, KeepBy([], map[]));
  }

  /** Every record carries the attributes extracted from its hit's title and snippet. */
  lemma FilteredAttributes(hits: seq<Hit>, keywords: seq<string>, required: map<string, Value>, j: nat)
    requires j < |Filtered(hits, keywords, required)|
    ensures exists i :: (0 <= i < |hits| && Keep(hits[i], keywords, required)
      && Filtered(hits, keywords, required)[j] == ToProduct(hits[i])
      && Filtered(hits, keywords, required)[j].attributes == Features(TitleOf(hits[i]), SnippetOf(hits[i])))
  {
    FilteredIsKeptHits(hits, keywords, required);
    var i := Positions(hits, KeepBy(keywords, required))[j];
    assert i in Positions(hits, KeepBy(keywords, required));
  }

  /** A required attribute outside the extractor's vocabulary rejects every hit. */
  lemma UnknownAttributeRejects(features: Attributes, required: map<string, Value>, name: string)
    requires name in required && ParseKey(name).None?
    ensures !Satisfies(features, required)
  {
    assert !AttributeMatches(features, name, required[name]);
  }

  /** Python's `True == 1`: a flag the extractor sets satisfies a requirement of `1`. */
  lemma TrueMatchesOne(features: Attributes, k: Key)
    requires k in features && features[k] == Bool(true)
    ensures Satisfies(features, map[KeyName(k) := Int(1)])
    ensures !Satisfies(features, map[KeyName(k) := Int(2)])
  {
    KeyNameParses(k);
    assert AttributeMatches(features, KeyName(k), Int(1));
    assert !AttributeMatches(features, KeyName(k), Int(2));
    assert KeyName(k) in map[KeyName(k) := Int(2)];
  }

  /** The attribute check of the loop: each required attribute in turn, and
      the first one missing or different rejects the hit. */
  method MatchAttributes(features: Attributes, required: map<string, Value>) returns (matched: bool)
    ensures matched == Satisfies(features, required)
  {
    var checked: set<string> := {};
    while checked != required.Keys
      invariant checked <= required.Keys
      invariant forall name :: name in checked ==> AttributeMatches(features, name, required[name])
      decreases |required.Keys - checked|
    {
      var name :| name in required.Keys - checked;
      var found := Lookup(features, name);
      if found.None? || !PyEq(found.value, required[name]) {
        assert !AttributeMatches(features, name, required[name]);
        return false;
      }
      checked := checked + {name};
    }
    return true;
  }

  /** The filter loop: appends a record for each hit that passes both tests. */
  method FilterHits(hits: seq<Hit>, keywords: seq<string>, required: map<string, Value>) returns (filtered: seq<Product>)
    ensures filtered == Filtered(hits, keywords, required)
  {
    filtered := [];
    for i := 0 to |hits|
      invariant filtered == Select(hits[..i], KeepBy(keywords, required))
    {
      assert hits[..i + 1][..i] == hits[..i];
      var p := hits[i];
      var title := OrElse(p.title, "");
      var description := OrElse(p.snippet, "");
      if keywords != [] {
        if !KeywordsMatch(keywords, title, description) {
          continue;
        }
      }
      var productAttributes := ExtractFeatures(title, description);
      var matched := MatchAttributes(productAttributes, required);
      if !matched {
        continue;
      }
      filtered := filtered + [Product(p.title, OrElse(p.extractedPrice, Str("N/A")), p.link, p.source, p.thumbnail, productAttributes)];
    }
    assert hits[..|hits|] == hits;
  }
}
