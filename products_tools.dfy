/** The `recommend_products` tool: up to five catalog products for a free-text query (property/products/tools.py). */
module ProductTools {
  import opened Text
  import opened Json
  import opened ProductModels
  import opened ProductServices

  /** `MAX_PRODUCT_RECOMMENDATIONS`. */
  const MaxProductRecommendations := 5

  /** The abbreviated product information handed to the model. */
  datatype Summary = Summary(name: string, sku: string, description: string)

  datatype Recommendation = Recommended(items: seq<Summary>) | SearchFailed(detail: string)

  function SummaryOf(p: Product): Summary {
    Summary(p.name, p.sku, p.description)
  }

  function Summaries(products: seq<Product>): seq<Summary> {
    seq(|products|, k requires 0 <= k < |products| => SummaryOf(products[k]))
  }

  /** The products recommended for the words of a query: the matches, or the whole catalog when nothing matches, cut to five. */
  function Chosen(catalog: seq<Product>, query: string): seq<Product> {
    var terms := Split(Strip(query));
    var matches := if terms != [] then MatchingProducts(catalog, terms) else [];
    Head(if matches != [] then matches else catalog, MaxProductRecommendations)
  }

  /** `recommend_products` on a decoded argument: a non-string query fails at `strip`. */
  function Recommend(catalog: seq<Product>, query: Json): Recommendation {
    if !query.JStr? then SearchFailed("'" + TypeName(query) + "' object has no attribute 'strip'")
    else Recommended(Summaries(Chosen(catalog, query.s)))
  }

  /** Never more than five recommendations, each carrying exactly one product's name, SKU and description. */
  lemma AtMostFive(catalog: seq<Product>, query: string)
    ensures var r := Recommend(catalog, JStr(query));
      && |r.items| <= MaxProductRecommendations
      && |r.items| == |Chosen(catalog, query)|
      && forall k | 0 <= k < |r.items| :: r.items[k] == Summary(Chosen(catalog, query)[k].name, Chosen(catalog, query)[k].sku, Chosen(catalog, query)[k].description)
  {
  }

  /** When some product matches a word of the query, the result is the first five matches in catalog order, and each matches. */
  lemma MatchesFirst(catalog: seq<Product>, query: string)
    requires MatchingProducts(catalog, Split(query)) != []
    ensures var chosen := Chosen(catalog, query);
      var matches := MatchingProducts(catalog, Split(query));
      && chosen == Head(matches, MaxProductRecommendations)
      && forall k | 0 <= k < |chosen| :: chosen[k] in catalog && chosen[k].MatchesSearchTerms(Split(query))
  {
    SplitOfStrip(query);
    var chosen := Chosen(catalog, query);
    var matches := MatchingProducts(catalog, Split(query));
    forall k | 0 <= k < |chosen| ensures chosen[k] in catalog && chosen[k].MatchesSearchTerms(Split(query)) {
      assert chosen[k] == matches[k];
      MatchingMembership(catalog, Split(query), chosen[k]);
    }
  }

  /** When nothing matches, the result is the first five catalog products. */
  lemma FallsBackToCatalog(catalog: seq<Product>, query: string)
    requires MatchingProducts(catalog, Split(query)) == []
    ensures Chosen(catalog, query) == Head(catalog, MaxProductRecommendations)
  {
    SplitOfStrip(query);
  }

  /** A blank query has no words and falls back to the first five catalog products. */
  lemma BlankQueryFallsBack(catalog: seq<Product>, query: string)
    requires AllSpace(query)
    ensures Chosen(catalog, query) == Head(catalog, MaxProductRecommendations)
  {
    SplitEmptyIffBlank(query);
    MatchingNoTerms(catalog);
    FallsBackToCatalog(catalog, query);
  }

  /** Asking for a catalog product by its own name recommends it or products listed before it that match too. */
  lemma NamedProductYieldsMatches(catalog: seq<Product>, k: nat)
    requires k < |catalog|
    requires Split(catalog[k].name) == [catalog[k].name]
    ensures var chosen := Chosen(catalog, catalog[k].name);
      && chosen != []
      && forall j | 0 <= j < |chosen| :: chosen[j].MatchesSearchTerms([catalog[k].name])
  {
    var p := catalog[k];
    OwnFieldsMatch(p);
    MatchingMembership(catalog, [p.name], p);
    MatchesFirst(catalog, p.name);
  }

  function SummaryJson(s: Summary): Json {
    JObject(map["name" := JStr(s.name), "sku" := JStr(s.sku), "description" := JStr(s.description)])
  }

  /** The document `json.dumps` receives: a list of summaries, or an error object. */
  function RecommendationJson(r: Recommendation): (j: Json)
    ensures r.Recommended? ==> j.JArray? && |j.items| == |r.items|
    ensures r.SearchFailed? ==> j == JObject(map["error" := JStr("Failed to search products: " + r.detail)])
  {
    match r
    case Recommended(items) => JArray(seq(|items|, k requires 0 <= k < |items| => SummaryJson(items[k])))
    case SearchFailed(d) => JObject(map["error" := JStr("Failed to search products: " + d)])
  }

  /** `recommend_products`, with the catalog service given. */
  method RecommendProducts(service: ProductService, query: Json) returns (r: Recommendation)
    ensures r == Recommend(service.products, query)
  {
    if !query.JStr? {
      return SearchFailed("'" + TypeName(query) + "' object has no attribute 'strip'");
    }
    var terms := Split(Strip(query.s));
    var products: seq<Product> := [];
    if terms != [] {
      products := service.SearchByTerms(terms);
    }
    if products == [] {
      var all := service.GetAll();
      products := all[..];
    }
    products := Head(products, MaxProductRecommendations);
    var list: seq<Summary> := [];
    var i := 0;
    while i < |products|
      invariant 0 <= i <= |products|
      invariant list == Summaries(products[..i])
    {
      list := list + [Summary(products[i].name, products[i].sku, products[i].description)];
      i := i + 1;
    }
    assert products[..|products|] == products;
    r := Recommended(list);
  }
}
