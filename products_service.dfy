/** The product catalog: loading, keyword search with its fallback, SKU lookup and the catalog listing (property/products/service.py). */
module ProductServices {
  import opened Wrappers
  import opened Text
  import opened Index
  import opened ProductModels

  function SkuOf(p: Product): string {
    p.sku
  }

  /** The catalog products that match the terms, in catalog order. */
  function MatchingProducts(catalog: seq<Product>, terms: seq<string>): seq<Product>
    decreases |catalog|
  {
    if catalog == [] then []
    else
      var last := catalog[|catalog| - 1];
      MatchingProducts(catalog[..|catalog| - 1], terms) + (if last.MatchesSearchTerms(terms) then [last] else [])
  }

  /** Searching a concatenation searches each part in turn: the result keeps catalog order. */
  lemma {:induction false} MatchingConcat(a: seq<Product>, b: seq<Product>, terms: seq<string>)
    ensures MatchingProducts(a + b, terms) == MatchingProducts(a, terms) + MatchingProducts(b, terms)
    decreases |b|
  {
    if b != [] {
      var n := |b| - 1;
      assert (a + b)[..|a + b| - 1] == a + b[..n];
      MatchingConcat(a, b[..n], terms);
    } else {
      assert a + b == a;
    }
  }

  /** A product is in the result exactly when it is in the catalog and matches. */
  lemma {:induction false} MatchingMembership(catalog: seq<Product>, terms: seq<string>, p: Product)
    ensures p in MatchingProducts(catalog, terms) <==> p in catalog && p.MatchesSearchTerms(terms)
    decreases |catalog|
  {
    if catalog != [] {
      var n := |catalog| - 1;
      MatchingMembership(catalog[..n], terms, p);
      assert catalog == catalog[..n] + [catalog[n]];
    }
  }

  /** Without terms nothing matches. */
  lemma {:induction false} MatchingNoTerms(catalog: seq<Product>)
    ensures MatchingProducts(catalog, []) == []
    decreases |catalog|
  {
    if catalog != [] {
      MatchingNoTerms(catalog[..|catalog| - 1]);
    }
  }

  /** The search never returns more products than the catalog holds. */
  lemma {:induction false} MatchingLength(catalog: seq<Product>, terms: seq<string>)
    ensures |MatchingProducts(catalog, terms)| <= |catalog|
    decreases |catalog|
  {
    if catalog != [] {
      MatchingLength(catalog[..|catalog| - 1], terms);
    }
  }

  /** The keyword branch of `search_by_similarity`: the first `topK` matches, or the first `topK` products when nothing matches. */
  function KeywordFallback(catalog: seq<Product>, query: string, topK: int): seq<Product> {
    var matches := MatchingProducts(catalog, Split(Strip(query)));
    if matches != [] then Head(matches, topK) else Head(catalog, topK)
  }

  /**
   * The fallback returns the first `topK` matches, or the first `topK` catalog products when
   * nothing matches: as many as `topK` allows and the list holds, from the front.
   */
  lemma FallbackShape(catalog: seq<Product>, query: string, topK: int)
    ensures var r := KeywordFallback(catalog, query, topK);
      var matches := MatchingProducts(catalog, Split(query));
      && (topK >= 0 ==> |r| <= topK)
      && (matches != [] ==> |r| <= |matches| && r == matches[..|r|] && forall k | 0 <= k < |r| :: r[k] in catalog && r[k].MatchesSearchTerms(Split(query)))
      && (matches == [] ==> |r| <= |catalog| && r == catalog[..|r|])
      && (topK >= |catalog| && matches == [] ==> r == catalog)
      && (topK >= 0 && matches != [] ==> |r| == (if topK < |matches| then topK else |matches|))
      && (topK >= 0 && matches == [] ==> |r| == (if topK < |catalog| then topK else |catalog|))
  {
    SplitOfStrip(query);
    var r := KeywordFallback(catalog, query, topK);
    var matches := MatchingProducts(catalog, Split(query));
    if matches != [] {
      forall k | 0 <= k < |r| ensures r[k] in catalog && r[k].MatchesSearchTerms(Split(query)) {
        assert r[k] == matches[k];
        MatchingMembership(catalog, Split(query), r[k]);
      }
    }
  }

  /** One line of `get_all_items_formatted`. */
  function CatalogLine(p: Product): string {
    "- " + p.name + ": " + p.description
  }

  function CatalogLines(catalog: seq<Product>): seq<string> {
    seq(|catalog|, k requires 0 <= k < |catalog| => CatalogLine(catalog[k]))
  }

  /** The listing names every product with its description. */
  lemma ListingHoldsEveryProduct(catalog: seq<Product>)
    ensures forall k | 0 <= k < |catalog| :: Contains(Join(CatalogLines(catalog), "\n"), CatalogLine(catalog[k]))
  {
    forall k | 0 <= k < |catalog| ensures Contains(Join(CatalogLines(catalog), "\n"), CatalogLine(catalog[k])) {
      JoinContains(CatalogLines(catalog), "\n", k);
    }
  }

  /** Each catalog line starts with "- " and then shows the product name. */
  lemma CatalogLineShape(p: Product)
    ensures StartsWith(CatalogLine(p), "- " + p.name + ": ")
    ensures CatalogLine(p)[|p.name| + 4..] == p.description
  {
    assert CatalogLine(p)[..|p.name| + 4] == "- " + p.name + ": ";
  }

  class ProductService {
    var products: seq<Product>
    var skuIndex: map<string, Product>

    /** The SKU index is the catalog indexed by SKU, later entries winning. */
    predicate Valid()
      reads this
    {
      skuIndex == IndexBy(products, SkuOf)
    }

    /** `__init__` with `_load_products`, the records given in file order; keyword search only. */
    constructor (records: seq<Product>)
      ensures products == records
      ensures Valid()
    {
      products := [];
      skuIndex := map[];
      new;
      var i := 0;
      while i < |records|
        invariant 0 <= i <= |records|
        invariant products == records[..i]
        invariant skuIndex == IndexBy(records[..i], SkuOf)
      {
        var product := records[i];
        assert records[..i + 1] == records[..i] + [product];
        IndexBySnoc(records[..i], product, SkuOf);
        products := products + [product];
        skuIndex := skuIndex[product.sku := product];
        i := i + 1;
      }
      assert records[..|records|] == records;
    }

    /** `search_by_terms`: the matching products in catalog order; none for an empty term list. */
    method SearchByTerms(terms: seq<string>) returns (r: seq<Product>)
      ensures r == MatchingProducts(products, terms)
    {
      if terms == [] {
        MatchingNoTerms(products);
        return [];
      }
      r := [];
      var i := 0;
      while i < |products|
        invariant 0 <= i <= |products|
        invariant r == MatchingProducts(products[..i], terms)
      {
        var product := products[i];
        assert products[..i + 1][..i] == products[..i];
        if product.MatchesSearchTerms(terms) {
          r := r + [product];
        }
        i := i + 1;
      }
      assert products[..|products|] == products;
    }

    /** `search_by_similarity` with embeddings unavailable: the keyword fallback. */
    method SearchBySimilarity(query: string, topK: int) returns (r: seq<Product>)
      ensures r == KeywordFallback(products, query, topK)
    {
      var terms := Split(Strip(query));
      var matches := SearchByTerms(terms);
      r := if matches != [] then Head(matches, topK) else Head(products, topK);
    }

    /** `get_by_sku`: the last loaded product with that SKU, or nothing when no product has it. */
    function GetBySku(sku: string): (r: Option<Product>)
      requires Valid()
      reads this
      ensures r.None? <==> forall k | 0 <= k < |products| :: products[k].sku != sku
      ensures r.Some? ==> exists k | 0 <= k < |products| :: LastWithKey(products, SkuOf, sku, k) && r.value == products[k]
    {
      IndexByKeys(products, SkuOf, sku);
      if sku in skuIndex then
        IndexByLastWins(products, SkuOf, sku);
        Some(skuIndex[sku])
      else None
    }

    /** `get_all`: a new list holding the catalog, so later edits to it leave the catalog alone. */
    method GetAll() returns (a: array<Product>)
      ensures fresh(a)
      ensures a[..] == products
    {
      a := new Product[|products|](k requires 0 <= k < |products| reads this => products[k]);
    }

    /** `get_all_items_formatted`: one "- name: description" line per product, in catalog order, joined by newlines. */
    method GetAllItemsFormatted() returns (r: string)
      ensures r == Join(CatalogLines(products), "\n")
    {
      var items: seq<string> := [];
      var i := 0;
      while i < |products|
        invariant 0 <= i <= |products|
        invariant items == CatalogLines(products[..i])
      {
        items := items + ["- " + products[i].name + ": " + products[i].description];
        i := i + 1;
      }
      assert products[..|products|] == products;
      r := Join(items, "\n");
    }
  }
}
