/** A catalog product and its keyword matching (property/products/models.py). */
module ProductModels {
  import opened Text

  /** A catalog entry; the optional embedding vector is not part of this model. */
  datatype Product = Product(name: string, sku: string, inventory: int, description: string, tags: seq<string>)
  {
    /** `has_inventory`: in stock means a positive count; zero and negative counts are out of stock. */
    predicate HasInventory()
      ensures HasInventory() ==> inventory >= 1
      ensures !HasInventory() ==> inventory <= 0
    {
      inventory > 0
    }

    /** The space-joined tags, shared by both texts below. */
    function TagsText(): string {
      Join(tags, " ")
    }

    /** `get_search_text`: name, description and the space-joined tags, separated by spaces. */
    function SearchText(): (t: string)
      ensures StartsWith(t, name + " ")
      ensures t[|name| + 1..] == description + " " + TagsText()
    {
      assert (name + " " + description + " " + TagsText())[..|name| + 1] == name + " ";
      name + " " + description + " " + TagsText()
    }

    /** `get_embedding_text`: the same three parts separated by ". ". */
    function EmbeddingText(): (t: string)
      ensures StartsWith(t, name + ". ")
      ensures t[|name| + 2..] == description + ". " + TagsText()
    {
      assert (name + ". " + description + ". " + TagsText())[..|name| + 2] == name + ". ";
      name + ". " + description + ". " + TagsText()
    }

    /** `matches_search_terms`: no terms never match; otherwise some term, lower-cased, occurs in the lower-cased search text. */
    predicate MatchesSearchTerms(terms: seq<string>) {
      terms != [] && AnyTermIn(terms, Lower(SearchText()))
    }
  }

  /** `any(term.lower() in text for term in terms)`, scanning the terms left to right. */
  function AnyTermIn(terms: seq<string>, text: string): (r: bool)
    ensures r <==> exists k | 0 <= k < |terms| :: Contains(text, Lower(terms[k]))
    decreases |terms|
  {
    if terms == [] then false
    else if Contains(text, Lower(terms[0])) then true
    else
      var rest := AnyTermIn(terms[1..], text);
      assert forall k | 1 <= k < |terms| :: terms[k] == terms[1..][k - 1];
      rest
  }

  /** A product matches exactly when one of the terms occurs in its search text, ignoring case. */
  lemma MatchesIffSomeTerm(p: Product, terms: seq<string>)
    ensures p.MatchesSearchTerms(terms) <==> exists k | 0 <= k < |terms| :: Contains(Lower(p.SearchText()), Lower(terms[k]))
  {
  }

  /** Adding terms, before or after, never turns a match into a non-match. */
  lemma MatchesMonotone(p: Product, terms: seq<string>, more: seq<string>)
    requires p.MatchesSearchTerms(terms)
    ensures p.MatchesSearchTerms(terms + more)
    ensures p.MatchesSearchTerms(more + terms)
  {
    var text := Lower(p.SearchText());
    var k :| 0 <= k < |terms| && Contains(text, Lower(terms[k]));
    assert (terms + more)[k] == terms[k];
    assert (more + terms)[|more| + k] == terms[k];
  }

  /** The search text holds the name, the description and every tag. */
  lemma SearchTextHoldsFields(p: Product)
    ensures Contains(p.SearchText(), p.name)
    ensures Contains(p.SearchText(), p.description)
    ensures forall k | 0 <= k < |p.tags| :: Contains(p.SearchText(), p.tags[k])
  {
    var t := p.SearchText();
    ContainsPrefix(p.name, " " + p.description + " " + p.TagsText());
    assert p.name + (" " + p.description + " " + p.TagsText()) == t;
    ContainsMiddle(p.name + " ", p.description, " " + p.TagsText());
    assert p.name + " " + p.description + (" " + p.TagsText()) == t;
    forall k | 0 <= k < |p.tags| ensures Contains(t, p.tags[k]) {
      JoinContains(p.tags, " ", k);
      ContainsWithin(p.name + " " + p.description + " ", p.TagsText(), [], p.tags[k]);
      assert p.name + " " + p.description + " " + p.TagsText() + [] == t;
    }
  }

  /** The embedding text holds the name, the description and every tag as well. */
  lemma EmbeddingTextHoldsFields(p: Product)
    ensures Contains(p.EmbeddingText(), p.name)
    ensures Contains(p.EmbeddingText(), p.description)
    ensures forall k | 0 <= k < |p.tags| :: Contains(p.EmbeddingText(), p.tags[k])
  {
    var t := p.EmbeddingText();
    ContainsPrefix(p.name, ". " + p.description + ". " + p.TagsText());
    assert p.name + (". " + p.description + ". " + p.TagsText()) == t;
    ContainsMiddle(p.name + ". ", p.description, ". " + p.TagsText());
    assert p.name + ". " + p.description + (". " + p.TagsText()) == t;
    forall k | 0 <= k < |p.tags| ensures Contains(t, p.tags[k]) {
      JoinContains(p.tags, " ", k);
      ContainsWithin(p.name + ". " + p.description + ". ", p.TagsText(), [], p.tags[k]);
      assert p.name + ". " + p.description + ". " + p.TagsText() + [] == t;
    }
  }

  /** Searching for a product's name, description or any one of its tags finds it, in any letter case. */
  lemma OwnFieldsMatch(p: Product)
    ensures p.MatchesSearchTerms([p.name])
    ensures p.MatchesSearchTerms([Upper(p.name)])
    ensures p.MatchesSearchTerms([p.description])
    ensures forall k | 0 <= k < |p.tags| :: p.MatchesSearchTerms([p.tags[k]])
  {
    SearchTextHoldsFields(p);
    var t := p.SearchText();
    LowerContains(t, p.name);
    LowerContains(t, p.description);
    assert Lower(Upper(p.name)) == Lower(p.name);
    assert [Upper(p.name)][0] == Upper(p.name);
    assert [p.name][0] == p.name;
    assert [p.description][0] == p.description;
    forall k | 0 <= k < |p.tags| ensures p.MatchesSearchTerms([p.tags[k]]) {
      LowerContains(t, p.tags[k]);
      assert [p.tags[k]][0] == p.tags[k];
    }
  }

  /** The empty term list never matches, while the single empty term matches every product. */
  lemma EdgeTermLists(p: Product)
    ensures !p.MatchesSearchTerms([])
    ensures p.MatchesSearchTerms([""])
  {
    assert OccursAt(Lower(p.SearchText()), Lower(""), 0);
  }
}
