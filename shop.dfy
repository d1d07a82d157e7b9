/**
 * The shop page's list: a category filter and a name search, applied one after
 * the other to the full product list every time either input changes.
 */
module ShopPage {

  import opened Types
  import Seqs
  import Text

  /** Case-insensitive category equality. */
  predicate InCategory(p: Product, category: string)
  {
    Text.Lower(p.category) == Text.Lower(category)
  }

  /** The lower-cased name contains the lower-cased (untrimmed) query. */
  predicate NameMatches(p: Product, query: string)
  {
    Text.Contains(Text.Lower(p.name), Text.Lower(query))
  }

  /** The first stage: every product for 'all', otherwise the category's products. */
  function ByCategory(products: seq<Product>, category: string): seq<Product>
  {
    if category != "all" then Seqs.Filter(products, (p: Product) => InCategory(p, category)) else products
  }

  /** The second stage: only when `searchQuery.trim()` is non-empty. */
  function BySearch(products: seq<Product>, query: string): seq<Product>
  {
    if Text.Trim(query) != "" then Seqs.Filter(products, (p: Product) => NameMatches(p, query)) else products
  }

  /** `handleSearchAndFilter`, always applied to the full `products` list. */
  function ShopFilter(products: seq<Product>, category: string, query: string): seq<Product>
  {
    BySearch(ByCategory(products, category), query)
  }

  /**
   * The shown list is an order-preserving subsequence of the products, and holds
   * exactly the products that pass both enabled stages.
   */
  lemma ShopFilterSelects(products: seq<Product>, category: string, query: string)
    ensures Seqs.IsSubsequence(ShopFilter(products, category, query), products)
    ensures forall p :: p in ShopFilter(products, category, query) <==>
      && p in products
      && (category != "all" ==> InCategory(p, category))
      && (!Text.IsBlank(query) ==> NameMatches(p, query))
  {
    var c := ByCategory(products, category);
    if category != "all" {
      Seqs.FilterIsSubsequence(products, (p: Product) => InCategory(p, category));
    } else {
      Seqs.SubsequenceReflexive(products);
    }
    if Text.Trim(query) != "" {
      Seqs.FilterIsSubsequence(c, (p: Product) => NameMatches(p, query));
      Seqs.SubsequenceTransitive(ShopFilter(products, category, query), c, products);
    }
    forall p | p in ShopFilter(products, category, query)
      ensures p in products && (category != "all" ==> InCategory(p, category)) && (!Text.IsBlank(query) ==> NameMatches(p, query))
    {
      ShownProductPasses(products, category, query, p);
    }
    forall p | p in products && (category != "all" ==> InCategory(p, category)) && (!Text.IsBlank(query) ==> NameMatches(p, query))
      ensures p in ShopFilter(products, category, query)
    {
      PassingProductShown(products, category, query, p);
    }
  }

  /** A shown product is in the list and passes both enabled stages. */
  lemma ShownProductPasses(products: seq<Product>, category: string, query: string, p: Product)
    requires p in ShopFilter(products, category, query)
    ensures p in products
    ensures category != "all" ==> InCategory(p, category)
    ensures !Text.IsBlank(query) ==> NameMatches(p, query)
  {
    var c := ByCategory(products, category);
    assert p in c by {
      if Text.Trim(query) != "" {
        var r := Seqs.Filter(c, (x: Product) => NameMatches(x, query));
        var i :| 0 <= i < |r| && r[i] == p;
      }
    }
    if category != "all" {
      var j :| 0 <= j < |c| && c[j] == p;
    }
    if !Text.IsBlank(query) {
      Text.TrimProperties(query);
      var r := Seqs.Filter(c, (x: Product) => NameMatches(x, query));
      var i :| 0 <= i < |r| && r[i] == p;
    }
  }

  /** A product of the list that passes both enabled stages is shown. */
  lemma PassingProductShown(products: seq<Product>, category: string, query: string, p: Product)
    requires p in products
    requires category != "all" ==> InCategory(p, category)
    requires !Text.IsBlank(query) ==> NameMatches(p, query)
    ensures p in ShopFilter(products, category, query)
  {
    var c := ByCategory(products, category);
    assert p in c by {
      var i :| 0 <= i < |products| && products[i] == p;
    }
    if Text.Trim(query) != "" {
      Text.TrimProperties(query);
      var j :| 0 <= j < |c| && c[j] == p;
    }
  }

  /** With category 'all' and a blank query every product is shown, in order. */
  lemma ShopFilterNoFilter(products: seq<Product>, query: string)
    requires Text.IsBlank(query)
    ensures ShopFilter(products, "all", query) == products
  {
    Text.TrimProperties(query);
  }

  /** Filtering the shown list again with the same inputs changes nothing. */
  lemma ShopFilterIdempotent(products: seq<Product>, category: string, query: string)
    ensures ShopFilter(ShopFilter(products, category, query), category, query) == ShopFilter(products, category, query)
  {
    var r := ShopFilter(products, category, query);
    ShopFilterSelects(products, category, query);
    forall i | 0 <= i < |r|
      ensures (category != "all" ==> InCategory(r[i], category)) && (Text.Trim(query) != "" ==> NameMatches(r[i], query))
    {
      Text.TrimProperties(query);
      assert r[i] in r;
    }
    if category != "all" {
      Seqs.FilterKeepsAll(r, (p: Product) => InCategory(p, category));
    }
    if Text.Trim(query) != "" {
      Seqs.FilterKeepsAll(ByCategory(r, category), (p: Product) => NameMatches(p, query));
    }
  }

  /** The category stage and the search stage can run in either order. */
  lemma ShopFilterStagesCommute(products: seq<Product>, category: string, query: string)
    ensures ByCategory(BySearch(products, query), category) == BySearch(ByCategory(products, category), query)
  {
    if category != "all" && Text.Trim(query) != "" {
      Seqs.FilterCommutes(products, (p: Product) => InCategory(p, category), (p: Product) => NameMatches(p, query));
    }
  }
}
