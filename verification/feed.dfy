/**
 * The catalog search of the feed page (pages/Feed.tsx): a product is listed
 * when the lower-cased search term occurs in its lower-cased name,
 * description, category or shop name.
 */
module FeedPage {
  import opened Types
  import opened Seqs
  import opened Text

  /**
   * The search test: the lower-cased term occurs in the lower-cased name,
   * description, category or shop name; an empty term matches everything.
   */
  function Matches(p: Product, searchTerm: string): (r: bool)
    ensures searchTerm == "" ==> r
  {
    var term := ToLower(searchTerm);
    ContainsEmpty(ToLower(p.name));
    Contains(ToLower(p.name), term) ||
    Contains(ToLower(p.description), term) ||
    Contains(ToLower(p.category), term) ||
    Contains(ToLower(p.shopName), term)
  }

  /** `filteredProducts`: the matching products, in catalog order. */
  function FilteredProducts(products: seq<Product>, searchTerm: string): (r: seq<Product>)
    ensures IsSubsequence(r, products)
    ensures forall i :: 0 <= i < |r| ==> r[i] in products && Matches(r[i], searchTerm)
    ensures forall i :: 0 <= i < |products| && Matches(products[i], searchTerm) ==> products[i] in r
    ensures forall i :: 0 <= i < |products| ==>
              multiset(r)[products[i]] == if Matches(products[i], searchTerm) then multiset(products)[products[i]] else 0
  {
    Filter(products, (p: Product) => Matches(p, searchTerm))
  }

  /** An empty search lists the whole catalog. */
  lemma EmptySearchKeepsAll(products: seq<Product>)
    ensures FilteredProducts(products, "") == products
  {
    FilterKeepsAll(products, (p: Product) => Matches(p, ""));
  }

  /** Searching the results again with the same term changes nothing. */
  lemma SearchIdempotent(products: seq<Product>, searchTerm: string)
    ensures FilteredProducts(FilteredProducts(products, searchTerm), searchTerm) == FilteredProducts(products, searchTerm)
  {
    FilterIdempotent(products, (p: Product) => Matches(p, searchTerm));
  }

  /** The search ignores the case of ASCII letters in the term. */
  lemma SearchIgnoresTermCase(products: seq<Product>, searchTerm: string)
    ensures FilteredProducts(products, ToLower(searchTerm)) == FilteredProducts(products, searchTerm)
  {
    ToLowerIdempotent(searchTerm);
    FilterAgreeing(products, (p: Product) => Matches(p, ToLower(searchTerm)), (p: Product) => Matches(p, searchTerm));
  }
}
