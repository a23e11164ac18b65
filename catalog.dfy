/**
 * The product record the stores and pages share, and the name filter used by
 * both the search bar and the wishlist page. Prices are integer cents.
 */
module Catalog {
  import opened Seqs
  import opened Text

  /** One entry of a product's `images` list. */
  datatype ProductImage = ProductImage(url: string, isMain: bool)

  /**
   * A product snapshot. Only the fields the modelled logic reads are kept;
   * `price` is the current (sale) price and `basePrice` the list price.
   */
  datatype Product = Product(id: string, name: string, basePrice: int, price: int, images: seq<ProductImage>)

  /** A JavaScript number as it reaches a query builder: an integer, or NaN from a failed `Number(...)`. */
  datatype JsNumber = Num(value: int) | NaN

  /** The products whose lower-cased name includes the lower-cased query, in their original order. */
  function NameFilter(products: seq<Product>, query: string): (r: seq<Product>)
    ensures IsSubsequence(r, products)
    ensures forall i :: 0 <= i < |r| ==> NameMatches(r[i].name, query)
    ensures forall i :: 0 <= i < |products| && NameMatches(products[i].name, query) ==> products[i] in r
    ensures forall x :: multiset(r)[x] == if NameMatches(x.name, query) then multiset(products)[x] else 0
  {
    FilterCount(products, (p: Product) => NameMatches(p.name, query));
    FilterIsSubsequence(products, (p: Product) => NameMatches(p.name, query));
    FilterKeeps(products, (p: Product) => NameMatches(p.name, query));
    Filter(products, (p: Product) => NameMatches(p.name, query))
  }

  /** An empty query matches every product. */
  lemma NameFilterEmptyQuery(products: seq<Product>)
    ensures NameFilter(products, "") == products
  {
    forall i | 0 <= i < |products| ensures NameMatches(products[i].name, "") {
      NameMatchesEmptyQuery(products[i].name);
    }
    FilterKeepsAll(products, (p: Product) => NameMatches(p.name, ""));
  }
}
