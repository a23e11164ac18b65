/** The "Similar Products" strip under a product page. */
module SimilarProducts {
  import opened Seqs
  import opened Catalog

  const MaxSimilar: nat := 4

  /** The products other than the current one, in their original order. */
  function Others(current: Product, products: seq<Product>): (r: seq<Product>)
    ensures forall i :: 0 <= i < |r| ==> r[i].id != current.id
    ensures forall i :: 0 <= i < |products| && products[i].id != current.id ==> products[i] in r
    ensures IsSubsequence(r, products)
    ensures forall x :: multiset(r)[x] == if x.id != current.id then multiset(products)[x] else 0
  {
    FilterCount(products, (p: Product) => p.id != current.id);
    FilterIsSubsequence(products, (p: Product) => p.id != current.id);
    FilterKeeps(products, (p: Product) => p.id != current.id);
    Filter(products, (p: Product) => p.id != current.id)
  }

  /**
   * The first four products whose id differs from the current product's:
   * never the current product, at most four, exactly four when four others
   * exist, in their original order, and none when there are no others.
   */
  function Similar(current: Product, products: seq<Product>): (r: seq<Product>)
    ensures forall i :: 0 <= i < |r| ==> r[i].id != current.id
    ensures |r| == if |Others(current, products)| < MaxSimilar then |Others(current, products)| else MaxSimilar
    ensures r <= Others(current, products)
    ensures IsSubsequence(r, products)
    ensures (forall i :: 0 <= i < |products| ==> products[i].id == current.id) ==> r == []
  {
    var others := Others(current, products);
    var r := Take(others, MaxSimilar);
    PrefixIsSubsequence(r, others);
    SubsequenceMembers(others, products);
    SubsequenceTrans(r, others, products);
    r
  }
}
