/**
 * The wishlist store: a list of product snapshots used as a set by its
 * callers. The store itself appends without checking for duplicates.
 */
module Wishlist {
  import opened Seqs
  import opened Catalog

  /** Some entry of `items` has this product id (`items.some(item => item.id === id)`). */
  predicate Listed(items: seq<Product>, id: string)
  {
    Any(items, (p: Product) => p.id == id)
  }

  /** The `filter` of `removeItem`: every entry whose id differs, in order. */
  function RemoveId(items: seq<Product>, id: string): (r: seq<Product>)
    ensures !Listed(r, id)
    ensures IsSubsequence(r, items)
    ensures forall i :: 0 <= i < |items| && items[i].id != id ==> items[i] in r
    ensures forall x :: multiset(r)[x] == if x.id != id then multiset(items)[x] else 0
  {
    FilterCount(items, (p: Product) => p.id != id);
    FilterIsSubsequence(items, (p: Product) => p.id != id);
    FilterKeeps(items, (p: Product) => p.id != id);
    Filter(items, (p: Product) => p.id != id)
  }

  /** No two entries share a product id. */
  predicate UniqueIds(items: seq<Product>)
  {
    forall i, j :: 0 <= i < j < |items| ==> items[i].id != items[j].id
  }

  /** Removing an id that is not listed changes nothing. */
  lemma RemoveAbsent(items: seq<Product>, id: string)
    requires !Listed(items, id)
    ensures RemoveId(items, id) == items
  {
    FilterKeepsAll(items, (p: Product) => p.id != id);
  }

  /** Any filter keeps a list with unique ids free of shared ids. */
  lemma {:induction false} FilterKeepsUniqueIds(items: seq<Product>, p: Product -> bool)
    requires UniqueIds(items)
    ensures UniqueIds(Filter(items, p))
  {
    if items != [] {
      var rest := items[1..];
      assert UniqueIds(rest) by {
        forall i, j | 0 <= i < j < |rest| ensures rest[i].id != rest[j].id {
          assert rest[i] == items[i + 1] && rest[j] == items[j + 1];
        }
      }
      FilterKeepsUniqueIds(rest, p);
      var tail := Filter(rest, p);
      var head := if p(items[0]) then [items[0]] else [];
      var r := Filter(items, p);
      assert r == head + tail;
      FilterMembers(rest, p);
      forall i | 0 <= i < |tail| ensures tail[i].id != items[0].id {
        assert tail[i] in rest;
      }
      forall i, j | 0 <= i < j < |r| ensures r[i].id != r[j].id {
        if head == [] {
          assert r[i] == tail[i] && r[j] == tail[j];
        } else if i == 0 {
          assert r[j] == tail[j - 1];
        } else {
          assert r[i] == tail[i - 1] && r[j] == tail[j - 1];
        }
      }
    }
  }

  /** Removing keeps a duplicate-free list duplicate-free. */
  lemma RemoveKeepsUnique(items: seq<Product>, id: string)
    requires UniqueIds(items)
    ensures UniqueIds(RemoveId(items, id))
  {
    FilterKeepsUniqueIds(items, (p: Product) => p.id != id);
  }

  class WishlistStore {
    var items: seq<Product>

    constructor ()
      ensures items == []
    {
      items := [];
    }

    /** `isInWishlist`: a pure query on the current list. */
    predicate IsInWishlist(productId: string)
      reads this
    {
      Listed(items, productId)
    }

    /** Appends `product` at the end, even when its id is already listed. */
    method AddItem(product: Product)
      modifies this
      ensures items == old(items) + [product]
      ensures IsInWishlist(product.id)
    {
      items := items + [product];
      assert items[|items| - 1].id == product.id;
    }

    /** Drops every entry with this id (duplicates included) and keeps the rest in order. */
    method RemoveItem(productId: string)
      modifies this
      ensures items == RemoveId(old(items), productId)
      ensures !IsInWishlist(productId)
    {
      items := RemoveId(items, productId);
    }

    method ClearWishlist()
      modifies this
      ensures items == []
    {
      items := [];
    }
  }

  /** `isInWishlist` answers "is some entry's id equal to `id`?". */
  lemma IsInWishlistMeaning(items: seq<Product>, id: string)
    ensures Listed(items, id) <==> exists i :: 0 <= i < |items| && items[i].id == id
  {
    AnyIff(items, (p: Product) => p.id == id);
  }

  /** Adding then removing a product leaves the list as removing alone would: every other entry, in order. */
  lemma AddThenRemove(items: seq<Product>, product: Product)
    ensures RemoveId(items + [product], product.id) == RemoveId(items, product.id)
    ensures !Listed(items, product.id) ==> RemoveId(items + [product], product.id) == items
  {
    FilterAppend(items, [product], (p: Product) => p.id != product.id);
    assert Filter([product], (p: Product) => p.id != product.id) == [];
    if !Listed(items, product.id) {
      RemoveAbsent(items, product.id);
    }
  }
}
