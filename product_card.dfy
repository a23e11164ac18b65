/**
 * A product card: which image it shows, whether it strikes through a base
 * price, and the heart button that toggles the product in the wishlist.
 */
module ProductCard {
  import opened Wrappers
  import opened Seqs
  import opened Catalog
  import opened Wishlist

  /**
   * `mainImage`: the url of the first image marked main when that url is
   * non-empty; otherwise the first image's url; undefined (None) when there
   * are no images.
   */
  function MainImage(images: seq<ProductImage>): (r: Option<string>)
    ensures r.None? <==> |images| == 0
    ensures forall i :: 0 <= i < |images| && images[i].isMain && (forall j :: 0 <= j < i ==> !images[j].isMain) ==>
      r == Some(if images[i].url != "" then images[i].url else images[0].url)
    ensures |images| > 0 && (forall i :: 0 <= i < |images| ==> !images[i].isMain) ==> r == Some(images[0].url)
  {
    var main := Find(images, (img: ProductImage) => img.isMain);
    if main.Some? && main.value.url != "" then Some(main.value.url)
    else if |images| > 0 then Some(images[0].url)
    else None
  }

  /** The struck-through list price is shown only for a product on sale. */
  predicate ShowsBasePrice(product: Product)
  {
    product.basePrice > product.price
  }

  /**
   * `handleWishlist` on a list: removes the product's id when it is listed,
   * appends the product when it is not. Membership flips, every other entry
   * stays, and a duplicate-free list stays duplicate-free because the append
   * happens only when the id is absent.
   */
  function ToggleWishlist(items: seq<Product>, product: Product): (r: seq<Product>)
    ensures Listed(r, product.id) <==> !Listed(items, product.id)
    ensures forall i :: 0 <= i < |items| && items[i].id != product.id ==> items[i] in r
    ensures UniqueIds(items) ==> UniqueIds(r)
    ensures !Listed(items, product.id) ==> r == items + [product]
    ensures Listed(items, product.id) ==> r == RemoveId(items, product.id)
  {
    IsInWishlistMeaning(items, product.id);
    if Listed(items, product.id) then
      (if UniqueIds(items) then RemoveKeepsUnique(items, product.id); RemoveId(items, product.id)
       else RemoveId(items, product.id))
    else
      var r := items + [product];
      IsInWishlistMeaning(r, product.id);
      assert r[|items|].id == product.id;
      r
  }

  /** Two toggles restore membership, and restore the list itself when the product was absent. */
  lemma ToggleTwice(items: seq<Product>, product: Product)
    ensures Listed(ToggleWishlist(ToggleWishlist(items, product), product), product.id) == Listed(items, product.id)
    ensures !Listed(items, product.id) ==> ToggleWishlist(ToggleWishlist(items, product), product) == items
  {
    if !Listed(items, product.id) {
      AddThenRemove(items, product);
    }
  }

  /** The heart button: the store's `removeItem` or `addItem`, chosen by `isInWishlist`. */
  method HandleWishlist(w: WishlistStore, product: Product)
    modifies w
    ensures w.items == ToggleWishlist(old(w.items), product)
    ensures w.IsInWishlist(product.id) == !old(w.IsInWishlist(product.id))
  {
    if w.IsInWishlist(product.id) {
      w.RemoveItem(product.id);
    } else {
      w.AddItem(product);
    }
  }
}
