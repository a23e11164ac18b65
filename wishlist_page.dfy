/** The wishlist page: its search box and its three buttons. */
module WishlistPage {
  import opened Seqs
  import opened Catalog
  import opened Wishlist
  import Cart

  /**
   * `filteredItems`: the whole list for an empty query, otherwise the items
   * whose name matches. The shortcut agrees with the filter itself, since an
   * empty query matches every name.
   */
  function FilteredItems(items: seq<Product>, query: string): (r: seq<Product>)
    ensures r == NameFilter(items, query)
    ensures query == "" ==> r == items
    ensures IsSubsequence(r, items)
  {
    if query != "" then NameFilter(items, query)
    else
      NameFilterEmptyQuery(items);
      items
  }

  /** Removes the id from the wishlist; the returned flag is the "Item removed" toast. */
  method HandleRemoveItem(w: WishlistStore, id: string) returns (toast: bool)
    modifies w
    ensures w.items == RemoveId(old(w.items), id) && !w.IsInWishlist(id)
    ensures toast
  {
    w.RemoveItem(id);
    toast := true;
  }

  /** Adds the item to the cart with the cart's own `addItem`; the wishlist is untouched. The flag is the "Added to cart" toast. */
  method HandleAddToCart(w: WishlistStore, cart: Cart.CartStore, item: Product) returns (toast: bool)
    requires cart.Valid()
    modifies cart
    ensures cart.Valid()
    ensures cart.total == old(cart.total) + item.price
    ensures match old(Cart.FindItem(cart.items, item.id))
      case Some(k) => cart.items == old(cart.items)[k := old(cart.items)[k].(quantity := old(cart.items)[k].quantity + 1)]
      case None => cart.items == old(cart.items) + [Cart.CartItem(item, 1)]
    ensures old(cart.Balanced()) && Cart.PriceAgrees(old(cart.items), item) ==> cart.Balanced()
    ensures w.items == old(w.items)
    ensures toast
  {
    cart.AddItem(item);
    toast := true;
  }

  /** Clears a non-empty wishlist and reports it; an empty one is left alone with no toast. */
  method HandleClearWishlist(w: WishlistStore) returns (toast: bool)
    modifies w
    ensures toast == (old(w.items) != [])
    ensures w.items == []
  {
    if |w.items| == 0 {
      return false;
    }
    w.ClearWishlist();
    toast := true;
  }
}
