/**
 * The cart store: a list of product snapshots with quantities, keyed by
 * product id, and a running `total` that every action adjusts incrementally
 * instead of recomputing.
 */
module Cart {
  import opened Wrappers
  import opened Seqs
  import opened Catalog

  /** A product snapshot plus its quantity. The size/colour/variant fields are never set by the store. */
  datatype CartItem = CartItem(product: Product, quantity: int)

  /** What one line contributes to the total: price × quantity. */
  function LineTotal(item: CartItem): int
  {
    item.product.price * item.quantity
  }

  /** Σ price × quantity over the items: the value `total` is meant to track. */
  function Sum(items: seq<CartItem>): int
  {
    if items == [] then 0 else LineTotal(items[0]) + Sum(items[1..])
  }

  /** `items.find(item => item.id === id)`, as an index. */
  function FindItem(items: seq<CartItem>, id: string): (r: Option<nat>)
  {
    FindFirst(items, (it: CartItem) => it.product.id == id)
  }

  /** No two lines share a product id. */
  predicate UniqueIds(items: seq<CartItem>)
  {
    forall i, j :: 0 <= i < j < |items| ==> items[i].product.id != items[j].product.id
  }

  /** Every stored snapshot under `product.id` carries `product.price`. */
  predicate PriceAgrees(items: seq<CartItem>, product: Product)
  {
    forall i :: 0 <= i < |items| && items[i].product.id == product.id ==> items[i].product.price == product.price
  }

  /** The `map` of `addItem`: one more of every line with this id. */
  function Increment(items: seq<CartItem>, id: string): seq<CartItem>
  {
    seq(|items|, i requires 0 <= i < |items| =>
      if items[i].product.id == id then items[i].(quantity := items[i].quantity + 1) else items[i])
  }

  /** The `map` of `updateQuantity`: every line with this id gets `quantity`. */
  function SetQuantity(items: seq<CartItem>, id: string, quantity: int): seq<CartItem>
  {
    seq(|items|, i requires 0 <= i < |items| =>
      if items[i].product.id == id then items[i].(quantity := quantity) else items[i])
  }

  /** The `filter` of `removeItem`: the lines whose id differs. */
  function Without(items: seq<CartItem>, id: string): seq<CartItem>
  {
    Filter(items, (it: CartItem) => it.product.id != id)
  }

  // ---------------------------------------------------------------------------
  // The sum and how each list update moves it

  lemma {:induction false} SumAppend(a: seq<CartItem>, b: seq<CartItem>)
    ensures Sum(a + b) == Sum(a) + Sum(b)
  {
    if a == [] {
      assert a + b == b;
    } else {
      assert (a + b)[1..] == a[1..] + b;
      SumAppend(a[1..], b);
    }
  }

  /** Replacing one line moves the sum by the difference of the two line totals. */
  lemma SumReplaceAt(items: seq<CartItem>, k: nat, x: CartItem)
    requires k < |items|
    ensures Sum(items[k := x]) == Sum(items) - LineTotal(items[k]) + LineTotal(x)
  {
    var s := items[k := x];
    assert items == items[..k] + [items[k]] + items[k + 1..];
    assert s == items[..k] + [x] + items[k + 1..];
    SumAppend(items[..k] + [items[k]], items[k + 1..]);
    SumAppend(items[..k], [items[k]]);
    SumAppend(items[..k] + [x], items[k + 1..]);
    SumAppend(items[..k], [x]);
  }

  /** Removing one line lowers the sum by that line's total. */
  lemma SumRemoveAt(items: seq<CartItem>, k: nat)
    requires k < |items|
    ensures Sum(items[..k] + items[k + 1..]) == Sum(items) - LineTotal(items[k])
  {
    var a, b := items[..k], items[k + 1..];
    assert items[k..] == [items[k]] + b;
    assert items == a + items[k..];
    calc {
      Sum(items);
      Sum(a + ([items[k]] + b));
      { SumAppend(a, [items[k]] + b); }
      Sum(a) + Sum([items[k]] + b);
      { SumAppend([items[k]], b); assert Sum([items[k]]) == LineTotal(items[k]); }
      Sum(a) + LineTotal(items[k]) + Sum(b);
      { SumAppend(a, b); }
      Sum(a + b) + LineTotal(items[k]);
    }
  }

  /** With unique ids, the `map` of `addItem` changes exactly the matched line's quantity. */
  lemma IncrementAt(items: seq<CartItem>, k: nat)
    requires UniqueIds(items) && k < |items|
    ensures Increment(items, items[k].product.id) == items[k := items[k].(quantity := items[k].quantity + 1)]
  {
  }

  /** With unique ids, the `map` of `updateQuantity` changes exactly the matched line's quantity. */
  lemma SetQuantityAt(items: seq<CartItem>, k: nat, quantity: int)
    requires UniqueIds(items) && k < |items|
    ensures SetQuantity(items, items[k].product.id, quantity) == items[k := items[k].(quantity := quantity)]
  {
  }

  /** With unique ids, the `filter` of `removeItem` drops exactly the matched line. */
  lemma WithoutAt(items: seq<CartItem>, k: nat)
    requires UniqueIds(items) && k < |items|
    ensures Without(items, items[k].product.id) == items[..k] + items[k + 1..]
  {
    var id := items[k].product.id;
    forall i | 0 <= i < |items| && i != k ensures items[i].product.id != id {
      if i < k {
        assert items[i].product.id != items[k].product.id;
      } else {
        assert items[k].product.id != items[i].product.id;
      }
    }
    FilterRemoveOne(items, (it: CartItem) => it.product.id != id, k);
  }

  /** Removing one line keeps ids unique. */
  lemma UniqueRemoveAt(items: seq<CartItem>, k: nat)
    requires UniqueIds(items) && k < |items|
    ensures UniqueIds(items[..k] + items[k + 1..])
  {
    var r := items[..k] + items[k + 1..];
    forall i, j | 0 <= i < j < |r| ensures r[i].product.id != r[j].product.id {
      var i' := if i < k then i else i + 1;
      var j' := if j < k then j else j + 1;
      assert r[i] == items[i'] && r[j] == items[j'];
    }
  }

  /** Adding an id already in the cart raises the sum by the STORED snapshot's price. */
  lemma SumIncrement(items: seq<CartItem>, k: nat)
    requires UniqueIds(items) && k < |items|
    ensures Sum(Increment(items, items[k].product.id)) == Sum(items) + items[k].product.price
  {
    IncrementAt(items, k);
    SumBumpAt(items, k);
  }

  lemma SumBumpAt(items: seq<CartItem>, k: nat)
    requires k < |items|
    ensures Sum(items[k := items[k].(quantity := items[k].quantity + 1)]) == Sum(items) + items[k].product.price
  {
    SumReplaceAt(items, k, items[k].(quantity := items[k].quantity + 1));
    LineTotalBump(items[k]);
  }

  /** So adding a product whose price differs from its stored snapshot breaks `total == Sum(items)`. */
  lemma StalePriceDrift(items: seq<CartItem>, product: Product, k: nat)
    requires UniqueIds(items) && k < |items| && items[k].product.id == product.id
    requires items[k].product.price != product.price
    ensures Sum(Increment(items, product.id)) != Sum(items) + product.price
  {
    SumIncrement(items, k);
  }

  /** One more unit adds the snapshot's own price to the line total. */
  lemma LineTotalBump(item: CartItem)
    ensures LineTotal(item.(quantity := item.quantity + 1)) == LineTotal(item) + item.product.price
  {
    var p, q := item.product.price, item.quantity;
    assert p * (q + 1) == p * q + p;
  }

  /** The store. `Valid` is the id-uniqueness the actions keep; `Balanced` is the running-total invariant. */
  class CartStore {
    var items: seq<CartItem>
    var total: int

    predicate Valid()
      reads this
    {
      UniqueIds(items)
    }

    predicate Balanced()
      reads this
    {
      total == Sum(items)
    }

    constructor ()
      ensures items == [] && total == 0
      ensures Valid() && Balanced()
    {
      items := [];
      total := 0;
    }

    /**
     * One more of `product`: an existing line (same id) gets quantity + 1 and
     * keeps its stored snapshot; otherwise a new line with quantity 1 is
     * appended. `total` always grows by `product.price`, so it stays equal to
     * the sum only if that price agrees with the stored snapshot.
     */
    method AddItem(product: Product)
      requires Valid()
      modifies this
      ensures Valid()
      ensures total == old(total) + product.price
      ensures match old(FindItem(items, product.id))
        case Some(k) => items == old(items)[k := old(items)[k].(quantity := old(items)[k].quantity + 1)]
        case None => items == old(items) + [CartItem(product, 1)]
      ensures old(Balanced()) && PriceAgrees(old(items), product) ==> Balanced()
    {
      var found := FindItem(items, product.id);
      ghost var before := items;
      if found.Some? {
        IncrementAt(items, found.value);
        items := Increment(items, product.id);
        SumReplaceAt(before, found.value, before[found.value].(quantity := before[found.value].quantity + 1));
        LineTotalBump(before[found.value]);
      } else {
        items := items + [CartItem(product, 1)];
        SumAppend(before, [CartItem(product, 1)]);
      }
      total := total + product.price;
    }

    /** Drops the line with this id and subtracts its price × quantity; an absent id changes nothing. */
    method RemoveItem(productId: string)
      requires Valid()
      modifies this
      ensures Valid()
      ensures match old(FindItem(items, productId))
        case Some(k) =>
          && items == old(items)[..k] + old(items)[k + 1..]
          && total == old(total) - LineTotal(old(items)[k])
        case None => items == old(items) && total == old(total)
      ensures old(Balanced()) ==> Balanced()
      ensures forall i :: 0 <= i < |items| ==> items[i].product.id != productId
    {
      var found := FindItem(items, productId);
      if found.Some? {
        var item := items[found.value];
        WithoutAt(items, found.value);
        UniqueRemoveAt(items, found.value);
        SumRemoveAt(items, found.value);
        items := Without(items, productId);
        total := total - item.product.price * item.quantity;
      }
    }

    /**
     * Sets the quantity of the line with this id (no clamping: zero and
     * negative values are stored as given) and shifts `total` by
     * (new − old) × price; an absent id changes nothing.
     */
    method UpdateQuantity(productId: string, quantity: int)
      requires Valid()
      modifies this
      ensures Valid()
      ensures match old(FindItem(items, productId))
        case Some(k) =>
          && items == old(items)[k := old(items)[k].(quantity := quantity)]
          && total == old(total) + (quantity - old(items)[k].quantity) * old(items)[k].product.price
        case None => items == old(items) && total == old(total)
      ensures old(Balanced()) ==> Balanced()
    {
      var found := FindItem(items, productId);
      if found.Some? {
        var item := items[found.value];
        var priceDiff := (quantity - item.quantity) * item.product.price;
        SetQuantityAt(items, found.value, quantity);
        SumReplaceAt(items, found.value, item.(quantity := quantity));
        items := SetQuantity(items, productId, quantity);
        total := total + priceDiff;
      }
    }

    /** Empties the cart; doing it twice is the same as once. */
    method ClearCart()
      modifies this
      ensures items == [] && total == 0
      ensures Valid() && Balanced()
    {
      items := [];
      total := 0;
    }
  }

  /** Adding the same product twice to an empty cart gives one line of quantity 2, not two lines. */
  method AddTwiceKeepsOneLine(product: Product) returns (items: seq<CartItem>, total: int)
    ensures items == [CartItem(product, 2)]
    ensures total == 2 * product.price
  {
    var cart := new CartStore();
    cart.AddItem(product);
    cart.AddItem(product);
    items, total := cart.items, cart.total;
  }
}
