/**
 * The cart line record shared by the in-memory store, the cart route and
 * the cart badge: its fields, the partial update the store merges into it,
 * and the sum of quantities over a list of lines.
 */
module CartItems {
  import opened Wrappers

  /**
   * One cart line, with the fields of the `cart_items` table. The amount is
   * kept as text, as the store receives it; the timestamps are clock
   * readings.
   */
  datatype CartItem = CartItem(
    id: int,
    cardId: int,
    cardName: string,
    category: string,
    image: string,
    selectedAmount: string,
    quantity: int,
    createdAt: int,
    updatedAt: int)

  /** A line without the fields the store fills in itself (id and timestamps). */
  datatype NewCartItem = NewCartItem(
    cardId: int,
    cardName: string,
    category: string,
    image: string,
    selectedAmount: string,
    quantity: int)

  /** A partial line: `Some` for each field the update names, `None` for the others. */
  datatype ItemUpdate = ItemUpdate(
    id: Option<int>,
    cardId: Option<int>,
    cardName: Option<string>,
    category: Option<string>,
    image: Option<string>,
    selectedAmount: Option<string>,
    quantity: Option<int>,
    createdAt: Option<int>,
    updatedAt: Option<int>)

  function Pick<T>(o: Option<T>, current: T): T {
    match o
    case Some(v) => v
    case None => current
  }

  /** The update that names only the quantity. */
  function QuantityUpdate(q: int): ItemUpdate {
    ItemUpdate(None, None, None, None, None, None, Some(q), None, None)
  }

  /**
   * The line after copying the named fields of `u` over `item` and then
   * the clock reading `now` over its `updatedAt`.
   */
  function Merge(item: CartItem, u: ItemUpdate, now: int): (r: CartItem)
    ensures r.updatedAt == now
    ensures u.id.Some? ==> r.id == u.id.value
    ensures u.id.None? ==> r.id == item.id
    ensures u.cardId.Some? ==> r.cardId == u.cardId.value
    ensures u.cardId.None? ==> r.cardId == item.cardId
    ensures u.cardName.Some? ==> r.cardName == u.cardName.value
    ensures u.cardName.None? ==> r.cardName == item.cardName
    ensures u.category.Some? ==> r.category == u.category.value
    ensures u.category.None? ==> r.category == item.category
    ensures u.image.Some? ==> r.image == u.image.value
    ensures u.image.None? ==> r.image == item.image
    ensures u.selectedAmount.Some? ==> r.selectedAmount == u.selectedAmount.value
    ensures u.selectedAmount.None? ==> r.selectedAmount == item.selectedAmount
    ensures u.quantity.Some? ==> r.quantity == u.quantity.value
    ensures u.quantity.None? ==> r.quantity == item.quantity
    ensures u.createdAt.Some? ==> r.createdAt == u.createdAt.value
    ensures u.createdAt.None? ==> r.createdAt == item.createdAt
  {
    CartItem(
      Pick(u.id, item.id),
      Pick(u.cardId, item.cardId),
      Pick(u.cardName, item.cardName),
      Pick(u.category, item.category),
      Pick(u.image, item.image),
      Pick(u.selectedAmount, item.selectedAmount),
      Pick(u.quantity, item.quantity),
      Pick(u.createdAt, item.createdAt),
      now)
  }

  /** A quantity-only update changes the quantity and the update time and nothing else. */
  lemma MergeQuantity(item: CartItem, q: int, now: int)
    ensures Merge(item, QuantityUpdate(q), now) == item.(quantity := q, updatedAt := now)
  {
  }

  /** Every line has a quantity of at least `m`. */
  predicate QuantitiesAtLeast(items: seq<CartItem>, m: int) {
    forall i :: 0 <= i < |items| ==> items[i].quantity >= m
  }

  /** The sum of `quantity` over `items`, folded from the left starting at 0. */
  function TotalQuantity(items: seq<CartItem>): (total: int)
    ensures QuantitiesAtLeast(items, 0) ==> total >= 0
  {
    if items == [] then 0 else TotalQuantity(items[..|items| - 1]) + items[|items| - 1].quantity
  }

  lemma TotalQuantityAppend(items: seq<CartItem>, x: CartItem)
    ensures TotalQuantity(items + [x]) == TotalQuantity(items) + x.quantity
  {
    assert (items + [x])[..|items|] == items;
  }

  /** Replacing one line changes the total by the difference of the two quantities. */
  lemma {:induction false} TotalQuantityReplace(items: seq<CartItem>, k: nat, x: CartItem)
    requires k < |items|
    ensures TotalQuantity(items[k := x]) == TotalQuantity(items) - items[k].quantity + x.quantity
  {
    var n := |items|;
    var r := items[k := x];
    assert TotalQuantity(r) == TotalQuantity(r[..n - 1]) + r[n - 1].quantity;
    assert TotalQuantity(items) == TotalQuantity(items[..n - 1]) + items[n - 1].quantity;
    if k == n - 1 {
      assert r[..n - 1] == items[..n - 1];
    } else {
      assert r[..n - 1] == items[..n - 1][k := x];
      TotalQuantityReplace(items[..n - 1], k, x);
    }
  }
}
