/**
 * The cart badge: `cartCount` starts at 0 and, on each refresh, becomes
 * the sum of `quantity` over the lines GET /api/cart returns, unless the
 * answer reports failure or the fetch throws.
 */
module CartProvider {
  import opened Wrappers
  import opened CartItems
  import opened CartRoute

  /** How one fetch of the cart ends: it throws, or yields a parsed JSON payload. */
  datatype FetchOutcome = Threw | Received(data: Payload)

  /**
   * The badge count after one refresh that started from `count`. A
   * successful payload without an `items` array makes `reduce` throw, which
   * the refresh catches, so the count stays.
   */
  function CountAfterRefresh(count: int, outcome: FetchOutcome): (c: int)
    ensures c == count || (outcome.Received? && outcome.data.items.Some? && c == TotalQuantity(outcome.data.items.value))
    ensures outcome.Received? && outcome.data.success && outcome.data.items.Some? ==>
              c == TotalQuantity(outcome.data.items.value)
  {
    match outcome
    case Threw => count
    case Received(data) =>
      if data.success && data.items.Some? then TotalQuantity(data.items.value) else count
  }

  class CartCounter {
    var cartCount: int

    constructor ()
      ensures cartCount == 0
    {
      cartCount := 0;
    }

    /** `refreshCartCount`, given how its fetch of GET /api/cart ends. */
    method RefreshCartCount(outcome: FetchOutcome)
      modifies this
      ensures outcome.Threw? ==> cartCount == old(cartCount)
      ensures outcome.Received? && !outcome.data.success ==> cartCount == old(cartCount)
      ensures outcome.Received? && outcome.data.success && outcome.data.items.Some? ==>
                cartCount == TotalQuantity(outcome.data.items.value)
      ensures cartCount == CountAfterRefresh(old(cartCount), outcome)
    {
      match outcome {
        case Threw =>
        case Received(data) =>
          if data.success {
            match data.items {
              case None =>
              case Some(items) =>
                cartCount := TotalQuantity(items);
            }
          }
      }
    }
  }

  /** A refresh from the in-memory GET shows the store's total quantity, whatever the count was. */
  lemma RefreshShowsStoreTotal(count: int, items: seq<CartItem>)
    ensures CountAfterRefresh(count, Received(GetResponse(items).payload)) == TotalQuantity(items)
  {
  }

  /** An empty cart shows 0: the fold starts at 0. */
  lemma EmptyCartShowsZero(count: int)
    ensures CountAfterRefresh(count, Received(GetResponse([]).payload)) == 0
  {
  }

  /** A failed answer or a throwing fetch leaves the badge as it was. */
  lemma FailureKeepsCount(count: int, data: Payload)
    requires !data.success
    ensures CountAfterRefresh(count, Received(data)) == count
    ensures CountAfterRefresh(count, Threw) == count
  {
  }

  /**
   * After an accepted POST of quantity q, refreshing from GET shows q more
   * than a refresh before the POST did.
   */
  lemma {:induction false} RefreshAfterPostGrowsByQuantity(
      count: int, items: seq<CartItem>, nextId: int, req: AddRequest, now1: int, now2: int)
    ensures var after := MergeOrCreate(items, nextId, req, now1, now2);
            CountAfterRefresh(count, Received(GetResponse(after).payload)) ==
            CountAfterRefresh(count, Received(GetResponse(items).payload)) + req.quantity
  {
    PostAddsQuantity(items, nextId, req, now1, now2);
  }
}
