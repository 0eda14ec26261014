/**
 * The in-memory cart store: a process-wide list of cart lines and the
 * counter that hands out their ids. The store appends, finds the first
 * line meeting a predicate, merges an update into the first line with an
 * id, removes the first line with an id, and empties the list.
 */
module CartStorage {
  import opened Wrappers
  import opened CartItems

  /** The index of the first line meeting `p`, or -1 when none does (`Array.prototype.findIndex`). */
  function FindIndex(items: seq<CartItem>, p: CartItem -> bool): (k: int)
    ensures -1 <= k < |items|
    ensures k == -1 <==> forall i :: 0 <= i < |items| ==> !p(items[i])
    ensures k >= 0 ==> p(items[k]) && forall i :: 0 <= i < k ==> !p(items[i])
  {
    if items == [] then -1
    else if p(items[0]) then 0
    else
      var k := FindIndex(items[1..], p);
      if k == -1 then -1 else k + 1
  }

  /** The predicate "this line has id `id`". */
  function HasId(id: int): CartItem -> bool {
    (item: CartItem) => item.id == id
  }

  /** The line the store builds from `item`, the id it allocates and two clock readings. */
  function NewLine(id: int, item: NewCartItem, createdAt: int, updatedAt: int): (r: CartItem)
    ensures NewCartItem(r.cardId, r.cardName, r.category, r.image, r.selectedAmount, r.quantity) == item
    ensures r.id == id && r.createdAt == createdAt && r.updatedAt == updatedAt
  {
    CartItem(id, item.cardId, item.cardName, item.category, item.image,
             item.selectedAmount, item.quantity, createdAt, updatedAt)
  }

  /** Ids strictly increase along the list and are all below the next id to hand out. */
  ghost predicate IdsBelowAndIncreasing(items: seq<CartItem>, nextId: int) {
    && (forall i, j :: 0 <= i < j < |items| ==> items[i].id < items[j].id)
    && (forall i :: 0 <= i < |items| ==> items[i].id < nextId)
  }

  /** Under that invariant no two lines share an id. */
  lemma IdsDistinct(items: seq<CartItem>, nextId: int, i: nat, j: nat)
    requires IdsBelowAndIncreasing(items, nextId)
    requires i < |items| && j < |items| && i != j
    ensures items[i].id != items[j].id
  {
  }

  /** Under that invariant the first line with the id of line `k` is line `k` itself. */
  lemma FindIndexOfOwnId(items: seq<CartItem>, nextId: int, k: nat)
    requires IdsBelowAndIncreasing(items, nextId) && k < |items|
    ensures FindIndex(items, HasId(items[k].id)) == k
  {
  }

  /** The first match in a list with one more line at its end. */
  lemma FindIndexAppend(items: seq<CartItem>, x: CartItem, p: CartItem -> bool)
    ensures var j := FindIndex(items, p);
            FindIndex(items + [x], p) == if j >= 0 then j else if p(x) then |items| else -1
  {
    var s := items + [x];
    var j := FindIndex(items, p);
    var k := FindIndex(s, p);
    assert forall i :: 0 <= i < |items| ==> s[i] == items[i];
    if j >= 0 {
      assert p(s[j]);
      assert !(k < j);
    } else if p(x) {
      assert p(s[|items|]);
    }
  }

  /**
   * A line appended with the next id is the first line with that id, so a
   * lookup by its id lands on it.
   */
  lemma AddedLineFoundById(items: seq<CartItem>, nextId: int, x: CartItem)
    requires IdsBelowAndIncreasing(items, nextId) && x.id == nextId
    ensures FindIndex(items + [x], HasId(x.id)) == |items|
  {
    FindIndexAppend(items, x, HasId(x.id));
  }

  /** Removing a line from a list whose ids increase keeps them increasing. */
  lemma RemoveKeepsIds(items: seq<CartItem>, nextId: int, k: nat)
    requires IdsBelowAndIncreasing(items, nextId) && k < |items|
    ensures IdsBelowAndIncreasing(items[..k] + items[k + 1..], nextId)
  {
    var r := items[..k] + items[k + 1..];
    forall i | 0 <= i < |r| ensures r[i] == items[if i < k then i else i + 1] {
    }
  }

  class CartStore {
    var items: seq<CartItem>
    var nextId: int

    /** Ids strictly increase along the list and stay below `nextId`. */
    ghost predicate Valid(): (ok: bool)
      reads this
      ensures ok ==> forall i, j :: 0 <= i < |items| && 0 <= j < |items| && i != j ==> items[i].id != items[j].id
      ensures ok ==> forall i :: 0 <= i < |items| ==> items[i].id != nextId
    {
      IdsBelowAndIncreasing(items, nextId)
    }

    /** A fresh store: no lines, and ids start from `start` (the clock at startup). */
    constructor (start: nat)
      ensures items == [] && nextId == start
      ensures Valid()
    {
      items := [];
      nextId := start;
    }

    /** The stored lines, in insertion order (`getInMemoryCart`). */
    method GetAll() returns (r: seq<CartItem>)
      ensures r == items
    {
      r := items;
    }

    /**
     * Appends a line made of the caller's fields, the next id and two clock
     * readings (`addToInMemoryCart`).
     */
    method Add(item: NewCartItem, createdAt: int, updatedAt: int) returns (r: CartItem)
      modifies this
      ensures r.id == old(nextId) && nextId == old(nextId) + 1
      ensures r.cardId == item.cardId && r.cardName == item.cardName
      ensures r.category == item.category && r.image == item.image
      ensures r.selectedAmount == item.selectedAmount && r.quantity == item.quantity
      ensures r.createdAt == createdAt && r.updatedAt == updatedAt
      ensures items == old(items) + [r]
      ensures old(Valid()) ==> Valid()
    {
      r := NewLine(nextId, item, createdAt, updatedAt);
      nextId := nextId + 1;
      items := items + [r];
    }

    /** The first line meeting `p`, or `None` (`findInMemoryCartItem`). */
    method Find(p: CartItem -> bool) returns (r: Option<CartItem>)
      ensures var k := FindIndex(items, p); r == if k == -1 then None else Some(items[k])
      ensures r.None? <==> forall i :: 0 <= i < |items| ==> !p(items[i])
      ensures r.Some? ==> exists k :: 0 <= k < |items| && items[k] == r.value && p(items[k]) &&
                                      forall i :: 0 <= i < k ==> !p(items[i])
    {
      var k := FindIndex(items, p);
      r := if k == -1 then None else Some(items[k]);
    }

    /**
     * Merges `updates` and the clock reading `now` into the first line with
     * id `id` and returns it; returns `None` and changes nothing when no line
     * has that id (`updateInMemoryCartItem`).
     */
    method Update(id: int, updates: ItemUpdate, now: int) returns (r: Option<CartItem>)
      modifies this
      ensures nextId == old(nextId)
      ensures var k := FindIndex(old(items), HasId(id));
              if k == -1 then r == None && items == old(items)
              else r == Some(Merge(old(items)[k], updates, now)) && items == old(items)[k := r.value]
      ensures old(Valid()) && updates.id.None? ==> Valid()
    {
      var k := FindIndex(items, HasId(id));
      if k == -1 {
        r := None;
      } else {
        var merged := Merge(items[k], updates, now);
        items := items[k := merged];
        r := Some(merged);
      }
    }

    /**
     * Removes the first line with id `id` and answers whether there was one
     * (`removeFromInMemoryCart`).
     */
    method Remove(id: int) returns (removed: bool)
      modifies this
      ensures nextId == old(nextId)
      ensures var k := FindIndex(old(items), HasId(id));
              removed == (k != -1) &&
              items == if k == -1 then old(items) else old(items)[..k] + old(items)[k + 1..]
      ensures old(Valid()) ==> Valid()
    {
      var k := FindIndex(items, HasId(id));
      if k == -1 {
        removed := false;
      } else {
        if Valid() {
          RemoveKeepsIds(items, nextId, k);
        }
        items := items[..k] + items[k + 1..];
        removed := true;
      }
    }

    /** Empties the list; the id counter keeps counting (`clearInMemoryCart`). */
    method Clear()
      modifies this
      ensures items == [] && nextId == old(nextId)
      ensures Valid()
    {
      items := [];
    }
  }
}
