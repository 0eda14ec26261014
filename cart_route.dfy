/**
 * The `/api/cart` handlers in memory mode: GET lists the lines, POST
 * validates a request and either adds its quantity to the line with the
 * same card and amount or appends a new line, DELETE empties the cart.
 */
module CartRoute {
  import opened Wrappers
  import opened NumberText
  import opened CartItems
  import opened CartStorage

  /** The request body of a POST; `None` marks a field that is absent or `null`. */
  datatype PostBody = PostBody(
    cardId: Option<int>,
    cardName: Option<string>,
    category: Option<string>,
    image: Option<string>,
    selectedAmount: Option<int>,
    quantity: Option<int>)

  /** JavaScript truthiness of a number field: present and not 0. */
  predicate TruthyNumber(v: Option<int>) {
    v.Some? && v.value != 0
  }

  /** JavaScript truthiness of a string field: present and not empty. */
  predicate TruthyText(v: Option<string>) {
    v.Some? && v.value != ""
  }

  /** The POST guard: some required field is falsy. */
  predicate MissingRequiredField(b: PostBody): (missing: bool)
    ensures !missing ==> b.cardId.Some? && b.cardName.Some? && b.category.Some? &&
                         b.image.Some? && b.selectedAmount.Some? && b.quantity.Some?
    ensures b.cardId == Some(0) || b.selectedAmount == Some(0) || b.quantity == Some(0) ==> missing
  {
    || !TruthyNumber(b.cardId)
    || !TruthyText(b.cardName)
    || !TruthyText(b.category)
    || !TruthyText(b.image)
    || !TruthyNumber(b.selectedAmount)
    || !TruthyNumber(b.quantity)
  }

  /** A POST body that passed the guard. */
  datatype AddRequest = AddRequest(
    cardId: int,
    cardName: string,
    category: string,
    image: string,
    selectedAmount: int,
    quantity: int)

  /** The request a body stands for, or `None` when the guard rejects it. */
  function Validate(b: PostBody): (r: Option<AddRequest>)
    ensures r.None? <==> MissingRequiredField(b)
    ensures r.Some? ==>
      && b.cardId == Some(r.value.cardId) && r.value.cardId != 0
      && b.cardName == Some(r.value.cardName) && r.value.cardName != ""
      && b.category == Some(r.value.category) && r.value.category != ""
      && b.image == Some(r.value.image) && r.value.image != ""
      && b.selectedAmount == Some(r.value.selectedAmount) && r.value.selectedAmount != 0
      && b.quantity == Some(r.value.quantity) && r.value.quantity != 0
  {
    if MissingRequiredField(b) then None
    else Some(AddRequest(b.cardId.value, b.cardName.value, b.category.value, b.image.value,
                         b.selectedAmount.value, b.quantity.value))
  }

  /** The JSON object a handler answers with. */
  datatype Payload = Payload(
    success: bool,
    item: Option<CartItem>,
    items: Option<seq<CartItem>>,
    error: Option<string>)

  /** An HTTP status with its JSON payload. */
  datatype Response = Response(status: int, payload: Payload)

  function Failed(message: string): Payload {
    Payload(false, None, None, Some(message))
  }

  function Succeeded(item: Option<CartItem>): Payload {
    Payload(true, item, None, None)
  }

  /** What GET answers when the store holds `items`. */
  function GetResponse(items: seq<CartItem>): Response {
    Response(200, Payload(true, None, Some(items), None))
  }

  /** The POST merge test: same card, and the stored amount parses to the posted number. */
  function SameCardAndAmount(cardId: int, amount: int): (p: CartItem -> bool)
    ensures forall item: CartItem :: p(item) ==> item.cardId == cardId
    ensures forall a: CartItem, b: CartItem :: SameKey(a, b) ==> (p(a) <==> p(b))
  {
    ParseIntegerText(amount);
    (item: CartItem) => item.cardId == cardId && ParseInteger(item.selectedAmount) == Some(amount)
  }

  /** The index of the line an accepted POST merges into, or -1. */
  function MatchIndex(items: seq<CartItem>, req: AddRequest): int {
    FindIndex(items, SameCardAndAmount(req.cardId, req.selectedAmount))
  }

  /** The first line with the request's card and amount, if any. */
  function FirstMatch(items: seq<CartItem>, req: AddRequest): Option<CartItem> {
    var k := MatchIndex(items, req);
    if k >= 0 then Some(items[k]) else None
  }

  /** The fields of the line POST creates; the amount is stored as its text. */
  function NewItemOf(req: AddRequest): NewCartItem {
    NewCartItem(req.cardId, req.cardName, req.category, req.image,
                IntegerText(req.selectedAmount), req.quantity)
  }

  /**
   * The lines after an accepted POST: the first line with the same card and
   * amount gets the posted quantity added (clock reading `now1`); without
   * one, a new line with id `nextId` is appended (clock readings `now1`,
   * `now2`).
   */
  function MergeOrCreate(items: seq<CartItem>, nextId: int, req: AddRequest, now1: int, now2: int): (r: seq<CartItem>)
    ensures |r| == |items| + (if MatchIndex(items, req) >= 0 then 0 else 1)
  {
    var k := MatchIndex(items, req);
    if k >= 0 then items[k := Merge(items[k], QuantityUpdate(items[k].quantity + req.quantity), now1)]
    else items + [NewLine(nextId, NewItemOf(req), now1, now2)]
  }

  /** The status of an accepted POST: 200 when it merged, 201 when it created a line. */
  function PostStatus(items: seq<CartItem>, req: AddRequest): int {
    if MatchIndex(items, req) >= 0 then 200 else 201
  }

  /** Two lines for the same card whose amounts parse to the same number. */
  predicate SameKey(a: CartItem, b: CartItem) {
    && a.cardId == b.cardId
    && ParseInteger(a.selectedAmount).Some?
    && ParseInteger(a.selectedAmount) == ParseInteger(b.selectedAmount)
  }

  /** The cart holds at most one line per (card, amount). */
  ghost predicate AtMostOneLinePerKey(items: seq<CartItem>) {
    forall i, j :: 0 <= i < j < |items| ==> !SameKey(items[i], items[j])
  }

  /** The line POST creates carries the posted fields and the posted amount's text. */
  lemma {:induction false} NewLineMatches(nextId: int, req: AddRequest, now1: int, now2: int)
    ensures var x := NewLine(nextId, NewItemOf(req), now1, now2);
            SameCardAndAmount(req.cardId, req.selectedAmount)(x) &&
            x.id == nextId && x.cardId == req.cardId && x.cardName == req.cardName &&
            x.category == req.category && x.image == req.image && x.quantity == req.quantity
  {
    ParseIntegerText(req.selectedAmount);
  }

  /** A POST keeps the cart at one line per (card, amount). */
  lemma {:induction false} PostKeepsOneLinePerKey(items: seq<CartItem>, nextId: int, req: AddRequest, now1: int, now2: int)
    requires AtMostOneLinePerKey(items)
    ensures AtMostOneLinePerKey(MergeOrCreate(items, nextId, req, now1, now2))
  {
    var r := MergeOrCreate(items, nextId, req, now1, now2);
    var k := MatchIndex(items, req);
    if k >= 0 {
      forall i | 0 <= i < |r|
        ensures r[i].cardId == items[i].cardId && r[i].selectedAmount == items[i].selectedAmount
      {
      }
    } else {
      var x := NewLine(nextId, NewItemOf(req), now1, now2);
      NewLineMatches(nextId, req, now1, now2);
      forall i, j | 0 <= i < j < |r| ensures !SameKey(r[i], r[j]) {
        if j == |items| {
          assert r[i] == items[i] && r[j] == x;
          assert !SameCardAndAmount(req.cardId, req.selectedAmount)(items[i]);
        } else {
          assert r[i] == items[i] && r[j] == items[j];
        }
      }
    }
  }

  /** A POST raises the total quantity by exactly the posted quantity. */
  lemma {:induction false} PostAddsQuantity(items: seq<CartItem>, nextId: int, req: AddRequest, now1: int, now2: int)
    ensures TotalQuantity(MergeOrCreate(items, nextId, req, now1, now2)) == TotalQuantity(items) + req.quantity
  {
    var k := MatchIndex(items, req);
    if k >= 0 {
      var x := Merge(items[k], QuantityUpdate(items[k].quantity + req.quantity), now1);
      assert MergeOrCreate(items, nextId, req, now1, now2) == items[k := x];
      assert TotalQuantity(items[k := x]) == TotalQuantity(items) - items[k].quantity + x.quantity by {
        TotalQuantityReplace(items, k, x);
      }
    } else {
      var x := NewLine(nextId, NewItemOf(req), now1, now2);
      assert MergeOrCreate(items, nextId, req, now1, now2) == items + [x];
      assert TotalQuantity(items + [x]) == TotalQuantity(items) + x.quantity by {
        TotalQuantityAppend(items, x);
      }
    }
  }

  /**
   * A POST merges or appends one line and leaves every other line as it
   * was; its answer is the first line with the posted card and amount.
   */
  lemma {:induction false} PostChangesOneLine(items: seq<CartItem>, nextId: int, req: AddRequest, now1: int, now2: int)
    ensures var r := MergeOrCreate(items, nextId, req, now1, now2);
            var k := MatchIndex(items, req);
            && (k >= 0 ==> |r| == |items| && r[k].quantity == items[k].quantity + req.quantity &&
                           r[k].id == items[k].id && r[k].updatedAt == now1)
            && (k == -1 ==> |r| == |items| + 1 && r[|items|].id == nextId && r[|items|].quantity == req.quantity)
            && (forall i :: 0 <= i < |items| && i != k ==> r[i] == items[i])
            && FirstMatch(r, req).Some?
            && FirstMatch(r, req).value == r[if k >= 0 then k else |items|]
  {
    var r := MergeOrCreate(items, nextId, req, now1, now2);
    var k := MatchIndex(items, req);
    var p := SameCardAndAmount(req.cardId, req.selectedAmount);
    if k >= 0 {
      forall i | 0 <= i < |r| ensures p(r[i]) == p(items[i]) {
      }
    } else {
      NewLineMatches(nextId, req, now1, now2);
      forall i | 0 <= i < |items| ensures !p(r[i]) {
        assert r[i] == items[i];
      }
    }
  }

  /** The line an accepted POST answers with is the first line with its card and amount. */
  lemma PostAnswersFirstMatch(items: seq<CartItem>, nextId: int, req: AddRequest, now1: int, now2: int)
    ensures var r := MergeOrCreate(items, nextId, req, now1, now2);
            var k := MatchIndex(items, req);
            MatchIndex(r, req) == if k >= 0 then k else |items|
  {
    PostChangesOneLine(items, nextId, req, now1, now2);
  }

  /** A second POST of the same card and amount merges: it never adds a line. */
  lemma {:induction false} RepeatedPostMerges(items: seq<CartItem>, nextId: int, req1: AddRequest, req2: AddRequest,
                                              now1: int, now2: int, now3: int, now4: int)
    requires req2.cardId == req1.cardId && req2.selectedAmount == req1.selectedAmount
    ensures var once := MergeOrCreate(items, nextId, req1, now1, now2);
            MatchIndex(once, req2) >= 0 &&
            |MergeOrCreate(once, nextId + 1, req2, now3, now4)| == |once|
  {
    PostChangesOneLine(items, nextId, req1, now1, now2);
  }

  /** Posting card 5 at amount 10 once and then twice more gives one line of quantity 3. */
  lemma TwoPostsOfOneCardAndAmount(start: nat)
    ensures var first := AddRequest(5, "Steam", "Gaming", "\U{1F3AE}", 10, 1);
            var second := AddRequest(5, "Steam", "Gaming", "\U{1F3AE}", 10, 2);
            var r := MergeOrCreate(MergeOrCreate([], start, first, 0, 0), start + 1, second, 1, 1);
            |r| == 1 && r[0].quantity == 3 && r[0].id == start
  {
    var first := AddRequest(5, "Steam", "Gaming", "\U{1F3AE}", 10, 1);
    var second := AddRequest(5, "Steam", "Gaming", "\U{1F3AE}", 10, 2);
    PostChangesOneLine([], start, first, 0, 0);
    var once := MergeOrCreate([], start, first, 0, 0);
    PostChangesOneLine(once, start + 1, second, 1, 1);
  }

  /** Posting card 5 at amounts 10 and then 25 gives two lines. */
  lemma TwoAmountsOfOneCard(start: nat)
    ensures var first := AddRequest(5, "Steam", "Gaming", "\U{1F3AE}", 10, 1);
            var second := AddRequest(5, "Steam", "Gaming", "\U{1F3AE}", 25, 1);
            |MergeOrCreate(MergeOrCreate([], start, first, 0, 0), start + 1, second, 1, 1)| == 2
  {
    var first := AddRequest(5, "Steam", "Gaming", "\U{1F3AE}", 10, 1);
    var second := AddRequest(5, "Steam", "Gaming", "\U{1F3AE}", 25, 1);
    var once := MergeOrCreate([], start, first, 0, 0);
    PostChangesOneLine([], start, first, 0, 0);
    ParseIntegerText(10);
    assert !SameCardAndAmount(5, 25)(once[0]);
  }

  /** What line `x` contributes to the quantity of (card, amount): its quantity if it has that key, else 0. */
  function KeyShare(x: CartItem, cardId: int, amount: int): int {
    if SameCardAndAmount(cardId, amount)(x) then x.quantity else 0
  }

  /** The sum of `quantity` over the lines with card `cardId` and amount `amount`. */
  function KeyQuantity(items: seq<CartItem>, cardId: int, amount: int): int {
    if items == [] then 0
    else KeyQuantity(items[..|items| - 1], cardId, amount) + KeyShare(items[|items| - 1], cardId, amount)
  }

  lemma KeyQuantityAppend(items: seq<CartItem>, x: CartItem, cardId: int, amount: int)
    ensures KeyQuantity(items + [x], cardId, amount) == KeyQuantity(items, cardId, amount) + KeyShare(x, cardId, amount)
  {
    assert (items + [x])[..|items|] == items;
  }

  /** Replacing one line changes the key's quantity by the difference of the two shares. */
  lemma {:induction false} KeyQuantityReplace(items: seq<CartItem>, k: nat, x: CartItem, cardId: int, amount: int)
    requires k < |items|
    ensures KeyQuantity(items[k := x], cardId, amount) ==
            KeyQuantity(items, cardId, amount) - KeyShare(items[k], cardId, amount) + KeyShare(x, cardId, amount)
  {
    var n := |items|;
    var r := items[k := x];
    if k == n - 1 {
      assert r[..n - 1] == items[..n - 1];
    } else {
      assert r[..n - 1] == items[..n - 1][k := x];
      KeyQuantityReplace(items[..n - 1], k, x, cardId, amount);
    }
  }

  /** Under one line per key, the key's quantity is the quantity of its line, or 0 without one. */
  lemma {:induction false} KeyQuantityOfOnlyLine(items: seq<CartItem>, cardId: int, amount: int)
    requires AtMostOneLinePerKey(items)
    ensures var k := FindIndex(items, SameCardAndAmount(cardId, amount));
            KeyQuantity(items, cardId, amount) == if k >= 0 then items[k].quantity else 0
  {
    if items != [] {
      var p := SameCardAndAmount(cardId, amount);
      var n := |items|;
      var pre := items[..n - 1];
      var x := items[n - 1];
      assert items == pre + [x];
      assert AtMostOneLinePerKey(pre) by {
        forall i, j | 0 <= i < j < |pre| ensures !SameKey(pre[i], pre[j]) {
          assert pre[i] == items[i] && pre[j] == items[j];
        }
      }
      KeyQuantityOfOnlyLine(pre, cardId, amount);
      FindIndexAppend(pre, x, p);
      if p(x) {
        forall i | 0 <= i < |pre| ensures !p(pre[i]) {
          assert pre[i] == items[i] && !SameKey(items[i], items[n - 1]);
        }
      }
    }
  }

  /** Merging a posted quantity into a line of the posted key shifts that key's share alone. */
  lemma MergedShare(y: CartItem, req: AddRequest, now: int, cardId: int, amount: int)
    requires SameCardAndAmount(req.cardId, req.selectedAmount)(y)
    ensures KeyShare(Merge(y, QuantityUpdate(y.quantity + req.quantity), now), cardId, amount) ==
            KeyShare(y, cardId, amount) + (if cardId == req.cardId && amount == req.selectedAmount then req.quantity else 0)
  {
    MergeQuantity(y, y.quantity + req.quantity, now);
  }

  /** The line POST creates counts only towards the posted key. */
  lemma NewLineShare(nextId: int, req: AddRequest, now1: int, now2: int, cardId: int, amount: int)
    ensures KeyShare(NewLine(nextId, NewItemOf(req), now1, now2), cardId, amount) ==
            (if cardId == req.cardId && amount == req.selectedAmount then req.quantity else 0)
  {
    ParseIntegerText(req.selectedAmount);
  }

  /** A POST adds its quantity to its own key and leaves every other key's quantity unchanged. */
  lemma {:induction false} PostAddsKeyQuantity(items: seq<CartItem>, nextId: int, req: AddRequest, now1: int, now2: int,
                                               cardId: int, amount: int)
    ensures KeyQuantity(MergeOrCreate(items, nextId, req, now1, now2), cardId, amount) ==
            KeyQuantity(items, cardId, amount) +
            (if cardId == req.cardId && amount == req.selectedAmount then req.quantity else 0)
  {
    var k := MatchIndex(items, req);
    var posted := if cardId == req.cardId && amount == req.selectedAmount then req.quantity else 0;
    if k >= 0 {
      var x := Merge(items[k], QuantityUpdate(items[k].quantity + req.quantity), now1);
      assert MergeOrCreate(items, nextId, req, now1, now2) == items[k := x];
      assert KeyQuantity(items[k := x], cardId, amount) ==
             KeyQuantity(items, cardId, amount) - KeyShare(items[k], cardId, amount) + KeyShare(x, cardId, amount) by {
        KeyQuantityReplace(items, k, x, cardId, amount);
      }
      assert KeyShare(x, cardId, amount) == KeyShare(items[k], cardId, amount) + posted by {
        MergedShare(items[k], req, now1, cardId, amount);
      }
    } else {
      var x := NewLine(nextId, NewItemOf(req), now1, now2);
      assert MergeOrCreate(items, nextId, req, now1, now2) == items + [x];
      assert KeyQuantity(items + [x], cardId, amount) == KeyQuantity(items, cardId, amount) + KeyShare(x, cardId, amount) by {
        KeyQuantityAppend(items, x, cardId, amount);
      }
      assert KeyShare(x, cardId, amount) == posted by {
        NewLineShare(nextId, req, now1, now2, cardId, amount);
      }
    }
  }

  /** A POST keeps every line some key already had, and gives its own key a line. */
  lemma {:induction false} PostKeyHasLine(items: seq<CartItem>, nextId: int, req: AddRequest, now1: int, now2: int,
                                          cardId: int, amount: int)
    ensures var p := SameCardAndAmount(cardId, amount);
            FindIndex(MergeOrCreate(items, nextId, req, now1, now2), p) >= 0 <==>
            FindIndex(items, p) >= 0 || (cardId == req.cardId && amount == req.selectedAmount)
  {
    var p := SameCardAndAmount(cardId, amount);
    var r := MergeOrCreate(items, nextId, req, now1, now2);
    var k := MatchIndex(items, req);
    PostChangesOneLine(items, nextId, req, now1, now2);
    if k >= 0 {
      forall i | 0 <= i < |r| ensures p(r[i]) == p(items[i]) {
      }
      assert SameCardAndAmount(req.cardId, req.selectedAmount)(items[k]);
    } else {
      var x := NewLine(nextId, NewItemOf(req), now1, now2);
      FindIndexAppend(items, x, p);
      ParseIntegerText(req.selectedAmount);
    }
  }

  /** One accepted POST, with the two clock readings the store takes for it. */
  datatype Posting = Posting(req: AddRequest, now1: int, now2: int)

  /** The lines and the next id after accepting `posts` in order, starting from `items` and `nextId`. */
  function AfterPosts(items: seq<CartItem>, nextId: int, posts: seq<Posting>): (seq<CartItem>, int) {
    if posts == [] then (items, nextId)
    else
      var before := AfterPosts(items, nextId, posts[..|posts| - 1]);
      var last := posts[|posts| - 1];
      (MergeOrCreate(before.0, before.1, last.req, last.now1, last.now2),
       if PostStatus(before.0, last.req) == 201 then before.1 + 1 else before.1)
  }

  /** The sum of the quantities posted for card `cardId` and amount `amount`. */
  function PostedQuantity(posts: seq<Posting>, cardId: int, amount: int): int {
    if posts == [] then 0
    else
      var last := posts[|posts| - 1].req;
      PostedQuantity(posts[..|posts| - 1], cardId, amount) +
      (if last.cardId == cardId && last.selectedAmount == amount then last.quantity else 0)
  }

  /** Some post was for card `cardId` and amount `amount`. */
  predicate PostedKey(posts: seq<Posting>, cardId: int, amount: int) {
    exists i :: 0 <= i < |posts| && posts[i].req.cardId == cardId && posts[i].req.selectedAmount == amount
  }

  /** The last post of a non-empty run is the one `AfterPosts` applies last. */
  lemma AfterPostsLast(items: seq<CartItem>, nextId: int, posts: seq<Posting>)
    requires posts != []
    ensures var before := AfterPosts(items, nextId, posts[..|posts| - 1]);
            var last := posts[|posts| - 1];
            AfterPosts(items, nextId, posts).0 == MergeOrCreate(before.0, before.1, last.req, last.now1, last.now2)
  {
  }

  lemma PostedKeyLast(posts: seq<Posting>, cardId: int, amount: int)
    requires posts != []
    ensures var last := posts[|posts| - 1].req;
            PostedKey(posts, cardId, amount) <==>
            PostedKey(posts[..|posts| - 1], cardId, amount) || (last.cardId == cardId && last.selectedAmount == amount)
  {
    var n := |posts|;
    var pre := posts[..n - 1];
    if PostedKey(posts, cardId, amount) {
      var i :| 0 <= i < n && posts[i].req.cardId == cardId && posts[i].req.selectedAmount == amount;
      if i < n - 1 {
        assert pre[i] == posts[i];
      }
    }
    if PostedKey(pre, cardId, amount) {
      var i :| 0 <= i < n - 1 && pre[i].req.cardId == cardId && pre[i].req.selectedAmount == amount;
      assert posts[i] == pre[i];
    }
  }

  /** Over any run of accepted POSTs, each key's quantity grows by the sum posted for it. */
  lemma {:induction false} AfterPostsKeyQuantity(items: seq<CartItem>, nextId: int, posts: seq<Posting>,
                                                 cardId: int, amount: int)
    ensures KeyQuantity(AfterPosts(items, nextId, posts).0, cardId, amount) ==
            KeyQuantity(items, cardId, amount) + PostedQuantity(posts, cardId, amount)
  {
    if posts != [] {
      var pre := posts[..|posts| - 1];
      var last := posts[|posts| - 1];
      var before := AfterPosts(items, nextId, pre);
      AfterPostsLast(items, nextId, posts);
      AfterPostsKeyQuantity(items, nextId, pre, cardId, amount);
      PostAddsKeyQuantity(before.0, before.1, last.req, last.now1, last.now2, cardId, amount);
    }
  }

  /** Over any run of accepted POSTs, a key has a line exactly when it had one before or was posted. */
  lemma {:induction false} AfterPostsKeyHasLine(items: seq<CartItem>, nextId: int, posts: seq<Posting>,
                                                cardId: int, amount: int)
    ensures var p := SameCardAndAmount(cardId, amount);
            FindIndex(AfterPosts(items, nextId, posts).0, p) >= 0 <==>
            FindIndex(items, p) >= 0 || PostedKey(posts, cardId, amount)
  {
    if posts != [] {
      var pre := posts[..|posts| - 1];
      var last := posts[|posts| - 1];
      var before := AfterPosts(items, nextId, pre);
      AfterPostsLast(items, nextId, posts);
      AfterPostsKeyHasLine(items, nextId, pre, cardId, amount);
      PostKeyHasLine(before.0, before.1, last.req, last.now1, last.now2, cardId, amount);
      PostedKeyLast(posts, cardId, amount);
    }
  }

  /** Over any run of accepted POSTs, the cart stays at one line per key. */
  lemma {:induction false} AfterPostsOneLinePerKey(items: seq<CartItem>, nextId: int, posts: seq<Posting>)
    requires AtMostOneLinePerKey(items)
    ensures AtMostOneLinePerKey(AfterPosts(items, nextId, posts).0)
  {
    if posts != [] {
      var pre := posts[..|posts| - 1];
      var last := posts[|posts| - 1];
      var before := AfterPosts(items, nextId, pre);
      AfterPostsLast(items, nextId, posts);
      AfterPostsOneLinePerKey(items, nextId, pre);
      PostKeepsOneLinePerKey(before.0, before.1, last.req, last.now1, last.now2);
    }
  }

  /**
   * From an empty cart, after any run of accepted POSTs: a (card, amount)
   * has a line exactly when it was posted, that line is the only one with
   * its key, and its quantity is the sum of the quantities posted for it.
   */
  lemma PostsFromEmptyCart(start: int, posts: seq<Posting>, cardId: int, amount: int)
    ensures var r := AfterPosts([], start, posts).0;
            var k := FindIndex(r, SameCardAndAmount(cardId, amount));
            && AtMostOneLinePerKey(r)
            && (k >= 0 <==> PostedKey(posts, cardId, amount))
            && (k >= 0 ==> r[k].quantity == PostedQuantity(posts, cardId, amount))
            && (k == -1 ==> PostedQuantity(posts, cardId, amount) == 0)
  {
    AfterPostsKeyQuantity([], start, posts, cardId, amount);
    AfterPostsKeyHasLine([], start, posts, cardId, amount);
    AfterPostsOneLinePerKey([], start, posts);
    KeyQuantityOfOnlyLine(AfterPosts([], start, posts).0, cardId, amount);
  }

  /** The guard tests truthiness only: a quantity of -1 is accepted. */
  lemma NegativeQuantityAccepted()
    ensures Validate(PostBody(Some(5), Some("Steam"), Some("Gaming"), Some("\U{1F3AE}"), Some(10), Some(-1)))
            == Some(AddRequest(5, "Steam", "Gaming", "\U{1F3AE}", 10, -1))
  {
  }

  /** GET in memory mode: the stored lines with `success: true`; nothing changes. */
  method Get(store: CartStore) returns (resp: Response)
    ensures resp == GetResponse(store.items)
    ensures resp.status == 200 && resp.payload.success && resp.payload.items == Some(store.items)
  {
    var items := store.GetAll();
    resp := GetResponse(items);
  }

  /**
   * POST in memory mode. `body` is `None` when the request body cannot be
   * read as a JSON object; `now1` and `now2` are the clock readings the
   * store takes.
   */
  method Post(store: CartStore, body: Option<PostBody>, now1: int, now2: int) returns (resp: Response)
    requires store.Valid()
    modifies store
    ensures store.Valid()
    ensures body.None? ==>
      && resp == Response(500, Failed("Failed to add item to cart"))
      && store.items == old(store.items) && store.nextId == old(store.nextId)
    ensures body.Some? && MissingRequiredField(body.value) ==>
      && resp == Response(400, Failed("Missing required fields"))
      && store.items == old(store.items) && store.nextId == old(store.nextId)
    ensures body.Some? && !MissingRequiredField(body.value) ==>
      var req := Validate(body.value).value;
      && store.items == MergeOrCreate(old(store.items), old(store.nextId), req, now1, now2)
      && store.nextId == old(store.nextId) + (if PostStatus(old(store.items), req) == 201 then 1 else 0)
      && resp == Response(PostStatus(old(store.items), req), Succeeded(FirstMatch(store.items, req)))
      && resp.payload.item.Some?
      && TotalQuantity(store.items) == old(TotalQuantity(store.items)) + req.quantity
      && (old(AtMostOneLinePerKey(store.items)) ==> AtMostOneLinePerKey(store.items))
  {
    if body.None? {
      resp := Response(500, Failed("Failed to add item to cart"));
      return;
    }
    var v := Validate(body.value);
    if v.None? {
      resp := Response(400, Failed("Missing required fields"));
      return;
    }
    var req := v.value;
    ghost var before := store.items;
    ghost var k := MatchIndex(before, req);
    var existing := store.Find(SameCardAndAmount(req.cardId, req.selectedAmount));
    if existing.Some? {
      FindIndexOfOwnId(before, store.nextId, k);
      var updated := store.Update(existing.value.id, QuantityUpdate(existing.value.quantity + req.quantity), now1);
      resp := Response(200, Succeeded(updated));
    } else {
      var newItem := store.Add(NewItemOf(req), now1, now2);
      resp := Response(201, Succeeded(Some(newItem)));
    }
    assert store.items == MergeOrCreate(before, old(store.nextId), req, now1, now2);
    assert resp.payload.item == FirstMatch(store.items, req) by {
      PostAnswersFirstMatch(before, old(store.nextId), req, now1, now2);
    }
    assert TotalQuantity(store.items) == TotalQuantity(before) + req.quantity by {
      PostAddsQuantity(before, old(store.nextId), req, now1, now2);
    }
    assert AtMostOneLinePerKey(before) ==> AtMostOneLinePerKey(store.items) by {
      if AtMostOneLinePerKey(before) {
        PostKeepsOneLinePerKey(before, old(store.nextId), req, now1, now2);
      }
    }
  }

  /** DELETE in memory mode: empties the cart, on an empty cart too, and succeeds. */
  method Delete(store: CartStore) returns (resp: Response)
    modifies store
    ensures store.items == [] && store.nextId == old(store.nextId)
    ensures store.Valid()
    ensures resp == Response(200, Succeeded(None))
  {
    store.Clear();
    resp := Response(200, Succeeded(None));
  }
}
