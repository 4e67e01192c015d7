/** The cart service: one cart per user, a list of lines each naming a product variant and a
    quantity. Adding merges into an existing line (capped at 50) or appends a new one;
    lines can be given a new quantity, removed, or all cleared; the item count is the sum of
    the quantities. */
module Carts {
  import opened Common
  import opened Collections

  type UserId = string

  datatype CartItem = CartItem(productId: string, variantId: string, quantity: int)

  /** The largest quantity `addToCart` lets a merged line reach. */
  const MaxQuantityPerItem := 50

  const MaxQuantityExceeded := "Maximum quantity per item is 50"
  const CartNotFound := "Cart not found"
  const ItemNotFound := "Item not found in cart"

  predicate SameLine(item: CartItem, productId: string, variantId: string) {
    item.productId == productId && item.variantId == variantId
  }

  /** `items.findIndex(...)` on the (productId, variantId) pair. */
  function LineIndex(items: seq<CartItem>, productId: string, variantId: string): (i: int)
    ensures -1 <= i < |items|
    ensures i == -1 <==> forall k :: 0 <= k < |items| ==> !SameLine(items[k], productId, variantId)
    ensures 0 <= i ==> SameLine(items[i], productId, variantId)
    ensures 0 <= i ==> forall k :: 0 <= k < i ==> !SameLine(items[k], productId, variantId)
  {
    FindIndex(items, (item: CartItem) => SameLine(item, productId, variantId))
  }

  /** No (productId, variantId) pair has two lines. */
  predicate UniqueLines(items: seq<CartItem>) {
    forall i, j :: 0 <= i < j < |items| ==> !SameLine(items[j], items[i].productId, items[i].variantId)
  }

  /** The lines after `addToCart`: an existing line for the pair grows by the quantity,
      unless that takes it past the cap; a new pair is appended, with no cap check. */
  function AddLine(items: seq<CartItem>, productId: string, variantId: string, quantity: int): (r: Result<seq<CartItem>>)
    ensures var i := LineIndex(items, productId, variantId);
            && (i >= 0 && items[i].quantity + quantity > MaxQuantityPerItem ==> r == Err(BadRequest(MaxQuantityExceeded)))
            && (i >= 0 && items[i].quantity + quantity <= MaxQuantityPerItem ==>
                  r == Ok(items[i := CartItem(productId, variantId, items[i].quantity + quantity)]))
            && (i == -1 ==> r == Ok(items + [CartItem(productId, variantId, quantity)]))
  {
    var i := LineIndex(items, productId, variantId);
    if i >= 0 then
      var q := items[i].quantity + quantity;
      if q > MaxQuantityPerItem then Err(BadRequest(MaxQuantityExceeded))
      else Ok(items[i := items[i].(quantity := q)])
    else Ok(items + [CartItem(productId, variantId, quantity)])
  }

  /** The lines after `updateCartItem`: the pair's line takes the new quantity. */
  function SetQuantity(items: seq<CartItem>, productId: string, variantId: string, quantity: int): (r: Result<seq<CartItem>>)
    ensures r.Err? <==> LineIndex(items, productId, variantId) == -1
    ensures r.Err? ==> r.error == NotFound(ItemNotFound)
    ensures r.Ok? ==> var i := LineIndex(items, productId, variantId);
                      r.value == items[i := CartItem(productId, variantId, quantity)]
  {
    var i := LineIndex(items, productId, variantId);
    if i == -1 then Err(NotFound(ItemNotFound)) else Ok(items[i := items[i].(quantity := quantity)])
  }

  /** The lines after `removeFromCart`: every line of the pair goes, the rest keep their order. */
  function RemoveLine(items: seq<CartItem>, productId: string, variantId: string): (r: seq<CartItem>)
    ensures forall k :: 0 <= k < |r| ==> !SameLine(r[k], productId, variantId)
    ensures forall k :: 0 <= k < |items| ==> (items[k] in r <==> !SameLine(items[k], productId, variantId))
    ensures multiset(r) <= multiset(items)
    ensures forall y :: multiset(r)[y] == if SameLine(y, productId, variantId) then 0 else multiset(items)[y]
  {
    FilterCounts(items, (item: CartItem) => !SameLine(item, productId, variantId));
    Filter(items, (item: CartItem) => !SameLine(item, productId, variantId))
  }

  /** Removing works line by line: the kept lines of a cart split in two are the kept lines of
      the first part followed by those of the second, so the kept lines keep their order. */
  lemma RemoveLineAppend(a: seq<CartItem>, b: seq<CartItem>, productId: string, variantId: string)
    ensures RemoveLine(a + b, productId, variantId) == RemoveLine(a, productId, variantId) + RemoveLine(b, productId, variantId)
  {
    FilterAppend(a, b, (item: CartItem) => !SameLine(item, productId, variantId));
  }

  function Quantity(item: CartItem): int { item.quantity }

  /** `items.reduce((total, item) => total + item.quantity, 0)` */
  function ItemCount(items: seq<CartItem>): (n: int)
    ensures |items| == 0 ==> n == 0
    ensures (forall k :: 0 <= k < |items| ==> items[k].quantity >= 0) ==> n >= 0
  {
    SumOf(items, Quantity)
  }

  // ---------------------------------------------------------------- properties

  /** Adding keeps the pairs unique: it either merges into the pair's line or appends a pair
      that has none. */
  lemma AddKeepsLinesUnique(items: seq<CartItem>, productId: string, variantId: string, quantity: int)
    requires UniqueLines(items)
    requires AddLine(items, productId, variantId, quantity).Ok?
    ensures UniqueLines(AddLine(items, productId, variantId, quantity).value)
  {
    var r := AddLine(items, productId, variantId, quantity).value;
    var i := LineIndex(items, productId, variantId);
    if i == -1 {
      forall a, b | 0 <= a < b < |r|
        ensures !SameLine(r[b], r[a].productId, r[a].variantId)
      {
        if b == |items| {
          assert r[a] == items[a];
        }
      }
    }
  }

  /** Setting a quantity keeps the pairs unique. */
  lemma SetKeepsLinesUnique(items: seq<CartItem>, productId: string, variantId: string, quantity: int)
    requires UniqueLines(items)
    requires SetQuantity(items, productId, variantId, quantity).Ok?
    ensures UniqueLines(SetQuantity(items, productId, variantId, quantity).value)
  {
  }

  /** A sequence of `addToCart` calls, the refused ones leaving the lines as they were. */
  datatype Addition = Addition(productId: string, variantId: string, quantity: int)

  function AddAll(items: seq<CartItem>, additions: seq<Addition>): seq<CartItem>
    decreases |additions|
  {
    if |additions| == 0 then items
    else
      var a := additions[0];
      var r := AddLine(items, a.productId, a.variantId, a.quantity);
      AddAll(if r.Ok? then r.value else items, additions[1..])
  }

  /** A cart built only by `addToCart`, starting empty, has at most one line per pair. */
  lemma {:induction false} AddedCartHasUniqueLines(items: seq<CartItem>, additions: seq<Addition>)
    requires UniqueLines(items)
    ensures UniqueLines(AddAll(items, additions))
    decreases |additions|
  {
    if |additions| > 0 {
      var a := additions[0];
      var r := AddLine(items, a.productId, a.variantId, a.quantity);
      if r.Ok? {
        AddKeepsLinesUnique(items, a.productId, a.variantId, a.quantity);
      }
      AddedCartHasUniqueLines(if r.Ok? then r.value else items, additions[1..]);
    }
  }

  /** A successful add raises the item count by exactly the quantity added. */
  lemma AddRaisesCount(items: seq<CartItem>, productId: string, variantId: string, quantity: int)
    requires AddLine(items, productId, variantId, quantity).Ok?
    ensures ItemCount(AddLine(items, productId, variantId, quantity).value) == ItemCount(items) + quantity
  {
    var i := LineIndex(items, productId, variantId);
    if i >= 0 {
      SumOfUpdate(items, i, CartItem(productId, variantId, items[i].quantity + quantity), Quantity);
    } else {
      SumOfAppend(items, [CartItem(productId, variantId, quantity)], Quantity);
    }
  }

  /** Adding a new pair and then removing it gives back the lines as they were. */
  lemma AddThenRemoveRestores(items: seq<CartItem>, productId: string, variantId: string, quantity: int)
    requires LineIndex(items, productId, variantId) == -1
    ensures RemoveLine(AddLine(items, productId, variantId, quantity).value, productId, variantId) == items
  {
    var p := (item: CartItem) => !SameLine(item, productId, variantId);
    var line := CartItem(productId, variantId, quantity);
    FilterAppend(items, [line], p);
    FilterAll(items, p);
    assert Filter([line], p) == [];
  }

  /** Removing a pair lowers the item count by the quantity of its line, in a cart with at
      most one line per pair; removing an absent pair changes nothing. */
  lemma RemoveLowersCount(items: seq<CartItem>, productId: string, variantId: string)
    requires UniqueLines(items)
    ensures var i := LineIndex(items, productId, variantId);
            ItemCount(RemoveLine(items, productId, variantId)) == ItemCount(items) - (if i >= 0 then items[i].quantity else 0)
  {
    if LineIndex(items, productId, variantId) == -1 {
      RemoveAbsentLine(items, productId, variantId);
    } else {
      RemovePresentLine(items, productId, variantId);
    }
  }

  /** Removing a pair that has a line lowers the count by that line's quantity. */
  lemma RemovePresentLine(items: seq<CartItem>, productId: string, variantId: string)
    requires UniqueLines(items)
    requires LineIndex(items, productId, variantId) >= 0
    ensures ItemCount(RemoveLine(items, productId, variantId))
            == ItemCount(items) - items[LineIndex(items, productId, variantId)].quantity
  {
    RemoveOnlyLine(items, productId, variantId);
    CountWithoutLine(items, LineIndex(items, productId, variantId));
  }

  /** Removing a pair that has no line changes nothing. */
  lemma RemoveAbsentLine(items: seq<CartItem>, productId: string, variantId: string)
    requires LineIndex(items, productId, variantId) == -1
    ensures RemoveLine(items, productId, variantId) == items
  {
    FilterAll(items, (item: CartItem) => !SameLine(item, productId, variantId));
  }

  /** Cutting out line i lowers the item count by its quantity. */
  lemma CountWithoutLine(items: seq<CartItem>, i: int)
    requires 0 <= i < |items|
    ensures ItemCount(items[..i] + items[i + 1..]) == ItemCount(items) - items[i].quantity
  {
    assert items == items[..i] + [items[i]] + items[i + 1..];
    SumOfDropOne(items[..i], items[i], items[i + 1..], Quantity);
  }

  /** In a cart with at most one line per pair, removing a present pair cuts out exactly its line. */
  lemma RemoveOnlyLine(items: seq<CartItem>, productId: string, variantId: string)
    requires UniqueLines(items)
    requires LineIndex(items, productId, variantId) >= 0
    ensures var i := LineIndex(items, productId, variantId);
            RemoveLine(items, productId, variantId) == items[..i] + items[i + 1..]
  {
    var p := (item: CartItem) => !SameLine(item, productId, variantId);
    var i := LineIndex(items, productId, variantId);
    var pre, post := items[..i], items[i + 1..];
    assert items == pre + [items[i]] + post;
    forall k | 0 <= k < |pre|
      ensures p(pre[k])
    {
      assert pre[k] == items[k];
    }
    forall k | 0 <= k < |post|
      ensures p(post[k])
    {
      assert post[k] == items[i + 1 + k];
      assert !SameLine(items[i + 1 + k], items[i].productId, items[i].variantId);
    }
    FilterDropsOne(pre, items[i], post, p);
  }

  // ---------------------------------------------------------------- the collection

  /** The cart collection: each user's list of lines. */
  class CartCollection {
    var carts: map<UserId, seq<CartItem>>

    constructor (carts: map<UserId, seq<CartItem>>)
      ensures this.carts == carts
    {
      this.carts := carts;
    }

    /** `getCart`: the user's lines; a user without a cart gets an empty one, saved. */
    method GetCart(userId: UserId) returns (items: seq<CartItem>)
      modifies this
      ensures userId in old(carts) ==> items == old(carts)[userId] && carts == old(carts)
      ensures userId !in old(carts) ==> items == [] && carts == old(carts)[userId := []]
    {
      if userId !in carts {
        carts := carts[userId := []];
      }
      items := carts[userId];
    }

    /** `addToCart`: a refused merge saves nothing, not even a new empty cart. */
    method AddToCart(userId: UserId, productId: string, variantId: string, quantity: int) returns (r: Result<seq<CartItem>>)
      modifies this
      ensures var before := if userId in old(carts) then old(carts)[userId] else [];
              && r == AddLine(before, productId, variantId, quantity)
              && carts == if r.Ok? then old(carts)[userId := r.value] else old(carts)
    {
      var items := if userId in carts then carts[userId] else [];
      var i := LineIndex(items, productId, variantId);
      if i > -1 {
        var newQuantity := items[i].quantity + quantity;
        if newQuantity > MaxQuantityPerItem {
          return Err(BadRequest(MaxQuantityExceeded));
        }
        items := items[i := items[i].(quantity := newQuantity)];
      } else {
        items := items + [CartItem(productId, variantId, quantity)];
      }
      carts := carts[userId := items];
      r := Ok(items);
    }

    /** `updateCartItem`: the cart and the line must exist. */
    method UpdateCartItem(userId: UserId, productId: string, variantId: string, quantity: int) returns (r: Result<seq<CartItem>>)
      modifies this
      ensures userId !in old(carts) ==> r == Err(NotFound(CartNotFound)) && carts == old(carts)
      ensures userId in old(carts) ==>
                && r == SetQuantity(old(carts)[userId], productId, variantId, quantity)
                && carts == if r.Ok? then old(carts)[userId := r.value] else old(carts)
    {
      if userId !in carts {
        return Err(NotFound(CartNotFound));
      }
      var items := carts[userId];
      var i := LineIndex(items, productId, variantId);
      if i == -1 {
        return Err(NotFound(ItemNotFound));
      }
      items := items[i := items[i].(quantity := quantity)];
      carts := carts[userId := items];
      r := Ok(items);
    }

    /** `removeFromCart`: the cart must exist; an absent pair is not an error. */
    method RemoveFromCart(userId: UserId, productId: string, variantId: string) returns (r: Result<seq<CartItem>>)
      modifies this
      ensures userId !in old(carts) ==> r == Err(NotFound(CartNotFound)) && carts == old(carts)
      ensures userId in old(carts) ==>
                && r == Ok(RemoveLine(old(carts)[userId], productId, variantId))
                && carts == old(carts)[userId := r.value]
    {
      if userId !in carts {
        return Err(NotFound(CartNotFound));
      }
      var items := RemoveLine(carts[userId], productId, variantId);
      carts := carts[userId := items];
      r := Ok(items);
    }

    /** `clearCart`: the user's cart is left empty, created if absent. */
    method ClearCart(userId: UserId) returns (items: seq<CartItem>)
      modifies this
      ensures items == [] && carts == old(carts)[userId := []]
    {
      carts := carts[userId := []];
      items := [];
    }
  }

  /** `getCartItemCount`: the sum of the quantities of the user's lines, 0 without a cart. */
  function GetCartItemCount(carts: map<UserId, seq<CartItem>>, userId: UserId): (n: int)
    ensures userId !in carts ==> n == 0
    ensures userId in carts ==> n == ItemCount(carts[userId])
    ensures userId in carts && (forall k :: 0 <= k < |carts[userId]| ==> carts[userId][k].quantity >= 0) ==> n >= 0
  {
    if userId !in carts then 0 else ItemCount(carts[userId])
  }

  /** The item count after clearing is 0, whether or not the user had a cart. */
  lemma ClearedCartCountsZero(carts: map<UserId, seq<CartItem>>, userId: UserId)
    ensures GetCartItemCount(carts[userId := []], userId) == 0
  {
  }
}
