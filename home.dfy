/**
 * The product listing page of src/pages/Home/index.tsx, for the part that
 * computes: the cart folded into an id -> amount object, and the count
 * each product's button shows.
 */
module Home {
  import opened Wrappers
  import opened UseCart

  /**
   * The key `[product.id]` files an entry under. JavaScript object keys are
   * strings; Some(id) stands for the key of a number id, None for the key
   * "undefined" that an entry without an id gets, which no badge reads.
   */
  function Key(item: Item): (key: Option<int>)
    ensures forall id :: key == Some(id) <==> Matches(item, id)
  {
    if item.product.Some? then Some(item.product.value.id) else None
  }

  /** No later entry of the cart shares the key of entry k. */
  predicate LastWithKey(cart: seq<Item>, k: int)
    requires 0 <= k < |cart|
  {
    forall j :: k < j < |cart| ==> Key(cart[j]) != Key(cart[k])
  }

  /**
   * `cart.reduce((sum, product) => ({...sum, [product.id]: product.amount}), {})`:
   * the keys are exactly those of the entries, and each maps to the amount
   * of the last entry with that key, since each step overrides the spread.
   */
  function CartItemsAmount(cart: seq<Item>): (amounts: map<Option<int>, int>)
    ensures amounts.Keys == set k | 0 <= k < |cart| :: Key(cart[k])
    ensures forall k :: 0 <= k < |cart| && LastWithKey(cart, k) ==> amounts[Key(cart[k])] == cart[k].amount
  {
    if cart == [] then map[]
    else
      var init := cart[..|cart| - 1];
      var last := cart[|cart| - 1];
      assert forall k :: 0 <= k < |init| ==> init[k] == cart[k];
      CartItemsAmount(init)[Key(last) := last.amount]
  }

  /** `cartItemsAmount[id] || 0`: a stored 0 and a missing key both read as 0. */
  function Badge(amounts: map<Option<int>, int>, id: int): (shown: int)
    ensures Some(id) !in amounts ==> shown == 0
    ensures Some(id) in amounts ==> shown == amounts[Some(id)]
  {
    if Some(id) in amounts && amounts[Some(id)] != 0 then amounts[Some(id)] else 0
  }

  /** The empty cart gives the empty object. */
  lemma EmptyCartNoAmounts()
    ensures CartItemsAmount([]) == map[]
  {
  }

  /** An id is a key of the object exactly when an entry of the cart has that id. */
  lemma KeysAreCartIds(cart: seq<Item>, id: int)
    ensures Some(id) in CartItemsAmount(cart) <==> InCart(cart, id)
  {
  }

  /** Among repeated ids the last entry wins: the badge shows its amount. */
  lemma BadgeShowsLastMatch(cart: seq<Item>, id: int, k: int)
    requires 0 <= k < |cart| && Matches(cart[k], id)
    requires forall j :: k < j < |cart| ==> !Matches(cart[j], id)
    ensures Badge(CartItemsAmount(cart), id) == cart[k].amount
  {
  }

  /** With unique ids, the badge of a product in the cart is that entry's amount. */
  lemma BadgeOfUniqueCart(cart: seq<Item>, id: int, k: int)
    requires UniqueIds(cart)
    requires 0 <= k < |cart| && Matches(cart[k], id)
    ensures Badge(CartItemsAmount(cart), id) == cart[k].amount
  {
  }

  /** A product not in the cart shows 0. */
  lemma BadgeOfAbsentProduct(cart: seq<Item>, id: int)
    requires !InCart(cart, id)
    ensures Badge(CartItemsAmount(cart), id) == 0
  {
  }
}
