/**
 * The cart store of src/hooks/useCart.tsx: a list of cart items held in
 * component state and mirrored into one storage slot, changed by
 * addProduct, removeProduct and updateProductAmount.
 *
 * The two remote lookups (`/products` and `/stock`) are parameters, the
 * toast each failure raises is a returned notice, and the storage slot is a
 * field holding the sequence itself rather than its JSON text.
 */
module UseCart {
  import opened Wrappers

  /** A catalog entry as served by `/products`. */
  datatype Product = Product(id: int, title: string, price: real, image: string)

  /** A stock record as served by `/stock`. */
  datatype Stock = Stock(id: int, amount: int)

  /**
   * A cart entry: the catalog fields spread into a fresh object, plus an
   * amount. `product` is None for the entry built from an empty catalog
   * answer, which spreads `undefined` and so carries only `amount`.
   */
  datatype Item = Item(product: Option<Product>, amount: int)

  /** The answer to a remote request: its body, or a request that threw. */
  datatype Fetch<T> = Fetched(data: T) | FetchFailed

  /** The error toast each failing operation raises. */
  datatype Notice =
    | AddFailed      // 'Erro na adição do produto'
    | RemoveFailed   // 'Erro na remoção do produto'
    | OutOfStock     // 'Quantidade solicitada fora de estoque'
    | UpdateFailed   // 'Erro na alteração de quantidade do produto'

  /** What an operation does: replace the cart (and the stored copy), or raise a notice. */
  datatype Outcome = Changed(cart: seq<Item>) | Rejected(notice: Notice)

  /** `item.id === id`; an entry without an id matches nothing. */
  predicate Matches(item: Item, id: int) {
    item.product.Some? && item.product.value.id == id
  }

  predicate InCart(cart: seq<Item>, id: int) {
    exists k :: 0 <= k < |cart| && Matches(cart[k], id)
  }

  /** No two entries that have an id share it. */
  predicate UniqueIds(cart: seq<Item>) {
    forall i, j :: 0 <= i < j < |cart| && cart[i].product.Some? && cart[j].product.Some? ==>
      cart[i].product.value.id != cart[j].product.value.id
  }

  /** `cart.findIndex(item => item.id === id)`: the first match, or -1. */
  function IndexOf(cart: seq<Item>, id: int): (r: int)
    ensures -1 <= r < |cart|
    ensures r == -1 <==> !InCart(cart, id)
    ensures r >= 0 ==> Matches(cart[r], id)
    ensures forall k :: 0 <= k < r ==> !Matches(cart[k], id)
  {
    if cart == [] then -1
    else if Matches(cart[0], id) then 0
    else
      var r := IndexOf(cart[1..], id);
      assert forall k :: 1 <= k < |cart| ==> cart[k] == cart[1..][k - 1];
      if r == -1 then -1 else r + 1
  }

  /** `splice(index, 1)` on a copy of the cart. */
  function Without(cart: seq<Item>, index: nat): (r: seq<Item>)
    requires index < |cart|
    ensures |r| == |cart| - 1
    ensures forall k :: 0 <= k < index ==> r[k] == cart[k]
    ensures forall k :: index <= k < |r| ==> r[k] == cart[k + 1]
    ensures multiset(r) + multiset{cart[index]} == multiset(cart)
  {
    assert cart == cart[..index] + [cart[index]] + cart[index + 1..];
    cart[..index] + cart[index + 1..]
  }

  /** The `map` of updateProductAmount: every entry with the id gets the new amount. */
  function WithAmount(cart: seq<Item>, id: int, amount: int): (r: seq<Item>)
    ensures |r| == |cart|
    ensures forall k :: 0 <= k < |cart| ==> r[k].product == cart[k].product
    ensures forall k :: 0 <= k < |cart| ==>
      r[k].amount == if Matches(cart[k], id) then amount else cart[k].amount
  {
    if cart == [] then []
    else
      var head := if Matches(cart[0], id) then cart[0].(amount := amount) else cart[0];
      [head] + WithAmount(cart[1..], id, amount)
  }

  /** `dataStock.data[0].amount`, or None when the request threw or `data[0]` is missing. */
  function StockLevel(stock: Fetch<seq<Stock>>): (level: Option<int>)
    ensures level.Some? <==> stock.Fetched? && |stock.data| > 0
    ensures level.Some? ==> level.value == stock.data[0].amount
  {
    if stock.Fetched? && |stock.data| > 0 then Some(stock.data[0].amount) else None
  }

  /** The entry addProduct appends: the first catalog record with amount 1. */
  function NewItem(catalog: seq<Product>): (item: Item)
    ensures item.amount == 1
    ensures item.product == if catalog == [] then None else Some(catalog[0])
  {
    Item(if |catalog| > 0 then Some(catalog[0]) else None, 1)
  }

  /** removeProduct: drop the first entry with the id, or fail when there is none. */
  function Remove(cart: seq<Item>, id: int): (o: Outcome)
    ensures o.Changed? <==> InCart(cart, id)
    ensures o.Rejected? ==> o.notice == RemoveFailed
    ensures o.Changed? ==> |o.cart| == |cart| - 1
    ensures o.Changed? ==>
      var i := IndexOf(cart, id);
      o.cart[..i] == cart[..i] && o.cart[i..] == cart[i + 1..]
  {
    var index := IndexOf(cart, id);
    if index >= 0 then Changed(Without(cart, index)) else Rejected(RemoveFailed)
  }

  /** updateProductAmount: a stock bound check, then every matching entry gets the amount. */
  function Update(cart: seq<Item>, id: int, amount: int, stock: Fetch<seq<Stock>>): (o: Outcome)
    ensures o.Changed? <==> StockLevel(stock).Some? && amount <= StockLevel(stock).value
    ensures o.Rejected? ==>
      o.notice == if StockLevel(stock).None? then UpdateFailed else OutOfStock
    ensures o.Changed? ==> |o.cart| == |cart|
    ensures o.Changed? ==> forall k :: 0 <= k < |cart| ==>
      o.cart[k].product == cart[k].product &&
      o.cart[k].amount == if Matches(cart[k], id) then amount else cart[k].amount
  {
    match StockLevel(stock)
    case None => Rejected(UpdateFailed)
    case Some(level) =>
      if amount > level then Rejected(OutOfStock) else Changed(WithAmount(cart, id, amount))
  }

  /**
   * addProduct: a product already in the cart goes through Update with its
   * first entry's amount plus one; otherwise the catalog answer is appended
   * with amount 1.
   */
  function Add(cart: seq<Item>, id: int, catalog: Fetch<seq<Product>>, stock: Fetch<seq<Stock>>): (o: Outcome)
    ensures InCart(cart, id) ==> o == Update(cart, id, cart[IndexOf(cart, id)].amount + 1, stock)
    ensures !InCart(cart, id) ==> (o.Rejected? <==> catalog.FetchFailed?)
    ensures !InCart(cart, id) && o.Rejected? ==> o.notice == AddFailed
    ensures !InCart(cart, id) && o.Changed? ==>
      |o.cart| == |cart| + 1 && o.cart[..|cart|] == cart && o.cart[|cart|] == NewItem(catalog.data)
  {
    var index := IndexOf(cart, id);
    if index >= 0 then Update(cart, id, cart[index].amount + 1, stock)
    else if catalog.FetchFailed? then Rejected(AddFailed)
    else Changed(cart + [NewItem(catalog.data)])
  }

  /** The catalog answers a request for `id` with that product, or with nothing. */
  predicate Answers(catalog: Fetch<seq<Product>>, id: int) {
    catalog.Fetched? && |catalog.data| > 0 ==> catalog.data[0].id == id
  }

  /** The cart a store starts with: the stored snapshot, or empty when the slot is empty. */
  function Loaded(slot: Option<seq<Item>>): (cart: seq<Item>)
    ensures slot.None? ==> cart == []
    ensures slot.Some? ==> cart == slot.value
  {
    match slot
    case None => []
    case Some(snapshot) => snapshot
  }

  /** The new store state and notice follow the outcome: a change is written through, a rejection changes nothing. */
  predicate Applies(o: Outcome, cart0: seq<Item>, stored0: Option<seq<Item>>,
                    cart1: seq<Item>, stored1: Option<seq<Item>>, notice: Option<Notice>)
  {
    match o
    case Changed(c) => cart1 == c && stored1 == Some(c) && notice == None
    case Rejected(n) => cart1 == cart0 && stored1 == stored0 && notice == Some(n)
  }

  // ---------------------------------------------------------------------
  // Properties of the three operations.

  /** With unique ids, a successful removal leaves no entry with the id. */
  lemma RemoveEvicts(cart: seq<Item>, id: int)
    requires UniqueIds(cart)
    requires InCart(cart, id)
    ensures Remove(cart, id).Changed? && !InCart(Remove(cart, id).cart, id)
  {
  }

  /** Removal keeps ids unique. */
  lemma RemoveKeepsUnique(cart: seq<Item>, id: int)
    requires UniqueIds(cart)
    ensures Remove(cart, id).Changed? ==> UniqueIds(Remove(cart, id).cart)
  {
  }

  /** Rewriting amounts keeps every id where it was, so it keeps ids unique. */
  lemma UpdateKeepsUnique(cart: seq<Item>, id: int, amount: int, stock: Fetch<seq<Stock>>)
    requires UniqueIds(cart)
    ensures Update(cart, id, amount, stock).Changed? ==> UniqueIds(Update(cart, id, amount, stock).cart)
  {
  }

  /** A successful update leaves every entry with the id at an amount within the stock read. */
  lemma UpdateWithinStock(cart: seq<Item>, id: int, amount: int, stock: Fetch<seq<Stock>>)
    requires Update(cart, id, amount, stock).Changed?
    ensures forall k :: 0 <= k < |cart| && Matches(cart[k], id) ==>
      Update(cart, id, amount, stock).cart[k].amount <= StockLevel(stock).value
  {
  }

  /** An id that is not in the cart yields an equal cart, which is still written through. */
  lemma UpdateAbsentKeepsCart(cart: seq<Item>, id: int, amount: int, stock: Fetch<seq<Stock>>)
    requires !InCart(cart, id)
    requires Update(cart, id, amount, stock).Changed?
    ensures Update(cart, id, amount, stock).cart == cart
  {
  }

  /** There is no lower clamp: any amount up to the stock is taken, zero and negatives included. */
  lemma UpdateAcceptsAnyAmountWithinStock(cart: seq<Item>, id: int, amount: int, stock: Fetch<seq<Stock>>)
    requires StockLevel(stock).Some? && amount <= StockLevel(stock).value
    requires 0 <= IndexOf(cart, id)
    ensures Update(cart, id, amount, stock).Changed?
    ensures Update(cart, id, amount, stock).cart[IndexOf(cart, id)].amount == amount
  {
  }

  /** Adding a product already in the cart is held to the same stock rule as an update. */
  lemma AddExistingWithinStock(cart: seq<Item>, id: int, catalog: Fetch<seq<Product>>, stock: Fetch<seq<Stock>>)
    requires InCart(cart, id)
    ensures Add(cart, id, catalog, stock).Changed? <==>
      StockLevel(stock).Some? && cart[IndexOf(cart, id)].amount + 1 <= StockLevel(stock).value
    ensures Add(cart, id, catalog, stock).Changed? ==>
      Add(cart, id, catalog, stock).cart[IndexOf(cart, id)].amount == cart[IndexOf(cart, id)].amount + 1
  {
  }

  /** Adding keeps ids unique as long as the catalog answers with the product asked for. */
  lemma AddKeepsUnique(cart: seq<Item>, id: int, catalog: Fetch<seq<Product>>, stock: Fetch<seq<Stock>>)
    requires UniqueIds(cart)
    requires Answers(catalog, id)
    ensures Add(cart, id, catalog, stock).Changed? ==> UniqueIds(Add(cart, id, catalog, stock).cart)
  {
  }

  /**
   * Uniqueness rests on the catalog: an answer naming a product already in
   * the cart appends a second entry with that product's id.
   */
  lemma OtherProductAnswerDuplicatesId()
    ensures var p := Product(2, "", 0.0, "");
      var o := Add([Item(Some(p), 1)], 1, Fetched([p]), FetchFailed);
      o.Changed? && |o.cart| == 2 && !UniqueIds(o.cart)
  {
    var p := Product(2, "", 0.0, "");
    var cart := [Item(Some(p), 1)];
    assert !Matches(cart[0], 1);
    var o := Add(cart, 1, Fetched([p]), FetchFailed);
    assert o.cart[0].product.value.id == o.cart[1].product.value.id;
  }

  /**
   * A product not yet in the cart is appended without reading stock: the
   * stock answer plays no part, and an amount of 1 lands even where the
   * stock figure is 0.
   */
  lemma AddNewIgnoresStock(cart: seq<Item>, id: int, catalog: seq<Product>,
                           stock: Fetch<seq<Stock>>, other: Fetch<seq<Stock>>)
    requires !InCart(cart, id)
    ensures Add(cart, id, Fetched(catalog), stock) == Add(cart, id, Fetched(catalog), other)
    ensures Add(cart, id, Fetched(catalog), Fetched([Stock(id, 0)])).Changed?
    ensures Add(cart, id, Fetched(catalog), Fetched([Stock(id, 0)])).cart[|cart|].amount == 1
  {
  }

  /** One call on the store, with the answers its lookups get. */
  datatype Call =
    | AddCall(id: int, catalog: Fetch<seq<Product>>, stock: Fetch<seq<Stock>>)
    | RemoveCall(id: int)
    | UpdateCall(id: int, amount: int, stock: Fetch<seq<Stock>>)

  function Step(cart: seq<Item>, call: Call): (o: Outcome)
  {
    match call
    case AddCall(id, catalog, stock) => Add(cart, id, catalog, stock)
    case RemoveCall(id) => Remove(cart, id)
    case UpdateCall(id, amount, stock) => Update(cart, id, amount, stock)
  }

  /** The cart after a run of calls, each one atomic; a rejected call leaves the cart as it was. */
  function Run(cart: seq<Item>, calls: seq<Call>): seq<Item>
    decreases |calls|
  {
    if calls == [] then cart
    else
      var o := Step(cart, calls[0]);
      Run(if o.Changed? then o.cart else cart, calls[1..])
  }

  /** Every catalog answer in the run names the product asked for. */
  predicate HonestCatalog(calls: seq<Call>) {
    forall k :: 0 <= k < |calls| && calls[k].AddCall? ==> Answers(calls[k].catalog, calls[k].id)
  }

  /** Ids stay unique along any run of calls from a cart with unique ids (the empty cart, say). */
  lemma {:induction false} RunKeepsUnique(cart: seq<Item>, calls: seq<Call>)
    requires UniqueIds(cart)
    requires HonestCatalog(calls)
    ensures UniqueIds(Run(cart, calls))
    decreases |calls|
  {
    if calls != [] {
      var call := calls[0];
      match call {
        case AddCall(id, catalog, stock) =>
          assert Answers(calls[0].catalog, calls[0].id);
          AddKeepsUnique(cart, id, catalog, stock);
        case RemoveCall(id) => RemoveKeepsUnique(cart, id);
        case UpdateCall(id, amount, stock) => UpdateKeepsUnique(cart, id, amount, stock);
      }
      var o := Step(cart, call);
      assert HonestCatalog(calls[1..]) by {
        forall k | 0 <= k < |calls[1..]| && calls[1..][k].AddCall?
          ensures Answers(calls[1..][k].catalog, calls[1..][k].id)
        {
          assert calls[1..][k] == calls[k + 1];
        }
      }
      RunKeepsUnique(if o.Changed? then o.cart else cart, calls[1..]);
    }
  }

  // ---------------------------------------------------------------------
  // The iterations of the source (`findIndex`, `map`) as loops.

  /** `cart.findIndex(item => item.id === id)` (and `cart.find`, which returns that entry). */
  method FindIndex(cart: seq<Item>, id: int) returns (index: int)
    ensures index == IndexOf(cart, id)
  {
    var k := 0;
    while k < |cart| && !Matches(cart[k], id)
      invariant 0 <= k <= |cart|
      invariant forall j :: 0 <= j < k ==> !Matches(cart[j], id)
    {
      k := k + 1;
    }
    index := if k < |cart| then k else -1;
  }

  /** `cart.map(item => { if (item.id === id) item.amount = amount; return item; })` */
  method MapAmounts(cart: seq<Item>, id: int, amount: int) returns (newCart: seq<Item>)
    ensures newCart == WithAmount(cart, id, amount)
  {
    newCart := [];
    var k := 0;
    while k < |cart|
      invariant 0 <= k <= |cart|
      invariant |newCart| == k
      invariant forall j :: 0 <= j < k ==>
        newCart[j] == if Matches(cart[j], id) then cart[j].(amount := amount) else cart[j]
    {
      var item := cart[k];
      if Matches(item, id) {
        item := item.(amount := amount);
      }
      newCart := newCart + [item];
      k := k + 1;
    }
  }

  // ---------------------------------------------------------------------
  // The store.

  /** The state of CartProvider: the cart and the storage slot '@RocketShoes:cart'. */
  class CartStore {
    var cart: seq<Item>
    var stored: Option<seq<Item>>

    /** Storage mirrors state: reloading the slot gives back the current cart. */
    predicate Valid()
      reads this
    {
      cart == Loaded(stored)
    }

    /** The initial load: the parsed snapshot, or `[]` when nothing is stored. */
    constructor (slot: Option<seq<Item>>)
      ensures Valid()
      ensures stored == slot && cart == Loaded(slot)
    {
      stored := slot;
      cart := Loaded(slot);
    }

    method RemoveProduct(productId: int) returns (notice: Option<Notice>)
      requires Valid()
      modifies this
      ensures Valid()
      ensures Applies(Remove(old(cart), productId), old(cart), old(stored), cart, stored, notice)
    {
      var index := FindIndex(cart, productId);
      if index >= 0 {
        var newCart := cart[..index] + cart[index + 1..];
        cart := newCart;
        stored := Some(newCart);
        notice := None;
      } else {
        notice := Some(RemoveFailed);
      }
    }

    method UpdateProductAmount(productId: int, amount: int, stock: Fetch<seq<Stock>>)
      returns (notice: Option<Notice>)
      requires Valid()
      modifies this
      ensures Valid()
      ensures Applies(Update(old(cart), productId, amount, stock), old(cart), old(stored), cart, stored, notice)
    {
      if stock.FetchFailed? || |stock.data| == 0 {
        notice := Some(UpdateFailed);
        return;
      }
      var level := stock.data[0].amount;
      if amount > level {
        notice := Some(OutOfStock);
      } else {
        var newCart := MapAmounts(cart, productId, amount);
        cart := newCart;
        stored := Some(newCart);
        notice := None;
      }
    }

    method AddProduct(productId: int, catalog: Fetch<seq<Product>>, stock: Fetch<seq<Stock>>)
      returns (notice: Option<Notice>)
      requires Valid()
      modifies this
      ensures Valid()
      ensures Applies(Add(old(cart), productId, catalog, stock), old(cart), old(stored), cart, stored, notice)
    {
      var index := FindIndex(cart, productId);
      if index >= 0 {
        var found := cart[index];
        notice := UpdateProductAmount(productId, found.amount + 1, stock);
      } else if catalog.FetchFailed? {
        notice := Some(AddFailed);
      } else {
        var data := cart + [NewItem(catalog.data)];
        cart := data;
        stored := Some(data);
        notice := None;
      }
    }
  }
}
