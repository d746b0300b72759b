# RocketShoes cart store, modelled in Dafny

This project models the shopping-cart state of the RocketShoes front end:
the `CartProvider` hook that keeps the list of cart items, mirrors it into
the browser storage slot `@RocketShoes:cart`, and offers `addProduct`,
`removeProduct` and `updateProductAmount`; and the product listing page's
fold of the cart into an id → amount object that feeds each product's
badge count.

- `wrappers.dfy` — module `Wrappers`: `Option`.
- `use_cart.dfy` — module `UseCart`:
  - the data: `Product`, `Stock`, `Item`, the lookup answer `Fetch`, the toast `Notice`;
  - the three operations as pure functions `Add`, `Remove` and `Update`, each returning an `Outcome`;
  - the `findIndex` and `map` iterations as loop methods;
  - the `CartStore` class, whose methods change `cart` and `stored` as those functions say;
  - lemmas on uniqueness of ids, the stock bound and runs of calls.
- `home.dfy` — module `Home`: `CartItemsAmount` (the `reduce`) and `Badge`, with lemmas.

The remote lookups (`/products`, `/stock`) are parameters of type
`Fetch<seq<…>>`: either the response body or `FetchFailed` for a request
that threw. The storage slot is the field `stored`, holding the cart itself
rather than its JSON text. The object invariant `CartStore.Valid()` says
that reloading the slot gives back the cart: `cart == Loaded(stored)`. It
holds at construction and every method keeps it.

Three expectations one might hold of a cart do not hold of this code. The
model follows the code:

- **Amounts are not kept at 1 or more.** Nothing stops an entry's amount
  from falling below 1. `updateProductAmount` checks only `amount > stock`,
  so 0 and negative amounts are accepted (`UpdateAcceptsAnyAmountWithinStock`).
- **A missing product raises no error.** An empty catalog answer appends
  `{...undefined, amount: 1}`, an entry with no id. That is `Item(None, 1)`
  here.
- **A new product skips the stock check.** `addProduct` appends a product
  not yet in the cart without reading stock, so its amount of 1 is not
  bounded by stock (`AddNewIgnoresStock`). Only updates, and adds of a
  product already present, are checked against stock.

Unique ids are guaranteed when the catalog answers with the product asked
for (`Answers`, `RunKeepsUnique`). An answer that names a product already in
the cart appends a second entry with that id
(`OtherProductAnswerDuplicatesId`). Entries without an id are not counted in
uniqueness.

## Model

| member | source | states |
|---|---|---|
| UseCart.IndexOf | src/hooks/useCart.tsx:66 | -1 exactly when no entry has the id; otherwise an index of an entry with the id, and no earlier entry has it |
| UseCart.FindIndex | src/hooks/useCart.tsx:38 | the loop over the cart returns the first matching index, or -1 (as `find`/`findIndex`) |
| UseCart.Without | src/hooks/useCart.tsx:65-68 | splice(index, 1) on a copy: one shorter, entries before the index kept, later entries shifted down by one, the multiset loses exactly the entry at the index |
| UseCart.WithAmount | src/hooks/useCart.tsx:91-96 | same length and same products in the same order; matching entries get the new amount and all other entries keep theirs |
| UseCart.MapAmounts | src/hooks/useCart.tsx:91-96 | the loop over the cart builds exactly the rewritten cart of WithAmount |
| UseCart.Remove | src/hooks/useCart.tsx:63-78 | succeeds exactly when the id is in the cart; then the result is one shorter and equals the cart with its first matching entry cut out; otherwise the removal-failed notice |
| UseCart.Update | src/hooks/useCart.tsx:80-104 | succeeds exactly when a stock figure exists and the amount does not exceed it; a missing figure gives the update-failed notice and an excess the out-of-stock notice; on success the length and products are kept and every matching entry gets the amount |
| UseCart.Add | src/hooks/useCart.tsx:35-61 | with the id in the cart it is Update with the first match's amount plus one; otherwise it fails (add-failed notice) exactly when the catalog request threw, and on success appends NewItem after the unchanged cart |
| UseCart.RemoveEvicts | src/hooks/useCart.tsx:65-70 | with unique ids, removing a present id succeeds and no entry with that id remains |
| UseCart.RemoveKeepsUnique | src/hooks/useCart.tsx:65-70 | a successful removal keeps ids unique |
| UseCart.UpdateKeepsUnique | src/hooks/useCart.tsx:91-96 | a successful update keeps ids unique |
| UseCart.UpdateWithinStock | src/hooks/useCart.tsx:86-96 | after a successful update every entry with the id has an amount no larger than the stock figure read |
| UseCart.UpdateAbsentKeepsCart | src/hooks/useCart.tsx:91-98 | updating an id not in the cart succeeds (given stock) with a cart equal to the old one |
| UseCart.UpdateAcceptsAnyAmountWithinStock | src/hooks/useCart.tsx:88-96 | every amount up to the stock figure is accepted, zero and negatives included, and lands on the first match |
| UseCart.AddExistingWithinStock | src/hooks/useCart.tsx:38-43 | adding a product already in the cart succeeds exactly when its amount plus one is within the stock figure, and then raises that amount by one |
| UseCart.AddKeepsUnique | src/hooks/useCart.tsx:44-55 | when the catalog answers with the requested product, a successful add keeps ids unique |
| UseCart.OtherProductAnswerDuplicatesId | src/hooks/useCart.tsx:44-55 | a catalog answer naming a product already in the cart makes a successful add that duplicates that product's id |
| UseCart.AddNewIgnoresStock | src/hooks/useCart.tsx:44-55 | adding a product not in the cart gives the same outcome whatever the stock answer, and appends amount 1 even when the stock figure is 0 |
| UseCart.RunKeepsUnique | src/hooks/useCart.tsx:35-104 | any run of add, remove and update calls from a cart with unique ids (the empty cart among them) keeps ids unique, given honest catalog answers |
| UseCart.CartStore.constructor | src/hooks/useCart.tsx:25-33 | the store starts with the stored snapshot, or `[]`, and the slot mirrors the cart |
| UseCart.CartStore.RemoveProduct | src/hooks/useCart.tsx:63-78 | on success the cart becomes Remove's result and is written to the slot with no notice; on failure cart and slot are unchanged and the removal-failed notice is returned; the slot keeps mirroring the cart |
| UseCart.CartStore.UpdateProductAmount | src/hooks/useCart.tsx:80-104 | as RemoveProduct, following Update: written through on success, unchanged with its notice on failure |
| UseCart.CartStore.AddProduct | src/hooks/useCart.tsx:35-61 | as RemoveProduct, following Add: written through on success, unchanged with its notice on failure |
| Home.Key | src/pages/Home/index.tsx:31 | an entry is filed under Some(id) exactly when it has that id |
| Home.CartItemsAmount | src/pages/Home/index.tsx:28-33 | the keys are exactly the keys of the cart's entries, and each maps to the amount of the last entry with that key |
| Home.Badge | src/pages/Home/index.tsx:69 | the stored amount for an id that is a key, 0 otherwise |
| Home.EmptyCartNoAmounts | src/pages/Home/index.tsx:28-33 | the empty cart folds to the empty object |
| Home.KeysAreCartIds | src/pages/Home/index.tsx:28-33 | an id is a key exactly when some cart entry has that id |
| Home.BadgeShowsLastMatch | src/pages/Home/index.tsx:29-32 | with repeated ids, the badge shows the amount of the last entry with the id |
| Home.BadgeOfUniqueCart | src/pages/Home/index.tsx:69 | with unique ids, the badge of a product in the cart is that entry's amount |
| Home.BadgeOfAbsentProduct | src/pages/Home/index.tsx:69 | a product not in the cart shows 0 |

## Left out

- React context, provider plumbing, rendering and the toast calls. A toast is the returned `Notice`.
- The HTTP requests to `/products` and `/stock`, and the listing's product load. These are network I/O; their answers are parameters.
- `localStorage` and `JSON.stringify`/`JSON.parse`. The slot holds the cart value itself. Serialising and parsing are taken to round-trip.
- Storage writes are assumed to succeed. In the source, `setCart` runs before `localStorage.setItem` (useCart.tsx:54-55, 69-70, 97-98). A throwing `setItem` (a full quota, say) shows the failure toast with the cart already replaced. In `updateProductAmount` the entries have also been changed in place by then. `CartStore.Valid()` and `Applies` ("a rejection changes nothing") rest on this assumption.
- A malformed stock record whose `amount` is missing compares as not-greater in JavaScript and would be accepted. `Stock.amount` is always a number here.
- Asynchrony. Each operation is atomic. This leaves out two things:
  - `addProduct` does not await `updateProductAmount`;
  - two in-flight calls can read the same stale cart and lose an update.
- Aliasing. `updateProductAmount`'s `map` assigns `item.amount` on the entry objects the previous cart also holds. Entries are values here, so the old cart is not changed along with the new one.
- Numbers are unbounded integers, not floating point: `amount + 1` and the stock comparison are exact. `price` is carried as a `real` and never computed with.
- `cartItemsAmount[id] || 0` would also turn a `NaN` amount into 0. There are no `NaN` amounts here.
- The cart page (subtotals, totals, price formatting, the decrement button disabled at amount 1). It is presentation over floating-point sums and an unseen formatting utility.
