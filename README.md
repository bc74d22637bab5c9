# RocketShoes shopping cart, modelled in Dafny

This project models the shopping cart kept by `CartProvider` in
`src/hooks/useCart.tsx`. The cart is an ordered list of line items, each with a
product `id`, the product's other attributes and an `amount`. Three operations
change it:

- `addProduct` raises the amount of an existing line by one, or appends a new
  line with amount 1. It refuses when the new amount would exceed the stock
  figure.
- `removeProduct` deletes the first line with the given id.
- `updateProductAmount` sets a line's amount. It ignores non-positive values
  and refuses values above stock.

The remote stock and product lookups become inputs. `stock: Option<int>` is
the stock service's answer, with `None` for a failed call.
`product: Option<Product<A>>` is the product service's answer. Product
attributes are an uninterpreted type parameter `A`. Each call reports a tag
`Ok | OutOfStock | NotFound | RemoteFailure | Ignored`, which stands for the
toast the source shows on that branch. `Ignored` is the silent no-op.

Files:

- `cart_rules.dfy`, module `CartRules`: the data model and the first-match
  search. `FirstIndex` specifies it and the method `FindIndex` is its loop.
  `AfterAdd`, `AfterRemove` and `AfterUpdate` give each operation's outcome
  and resulting cart. The per-operation lemmas are here too.
- `use_cart.dfy`, module `UseCart`: the class `CartProvider` with the
  committed `cart` sequence. It has one method per operation. Each method
  copies the cart, searches it, changes the copy and commits it, as the
  source does with `updatedCart` and `setCart`. Each method's `ensures` ties
  its outcome and new cart to the matching function in `CartRules`.
- `cart_sessions.dfy`, module `CartSessions`: sequences of calls and what
  holds across them. This covers invariant preservation, no duplicate lines,
  and repeated adds up to the stock figure. It also holds five concrete
  calls and their results.

The cart's invariant is `WellFormed`: every amount is at least 1 and no id has
more than one line. The source does not validate the snapshot it
reads back from storage. So `WellFormed` is not a class invariant here. Each
operation is instead proved to preserve it.

The product service's answer keeps its own `id`. The source builds the new
line as `{ ...product, amount: 1 }`, so the new line's id is the one the
product service returned. Uniqueness after an add therefore depends on the
service answering with the product that was asked for (`HonestProduct`).

In the add path, only the search for the existing line happens before the
stock call. The line's amount is changed only after the stock check passes
(`src/hooks/useCart.tsx:53-70`), so a refused add never changes a line.

## Model

| member | source | states |
|---|---|---|
| `CartRules.FirstIndex` | src/hooks/useCart.tsx:53 | the index found holds the id and no earlier line does; there is no index exactly when no line has the id |
| `CartRules.FindIndex` | src/hooks/useCart.tsx:89 | the linear search returns the first line with the id, or none when the id is absent |
| `CartRules.CurrentAmount` | src/hooks/useCart.tsx:57 | the current amount is 0 for an absent id, else the amount of the first line with that id |
| `CartRules.AfterAdd` | src/hooks/useCart.tsx:50-84 | add succeeds only with a stock answer and current amount + 1 <= stock; OutOfStock exactly when current amount + 1 > stock; a failed stock call is RemoteFailure; any failure leaves the cart unchanged |
| `CartRules.AfterRemove` | src/hooks/useCart.tsx:86-101 | remove is NotFound exactly when the id is absent, and then the cart is unchanged; on success the cart is one line shorter |
| `CartRules.AfterUpdate` | src/hooks/useCart.tsx:103-129 | Ignored exactly for amount <= 0; RemoteFailure exactly for a failed stock call; OutOfStock exactly for amount > stock; NotFound exactly for an absent id within stock; success implies 1 <= amount <= stock; any failure leaves the cart unchanged |
| `CartRules.AddExistingChangesOnlyThatLine` | src/hooks/useCart.tsx:64-70 | for an id in the cart, add succeeds iff amount + 1 <= stock; it then raises only that line's amount by one, keeping length, order, id, attributes and all other lines |
| `CartRules.AddNewAppendsOneLine` | src/hooks/useCart.tsx:71-78 | for an absent id, add succeeds iff stock >= 1 and the product lookup answers; it then appends exactly one line with amount 1 after the unchanged prefix; RemoteFailure iff the stock call fails or the product lookup fails within stock |
| `CartRules.AddRaisesAmountWithinStock` | src/hooks/useCart.tsx:57-80 | with an honest product service, a successful add makes the product's amount exactly one more than before and at most the stock figure; a failed add leaves it unchanged |
| `CartRules.AddPreservesWellFormed` | src/hooks/useCart.tsx:69-78 | add keeps every amount >= 1 for any cart and any product answer; separately, add keeps ids unique given an honest product service |
| `CartRules.RemoveDeletesFirstMatch` | src/hooks/useCart.tsx:89-94 | for a present id, remove succeeds and deletes exactly the first matching line; lines before and after keep their order, and the multiset of lines loses only that line |
| `CartRules.RemoveLeavesNoLine` | src/hooks/useCart.tsx:89-92 | in a cart with unique ids, no line with the removed id remains |
| `CartRules.RemovePreservesWellFormed` | src/hooks/useCart.tsx:91-94 | remove keeps every amount >= 1 and, separately, keeps ids unique |
| `CartRules.UpdateSetsOnlyThatLine` | src/hooks/useCart.tsx:105-125 | for a present id, update succeeds iff 1 <= amount <= stock; it then sets only that line's amount to the requested value, and the product's amount becomes that value |
| `CartRules.UpdatePreservesWellFormed` | src/hooks/useCart.tsx:105-125 | update keeps every amount >= 1 and, separately, keeps ids unique |
| `UseCart.CartProvider.constructor` | src/hooks/useCart.tsx:26-34 | the cart starts as the stored snapshot, or empty when there is none |
| `UseCart.CartProvider.AddProduct` | src/hooks/useCart.tsx:50-84 | the outcome and new cart are those of `AfterAdd` on the old cart; nothing changes on failure; success stays within stock; amounts >= 1 are preserved for any cart; unique ids are preserved with an honest product service |
| `UseCart.CartProvider.RemoveProduct` | src/hooks/useCart.tsx:86-101 | the outcome and new cart are those of `AfterRemove`; NotFound iff the id is absent; nothing changes on failure; amounts >= 1 are preserved; a cart with unique ids keeps them and loses every line with the id |
| `UseCart.CartProvider.UpdateProductAmount` | src/hooks/useCart.tsx:103-129 | the outcome and new cart are those of `AfterUpdate`; nothing changes on failure; on success 1 <= amount <= stock and the product's amount is the requested one; amounts >= 1 and unique ids are each preserved |
| `CartSessions.Apply` | src/hooks/useCart.tsx:50-129 | any call that does not succeed leaves the cart unchanged |
| `CartSessions.RunPreservesWellFormed` | src/hooks/useCart.tsx:50-129 | any sequence of add, remove and update calls keeps amounts >= 1 and ids unique, given an honest product service |
| `CartSessions.RunKeepsAmountsPositive` | src/hooks/useCart.tsx:50-129 | any sequence of add, remove and update calls keeps every amount >= 1, whatever the remote services answer |
| `CartSessions.NoDuplicateLines` | src/hooks/useCart.tsx:69-78 | from an empty cart, any sequence of calls leaves at most one line per id, given an honest product service |
| `CartSessions.RepeatedAddCounts` | src/hooks/useCart.tsx:53-78 | n adds of an absent product with stock >= n leave exactly one line for it, with amount n, after the unchanged lines |
| `CartSessions.RepeatedAddStopsAtStock` | src/hooks/useCart.tsx:64-67 | once the amount equals the stock figure, the next add reports OutOfStock and leaves the cart unchanged |
| `CartSessions.Scenarios` | src/hooks/useCart.tsx:50-129 | five concrete calls: a first add into an empty cart gives one line with amount 1; an add at the stock figure is OutOfStock; removing one of two lines keeps the other; an update within stock sets the amount; an update of an absent id is NotFound |

## Left out

- Loading from and saving to `localStorage` (`src/hooks/useCart.tsx:26-34`, `44-48`) is left out. This is browser I/O with `JSON.parse`/`JSON.stringify`. The constructor takes the already-parsed snapshot instead. The persistence round trip is not modelled.
- The `useRef`/`useEffect` check that persists only when the cart reference changed is left out. This is render-cycle behaviour, not cart logic.
- `createContext`, `useContext` and `useCart` are left out. They are framework glue.
- The `api.get` calls for `/stock/{id}` and `/products/{id}` are not modelled. Their answers are parameters, and `None` stands for any thrown error, such as a network failure or a 404.
- A stock answer without a numeric `amount` is not modelled. In the source it does not throw: `amount > stock.amount` (`src/hooks/useCart.tsx:64`, `111`) is then false, so the add or update goes through with no stock limit. The model's `stock` is always a number or `None`.
- A product answer without an `id` is not modelled. In the source, `{ ...product, amount: 1 }` (`src/hooks/useCart.tsx:74-77`) then appends a line with no id instead of failing. The model's `Product` always carries an id.
- `toast.error` and `console.log` are represented only by the outcome tag.
- Interleaving of overlapping async calls is left out. Each operation is one atomic step on the committed cart.
- Aliasing of line objects between the old and new cart is left out. `[...cart]` copies the array but not the line objects, so `productExists.amount = amount` also changes the old state's object. Lines are values here.
- Product attributes other than `id` are the type parameter `A`. A `Stock` record's `id` is not used by the source and is left out.
- JavaScript numbers are doubles. Ids and amounts are unbounded integers here. Non-integer amounts, `NaN` and precision loss above 2^53 are not modelled.
