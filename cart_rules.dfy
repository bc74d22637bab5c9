/** The cart rules of the RocketShoes cart provider (src/hooks/useCart.tsx):
    line items, the first-match search that `find`/`findIndex` perform, and the
    effect of each of the three cart operations on the cart sequence, given
    the answers of the remote stock and product services as inputs. */
module CartRules {

  datatype Option<T> = None | Some(value: T)

  /** One cart line: the product's id, its other attributes (name, price,
      image, ... left uninterpreted as A) and the quantity in the cart. */
  datatype LineItem<A> = LineItem(id: int, attrs: A, amount: int)

  /** What the product-details service answers for GET /products/{id}. */
  datatype Product<A> = Product(id: int, attrs: A)

  /** The result of one cart operation; each failure tag stands for the user
      notice (or, for Ignored, the silence) of its branch. */
  datatype Outcome = Ok | OutOfStock | NotFound | RemoteFailure | Ignored

  /** The outcome of an operation together with the cart it leaves. */
  datatype Transition<A> = Transition(outcome: Outcome, cart: seq<LineItem<A>>)

  /** Every line holds at least one unit. */
  predicate AmountsPositive<A>(items: seq<LineItem<A>>)
  {
    forall k :: 0 <= k < |items| ==> items[k].amount >= 1
  }

  /** At most one line per product id. */
  predicate UniqueIds<A>(items: seq<LineItem<A>>)
  {
    forall i, j :: 0 <= i < j < |items| ==> items[i].id != items[j].id
  }

  predicate WellFormed<A>(items: seq<LineItem<A>>)
  {
    AmountsPositive(items) && UniqueIds(items)
  }

  predicate Absent<A>(items: seq<LineItem<A>>, id: int)
  {
    forall k :: 0 <= k < |items| ==> items[k].id != id
  }

  /** The product service answered with the product that was asked for. */
  predicate HonestProduct<A>(productId: int, product: Option<Product<A>>)
  {
    product.Some? ==> product.value.id == productId
  }

  /** Index of the first line whose id is `id`, as `findIndex` and `find`
      locate it. */
  function FirstIndex<A>(items: seq<LineItem<A>>, id: int): (r: Option<nat>)
    ensures r.Some? ==> r.value < |items| && items[r.value].id == id
    ensures r.Some? ==> forall j :: 0 <= j < r.value ==> items[j].id != id
    ensures r.None? <==> Absent(items, id)
  {
    if items == [] then None
    else if items[0].id == id then Some(0)
    else match FirstIndex(items[1..], id)
      case None => None
      case Some(k) => Some(k + 1)
  }

  /** Linear search for the first line with the given id. */
  method FindIndex<A>(items: seq<LineItem<A>>, id: int) returns (r: Option<nat>)
    ensures r == FirstIndex(items, id)
  {
    var k := 0;
    while k < |items|
      invariant 0 <= k <= |items|
      invariant forall j :: 0 <= j < k ==> items[j].id != id
    {
      if items[k].id == id {
        return Some(k);
      }
      k := k + 1;
    }
    return None;
  }

  /** The quantity of `id` already in the cart, 0 when it has no line. */
  function CurrentAmount<A>(items: seq<LineItem<A>>, id: int): (n: int)
    ensures Absent(items, id) ==> n == 0
    ensures !Absent(items, id) ==>
      exists k :: 0 <= k < |items| && items[k].id == id && items[k].amount == n
        && (forall j :: 0 <= j < k ==> items[j].id != id)
  {
    match FirstIndex(items, id)
    case Some(i) => items[i].amount
    case None => 0
  }

  /** `addProduct(productId)`: `stock` is the answer of the stock service
      (None when the call fails), `product` that of the product service,
      which is consulted only for an id the cart does not hold yet. */
  function AfterAdd<A>(items: seq<LineItem<A>>, productId: int, stock: Option<int>,
                       product: Option<Product<A>>): (r: Transition<A>)
    ensures r.outcome == Ok || r.outcome == OutOfStock || r.outcome == RemoteFailure
    ensures r.outcome != Ok ==> r.cart == items
    ensures r.outcome == Ok ==> stock.Some? && CurrentAmount(items, productId) + 1 <= stock.value
    ensures r.outcome == OutOfStock <==> stock.Some? && CurrentAmount(items, productId) + 1 > stock.value
    ensures stock.None? ==> r.outcome == RemoteFailure
  {
    match stock
    case None => Transition(RemoteFailure, items)
    case Some(available) =>
      var amount := CurrentAmount(items, productId) + 1;
      if amount > available then Transition(OutOfStock, items)
      else match FirstIndex(items, productId)
        case Some(i) => Transition(Ok, items[i := items[i].(amount := amount)])
        case None =>
          match product
          case None => Transition(RemoteFailure, items)
          case Some(p) => Transition(Ok, items + [LineItem(p.id, p.attrs, 1)])
  }

  /** `removeProduct(productId)`. */
  function AfterRemove<A>(items: seq<LineItem<A>>, productId: int): (r: Transition<A>)
    ensures r.outcome == Ok || r.outcome == NotFound
    ensures r.outcome == NotFound <==> Absent(items, productId)
    ensures r.outcome != Ok ==> r.cart == items
    ensures r.outcome == Ok ==> |r.cart| == |items| - 1
  {
    match FirstIndex(items, productId)
    case Some(i) => Transition(Ok, items[..i] + items[i + 1..])
    case None => Transition(NotFound, items)
  }

  /** `updateProductAmount({ productId, amount })`: `stock` is the answer of
      the stock service, which is asked only for a positive amount. */
  function AfterUpdate<A>(items: seq<LineItem<A>>, productId: int, amount: int,
                          stock: Option<int>): (r: Transition<A>)
    ensures r.outcome != Ok ==> r.cart == items
    ensures r.outcome == Ignored <==> amount <= 0
    ensures r.outcome == OutOfStock <==> amount > 0 && stock.Some? && amount > stock.value
    ensures r.outcome == RemoteFailure <==> amount > 0 && stock.None?
    ensures r.outcome == NotFound <==> amount > 0 && stock.Some? && amount <= stock.value && Absent(items, productId)
    ensures r.outcome == Ok ==> 1 <= amount && stock.Some? && amount <= stock.value
  {
    if amount <= 0 then Transition(Ignored, items)
    else match stock
      case None => Transition(RemoteFailure, items)
      case Some(available) =>
        if amount > available then Transition(OutOfStock, items)
        else match FirstIndex(items, productId)
          case None => Transition(NotFound, items)
          case Some(i) => Transition(Ok, items[i := items[i].(amount := amount)])
  }

  // ---- addProduct ----

  /** On an id already in the cart, a successful add raises that line's
      amount by one and touches nothing else. */
  lemma AddExistingChangesOnlyThatLine<A>(items: seq<LineItem<A>>, productId: int, stock: Option<int>,
                                          product: Option<Product<A>>, i: nat)
    requires FirstIndex(items, productId) == Some(i)
    ensures var r := AfterAdd(items, productId, stock, product);
      r.outcome == Ok <==> stock.Some? && items[i].amount + 1 <= stock.value
    ensures var r := AfterAdd(items, productId, stock, product);
      r.outcome == Ok ==>
        && |r.cart| == |items|
        && r.cart[i] == LineItem(items[i].id, items[i].attrs, items[i].amount + 1)
        && (forall j :: 0 <= j < |items| && j != i ==> r.cart[j] == items[j])
  {
  }

  /** On an id not yet in the cart, a successful add appends exactly one
      line with amount 1 after the unchanged lines; a failed product lookup
      leaves the cart as it was. */
  lemma AddNewAppendsOneLine<A>(items: seq<LineItem<A>>, productId: int, stock: Option<int>,
                                product: Option<Product<A>>)
    requires Absent(items, productId)
    ensures var r := AfterAdd(items, productId, stock, product);
      r.outcome == Ok <==> stock.Some? && 1 <= stock.value && product.Some?
    ensures var r := AfterAdd(items, productId, stock, product);
      r.outcome == Ok ==>
        && |r.cart| == |items| + 1
        && r.cart[..|items|] == items
        && r.cart[|items|] == LineItem(product.value.id, product.value.attrs, 1)
    ensures var r := AfterAdd(items, productId, stock, product);
      r.outcome == RemoteFailure <==> stock.None? || (1 <= stock.value && product.None?)
  {
  }

  lemma FirstIndexAt<A>(items: seq<LineItem<A>>, id: int, i: nat)
    requires i < |items| && items[i].id == id
    requires forall j :: 0 <= j < i ==> items[j].id != id
    ensures FirstIndex(items, id) == Some(i)
  {
  }

  /** With an honest product service, a successful add leaves the product's
      quantity one higher than before and within the stock figure it was
      checked against; a failed add leaves it as it was. */
  lemma AddRaisesAmountWithinStock<A>(items: seq<LineItem<A>>, productId: int, stock: Option<int>,
                                      product: Option<Product<A>>)
    requires HonestProduct(productId, product)
    ensures var r := AfterAdd(items, productId, stock, product);
      r.outcome == Ok ==>
        CurrentAmount(r.cart, productId) == CurrentAmount(items, productId) + 1 <= stock.value
    ensures var r := AfterAdd(items, productId, stock, product);
      r.outcome != Ok ==> CurrentAmount(r.cart, productId) == CurrentAmount(items, productId)
  {
    var r := AfterAdd(items, productId, stock, product);
    if r.outcome == Ok {
      match FirstIndex(items, productId)
      case Some(i) =>
        FirstIndexAt(r.cart, productId, i);
      case None =>
        FirstIndexAt(r.cart, productId, |items|);
    }
  }

  /** addProduct keeps every line positive whatever the cart and the
      product answer; with an honest product service it also keeps at most
      one line per id. */
  lemma AddPreservesWellFormed<A>(items: seq<LineItem<A>>, productId: int, stock: Option<int>,
                                  product: Option<Product<A>>)
    ensures AmountsPositive(items) ==>
      AmountsPositive(AfterAdd(items, productId, stock, product).cart)
    ensures UniqueIds(items) && HonestProduct(productId, product) ==>
      UniqueIds(AfterAdd(items, productId, stock, product).cart)
  {
  }

  // ---- removeProduct ----

  /** removeProduct deletes exactly the first line with the id and keeps
      the others in order. */
  lemma RemoveDeletesFirstMatch<A>(items: seq<LineItem<A>>, productId: int, i: nat)
    requires FirstIndex(items, productId) == Some(i)
    ensures var r := AfterRemove(items, productId);
      && r.outcome == Ok
      && r.cart[..i] == items[..i]
      && r.cart[i..] == items[i + 1..]
      && multiset(r.cart) + multiset{items[i]} == multiset(items)
  {
    var front, back := items[..i], items[i + 1..];
    assert AfterRemove(items, productId).cart == front + back;
    calc {
      multiset(items);
      { assert items == front + [items[i]] + back; }
      multiset(front + [items[i]] + back);
      multiset(front) + multiset{items[i]} + multiset(back);
      multiset(front + back) + multiset{items[i]};
    }
  }

  /** In a cart with unique ids, no line with the removed id is left. */
  lemma RemoveLeavesNoLine<A>(items: seq<LineItem<A>>, productId: int)
    ensures UniqueIds(items) ==> Absent(AfterRemove(items, productId).cart, productId)
  {
  }

  /** removeProduct keeps every line positive and keeps ids unique, each on
      its own. */
  lemma RemovePreservesWellFormed<A>(items: seq<LineItem<A>>, productId: int)
    ensures AmountsPositive(items) ==> AmountsPositive(AfterRemove(items, productId).cart)
    ensures UniqueIds(items) ==> UniqueIds(AfterRemove(items, productId).cart)
  {
  }

  // ---- updateProductAmount ----

  /** A successful update sets only the first matching line's amount to the
      requested value, which lies between 1 and the stock figure. */
  lemma UpdateSetsOnlyThatLine<A>(items: seq<LineItem<A>>, productId: int, amount: int,
                                  stock: Option<int>, i: nat)
    requires FirstIndex(items, productId) == Some(i)
    ensures var r := AfterUpdate(items, productId, amount, stock);
      r.outcome == Ok <==> stock.Some? && 1 <= amount <= stock.value
    ensures var r := AfterUpdate(items, productId, amount, stock);
      r.outcome == Ok ==>
        && |r.cart| == |items|
        && r.cart[i] == LineItem(items[i].id, items[i].attrs, amount)
        && (forall j :: 0 <= j < |items| && j != i ==> r.cart[j] == items[j])
        && CurrentAmount(r.cart, productId) == amount
  {
  }

  /** updateProductAmount keeps every line positive and keeps ids unique,
      each on its own. */
  lemma UpdatePreservesWellFormed<A>(items: seq<LineItem<A>>, productId: int, amount: int,
                                     stock: Option<int>)
    ensures AmountsPositive(items) ==>
      AmountsPositive(AfterUpdate(items, productId, amount, stock).cart)
    ensures UniqueIds(items) ==> UniqueIds(AfterUpdate(items, productId, amount, stock).cart)
  {
  }
}
