/** The cart state held by `CartProvider` and its three operations. Each
    operation copies the cart, searches it, changes the copy and commits it,
    as the provider does with `updatedCart` and `setCart`; the answers of the
    stock and product services are parameters. */
module UseCart {
  import opened CartRules

  class CartProvider<A> {
    /** The committed cart, exposed to consumers as `cart`. */
    var cart: seq<LineItem<A>>

    /** The cart starts from the snapshot read back from storage, or empty
        when there is none. */
    constructor (stored: Option<seq<LineItem<A>>>)
      ensures cart == match stored case Some(s) => s case None => []
    {
      match stored {
        case Some(s) => cart := s;
        case None => cart := [];
      }
    }

    method AddProduct(productId: int, stock: Option<int>, product: Option<Product<A>>)
      returns (outcome: Outcome)
      modifies this
      ensures Transition(outcome, cart) == AfterAdd(old(cart), productId, stock, product)
      ensures outcome != Ok ==> cart == old(cart)
      ensures outcome == Ok ==> CurrentAmount(old(cart), productId) + 1 <= stock.value
      ensures AmountsPositive(old(cart)) ==> AmountsPositive(cart)
      ensures UniqueIds(old(cart)) && HonestProduct(productId, product) ==> UniqueIds(cart)
    {
      var updatedCart := cart;
      var found := FindIndex(updatedCart, productId);
      if stock.None? {
        return RemoteFailure;
      }
      var currentAmount := if found.Some? then updatedCart[found.value].amount else 0;
      var amount := currentAmount + 1;
      if amount > stock.value {
        return OutOfStock;
      }
      if found.Some? {
        var i := found.value;
        updatedCart := updatedCart[i := updatedCart[i].(amount := amount)];
      } else {
        if product.None? {
          return RemoteFailure;
        }
        updatedCart := updatedCart + [LineItem(product.value.id, product.value.attrs, 1)];
      }
      AddPreservesWellFormed(cart, productId, stock, product);
      cart := updatedCart;
      return Ok;
    }

    method RemoveProduct(productId: int) returns (outcome: Outcome)
      modifies this
      ensures Transition(outcome, cart) == AfterRemove(old(cart), productId)
      ensures outcome == NotFound <==> Absent(old(cart), productId)
      ensures outcome != Ok ==> cart == old(cart)
      ensures AmountsPositive(old(cart)) ==> AmountsPositive(cart)
      ensures UniqueIds(old(cart)) ==> UniqueIds(cart) && Absent(cart, productId)
    {
      var updatedCart := cart;
      var productIndex := FindIndex(updatedCart, productId);
      RemovePreservesWellFormed(cart, productId);
      RemoveLeavesNoLine(cart, productId);
      match productIndex {
        case Some(i) =>
          updatedCart := updatedCart[..i] + updatedCart[i + 1..];
          cart := updatedCart;
          return Ok;
        case None =>
          return NotFound;
      }
    }

    method UpdateProductAmount(productId: int, amount: int, stock: Option<int>)
      returns (outcome: Outcome)
      modifies this
      ensures Transition(outcome, cart) == AfterUpdate(old(cart), productId, amount, stock)
      ensures outcome != Ok ==> cart == old(cart)
      ensures outcome == Ok ==> 1 <= amount <= stock.value && CurrentAmount(cart, productId) == amount
      ensures AmountsPositive(old(cart)) ==> AmountsPositive(cart)
      ensures UniqueIds(old(cart)) ==> UniqueIds(cart)
    {
      if amount <= 0 {
        return Ignored;
      }
      if stock.None? {
        return RemoteFailure;
      }
      if amount > stock.value {
        return OutOfStock;
      }
      var updatedCart := cart;
      var found := FindIndex(updatedCart, productId);
      if found.None? {
        return NotFound;
      }
      var i := found.value;
      UpdateSetsOnlyThatLine(cart, productId, amount, stock, i);
      UpdatePreservesWellFormed(cart, productId, amount, stock);
      updatedCart := updatedCart[i := updatedCart[i].(amount := amount)];
      cart := updatedCart;
      return Ok;
    }
  }
}
