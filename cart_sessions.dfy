/** Sequences of cart operations, each applied as one atomic step to the
    cart the previous one left, and what holds across them. */
module CartSessions {
  import opened CartRules

  /** One call on the provider, with the answers its remote lookups get. */
  datatype Request<A> =
    | AddRequest(productId: int, stock: Option<int>, product: Option<Product<A>>)
    | RemoveRequest(productId: int)
    | UpdateRequest(productId: int, amount: int, stock: Option<int>)

  function Apply<A>(items: seq<LineItem<A>>, req: Request<A>): (r: Transition<A>)
    ensures r.outcome != Ok ==> r.cart == items
  {
    match req
    case AddRequest(id, stock, product) => AfterAdd(items, id, stock, product)
    case RemoveRequest(id) => AfterRemove(items, id)
    case UpdateRequest(id, amount, stock) => AfterUpdate(items, id, amount, stock)
  }

  /** The cart after the requests, the last one applied last. */
  function Run<A>(items: seq<LineItem<A>>, reqs: seq<Request<A>>): (r: seq<LineItem<A>>)
  {
    if reqs == [] then items
    else Apply(Run(items, reqs[..|reqs| - 1]), reqs[|reqs| - 1]).cart
  }

  predicate Honest<A>(req: Request<A>)
  {
    req.AddRequest? ==> HonestProduct(req.productId, req.product)
  }

  /** Every line keeps an amount of at least 1 and ids stay unique, whatever
      calls are made, as long as the product service answers with the
      product asked for. */
  lemma {:induction false} RunPreservesWellFormed<A>(items: seq<LineItem<A>>, reqs: seq<Request<A>>)
    requires WellFormed(items)
    requires forall k :: 0 <= k < |reqs| ==> Honest(reqs[k])
    ensures WellFormed(Run(items, reqs))
  {
    if reqs != [] {
      var before := Run(items, reqs[..|reqs| - 1]);
      RunPreservesWellFormed(items, reqs[..|reqs| - 1]);
      match reqs[|reqs| - 1]
      case AddRequest(id, stock, product) =>
        AddPreservesWellFormed(before, id, stock, product);
      case RemoveRequest(id) =>
        RemovePreservesWellFormed(before, id);
      case UpdateRequest(id, amount, stock) =>
        UpdatePreservesWellFormed(before, id, amount, stock);
    }
  }

  /** Every line keeps an amount of at least 1 whatever calls are made and
      whatever the remote services answer. */
  lemma {:induction false} RunKeepsAmountsPositive<A>(items: seq<LineItem<A>>, reqs: seq<Request<A>>)
    requires AmountsPositive(items)
    ensures AmountsPositive(Run(items, reqs))
  {
    if reqs != [] {
      var before := Run(items, reqs[..|reqs| - 1]);
      RunKeepsAmountsPositive(items, reqs[..|reqs| - 1]);
      match reqs[|reqs| - 1]
      case AddRequest(id, stock, product) =>
        AddPreservesWellFormed(before, id, stock, product);
      case RemoveRequest(id) =>
        RemovePreservesWellFormed(before, id);
      case UpdateRequest(id, amount, stock) =>
        UpdatePreservesWellFormed(before, id, amount, stock);
    }
  }

  /** Starting from an empty cart, any sequence of calls leaves at most one
      line per id, as long as the product service answers with the product
      asked for. */
  lemma NoDuplicateLines<A>(reqs: seq<Request<A>>)
    requires forall k :: 0 <= k < |reqs| ==> Honest(reqs[k])
    ensures UniqueIds(Run([], reqs))
  {
    RunPreservesWellFormed([], reqs);
  }

  function Repeat<A>(req: Request<A>, n: nat): (r: seq<Request<A>>)
    ensures |r| == n && forall k :: 0 <= k < n ==> r[k] == req
  {
    seq(n, _ => req)
  }

  /** Adding a product that is not in the cart n times, with a stock of at
      least n, leaves one line for it with amount n after the unchanged
      lines. */
  lemma {:induction false} RepeatedAddCounts<A>(items: seq<LineItem<A>>, p: Product<A>,
                                                available: int, n: nat)
    requires Absent(items, p.id)
    requires n <= available
    ensures Run(items, Repeat(AddRequest(p.id, Some(available), Some(p)), n))
      == if n == 0 then items else items + [LineItem(p.id, p.attrs, n)]
  {
    if n > 0 {
      var req := AddRequest(p.id, Some(available), Some(p));
      assert Repeat(req, n)[..n - 1] == Repeat(req, n - 1);
      RepeatedAddCounts(items, p, available, n - 1);
      var before := Run(items, Repeat(req, n - 1));
      if n == 1 {
        assert before == items;
      } else {
        FirstIndexAt(before, p.id, |items|);
      }
    }
  }

  /** Once the product's amount has reached the stock figure, the next add
      reports OutOfStock and leaves the cart as it was. */
  lemma RepeatedAddStopsAtStock<A>(items: seq<LineItem<A>>, p: Product<A>, available: nat)
    requires Absent(items, p.id)
    ensures var req := AddRequest(p.id, Some(available), Some(p));
      var full := Run(items, Repeat(req, available));
      Apply(full, req) == Transition(OutOfStock, full)
  {
    var req := AddRequest(p.id, Some(available), Some(p));
    RepeatedAddCounts(items, p, available, available);
    if available > 0 {
      FirstIndexAt(Run(items, Repeat(req, available)), p.id, |items|);
    }
  }

  /** Five concrete calls, with product names as the attributes: a first
      add, an add at the stock figure, a remove, an update within stock and
      an update of an absent id. */
  lemma Scenarios()
    // A: the first add of a product puts one unit of it in an empty cart
    ensures AfterAdd([], 1, Some(5), Some(Product(1, "Shoe")))
      == Transition(Ok, [LineItem(1, "Shoe", 1)])
    // B: an add beyond the stock figure is refused
    ensures AfterAdd([LineItem(1, "Shoe", 4)], 1, Some(4), Some(Product(1, "Shoe")))
      == Transition(OutOfStock, [LineItem(1, "Shoe", 4)])
    // C: removing a line keeps the other
    ensures AfterRemove([LineItem(1, "Shoe", 2), LineItem(2, "Sock", 1)], 2)
      == Transition(Ok, [LineItem(1, "Shoe", 2)])
    // D: an update within stock sets the amount
    ensures AfterUpdate([LineItem(1, "Shoe", 2)], 1, 7, Some(10))
      == Transition(Ok, [LineItem(1, "Shoe", 7)])
    // E: updating an id the cart does not hold reports NotFound
    ensures AfterUpdate<string>([], 9, 3, Some(10)) == Transition(NotFound, [])
  {
  }
}
