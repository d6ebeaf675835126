// Creating orders and moving them through their life, in place.
module OrderService {
  import opened Common
  import opened ShopModel
  import opened StockRefinement
  import opened Tables

  // One line of a request: every check in turn, then the stock is lowered in place.  `saved` is
  // the inventory at the start of the transaction.
  method TakeLine(db: Database, ctx: int, req: OrderRequest, k: nat, resolved: Option<int>, ghost saved: map<int, Stock>)
    returns (taken: Result<Item, Error>)
    requires k < |req.lines|
    requires resolved == if k == 0 then None else Some(req.store)
    requires db.inventory == Taken(saved, req.lines, k)
    modifies db`inventory
    ensures match LineVerdict(db.catalog, saved, ctx, req, k)
            case Some(error) => taken == Failure(error)
            case None =>
              && taken == Success(Priced(db.catalog, req.lines[k]))
              && db.inventory == Taken(saved, req.lines, k + 1)
  {
    var Line(p, quantity) := req.lines[k];
    if p !in db.catalog.products || !Sees(ctx, db.catalog.products[p].store) || !db.catalog.products[p].active {
      return Failure(ProductUnavailable);
    }
    var product := db.catalog.products[p];
    if product.maxQty.Some? && product.maxQty.value > 0 && quantity > product.maxQty.value {
      return Failure(OverQuantityCap);
    }
    var store := if resolved.None? then product.store else resolved.value;
    if product.store != store {
      return Failure(MixedStores);
    }
    if req.store != store {
      return Failure(WrongStore);
    }
    if p !in db.inventory || db.inventory[p].store != store {
      return Failure(NoInventory);
    }
    var available := db.inventory[p].quantity;
    if quantity <= 0 {
      return Failure(BadQuantity);
    }
    if available < quantity {
      return Failure(OutOfStock);
    }
    db.inventory := db.inventory[p := db.inventory[p].(quantity := available - quantity)];
    var unitPrice := product.price;
    assert unitPrice == UnitPrice(db.catalog, p);
    taken := Success(Item(p, quantity, unitPrice, unitPrice * (quantity as real)));
    assert taken.value == Priced(db.catalog, req.lines[k]);
  }

  // What the lines of an order add up to.
  datatype Basket = Basket(items: seq<Item>, amount: real, shipping: real)

  ghost predicate AddsUp(cat: Catalog, lines: seq<Line>, n: nat, basket: Basket)
    requires n <= |lines|
  {
    && basket.items == PricedLines(cat, lines[..n])
    && basket.amount == Subtotal(cat, lines, n)
    && basket.shipping == LineShipping(cat, lines, n)
  }

  function WithItem(basket: Basket, item: Item, product: Product): Basket {
    Basket(
      basket.items + [item], basket.amount + item.totalPrice,
      if !product.freeShipping && product.shippingFee > 0.0
      then basket.shipping + product.shippingFee * (item.quantity as real) else basket.shipping)
  }

  lemma OneMoreItem(cat: Catalog, lines: seq<Line>, n: nat, basket: Basket)
    requires n < |lines| && AddsUp(cat, lines, n, basket) && lines[n].product in cat.products
    ensures AddsUp(cat, lines, n + 1, WithItem(basket, Priced(cat, lines[n]), cat.products[lines[n].product]))
  {
    assert PricedLines(cat, lines[..n + 1]) == PricedLines(cat, lines[..n]) + [Priced(cat, lines[n])];
  }

  // Takes the lines out of stock one by one while adding up the order.
  method TakeLines(db: Database, ctx: int, req: OrderRequest) returns (taken: Result<Basket, Error>)
    modifies db`inventory
    ensures match FirstLineError(db.catalog, old(db.inventory), ctx, req, 0)
            case Some(error) => taken == Failure(error)
            case None =>
              && taken.Success? && AddsUp(db.catalog, req.lines, |req.lines|, taken.value)
              && db.inventory == Taken(old(db.inventory), req.lines, |req.lines|)
              && (|req.lines| > 0 ==> req.lines[0].product in db.catalog.products
                                      && db.catalog.products[req.lines[0].product].store == req.store)
  {
    ghost var saved := db.inventory;
    var basket := Basket([], 0.0, 0.0);
    var resolved: Option<int> := None;
    for k := 0 to |req.lines|
      invariant db.inventory == Taken(saved, req.lines, k)
      invariant FirstLineError(db.catalog, saved, ctx, req, 0) == FirstLineError(db.catalog, saved, ctx, req, k)
      invariant AddsUp(db.catalog, req.lines, k, basket)
      invariant resolved == if k == 0 then None else Some(req.store)
      invariant k > 0 ==> req.lines[0].product in db.catalog.products
                          && db.catalog.products[req.lines[0].product].store == req.store
    {
      var line := TakeLine(db, ctx, req, k, resolved, saved);
      if line.Failure? {
        return Failure(line.error);
      }
      var product := db.catalog.products[req.lines[k].product];
      resolved := Some(product.store);
      OneMoreItem(db.catalog, req.lines, k, basket);
      basket := WithItem(basket, line.value, product);
    }
    return Success(basket);
  }

  // Any failed check puts the stock back as it was (the transaction rolls back).
  method CreateOrder(db: Database, ctx: int, customer: int, req: OrderRequest) returns (answer: Answer)
    modifies db`inventory, db`orders
    ensures (db.Snapshot(), answer) == ShopModel.CreateOrder(old(db.Snapshot()), ctx, customer, req)
  {
    var saved := db.inventory;
    var taken := TakeLines(db, ctx, req);
    if taken.Failure? {
      db.inventory := saved;
      return Failure(taken.error);
    }
    var Basket(items, totalAmount, shippingTotal) := taken.value;
    if |req.lines| == 0 {
      db.inventory := saved;
      return Failure(NoStoreResolved);
    }
    var resolved := db.catalog.products[req.lines[0].product].store;
    if resolved !in db.catalog.stores {
      db.inventory := saved;
      return Failure(StoreMissing);
    }
    var store := db.catalog.stores[resolved];
    if store.minOrderTotal.Some? && store.minOrderTotal.value > 0.0 && totalAmount < store.minOrderTotal.value {
      db.inventory := saved;
      return Failure(BelowMinimum);
    }
    if store.orderShippingFee.Some? && store.orderShippingFee.value > 0.0 {
      shippingTotal := shippingTotal + store.orderShippingFee.value;
    }
    assert req.lines[..|req.lines|] == req.lines;
    var order := Order(resolved, customer, Pending, totalAmount + shippingTotal, false, items, []);
    assert order == NewOrder(db.catalog, customer, req);
    db.orders := db.orders + [order];
    return Success(|db.orders| - 1);
  }

  // The rows touched and the rows still pending after the first n lines went back.
  ghost predicate PartlyRestocked(
    before: map<int, Stock>, store: int, lines: seq<Line>, n: nat, now: map<int, Stock>, pending: map<int, Stock>)
    requires n <= |lines|
  {
    && now.Keys == before.Keys
    && (forall p :: p in before ==> now[p] == before[p].(quantity := before[p].quantity + Demand(lines, n, p)))
    && (forall p :: p in pending ==> pending[p] == Stock(store, Demand(lines, n, p)))
  }

  lemma RestockComplete(
    before: map<int, Stock>, store: int, lines: seq<Line>, now: map<int, Stock>, pending: map<int, Stock>)
    requires PartlyRestocked(before, store, lines, |lines|, now, pending)
    requires forall p :: p in pending <==> p !in before && AskedBefore(lines, |lines|, p)
    ensures now + pending == Restocked(before, store, lines)
  {
    var complete := Restocked(before, store, lines);
    forall p
      ensures p in now + pending <==> p in complete
    {
      assert p in now <==> p in before;
      assert p in Products(lines) <==> AskedBefore(lines, |lines|, p) by {
        if AskedBefore(lines, |lines|, p) {
          var j :| 0 <= j < |lines| && lines[j].product == p;
        }
      }
    }
    forall p | p in complete
      ensures (now + pending)[p] == complete[p]
    {
    }
  }

  // Adds the items back row by row.  Rows inserted here stay pending until the flush at the end,
  // where a second row for a product violates the unique key.
  method Restock(db: Database, store: int, items: seq<Item>) returns (conflict: bool)
    modifies db`inventory
    ensures conflict <==> RestockConflict(old(db.inventory), store, Lines(items))
    ensures !conflict ==> db.inventory == Restocked(old(db.inventory), store, Lines(items))
  {
    ghost var before := db.inventory;
    ghost var lines := Lines(items);
    var pending: map<int, Stock> := map[];
    conflict := false;
    for i := 0 to |items|
      invariant conflict <==> exists j :: 0 <= j < i && LineConflict(before, store, lines, j)
      invariant db.inventory.Keys == before.Keys
      invariant forall p :: p in before ==> db.inventory[p].store == before[p].store
      invariant forall p :: p in pending <==> p !in before && AskedBefore(lines, i, p)
      invariant !conflict ==> PartlyRestocked(before, store, lines, i, db.inventory, pending)
    {
      var Item(p, quantity, _, _) := items[i];
      assert lines[i] == Line(p, quantity);
      if p in db.inventory && db.inventory[p].store == store {
        db.inventory := db.inventory[p := db.inventory[p].(quantity := db.inventory[p].quantity + quantity)];
      } else if p in db.inventory || p in pending {
        assert LineConflict(before, store, lines, i);
        conflict := true;
      } else {
        NoDemand(lines, i, p);
        pending := pending[p := Stock(store, quantity)];
      }
    }
    if !conflict {
      RestockComplete(before, store, lines, db.inventory, pending);
    }
    db.inventory := db.inventory + pending;
  }

  method UpdateStatus(db: Database, ctx: int, user: int, now: int, id: nat, to: OrderStatus) returns (answer: Answer)
    modifies db
    ensures (db.Snapshot(), answer) == ShopModel.UpdateStatus(old(db.Snapshot()), ctx, user, now, id, to)
  {
    if id >= |db.orders| || !Sees(ctx, db.orders[id].store) {
      return Failure(NotFound);
    }
    var order := db.orders[id];
    if to !in Transitions(order.status) {
      return Failure(InvalidTransition(order.status, to));
    }
    var oldStatus := order.status;
    var saved := db.inventory;
    if to == Cancelled {
      var conflict := Restock(db, order.store, order.items);
      if conflict {
        db.inventory := saved;
        return Failure(IntegrityError);
      }
    }
    order := order.(status := to);
    order := order.(history := order.history + [HistoryRow(oldStatus, to, user)]);
    db.orders := db.orders[id := order];
    if to == Accepted {
      EnqueueOrderAccepted(db, id, now);
    }
    return Success(id);
  }

  // One event per accepted order of a connected store.
  method EnqueueOrderAccepted(db: Database, id: nat, now: int)
    requires id < |db.orders|
    modifies db`outbox
    ensures db.outbox == Enqueued(old(db.Snapshot()), id, now)
  {
    var store := db.orders[id].store;
    if store !in db.connected {
      return;
    }
    var e := 0;
    while e < |db.outbox|
      invariant 0 <= e <= |db.outbox|
      invariant forall i :: 0 <= i < e ==> db.outbox[i].order != id
    {
      if db.outbox[e].order == id {
        return;
      }
      e := e + 1;
    }
    db.outbox := db.outbox + [Event(store, id, now, EventPending, 0, None, None, None)];
  }
}
