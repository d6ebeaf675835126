// When an order is accepted, why it is refused and what it costs, in the fields of the catalogue.
module OrderTerms {
  import opened Common
  import opened ShopModel
  import opened ShopInvariants
  import opened OrderLifecycle
  import opened StockRefinement

  // ----- what lines add up to -----

  lemma DemandOfOne(line: Line, p: int)
    ensures TotalDemand([line], p) == if line.product == p then line.quantity else 0
  {
    assert Demand([line], 0, p) == 0;
  }

  lemma {:induction false} DemandOfPrefix(lines: seq<Line>, more: seq<Line>, n: nat, p: int)
    requires n <= |lines|
    ensures Demand(lines + more, n, p) == Demand(lines, n, p)
  {
    if n > 0 {
      DemandOfPrefix(lines, more, n - 1, p);
    }
  }

  // What two baskets ask for together is what they ask for apart.
  lemma {:induction false} DemandAdds(lines: seq<Line>, more: seq<Line>, p: int)
    ensures TotalDemand(lines + more, p) == TotalDemand(lines, p) + TotalDemand(more, p)
  {
    if more == [] {
      assert lines + more == lines;
    } else {
      var front, last := more[..|more| - 1], more[|more| - 1];
      DemandAdds(lines, front, p);
      assert lines + more == (lines + front) + [last] && more == front + [last];
      DemandOfPrefix(lines + front, [last], |lines + front|, p);
      DemandOfPrefix(front, [last], |front|, p);
    }
  }

  lemma {:induction false} SubtotalOfPrefix(cat: Catalog, lines: seq<Line>, more: seq<Line>, n: nat)
    requires n <= |lines|
    ensures Subtotal(cat, lines + more, n) == Subtotal(cat, lines, n)
    ensures LineShipping(cat, lines + more, n) == LineShipping(cat, lines, n)
  {
    if n > 0 {
      SubtotalOfPrefix(cat, lines, more, n - 1);
    }
  }

  // One line more costs its price times quantity, and unless the product ships free or has no
  // positive fee, its fee times quantity.
  lemma OneLineMore(cat: Catalog, customer: int, store: int, lines: seq<Line>, line: Line)
    requires line.product in cat.products
    ensures var product, units := cat.products[line.product], line.quantity as real;
            var before := NewOrder(cat, customer, OrderRequest(store, lines)).total;
            var after := NewOrder(cat, customer, OrderRequest(store, lines + [line])).total;
            && (product.freeShipping || product.shippingFee <= 0.0 ==> after == before + product.price * units)
            && (!product.freeShipping && product.shippingFee > 0.0 ==>
                  after == before + product.price * units + product.shippingFee * units)
  {
    SubtotalOfPrefix(cat, lines, [line], |lines|);
    var longer, units := lines + [line], line.quantity as real;
    assert longer[|lines|] == line;
    assert LineShipping(cat, longer, |longer|)
           == LineShipping(cat, lines, |lines|) + UnitShipping(cat, line.product) * units;
    assert Subtotal(cat, longer, |longer|) == Subtotal(cat, lines, |lines|) + UnitPrice(cat, line.product) * units;
    assert 0.0 * units == 0.0;
  }

  // The store's fee is charged once, if and only if it is positive.
  lemma StoreFeeOnce(cat: Catalog, customer: int, store: int)
    ensures NewOrder(cat, customer, OrderRequest(store, [])).total
            == if store in cat.stores && cat.stores[store].orderShippingFee.Some? && cat.stores[store].orderShippingFee.value > 0.0
               then cat.stores[store].orderShippingFee.value else 0.0
  {
    assert NewOrder(cat, customer, OrderRequest(store, [])).total == StoreShipping(cat, store);
  }

  // Two units at 10.0 of a product that ships free, although it names a fee of 5.0.
  lemma FreeShippingExample(cat: Catalog, customer: int)
    requires 7 in cat.products && cat.products[7] == Product(1, true, 10.0, true, 5.0, None)
    requires 1 in cat.stores && cat.stores[1] == Store(None, None)
    ensures NewOrder(cat, customer, OrderRequest(1, [Line(7, 2)])).total == 20.0
  {
    StoreFeeOnce(cat, customer, 1);
    OneLineMore(cat, customer, 1, [], Line(7, 2));
    assert [] + [Line(7, 2)] == [Line(7, 2)];
  }

  // ----- when an order is accepted -----

  ghost predicate Available(cat: Catalog, ctx: int, p: int) {
    p in cat.products && cat.products[p].active && (ctx == 0 || ctx == cat.products[p].store)
  }

  ghost predicate WithinCap(cat: Catalog, line: Line)
    requires line.product in cat.products
  {
    var cap := cat.products[line.product].maxQty;
    cap.None? || cap.value <= 0 || line.quantity <= cap.value
  }

  ghost predicate Stocked(inv: map<int, Stock>, store: int, p: int) {
    p in inv && inv[p].store == store
  }

  // The line can be ordered from the store, apart from how much is in stock.
  ghost predicate Orderable(cat: Catalog, inv: map<int, Stock>, ctx: int, store: int, line: Line) {
    && Available(cat, ctx, line.product) && WithinCap(cat, line) && cat.products[line.product].store == store
    && Stocked(inv, store, line.product) && line.quantity > 0
  }

  // The store exists and its minimum, if it has a positive one, is met by the line totals.
  ghost predicate MeetsMinimum(cat: Catalog, req: OrderRequest) {
    && req.store in cat.stores
    && (var least := cat.stores[req.store].minOrderTotal;
        least.None? || least.value <= 0.0 || SumTotals(PricedLines(cat, req.lines), |req.lines|) >= least.value)
  }

  lemma StaticIsOrderable(cat: Catalog, inv: map<int, Stock>, ctx: int, req: OrderRequest, k: nat)
    requires k < |req.lines|
    ensures StaticVerdict(cat, inv, ctx, req, k).None? <==> Orderable(cat, inv, ctx, req.store, req.lines[k])
  {
  }

  // An order is accepted exactly if it names something, every line can be ordered from its store,
  // everything asked for of each product is in stock, and the store's minimum is met.
  lemma AcceptedIff(w: World, ctx: int, customer: int, req: OrderRequest)
    ensures CreateOrder(w, ctx, customer, req).1.Success? <==>
            && req.lines != []
            && (forall k :: 0 <= k < |req.lines| ==>
                  && Orderable(w.catalog, w.inventory, ctx, req.store, req.lines[k])
                  && TotalDemand(req.lines, req.lines[k].product) <= w.inventory[req.lines[k].product].quantity)
            && MeetsMinimum(w.catalog, req)
  {
    CreateOrderRefinesTotals(w, ctx, customer, req);
    SubtotalIsSum(w.catalog, customer, req, |req.lines|);
    assert NewOrder(w.catalog, customer, req).items == PricedLines(w.catalog, req.lines);
    forall k | 0 <= k < |req.lines|
      ensures StaticVerdict(w.catalog, w.inventory, ctx, req, k).None?
              <==> Orderable(w.catalog, w.inventory, ctx, req.store, req.lines[k])
    {
      StaticIsOrderable(w.catalog, w.inventory, ctx, req, k);
    }
  }

  // A new order is pending, unpaid and without history, belongs to the customer and the store, and
  // has the lines asked for at the catalogue's prices.
  lemma NewOrderTerms(w: World, ctx: int, customer: int, req: OrderRequest)
    requires CreateOrder(w, ctx, customer, req).1.Success?
    ensures var (after, answer) := CreateOrder(w, ctx, customer, req);
            && answer == Success(|w.orders|) && |after.orders| == |w.orders| + 1
            && (var o := after.orders[|w.orders|];
                && o.store == req.store && o.customer == customer
                && o.status == Pending && !o.isPaid && o.history == []
                && Lines(o.items) == req.lines && MoneyOk(w.catalog, o))
  {
    NewOrderMoney(w.catalog, w.inventory, ctx, customer, req);
  }

  // ----- why an order is refused -----

  // The stock still covers line k after the lines before it.
  ghost predicate Covered(inv: map<int, Stock>, lines: seq<Line>, k: nat)
    requires k < |lines| && lines[k].product in inv
  {
    lines[k].quantity + TotalDemand(lines[..k], lines[k].product) <= inv[lines[k].product].quantity
  }

  ghost predicate Passes(cat: Catalog, inv: map<int, Stock>, ctx: int, req: OrderRequest, k: nat)
    requires k < |req.lines|
  {
    Orderable(cat, inv, ctx, req.store, req.lines[k]) && Covered(inv, req.lines, k)
  }

  // What each error says about the line it is raised for.
  ghost predicate Faulty(cat: Catalog, inv: map<int, Stock>, ctx: int, req: OrderRequest, k: nat, error: Error)
    requires k < |req.lines|
  {
    var line := req.lines[k];
    var p := line.product;
    match error
    case ProductUnavailable => !Available(cat, ctx, p)
    case OverQuantityCap => Available(cat, ctx, p) && !WithinCap(cat, line)
    case WrongStore =>
      k == 0 && Available(cat, ctx, p) && WithinCap(cat, line) && cat.products[p].store != req.store
    case MixedStores =>
      k > 0 && Available(cat, ctx, p) && WithinCap(cat, line) && cat.products[p].store != req.store
    case NoInventory =>
      && Available(cat, ctx, p) && WithinCap(cat, line) && cat.products[p].store == req.store
      && !Stocked(inv, req.store, p)
    case BadQuantity =>
      && Available(cat, ctx, p) && WithinCap(cat, line) && cat.products[p].store == req.store
      && Stocked(inv, req.store, p) && line.quantity <= 0
    case OutOfStock => Orderable(cat, inv, ctx, req.store, line) && !Covered(inv, req.lines, k)
    case _ => false
  }

  // What each error says about the order as a whole, once all lines have passed.
  ghost predicate FaultyOrder(cat: Catalog, req: OrderRequest, error: Error) {
    match error
    case NoStoreResolved => req.lines == []
    case StoreMissing => req.lines != [] && req.store !in cat.stores
    case BelowMinimum => req.lines != [] && req.store in cat.stores && !MeetsMinimum(cat, req)
    case _ => false
  }

  ghost predicate FirstFault(cat: Catalog, inv: map<int, Stock>, ctx: int, req: OrderRequest, k: nat, error: Error) {
    && k < |req.lines| && Faulty(cat, inv, ctx, req, k, error)
    && forall j :: 0 <= j < k ==> Passes(cat, inv, ctx, req, j)
  }

  ghost predicate HasFirstFault(cat: Catalog, inv: map<int, Stock>, ctx: int, req: OrderRequest, error: Error) {
    exists k: nat :: FirstFault(cat, inv, ctx, req, k, error)
  }

  lemma VerdictOfLine(cat: Catalog, inv: map<int, Stock>, ctx: int, req: OrderRequest, k: nat)
    requires k < |req.lines|
    ensures LineVerdict(cat, inv, ctx, req, k).None? ==> Passes(cat, inv, ctx, req, k)
    ensures LineVerdict(cat, inv, ctx, req, k).Some? ==>
              Faulty(cat, inv, ctx, req, k, LineVerdict(cat, inv, ctx, req, k).value)
  {
    StaticIsOrderable(cat, inv, ctx, req, k);
    assert req.lines == req.lines[..k] + req.lines[k..];
    DemandOfPrefix(req.lines[..k], req.lines[k..], k, req.lines[k].product);
  }

  lemma {:induction false} FirstFaultFrom(cat: Catalog, inv: map<int, Stock>, ctx: int, req: OrderRequest, n: nat)
    requires n <= |req.lines| && forall j :: 0 <= j < n ==> Passes(cat, inv, ctx, req, j)
    ensures match FirstLineError(cat, inv, ctx, req, n)
            case Some(error) => HasFirstFault(cat, inv, ctx, req, error)
            case None => forall k :: 0 <= k < |req.lines| ==> Passes(cat, inv, ctx, req, k)
    decreases |req.lines| - n
  {
    if n < |req.lines| {
      VerdictOfLine(cat, inv, ctx, req, n);
      if LineVerdict(cat, inv, ctx, req, n).None? {
        FirstFaultFrom(cat, inv, ctx, req, n + 1);
      } else {
        assert FirstLineError(cat, inv, ctx, req, n) == LineVerdict(cat, inv, ctx, req, n);
        assert FirstFault(cat, inv, ctx, req, n, LineVerdict(cat, inv, ctx, req, n).value);
      }
    }
  }

  // A refused order leaves everything as it was, and the error names what is wrong with the first
  // line that does not pass, or, when all lines pass, with the order as a whole.
  lemma RefusedBecause(w: World, ctx: int, customer: int, req: OrderRequest)
    requires CreateOrder(w, ctx, customer, req).1.Failure?
    ensures var (after, answer) := CreateOrder(w, ctx, customer, req);
            && after == w
            && (HasFirstFault(w.catalog, w.inventory, ctx, req, answer.error)
                || (&& FaultyOrder(w.catalog, req, answer.error)
                    && forall k :: 0 <= k < |req.lines| ==> Passes(w.catalog, w.inventory, ctx, req, k)))
  {
    FirstFaultFrom(w.catalog, w.inventory, ctx, req, 0);
    SubtotalIsSum(w.catalog, customer, req, |req.lines|);
    assert NewOrder(w.catalog, customer, req).items == PricedLines(w.catalog, req.lines);
  }
}
