// The line-by-line stock check decides the same as one look at the totals.
module StockRefinement {
  import opened ShopModel
  import opened ShopRuns
  import opened ShopInvariants

  ghost predicate AllStaticOk(cat: Catalog, inv: map<int, Stock>, ctx: int, req: OrderRequest) {
    forall k :: 0 <= k < |req.lines| ==> StaticVerdict(cat, inv, ctx, req, k).None?
  }

  // For each product, everything asked for, repeated lines included, is in stock.
  ghost predicate EnoughInTotal(inv: map<int, Stock>, lines: seq<Line>) {
    forall k :: 0 <= k < |lines| ==>
      lines[k].product in inv && TotalDemand(lines, lines[k].product) <= inv[lines[k].product].quantity
  }

  lemma {:induction false} DemandMonotone(lines: seq<Line>, m: nat, n: nat, p: int)
    requires m <= n <= |lines|
    requires forall k :: 0 <= k < |lines| ==> lines[k].quantity > 0
    ensures 0 <= Demand(lines, m, p) <= Demand(lines, n, p)
  {
    if m < n {
      DemandMonotone(lines, m, n - 1, p);
    } else if n > 0 {
      DemandMonotone(lines, n - 1, n - 1, p);
    }
  }

  lemma StaticFacts(cat: Catalog, inv: map<int, Stock>, ctx: int, req: OrderRequest)
    requires AllStaticOk(cat, inv, ctx, req)
    ensures forall k :: 0 <= k < |req.lines| ==>
              && req.lines[k].quantity > 0
              && req.lines[k].product in inv
              && inv[req.lines[k].product].store == req.store
  {
    forall k | 0 <= k < |req.lines|
      ensures req.lines[k].quantity > 0 && req.lines[k].product in inv && inv[req.lines[k].product].store == req.store
    {
      assert StaticVerdict(cat, inv, ctx, req, k).None?;
    }
  }

  // What the lines that passed have asked for never exceeds the stock.
  lemma {:induction false} PassedFit(cat: Catalog, inv: map<int, Stock>, ctx: int, req: OrderRequest, n: nat, k: nat)
    requires k < n <= |req.lines|
    requires forall j :: 0 <= j < n ==> LineVerdict(cat, inv, ctx, req, j).None?
    ensures req.lines[k].product in inv
    ensures Demand(req.lines, n, req.lines[k].product) <= inv[req.lines[k].product].quantity
  {
    assert LineVerdict(cat, inv, ctx, req, n - 1).None?;
    if req.lines[n - 1].product != req.lines[k].product {
      PassedFit(cat, inv, ctx, req, n - 1, k);
    }
  }

  lemma {:induction false} TotalsFit(cat: Catalog, inv: map<int, Stock>, ctx: int, req: OrderRequest, k: nat)
    requires k <= |req.lines| && AllStaticOk(cat, inv, ctx, req) && EnoughInTotal(inv, req.lines)
    ensures FirstLineError(cat, inv, ctx, req, k).None?
    decreases |req.lines| - k
  {
    if k < |req.lines| {
      assert StaticVerdict(cat, inv, ctx, req, k).None?;
      StaticFacts(cat, inv, ctx, req);
      DemandMonotone(req.lines, k + 1, |req.lines|, req.lines[k].product);
      TotalsFit(cat, inv, ctx, req, k + 1);
    }
  }

  // An order goes through if and only if it names something, every line is fine by itself, each
  // product's total is in stock, and the store and its minimum agree.
  lemma AcceptsIffTotalsFit(cat: Catalog, inv: map<int, Stock>, ctx: int, req: OrderRequest)
    ensures Verdict(cat, inv, ctx, req).None? <==>
            && AllStaticOk(cat, inv, ctx, req)
            && EnoughInTotal(inv, req.lines)
            && StoreVerdict(cat, req).None?
  {
    if FirstLineError(cat, inv, ctx, req, 0).None? {
      LinesPass(cat, inv, ctx, req, 0);
      forall k | 0 <= k < |req.lines|
        ensures StaticVerdict(cat, inv, ctx, req, k).None?
        ensures req.lines[k].product in inv && TotalDemand(req.lines, req.lines[k].product) <= inv[req.lines[k].product].quantity
      {
        assert LineVerdict(cat, inv, ctx, req, k).None?;
        PassedFit(cat, inv, ctx, req, |req.lines|, k);
      }
    } else if AllStaticOk(cat, inv, ctx, req) && EnoughInTotal(inv, req.lines) {
      TotalsFit(cat, inv, ctx, req, 0);
    }
  }

  function OnHand(w: World, p: int): int {
    if p in w.inventory then w.inventory[p].quantity else 0
  }

  // The line-by-line creation refines one decision on totals: it goes through exactly when the
  // totals fit, then every product loses exactly its total and one order is added; a rejection at
  // whatever line leaves every table as it was.
  lemma CreateOrderRefinesTotals(w: World, ctx: int, customer: int, req: OrderRequest)
    ensures var (w', answer) := CreateOrder(w, ctx, customer, req);
            && (answer.Success? <==>
                  && AllStaticOk(w.catalog, w.inventory, ctx, req)
                  && EnoughInTotal(w.inventory, req.lines)
                  && StoreVerdict(w.catalog, req).None?)
            && (answer.Success? ==>
                  && (forall p :: OnHand(w', p) == OnHand(w, p) - TotalDemand(req.lines, p))
                  && w'.inventory.Keys == w.inventory.Keys
                  && w' == w.(inventory := w'.inventory, orders := w.orders + [w'.orders[|w.orders|]]))
            && (answer.Failure? ==> w' == w)
  {
    AcceptsIffTotalsFit(w.catalog, w.inventory, ctx, req);
    var (w', answer) := CreateOrder(w, ctx, customer, req);
    if answer.Success? {
      forall p
        ensures OnHand(w', p) == OnHand(w, p) - TotalDemand(req.lines, p)
      {
        if p !in w.inventory {
          NoDemand(req.lines, |req.lines|, p);
        }
      }
    }
  }

  // ----- stock never goes negative -----

  ghost predicate NonNegative(inv: map<int, Stock>) {
    forall p :: p in inv ==> inv[p].quantity >= 0
  }

  lemma TakenNonNegative(cat: Catalog, inv: map<int, Stock>, ctx: int, req: OrderRequest)
    requires NonNegative(inv) && Verdict(cat, inv, ctx, req).None?
    ensures NonNegative(Taken(inv, req.lines, |req.lines|))
  {
    AcceptsIffTotalsFit(cat, inv, ctx, req);
    forall p | p in inv
      ensures inv[p].quantity - TotalDemand(req.lines, p) >= 0
    {
      if k :| 0 <= k < |req.lines| && req.lines[k].product == p {
        assert TotalDemand(req.lines, req.lines[k].product) <= inv[p].quantity;
      } else {
        NoDemand(req.lines, |req.lines|, p);
      }
    }
  }

  lemma {:induction false} NoDemand(lines: seq<Line>, n: nat, p: int)
    requires n <= |lines| && forall i :: 0 <= i < n ==> lines[i].product != p
    ensures Demand(lines, n, p) == 0
  {
    if n > 0 {
      NoDemand(lines, n - 1, p);
    }
  }

  lemma RestockedNonNegative(inv: map<int, Stock>, o: Order)
    requires NonNegative(inv) && OrderOk(o)
    ensures NonNegative(Restocked(inv, o.store, Lines(o.items)))
  {
    var lines := Lines(o.items);
    forall k | 0 <= k < |lines|
      ensures lines[k].quantity > 0
    {
      assert ItemOk(o.items[k]);
    }
    forall p | p in Restocked(inv, o.store, lines)
      ensures Restocked(inv, o.store, lines)[p].quantity >= 0
    {
      DemandMonotone(lines, |lines|, |lines|, p);
    }
  }

  lemma KeepsNonNegative(w: World, op: Op)
    requires Inv(w) && NonNegative(w.inventory)
    requires op.OpAdjustStock? ==> op.quantity >= 0
    ensures NonNegative(Apply(w, op).inventory)
  {
    match op
    case OpCreateOrder(ctx, customer, req) =>
      if Verdict(w.catalog, w.inventory, ctx, req).None? {
        TakenNonNegative(w.catalog, w.inventory, ctx, req);
      }
    case OpUpdateStatus(ctx, user, now, id, to) =>
      if id < |w.orders| {
        RestockedNonNegative(w.inventory, w.orders[id]);
      }
    case OpReviewReturn(ctx, user, role, store, rid, verdict) =>
      if rid < |w.returnRequests| && w.returnRequests[rid].order < |w.orders| {
        RestockedNonNegative(w.inventory, w.orders[w.returnRequests[rid].order]);
      }
    case _ =>
  }

  // No run drives a product's stock below zero unless an adjustment sets it there.
  lemma {:induction false} StockNeverNegative(w0: World, ops: seq<Op>)
    requires Initial(w0) && NonNegative(w0.inventory)
    requires forall i :: 0 <= i < |ops| && ops[i].OpAdjustStock? ==> ops[i].quantity >= 0
    ensures NonNegative(Run(w0, ops).inventory)
  {
    if ops != [] {
      var front := ops[..|ops| - 1];
      StockNeverNegative(w0, front);
      RunKeeps(w0, front);
      KeepsNonNegative(Run(w0, front), ops[|ops| - 1]);
    }
  }
}
