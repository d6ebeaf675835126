// What holds of orders, their history, return requests, payments and outbox events in every
// state that any run of service calls can reach.
module OrderLifecycle {
  import opened Common
  import opened ShopModel
  import opened ShopRuns
  import opened ShopInvariants

  lemma {:induction false} Reachable(w0: World, ops: seq<Op>)
    requires Initial(w0)
    ensures Inv(Run(w0, ops))
  {
    RunKeeps(w0, ops);
  }

  // ----- history -----

  lemma {:induction false} RankBound(o: Order, n: nat)
    requires Chain(o.history, o.status) && 0 < n <= |o.history|
    ensures n + Rank(o.history[n - 1].to) <= 6
  {
    if n > 1 {
      RankBound(o, n - 1);
    }
  }

  lemma ChainIsShort(o: Order)
    requires Chain(o.history, o.status)
    ensures |o.history| + Rank(o.status) <= 6
  {
    if o.history != [] {
      RankBound(o, |o.history|);
    }
  }

  lemma EdgesFall(o: Order)
    requires Chain(o.history, o.status)
    ensures forall i :: 0 <= i < |o.history| ==> Rank(o.history[i].to) < Rank(o.history[i].from)
  {
  }

  // The rows chain from PENDING to the current status along legal edges, a rank falls strictly
  // along each of them, and so there are never more than six.
  lemma {:induction false} HistoryIsAChain(w0: World, ops: seq<Op>, id: nat)
    requires Initial(w0) && id < |Run(w0, ops).orders|
    ensures Chain(Run(w0, ops).orders[id].history, Run(w0, ops).orders[id].status)
    ensures forall i :: 0 <= i < |Run(w0, ops).orders[id].history| ==>
              Rank(Run(w0, ops).orders[id].history[i].to) < Rank(Run(w0, ops).orders[id].history[i].from)
    ensures |Run(w0, ops).orders[id].history| <= 6 - Rank(Run(w0, ops).orders[id].status)
  {
    Reachable(w0, ops);
    var o := Run(w0, ops).orders[id];
    assert OrderOk(o);
    ChainIsShort(o);
    EdgesFall(o);
  }

  // ----- one step to any number of steps -----

  ghost predicate WorldGrows(w: World, w': World) {
    && |w.orders| <= |w'.orders|
    && (forall i :: 0 <= i < |w.orders| ==> Grows(w.orders[i], w'.orders[i]))
    && |w.outbox| <= |w'.outbox|
    && (forall e :: 0 <= e < |w.outbox| ==> EventGrows(w.outbox[e], w'.outbox[e]))
  }

  lemma GrowsTransitive(a: Order, b: Order, c: Order)
    requires Grows(a, b) && Grows(b, c)
    ensures Grows(a, c)
  {
  }

  lemma EventGrowsTransitive(a: Event, b: Event, c: Event)
    requires EventGrows(a, b) && EventGrows(b, c)
    ensures EventGrows(a, c)
  {
  }

  // Along every run orders keep their terms and only gain history, cancelled and returned orders
  // never move again, events keep their order, attempts never fall and a sent event is final.
  lemma {:induction false} RunGrows(w0: World, ops: seq<Op>, k: nat)
    requires Initial(w0) && k <= |ops|
    ensures WorldGrows(Run(w0, ops[..k]), Run(w0, ops))
    decreases |ops|
  {
    if k == |ops| {
      assert ops[..k] == ops;
    } else {
      var front := ops[..|ops| - 1];
      assert front[..k] == ops[..k];
      RunGrows(w0, front, k);
      Reachable(w0, front);
      var a, b, c := Run(w0, ops[..k]), Run(w0, front), Run(w0, ops);
      OrdersGrow(b, ops[|ops| - 1]);
      OutboxGrows(b, ops[|ops| - 1]);
      forall i | 0 <= i < |a.orders|
        ensures Grows(a.orders[i], c.orders[i])
      {
        GrowsTransitive(a.orders[i], b.orders[i], c.orders[i]);
      }
      forall e | 0 <= e < |a.outbox|
        ensures EventGrows(a.outbox[e], c.outbox[e])
      {
        EventGrowsTransitive(a.outbox[e], b.outbox[e], c.outbox[e]);
      }
    }
  }

  // ----- return requests -----

  // At most one request per order; while it is pending or once it is rejected the order stays
  // delivered; an approved one goes with an order returned by approval, and conversely.
  lemma {:induction false} ReturnMachine(w0: World, ops: seq<Op>)
    requires Initial(w0)
    ensures ReturnsOk(Run(w0, ops))
    ensures forall i :: 0 <= i < |Run(w0, ops).orders| ==>
              (Approved(Run(w0, ops), i) <==> ReturnedByApproval(Run(w0, ops).orders[i]))
  {
    Reachable(w0, ops);
    var w := Run(w0, ops);
    forall i | 0 <= i < |w.orders| && Approved(w, i)
      ensures ReturnedByApproval(w.orders[i])
    {
      var r :| 0 <= r < |w.returnRequests| && w.returnRequests[r].order == i && w.returnRequests[r].status == ReturnApproved;
      assert ReturnOk(w, r);
    }
  }

  // Once approved, returned for good.
  lemma {:induction false} ApprovedStaysReturned(w0: World, ops: seq<Op>, k: nat, id: nat)
    requires Initial(w0) && k <= |ops| && id < |Run(w0, ops[..k]).orders|
    requires Approved(Run(w0, ops[..k]), id)
    ensures id < |Run(w0, ops).orders| && Run(w0, ops).orders[id].status == Returned
  {
    RunGrows(w0, ops, k);
    ReturnMachine(w0, ops[..k]);
    assert Grows(Run(w0, ops[..k]).orders[id], Run(w0, ops).orders[id]);
  }

  // In a reachable state a review fails only for the reasons the caller is told about: putting
  // the goods back never meets a missing or foreign inventory row.
  lemma {:induction false} RestockNeverConflicts(w0: World, ops: seq<Op>, id: nat)
    requires Initial(w0) && id < |Run(w0, ops).orders|
    ensures !RestockConflict(Run(w0, ops).inventory, Run(w0, ops).orders[id].store, Lines(Run(w0, ops).orders[id].items))
  {
    Reachable(w0, ops);
    var w := Run(w0, ops);
    var o := w.orders[id];
    assert HasRows(w.inventory, o);
    forall i | 0 <= i < |Lines(o.items)|
      ensures !LineConflict(w.inventory, o.store, Lines(o.items), i)
    {
      assert Lines(o.items)[i].product == o.items[i].product;
    }
  }

  // ----- payments -----

  // At most one payment per order, for exactly the order's total, and a completed one means paid.
  lemma {:induction false} PaymentsAgree(w0: World, ops: seq<Op>)
    requires Initial(w0)
    ensures PaymentsOk(Run(w0, ops))
  {
    Reachable(w0, ops);
  }

  // ----- asking once -----

  // Return requests and payments are never removed, and only their status changes.
  ghost predicate RecordsStay(w: World, w': World) {
    && |w.returnRequests| <= |w'.returnRequests|
    && (forall r :: 0 <= r < |w.returnRequests| ==>
          w'.returnRequests[r] == w.returnRequests[r].(status := w'.returnRequests[r].status))
    && |w.payments| <= |w'.payments|
    && (forall m :: 0 <= m < |w.payments| ==> w'.payments[m] == w.payments[m].(status := w'.payments[m].status))
  }

  lemma StepKeepsRecords(w: World, op: Op)
    ensures RecordsStay(w, Apply(w, op))
  {
  }

  lemma {:induction false} RunKeepsRecords(w0: World, ops: seq<Op>, k: nat)
    requires k <= |ops|
    ensures RecordsStay(Run(w0, ops[..k]), Run(w0, ops))
    decreases |ops|
  {
    if k == |ops| {
      assert ops[..k] == ops;
    } else {
      var front := ops[..|ops| - 1];
      assert front[..k] == ops[..k];
      RunKeepsRecords(w0, front, k);
      StepKeepsRecords(Run(w0, front), ops[|ops| - 1]);
    }
  }

  lemma RunStep(w0: World, ops: seq<Op>, k: nat)
    requires k < |ops|
    ensures Run(w0, ops[..k + 1]) == Apply(Run(w0, ops[..k]), ops[k])
  {
    assert ops[..k + 1][..k] == ops[..k];
  }

  lemma ReturnIsRecorded(w: World, ctx: int, user: int, role: Role, id: nat)
    requires CreateReturn(w, ctx, user, role, id).1.Success?
    ensures var (w', rid) := CreateReturn(w, ctx, user, role, id);
            rid.value < |w'.returnRequests| && w'.returnRequests[rid.value].order == id
  {
  }

  lemma PaymentIsRecorded(w: World, ctx: int, id: nat)
    requires CreatePayment(w, ctx, id).1.Success?
    ensures var (w', pid) := CreatePayment(w, ctx, id);
            pid.value < |w'.payments| && w'.payments[pid.value].order == id
  {
  }

  // Once call k asked for a return, its request stays with the order and its customer, and nobody
  // can ask for a return of that order again, whatever became of the request.
  lemma {:induction false} ReturnAskedOnce(w0: World, ops: seq<Op>, k: nat, ctx: int, user: int, role: Role, id: nat)
    requires Initial(w0) && k < |ops| && ops[k] == OpCreateReturn(ctx, user, role, id)
    requires CreateReturn(Run(w0, ops[..k]), ctx, user, role, id).1.Success?
    ensures var rid := CreateReturn(Run(w0, ops[..k]), ctx, user, role, id).1.value;
            var w := Run(w0, ops);
            && rid < |w.returnRequests| && id < |w.orders| && w.returnRequests[rid].order == id
            && w.returnRequests[rid].customer == w.orders[id].customer
            && w.returnRequests[rid].store == w.orders[id].store
            && forall ctx', user', role' :: CreateReturn(w, ctx', user', role', id).1.Failure?
  {
    var rid := CreateReturn(Run(w0, ops[..k]), ctx, user, role, id).1.value;
    RunStep(w0, ops, k);
    ReturnIsRecorded(Run(w0, ops[..k]), ctx, user, role, id);
    RunKeepsRecords(w0, ops, k + 1);
    assert Run(w0, ops).returnRequests[rid].order == id;
    Reachable(w0, ops);
    assert ReturnOk(Run(w0, ops), rid);
  }

  // A request that was let in can always be approved next, and that returns the order.
  lemma {:induction false} RequestCanBeApproved(w0: World, ops: seq<Op>, ctx: int, user: int, role: Role, id: nat, admin: int)
    requires Initial(w0) && CreateReturn(Run(w0, ops), ctx, user, role, id).1.Success?
    ensures var (asked, rid) := CreateReturn(Run(w0, ops), ctx, user, role, id);
            var (reviewed, answer) := ReviewReturn(asked, 0, admin, SuperAdmin, 0, rid.value, ReturnApproved);
            && answer == rid
            && id < |reviewed.orders| && ReturnedByApproval(reviewed.orders[id]) && Approved(reviewed, id)
  {
    var (asked, rid) := CreateReturn(Run(w0, ops), ctx, user, role, id);
    RestockNeverConflicts(w0, ops, id);
    var reviewed := ReviewReturn(asked, 0, admin, SuperAdmin, 0, rid.value, ReturnApproved).0;
    var o := asked.orders[id];
    assert Moved(o, Returned, admin).history[|o.history|] == HistoryRow(Delivered, Returned, admin);
    assert reviewed.returnRequests[rid.value].status == ReturnApproved;
  }

  // Once call k created a payment, it stays with the order, for exactly the order's total, and no
  // second payment of that order is ever let in.
  lemma {:induction false} PaymentAskedOnce(w0: World, ops: seq<Op>, k: nat, ctx: int, id: nat)
    requires Initial(w0) && k < |ops| && ops[k] == OpCreatePayment(ctx, id)
    requires CreatePayment(Run(w0, ops[..k]), ctx, id).1.Success?
    ensures var pid := CreatePayment(Run(w0, ops[..k]), ctx, id).1.value;
            var w := Run(w0, ops);
            && pid < |w.payments| && id < |w.orders| && w.payments[pid].order == id
            && w.payments[pid].amount == w.orders[id].total && w.payments[pid].store == w.orders[id].store
            && forall ctx' :: CreatePayment(w, ctx', id).1.Failure?
  {
    var pid := CreatePayment(Run(w0, ops[..k]), ctx, id).1.value;
    RunStep(w0, ops, k);
    PaymentIsRecorded(Run(w0, ops[..k]), ctx, id);
    RunKeepsRecords(w0, ops, k + 1);
    assert Run(w0, ops).payments[pid].order == id;
    Reachable(w0, ops);
    assert PaymentOk(Run(w0, ops), Run(w0, ops).payments[pid]);
  }

  // Completing a payment marks its order paid, whoever completes it, and paid it stays.
  lemma {:induction false} CompletingPays(w0: World, ops: seq<Op>, k: nat, ctx: int, pid: nat)
    requires Initial(w0) && k < |ops| && ops[k] == OpProcessPayment(ctx, pid, Some(Some(Completed)))
    requires ProcessPayment(Run(w0, ops[..k]), ctx, pid, Some(Some(Completed))).1.Success?
    ensures pid < |Run(w0, ops).payments| && Run(w0, ops).payments[pid].order < |Run(w0, ops).orders|
    ensures Run(w0, ops).orders[Run(w0, ops).payments[pid].order].isPaid
  {
    var before, after := Run(w0, ops[..k]), Run(w0, ops[..k + 1]);
    RunStep(w0, ops, k);
    Reachable(w0, ops[..k]);
    assert PaymentOk(before, before.payments[pid]);
    var id := before.payments[pid].order;
    assert after.orders[id].isPaid;
    RunKeepsRecords(w0, ops, k + 1);
    RunGrows(w0, ops, k + 1);
    assert Grows(after.orders[id], Run(w0, ops).orders[id]);
  }

  // ----- outbox events -----

  // An event belongs to an order of its store whose history holds PENDING to ACCEPTED, and no other
  // event belongs to that order.
  lemma {:induction false} OneEventPerAcceptance(w0: World, ops: seq<Op>, e: nat)
    requires Initial(w0) && e < |Run(w0, ops).outbox|
    ensures EventOk(Run(w0, ops), Run(w0, ops).outbox[e])
    ensures forall x :: 0 <= x < |Run(w0, ops).outbox| && x != e ==>
              Run(w0, ops).outbox[x].order != Run(w0, ops).outbox[e].order
  {
    Reachable(w0, ops);
  }

  // ----- money -----

  // Order `id` was made by call k, against the catalogue of that moment.
  ghost predicate PricedAt(w0: World, ops: seq<Op>, id: nat, k: nat)
    requires k < |ops| && id < |Run(w0, ops).orders|
  {
    var before := Run(w0, ops[..k]);
    var o := Run(w0, ops).orders[id];
    && ops[k].OpCreateOrder?
    && |before.orders| == id
    && Lines(o.items) == ops[k].req.lines
    && o.store == ops[k].req.store && o.customer == ops[k].customer
    && o.store in before.catalog.stores
    && MoneyOk(before.catalog, o)
  }

  // Unit prices and one store come from the catalogue, the total is the line totals plus shipping
  // per unit and per order, and the product subtotal meets the store's minimum.
  ghost predicate MoneyOk(cat: Catalog, o: Order) {
    && o.items != []
    && (forall j :: 0 <= j < |o.items| ==> ItemOk(o.items[j]) && FromCatalog(cat, o.store, o.items[j]))
    && o.total == SumTotals(o.items, |o.items|) + SumFees(cat, o.items, |o.items|) + OrderFee(cat, o.store)
    && (o.store in cat.stores && cat.stores[o.store].minOrderTotal.Some? ==>
          cat.stores[o.store].minOrderTotal.value <= 0.0
          || SumTotals(o.items, |o.items|) >= cat.stores[o.store].minOrderTotal.value)
  }

  ghost predicate FromCatalog(cat: Catalog, store: int, item: Item) {
    && item.product in cat.products
    && cat.products[item.product].active
    && cat.products[item.product].store == store
    && cat.products[item.product].price == item.unitPrice
    && (cat.products[item.product].maxQty.Some? ==>
          cat.products[item.product].maxQty.value <= 0 || item.quantity <= cat.products[item.product].maxQty.value)
  }

  // What a line is charged for shipping: nothing if its product ships free or has no positive fee,
  // the fee for every unit otherwise.
  ghost function Fee(cat: Catalog, item: Item): real {
    if item.product !in cat.products then 0.0
    else
      match cat.products[item.product]
      case Product(_, _, _, free, fee, _) => if free || fee <= 0.0 then 0.0 else fee * (item.quantity as real)
  }

  ghost function SumFees(cat: Catalog, items: seq<Item>, n: nat): real
    requires n <= |items|
  {
    if n == 0 then 0.0 else SumFees(cat, items, n - 1) + Fee(cat, items[n - 1])
  }

  // The store charges its own fee once, if it has a positive one.
  ghost function OrderFee(cat: Catalog, store: int): real {
    if store !in cat.stores then 0.0
    else
      match cat.stores[store]
      case Store(_, Some(fee)) => if fee <= 0.0 then 0.0 else fee
      case Store(_, None) => 0.0
  }

  ghost function SumTotals(items: seq<Item>, n: nat): real
    requires n <= |items|
  {
    if n == 0 then 0.0 else SumTotals(items, n - 1) + items[n - 1].totalPrice
  }

  lemma {:induction false} SubtotalIsSum(cat: Catalog, customer: int, req: OrderRequest, n: nat)
    requires n <= |req.lines|
    ensures Subtotal(cat, req.lines, n) == SumTotals(NewOrder(cat, customer, req).items, n)
  {
    if n > 0 {
      SubtotalIsSum(cat, customer, req, n - 1);
    }
  }

  lemma {:induction false} ShippingIsFees(cat: Catalog, customer: int, req: OrderRequest, n: nat)
    requires n <= |req.lines|
    ensures LineShipping(cat, req.lines, n) == SumFees(cat, NewOrder(cat, customer, req).items, n)
  {
    if n > 0 {
      ShippingIsFees(cat, customer, req, n - 1);
      assert NewOrder(cat, customer, req).items[n - 1].product == req.lines[n - 1].product;
    }
  }

  lemma NewOrderMoney(cat: Catalog, inv: map<int, Stock>, ctx: int, customer: int, req: OrderRequest)
    requires Verdict(cat, inv, ctx, req).None?
    ensures MoneyOk(cat, NewOrder(cat, customer, req)) && Lines(NewOrder(cat, customer, req).items) == req.lines
  {
    var o := NewOrder(cat, customer, req);
    assert Lines(o.items) == req.lines;
    LinesPass(cat, inv, ctx, req, 0);
    forall j | 0 <= j < |o.items|
      ensures ItemOk(o.items[j]) && FromCatalog(cat, o.store, o.items[j])
    {
      assert LineVerdict(cat, inv, ctx, req, j).None?;
    }
    SubtotalIsSum(cat, customer, req, |req.lines|);
    ShippingIsFees(cat, customer, req, |req.lines|);
  }

  // What was agreed at creation is still what the order says after one more call.
  lemma {:induction false} PricedStays(w0: World, ops: seq<Op>, n: nat, id: nat, k: nat)
    requires n < |ops| && k < n && id < |Run(w0, ops[..n]).orders| && id < |Run(w0, ops[..n + 1]).orders|
    requires Grows(Run(w0, ops[..n]).orders[id], Run(w0, ops[..n + 1]).orders[id])
    requires PricedAt(w0, ops[..n], id, k)
    ensures PricedAt(w0, ops[..n + 1], id, k)
  {
    assert ops[..n][..k] == ops[..n + 1][..k];
  }

  lemma PricedNow(w0: World, ops: seq<Op>, n: nat, id: nat)
    requires n < |ops| && ops[..n + 1] == ops
    requires ops[n].OpCreateOrder? && |Run(w0, ops[..n]).orders| == id < |Run(w0, ops).orders|
    ensures PricedAt(w0, ops, id, n)
  {
    var b, op := Run(w0, ops[..n]), ops[n];
    NewOrderMoney(b.catalog, b.inventory, op.ctx, op.customer, op.req);
  }

  lemma OnlyCreationAdds(w: World, op: Op)
    requires |Apply(w, op).orders| > |w.orders|
    ensures op.OpCreateOrder? && |Apply(w, op).orders| == |w.orders| + 1
  {
  }

  lemma {:induction false} EveryOrderIsPriced(w0: World, ops: seq<Op>, id: nat)
    requires Initial(w0) && id < |Run(w0, ops).orders|
    ensures exists k :: 0 <= k < |ops| && PricedAt(w0, ops, id, k)
  {
    if ops == [] {
    } else {
      var n := |ops| - 1;
      var b, op := Run(w0, ops[..n]), ops[n];
      assert ops[..n + 1] == ops;
      if id < |b.orders| {
        Reachable(w0, ops[..n]);
        OrdersGrow(b, op);
        EveryOrderIsPriced(w0, ops[..n], id);
        var k :| 0 <= k < n && PricedAt(w0, ops[..n], id, k);
        PricedStays(w0, ops, n, id, k);
      } else {
        OnlyCreationAdds(b, op);
        PricedNow(w0, ops, n, id);
      }
    }
  }
}
