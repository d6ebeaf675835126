// A call made for one store leaves every other store's rows alone.
module TenantIsolation {
  import opened Common
  import opened ShopModel
  import opened ShopRuns
  import opened ShopInvariants
  import opened OrderLifecycle
  import opened StockRefinement

  // The store the call was made for, if one was selected.
  function Tenant(op: Op): Option<int> {
    match op
    case OpCreateOrder(ctx, _, _) => Selected(ctx)
    case OpUpdateStatus(ctx, _, _, _, _) => Selected(ctx)
    case OpCreateReturn(ctx, _, _, _) => Selected(ctx)
    case OpReviewReturn(ctx, _, _, _, _, _) => Selected(ctx)
    case OpCreatePayment(ctx, _) => Selected(ctx)
    case OpProcessPayment(ctx, _, _) => Selected(ctx)
    case _ => None
  }

  function Selected(ctx: int): Option<int> {
    if ctx == 0 then None else Some(ctx)
  }

  ghost predicate OrdersOf(w: World, w': World, store: int) {
    && |w.orders| <= |w'.orders|
    && (forall i :: 0 <= i < |w.orders| && w.orders[i].store != store ==> w'.orders[i] == w.orders[i])
    && (forall i :: |w.orders| <= i < |w'.orders| ==> w'.orders[i].store == store)
  }

  ghost predicate RequestsOf(w: World, w': World, store: int) {
    && |w.returnRequests| <= |w'.returnRequests|
    && (forall r :: 0 <= r < |w.returnRequests| && w.returnRequests[r].store != store ==>
          w'.returnRequests[r] == w.returnRequests[r])
    && (forall r :: |w.returnRequests| <= r < |w'.returnRequests| ==> w'.returnRequests[r].store == store)
  }

  ghost predicate PaymentsOf(w: World, w': World, store: int) {
    && |w.payments| <= |w'.payments|
    && (forall m :: 0 <= m < |w.payments| && w.payments[m].store != store ==> w'.payments[m] == w.payments[m])
    && (forall m :: |w.payments| <= m < |w'.payments| ==> w'.payments[m].store == store)
  }

  ghost predicate StockOf(w: World, w': World, store: int) {
    && (forall p :: p in w.inventory && w.inventory[p].store != store ==>
          p in w'.inventory && w'.inventory[p] == w.inventory[p])
    && (forall p :: p in w'.inventory && p !in w.inventory ==> w'.inventory[p].store == store)
  }

  ghost predicate EventsOf(w: World, w': World, store: int) {
    && w.outbox <= w'.outbox
    && (forall e :: |w.outbox| <= e < |w'.outbox| ==> w'.outbox[e].store == store)
  }

  // Every row that changed or is new belongs to the store.
  ghost predicate StaysWithin(w: World, w': World, store: int) {
    && OrdersOf(w, w', store) && RequestsOf(w, w', store) && PaymentsOf(w, w', store)
    && StockOf(w, w', store) && EventsOf(w, w', store)
    && w'.catalog == w.catalog && w'.mapping == w.mapping && w'.connected == w.connected
  }

  lemma NothingChanges(w: World, store: int)
    ensures StaysWithin(w, w, store)
  {
  }

  lemma OrderWithin(w: World, ctx: int, customer: int, req: OrderRequest)
    requires ctx != 0
    ensures StaysWithin(w, CreateOrder(w, ctx, customer, req).0, ctx)
  {
    if CreateOrder(w, ctx, customer, req).1.Success? {
      AcceptsIffTotalsFit(w.catalog, w.inventory, ctx, req);
      forall k | 0 <= k < |req.lines|
        ensures req.lines[k].product in w.inventory && w.inventory[req.lines[k].product].store == req.store == ctx
      {
        assert StaticVerdict(w.catalog, w.inventory, ctx, req, k).None?;
      }
      assert req.store == w.inventory[req.lines[0].product].store;
      forall p | p in w.inventory && w.inventory[p].store != ctx
        ensures TotalDemand(req.lines, p) == 0
      {
        NoDemand(req.lines, |req.lines|, p);
      }
    } else {
      NothingChanges(w, ctx);
    }
  }

  lemma RestockWithin(inv: map<int, Stock>, o: Order, p: int)
    requires HasRows(inv, o)
    ensures p in inv && inv[p].store != o.store ==>
              p in Restocked(inv, o.store, Lines(o.items)) && Restocked(inv, o.store, Lines(o.items))[p] == inv[p]
    ensures p in Restocked(inv, o.store, Lines(o.items)) ==> p in inv
  {
    var lines := Lines(o.items);
    if i :| 0 <= i < |lines| && lines[i].product == p {
      assert lines[i].product == o.items[i].product;
    } else {
      NoDemand(lines, |lines|, p);
    }
  }

  lemma RestockedWithin(w: World, w': World, o: Order)
    requires HasRows(w.inventory, o) && w'.inventory == Restocked(w.inventory, o.store, Lines(o.items))
    ensures StockOf(w, w', o.store)
  {
    forall p
      ensures p in w.inventory && w.inventory[p].store != o.store ==> p in w'.inventory && w'.inventory[p] == w.inventory[p]
      ensures p in w'.inventory ==> p in w.inventory
    {
      RestockWithin(w.inventory, o, p);
    }
  }

  lemma MoveWithin(w: World, ctx: int, user: int, now: int, id: nat, to: OrderStatus)
    requires Inv(w) && ctx != 0
    ensures StaysWithin(w, UpdateStatus(w, ctx, user, now, id, to).0, ctx)
  {
    var (w', answer) := UpdateStatus(w, ctx, user, now, id, to);
    if answer.Success? {
      if to == Cancelled {
        RestockedWithin(w, w', w.orders[id]);
      }
    } else {
      NothingChanges(w, ctx);
    }
  }

  lemma ReviewWithin(w: World, ctx: int, user: int, role: Role, store: int, rid: nat, verdict: ReturnStatus)
    requires Inv(w) && ctx != 0
    ensures StaysWithin(w, ReviewReturn(w, ctx, user, role, store, rid, verdict).0, ctx)
  {
    var (w', answer) := ReviewReturn(w, ctx, user, role, store, rid, verdict);
    if answer.Success? {
      if verdict == ReturnApproved {
        RestockedWithin(w, w', w.orders[w.returnRequests[rid].order]);
      }
    } else {
      NothingChanges(w, ctx);
    }
  }

  lemma RequestWithin(w: World, ctx: int, user: int, role: Role, id: nat)
    requires ctx != 0
    ensures StaysWithin(w, CreateReturn(w, ctx, user, role, id).0, ctx)
  {
  }

  lemma NewPaymentWithin(w: World, ctx: int, id: nat)
    requires ctx != 0
    ensures StaysWithin(w, CreatePayment(w, ctx, id).0, ctx)
  {
  }

  lemma PaymentWithin(w: World, ctx: int, pid: nat, change: Option<Option<PaymentStatus>>)
    requires ctx != 0
    ensures StaysWithin(w, ProcessPayment(w, ctx, pid, change).0, ctx)
  {
  }

  // In every reachable state a call made for a store changes and adds rows of that store only, in
  // all tables.
  lemma {:induction false} CallsStayInTheirStore(w0: World, ops: seq<Op>, op: Op, store: int)
    requires Initial(w0) && Tenant(op) == Some(store)
    ensures StaysWithin(Run(w0, ops), Apply(Run(w0, ops), op), store)
  {
    Reachable(w0, ops);
    var w := Run(w0, ops);
    match op
    case OpCreateOrder(ctx, customer, req) => OrderWithin(w, ctx, customer, req);
    case OpUpdateStatus(ctx, user, now, id, to) => MoveWithin(w, ctx, user, now, id, to);
    case OpReviewReturn(ctx, user, role, of, rid, verdict) => ReviewWithin(w, ctx, user, role, of, rid, verdict);
    case OpCreateReturn(ctx, user, role, id) => RequestWithin(w, ctx, user, role, id);
    case OpCreatePayment(ctx, id) => NewPaymentWithin(w, ctx, id);
    case OpProcessPayment(ctx, pid, change) => PaymentWithin(w, ctx, pid, change);
  }
}
