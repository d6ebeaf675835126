// The stock ledger: where every unit of stock is, over any run of the shop.
module StockLedger {
  import opened ShopModel
  import opened ShopRuns
  import opened ShopInvariants
  import opened OrderLifecycle
  import opened StockRefinement

  // The order's goods have been put back on the shelf.
  ghost predicate PutBack(w: World, id: nat)
    requires id < |w.orders|
  {
    w.orders[id].status == Cancelled || Approved(w, id)
  }

  function OrderDemand(o: Order, p: int): int {
    TotalDemand(Lines(o.items), p)
  }

  // Units of p taken by the first n orders and not put back.
  ghost function Held(w: World, n: nat, p: int): int
    requires n <= |w.orders|
  {
    if n == 0 then 0
    else Held(w, n - 1, p) + if PutBack(w, n - 1) then 0 else OrderDemand(w.orders[n - 1], p)
  }

  ghost function Units(w: World, p: int): int {
    OnHand(w, p) + Held(w, |w.orders|, p)
  }

  // What one call adds to the shop's units of p from outside.
  ghost function Adjustment(w: World, op: Op, p: int): int {
    match op
    case OpAdjustStock(q, _, quantity) => if q == p then quantity - OnHand(w, p) else 0
    case OpRemoveProduct(q) => if q == p && RemoveProduct(w, q).1.Success? then -OnHand(w, p) else 0
    case _ => 0
  }

  ghost function Adjustments(w0: World, ops: seq<Op>, p: int): int {
    if ops == [] then 0
    else
      var front := ops[..|ops| - 1];
      Adjustments(w0, front, p) + Adjustment(Run(w0, front), ops[|ops| - 1], p)
  }

  // ----- which orders are approved -----

  lemma ApprovedIsReturned(w: World, id: nat)
    requires ReturnsOk(w)
    ensures Approved(w, id) ==> id < |w.orders| && w.orders[id].status == Returned
  {
    if Approved(w, id) {
      var r :| 0 <= r < |w.returnRequests| && w.returnRequests[r].order == id && w.returnRequests[r].status == ReturnApproved;
      assert ReturnOk(w, r);
    }
  }

  lemma ApprovalsKeptByCreateReturn(w: World, ctx: int, user: int, role: Role, order: nat)
    ensures forall id: nat :: Approved(CreateReturn(w, ctx, user, role, order).0, id) <==> Approved(w, id)
  {
    var w' := CreateReturn(w, ctx, user, role, order).0;
    forall id: nat
      ensures Approved(w', id) <==> Approved(w, id)
    {
      if Approved(w, id) {
        var r :| 0 <= r < |w.returnRequests| && w.returnRequests[r].order == id && w.returnRequests[r].status == ReturnApproved;
        assert w'.returnRequests[r] == w.returnRequests[r];
      }
    }
  }

  // ----- what single calls do to the units of one product -----

  lemma RestockAdds(inv: map<int, Stock>, store: int, lines: seq<Line>, p: int)
    requires !RestockConflict(inv, store, lines)
    ensures (if p in Restocked(inv, store, lines) then Restocked(inv, store, lines)[p].quantity else 0)
            == (if p in inv then inv[p].quantity else 0) + TotalDemand(lines, p)
  {
    if p !in Restocked(inv, store, lines) {
      NoDemand(lines, |lines|, p);
    }
  }

  lemma {:induction false} HeldFrame(w: World, w': World, n: nat, p: int)
    requires n <= |w.orders| && n <= |w'.orders|
    requires forall i :: 0 <= i < n ==> w'.orders[i].items == w.orders[i].items && (PutBack(w', i) <==> PutBack(w, i))
    ensures Held(w', n, p) == Held(w, n, p)
  {
    if n > 0 {
      HeldFrame(w, w', n - 1, p);
    }
  }

  lemma {:induction false} HeldWithout(w: World, w': World, id: nat, n: nat, p: int)
    requires id < n <= |w.orders| && n <= |w'.orders|
    requires forall i :: 0 <= i < n ==> w'.orders[i].items == w.orders[i].items
    requires forall i :: 0 <= i < n && i != id ==> (PutBack(w', i) <==> PutBack(w, i))
    requires !PutBack(w, id) && PutBack(w', id)
    ensures Held(w', n, p) == Held(w, n, p) - OrderDemand(w.orders[id], p)
  {
    if id == n - 1 {
      HeldFrame(w, w', n - 1, p);
    } else {
      HeldWithout(w, w', id, n - 1, p);
    }
  }

  lemma UnitsAfterCreate(w: World, ctx: int, customer: int, req: OrderRequest, p: int)
    requires Inv(w)
    ensures Units(CreateOrder(w, ctx, customer, req).0, p) == Units(w, p)
  {
    if CreateOrder(w, ctx, customer, req).1.Success? {
      CreateOrderRefinesTotals(w, ctx, customer, req);
      NewOrderMoney(w.catalog, w.inventory, ctx, customer, req);
      HeldWithNew(w, CreateOrder(w, ctx, customer, req).0, p);
    }
  }

  lemma HeldWithNew(w: World, w': World, p: int)
    requires ReturnsOk(w) && w'.returnRequests == w.returnRequests
    requires |w'.orders| == |w.orders| + 1 && w'.orders[..|w.orders|] == w.orders
    requires w'.orders[|w.orders|].status == Pending
    ensures Held(w', |w'.orders|, p) == Held(w, |w.orders|, p) + OrderDemand(w'.orders[|w.orders|], p)
  {
    ApprovalsSame(w, w');
    ApprovedIsReturned(w, |w.orders|);
    assert forall i :: 0 <= i < |w.orders| ==> w'.orders[i] == w'.orders[..|w.orders|][i];
    HeldFrame(w, w', |w.orders|, p);
  }

  lemma ApprovalsSame(w: World, w': World)
    requires w'.returnRequests == w.returnRequests
    ensures forall id :: Approved(w', id) <==> Approved(w, id)
  {
  }

  lemma UnitsAfterCancel(w: World, w': World, id: nat, p: int)
    requires ReturnsOk(w) && id < |w.orders| && Rank(w.orders[id].status) > 0
    requires !RestockConflict(w.inventory, w.orders[id].store, Lines(w.orders[id].items))
    requires w'.returnRequests == w.returnRequests
    requires |w'.orders| == |w.orders| && w'.orders == w.orders[id := w'.orders[id]] && w'.orders[id].items == w.orders[id].items
    requires w'.orders[id].status == Cancelled
    requires w'.inventory == Restocked(w.inventory, w.orders[id].store, Lines(w.orders[id].items))
    ensures Units(w', p) == Units(w, p)
  {
    ApprovalsSame(w, w');
    ApprovedIsReturned(w, id);
    RestockAdds(w.inventory, w.orders[id].store, Lines(w.orders[id].items), p);
    HeldWithout(w, w', id, |w.orders|, p);
  }

  lemma UnitsAfterMove(w: World, w': World, id: nat, p: int)
    requires id < |w.orders| && w'.returnRequests == w.returnRequests && w'.inventory == w.inventory
    requires |w'.orders| == |w.orders| && w'.orders == w.orders[id := w'.orders[id]] && w'.orders[id].items == w.orders[id].items
    requires w.orders[id].status != Cancelled && w'.orders[id].status != Cancelled
    ensures Units(w', p) == Units(w, p)
  {
    ApprovalsSame(w, w');
    HeldFrame(w, w', |w.orders|, p);
  }

  lemma UnitsAfterUpdate(w: World, ctx: int, user: int, now: int, id: nat, to: OrderStatus, p: int)
    requires Inv(w)
    ensures Units(UpdateStatus(w, ctx, user, now, id, to).0, p) == Units(w, p)
  {
    var (w', answer) := UpdateStatus(w, ctx, user, now, id, to);
    if answer.Failure? {
      assert w' == w;
    } else {
      UpdateMoves(w, ctx, user, now, id, to);
      if to == Cancelled {
        UnitsAfterCancel(w, w', id, p);
      } else {
        UnitsAfterMove(w, w', id, p);
      }
    }
  }

  lemma UpdateMoves(w: World, ctx: int, user: int, now: int, id: nat, to: OrderStatus)
    requires UpdateStatus(w, ctx, user, now, id, to).1.Success?
    ensures var w' := UpdateStatus(w, ctx, user, now, id, to).0;
            && id < |w.orders| && Rank(w.orders[id].status) > 0 && w.orders[id].status != Cancelled
            && w'.returnRequests == w.returnRequests
            && |w'.orders| == |w.orders| && w'.orders == w.orders[id := w'.orders[id]]
            && w'.orders[id].items == w.orders[id].items && w'.orders[id].status == to
            && (to == Cancelled ==>
                  && !RestockConflict(w.inventory, w.orders[id].store, Lines(w.orders[id].items))
                  && w'.inventory == Restocked(w.inventory, w.orders[id].store, Lines(w.orders[id].items)))
            && (to != Cancelled ==> w'.inventory == w.inventory)
  {
    assert UpdateStatus(w, ctx, user, now, id, to).0.orders[id] == Moved(w.orders[id], to, user);
  }

  lemma UnitsAfterReview(
    w: World, ctx: int, user: int, role: Role, store: int, rid: nat, verdict: ReturnStatus, p: int)
    requires Inv(w)
    ensures Units(ReviewReturn(w, ctx, user, role, store, rid, verdict).0, p) == Units(w, p)
  {
    if ReviewReturn(w, ctx, user, role, store, rid, verdict).1.Success? {
      var w' := ReviewReturn(w, ctx, user, role, store, rid, verdict).0;
      var id := w.returnRequests[rid].order;
      assert ReturnOk(w, rid);
      ReviewApproves(w, w', rid, verdict);
      if verdict == ReturnApproved {
        RestockAdds(w.inventory, w.orders[id].store, Lines(w.orders[id].items), p);
        HeldWithout(w, w', id, |w.orders|, p);
      } else {
        HeldFrame(w, w', |w.orders|, p);
      }
    }
  }

  // Reviewing a pending request changes which orders are approved in the expected way only.
  lemma ReviewApproves(w: World, w': World, rid: nat, verdict: ReturnStatus)
    requires ReturnsOk(w) && rid < |w.returnRequests| && w.returnRequests[rid].status == ReturnPending
    requires w'.returnRequests == w.returnRequests[rid := w.returnRequests[rid].(status := verdict)]
    ensures forall id :: id != w.returnRequests[rid].order ==> (Approved(w', id) <==> Approved(w, id))
    ensures !Approved(w, w.returnRequests[rid].order)
    ensures Approved(w', w.returnRequests[rid].order) <==> verdict == ReturnApproved
  {
    forall id: nat | id != w.returnRequests[rid].order
      ensures Approved(w', id) <==> Approved(w, id)
    {
      if Approved(w, id) {
        var r :| 0 <= r < |w.returnRequests| && w.returnRequests[r].order == id && w.returnRequests[r].status == ReturnApproved;
        assert w'.returnRequests[r] == w.returnRequests[r];
      }
      if Approved(w', id) {
        var r :| 0 <= r < |w'.returnRequests| && w'.returnRequests[r].order == id && w'.returnRequests[r].status == ReturnApproved;
        assert w.returnRequests[r] == w'.returnRequests[r];
      }
    }
    assert w'.returnRequests[rid].order == w.returnRequests[rid].order;
  }

  lemma UnitsAfterCreateReturn(w: World, ctx: int, user: int, role: Role, id: nat, p: int)
    ensures Units(CreateReturn(w, ctx, user, role, id).0, p) == Units(w, p)
  {
    ApprovalsKeptByCreateReturn(w, ctx, user, role, id);
    HeldFrame(w, CreateReturn(w, ctx, user, role, id).0, |w.orders|, p);
  }

  lemma UnitsAfterOthers(w: World, op: Op, p: int)
    requires !op.OpCreateOrder? && !op.OpUpdateStatus? && !op.OpReviewReturn? && !op.OpCreateReturn?
    ensures Units(Apply(w, op), p) == Units(w, p) + Adjustment(w, op, p)
  {
    OthersMoveNothing(w, op);
    HeldFrame(w, Apply(w, op), |w.orders|, p);
    OnHandAfterOthers(w, op, p);
  }

  lemma OthersMoveNothing(w: World, op: Op)
    requires !op.OpCreateOrder? && !op.OpUpdateStatus? && !op.OpReviewReturn? && !op.OpCreateReturn?
    ensures var w' := Apply(w, op);
            && w'.returnRequests == w.returnRequests && |w'.orders| == |w.orders|
            && forall i :: 0 <= i < |w.orders| ==> w'.orders[i].items == w.orders[i].items && w'.orders[i].status == w.orders[i].status
  {
  }

  lemma OnHandAfterOthers(w: World, op: Op, p: int)
    requires !op.OpCreateOrder? && !op.OpUpdateStatus? && !op.OpReviewReturn? && !op.OpCreateReturn?
    ensures OnHand(Apply(w, op), p) == OnHand(w, p) + Adjustment(w, op, p)
  {
  }

  lemma UnitsStep(w: World, op: Op, p: int)
    requires Inv(w)
    ensures Units(Apply(w, op), p) == Units(w, p) + Adjustment(w, op, p)
  {
    match op
    case OpCreateOrder(ctx, customer, req) => UnitsAfterCreate(w, ctx, customer, req, p);
    case OpUpdateStatus(ctx, user, now, id, to) => UnitsAfterUpdate(w, ctx, user, now, id, to, p);
    case OpReviewReturn(ctx, user, role, store, rid, verdict) =>
      UnitsAfterReview(w, ctx, user, role, store, rid, verdict, p);
    case OpCreateReturn(ctx, user, role, id) => UnitsAfterCreateReturn(w, ctx, user, role, id, p);
    case _ => UnitsAfterOthers(w, op, p);
  }

  // In every reachable state, for every product: stock on hand plus the quantities in orders not
  // put back equals the initial stock plus the explicit adjustments.
  lemma {:induction false} Conservation(w0: World, ops: seq<Op>, p: int)
    requires Initial(w0)
    ensures OnHand(Run(w0, ops), p) + Held(Run(w0, ops), |Run(w0, ops).orders|, p)
            == OnHand(w0, p) + Adjustments(w0, ops, p)
  {
    if ops != [] {
      var front := ops[..|ops| - 1];
      Conservation(w0, front, p);
      Reachable(w0, front);
      UnitsStep(Run(w0, front), ops[|ops| - 1], p);
    }
  }

  // ----- exactly once -----

  // The call succeeds in putting the goods of order `id` back.
  ghost predicate PutsBack(w: World, op: Op, id: nat) {
    match op
    case OpUpdateStatus(ctx, user, now, order, to) =>
      order == id && to == Cancelled && UpdateStatus(w, ctx, user, now, order, to).1.Success?
    case OpReviewReturn(ctx, user, role, store, rid, verdict) =>
      && verdict == ReturnApproved
      && ReviewReturn(w, ctx, user, role, store, rid, verdict).1.Success?
      && w.returnRequests[rid].order == id
    case _ => false
  }

  ghost function TimesPutBack(w0: World, ops: seq<Op>, id: nat): nat {
    if ops == [] then 0
    else
      var front := ops[..|ops| - 1];
      TimesPutBack(w0, front, id) + if PutsBack(Run(w0, front), ops[|ops| - 1], id) then 1 else 0
  }

  // Such a call adds the order's quantities to the stock, product by product.
  lemma PutsBackItsQuantities(w: World, op: Op, id: nat, p: int)
    requires Inv(w)
    ensures PutsBack(w, op, id) ==>
              id < |w.orders| && OnHand(Apply(w, op), p) == OnHand(w, p) + OrderDemand(w.orders[id], p)
  {
    if PutsBack(w, op, id) {
      RestockAdds(w.inventory, w.orders[id].store, Lines(w.orders[id].items), p);
    }
  }

  ghost predicate PutBackOrNew(w: World, w': World, id: nat, puts: bool) {
    && (puts ==> id < |w.orders| && !PutBack(w, id))
    && (id < |w'.orders| ==> (PutBack(w', id) <==> (id < |w.orders| && PutBack(w, id)) || puts))
  }

  lemma {:induction false} PutBackAfterUpdate(w: World, op: Op, id: nat)
    requires Inv(w) && op.OpUpdateStatus?
    ensures PutBackOrNew(w, Apply(w, op), id, PutsBack(w, op, id))
  {
    ApprovalsSame(w, Apply(w, op));
    ApprovedIsReturned(w, id);
  }

  lemma PutBackAfterReview(w: World, op: Op, id: nat)
    requires Inv(w) && op.OpReviewReturn?
    ensures PutBackOrNew(w, Apply(w, op), id, PutsBack(w, op, id))
  {
    if ReviewReturn(w, op.ctx, op.user, op.role, op.store, op.request, op.verdict).1.Success? {
      assert ReturnOk(w, op.request);
      ReviewApproves(w, Apply(w, op), op.request, op.verdict);
    }
  }

  lemma PutBackAfterOthers(w: World, op: Op, id: nat)
    requires Inv(w) && !op.OpUpdateStatus? && !op.OpReviewReturn?
    ensures PutBackOrNew(w, Apply(w, op), id, PutsBack(w, op, id))
  {
    if op.OpCreateReturn? {
      ApprovalsKeptByCreateReturn(w, op.ctx, op.user, op.role, op.order);
    } else {
      OthersLeaveReturns(w, op);
      ApprovalsSame(w, Apply(w, op));
    }
    ApprovedIsReturned(w, id);
  }

  lemma PutBackStep(w: World, op: Op, id: nat)
    requires Inv(w)
    ensures PutBackOrNew(w, Apply(w, op), id, PutsBack(w, op, id))
  {
    if op.OpUpdateStatus? {
      PutBackAfterUpdate(w, op, id);
    } else if op.OpReviewReturn? {
      PutBackAfterReview(w, op, id);
    } else {
      PutBackAfterOthers(w, op, id);
    }
  }

  // An order is put back exactly once if it is cancelled or has an approved return, and never
  // otherwise.
  lemma {:induction false} PutBackExactlyOnce(w0: World, ops: seq<Op>, id: nat)
    requires Initial(w0)
    ensures TimesPutBack(w0, ops, id)
            == if id < |Run(w0, ops).orders| && PutBack(Run(w0, ops), id) then 1 else 0
  {
    if ops != [] {
      var front := ops[..|ops| - 1];
      PutBackExactlyOnce(w0, front, id);
      Reachable(w0, front);
      OrdersGrow(Run(w0, front), ops[|ops| - 1]);
      PutBackStep(Run(w0, front), ops[|ops| - 1], id);
    }
  }
}
