// What each call on an existing order does in every reachable state: which moves go through, when an
// order is paid, who can ask for a return and decide it, and which orders reach the outbox.
module OrderMoves {
  import opened Common
  import opened ShopModel
  import opened ShopRuns
  import opened ShopInvariants
  import opened OrderLifecycle
  import opened StockRefinement
  import opened StockLedger

  // The row exists for a caller who has selected its store, or none.
  predicate Visible(w: World, ctx: int, id: nat) {
    id < |w.orders| && (ctx == 0 || ctx == w.orders[id].store)
  }

  // ----- moving an order -----

  // The order has the new status and a history row that says who moved it from where.
  ghost predicate MovedTo(o: Order, o': Order, to: OrderStatus, user: int) {
    && o'.status == to
    && o'.history == o.history + [HistoryRow(o.status, to, user)]
    && o' == o.(status := to, history := o'.history)
  }

  ghost predicate OnlyOrderChanges(w: World, after: World, id: nat) {
    |after.orders| == |w.orders| && forall i :: 0 <= i < |w.orders| && i != id ==> after.orders[i] == w.orders[i]
  }

  ghost predicate GoodsAreBack(w: World, after: World, o: Order) {
    forall p :: OnHand(after, p) == OnHand(w, p) + OrderDemand(o, p)
  }

  lemma RestockedGoodsAreBack(w: World, after: World, o: Order)
    requires !RestockConflict(w.inventory, o.store, Lines(o.items))
    requires after.inventory == Restocked(w.inventory, o.store, Lines(o.items))
    ensures GoodsAreBack(w, after, o)
  {
    forall p
      ensures OnHand(after, p) == OnHand(w, p) + OrderDemand(o, p)
    {
      RestockAdds(w.inventory, o.store, Lines(o.items), p);
    }
  }

  // The new event of an order that was accepted just now.
  function NewEvent(o: Order, id: nat, now: int): Event {
    Event(o.store, id, now, EventPending, 0, None, None, None)
  }

  lemma PendingHasNoEvent(w: World, id: nat)
    requires Inv(w) && id < |w.orders| && w.orders[id].status == Pending
    ensures !HasEvent(w.outbox, id)
  {
    assert OrderOk(w.orders[id]);
    if w.orders[id].history != [] {
      MovedIsNotPending(w.orders[id]);
    }
    assert !WasAccepted(w.orders[id]);
    forall e | 0 <= e < |w.outbox|
      ensures w.outbox[e].order != id
    {
      assert EventOk(w, w.outbox[e]);
    }
  }

  lemma MovedIsNotPending(o: Order)
    requires Chain(o.history, o.status) && o.history != []
    ensures o.status != Pending
  {
    var last := o.history[|o.history| - 1];
    assert LegalMove(last.from, last.to) || ApprovalEdge(last);
  }

  // A caller who sees the order can move it exactly along the ten moves.  A legal move writes the
  // status and its history row, puts the goods back if and only if it cancels, and makes a pending
  // event, stamped with the time of the call, if and only if it accepts an order of a connected store.
  ghost predicate MoveOutcome(w: World, user: int, now: int, id: nat, to: OrderStatus, after: World, answer: Answer)
    requires id < |w.orders|
  {
    var o := w.orders[id];
    && (answer.Success? <==> LegalMove(o.status, to))
    && (answer.Failure? ==> answer == Failure(InvalidTransition(o.status, to)) && after == w)
    && (answer.Success? ==>
          && answer == Success(id)
          && OnlyOrderChanges(w, after, id) && MovedTo(o, after.orders[id], to, user)
          && (to == Cancelled ==> GoodsAreBack(w, after, o))
          && (to != Cancelled ==> after.inventory == w.inventory)
          && after.outbox == w.outbox + (if to == Accepted && o.store in w.connected then [NewEvent(o, id, now)] else [])
          && after == w.(orders := after.orders, inventory := after.inventory, outbox := after.outbox))
  }

  lemma {:induction false} MovesAreExactly(w0: World, ops: seq<Op>, ctx: int, user: int, now: int, id: nat, to: OrderStatus)
    requires Initial(w0) && Visible(Run(w0, ops), ctx, id)
    ensures var (after, answer) := UpdateStatus(Run(w0, ops), ctx, user, now, id, to);
            MoveOutcome(Run(w0, ops), user, now, id, to, after, answer)
  {
    Reachable(w0, ops);
    RestockNeverConflicts(w0, ops, id);
    MoveTold(Run(w0, ops), ctx, user, now, id, to);
  }

  lemma MoveTold(w: World, ctx: int, user: int, now: int, id: nat, to: OrderStatus)
    requires Inv(w) && Visible(w, ctx, id)
    requires !RestockConflict(w.inventory, w.orders[id].store, Lines(w.orders[id].items))
    ensures var (after, answer) := UpdateStatus(w, ctx, user, now, id, to);
            MoveOutcome(w, user, now, id, to, after, answer)
  {
    var (after, answer) := UpdateStatus(w, ctx, user, now, id, to);
    var o := w.orders[id];
    TableIsLegal(o.status, to);
    if LegalMove(o.status, to) {
      if to == Cancelled {
        RestockedGoodsAreBack(w, after, o);
      }
      if to == Accepted {
        PendingHasNoEvent(w, id);
      }
    }
  }

  // An order that the caller does not see is not found.
  lemma UnseenIsNotMoved(w: World, ctx: int, user: int, now: int, id: nat, to: OrderStatus)
    requires !Visible(w, ctx, id)
    ensures UpdateStatus(w, ctx, user, now, id, to) == (w, Failure(NotFound))
  {
  }

  // Until it is out for delivery an order can be cancelled, and its goods are back then.
  lemma {:induction false} CanBeCancelled(w0: World, ops: seq<Op>, ctx: int, user: int, now: int, id: nat)
    requires Initial(w0) && Visible(Run(w0, ops), ctx, id)
    requires var s := Run(w0, ops).orders[id].status; s == Pending || s == Accepted || s == Preparing || s == Ready
    ensures var w := Run(w0, ops);
            var (after, answer) := UpdateStatus(w, ctx, user, now, id, Cancelled);
            && answer == Success(id) && id < |after.orders| && after.orders[id].status == Cancelled
            && forall p :: OnHand(after, p) == OnHand(w, p) + OrderDemand(w.orders[id], p)
  {
    MovesAreExactly(w0, ops, ctx, user, now, id, Cancelled);
  }

  // ----- asking for a return -----

  // Exactly the customer of a delivered order, or a super admin, gets a request in, and only the
  // first one; it is pending and names the order with its store and customer.
  lemma ReturnIsLetInIff(w: World, ctx: int, user: int, role: Role, id: nat)
    ensures var (after, answer) := CreateReturn(w, ctx, user, role, id);
            && (answer.Success? <==>
                  && Visible(w, ctx, id)
                  && (user == w.orders[id].customer || role == SuperAdmin)
                  && w.orders[id].status == Delivered
                  && forall r :: 0 <= r < |w.returnRequests| ==> w.returnRequests[r].order != id)
            && (answer.Success? ==>
                  && answer == Success(|w.returnRequests|)
                  && after == w.(returnRequests := w.returnRequests
                                   + [ReturnRequest(w.orders[id].store, id, w.orders[id].customer, ReturnPending)]))
            && (answer.Failure? ==> after == w)
            && (answer == Failure(NotFound) <==> !Visible(w, ctx, id))
            && (answer == Failure(NotAllowed) <==>
                  Visible(w, ctx, id) && user != w.orders[id].customer && role != SuperAdmin)
            && (answer == Failure(NotDelivered) ==> w.orders[id].status != Delivered)
            && (answer.Failure? ==> answer.error in {NotFound, NotAllowed, NotDelivered, ReturnExists})
  {
  }

  // ----- deciding a return -----

  // Who may decide request `rid`: staff who see it, and of the store unless they are super admins.
  predicate MayDecide(w: World, ctx: int, role: Role, store: int, rid: nat) {
    && role in {SuperAdmin, StoreOwner, StoreAdmin}
    && rid < |w.returnRequests| && (ctx == 0 || ctx == w.returnRequests[rid].store)
    && (role == SuperAdmin || store == w.returnRequests[rid].store)
  }

  ghost predicate ReviewOutcome(
    w: World, ctx: int, user: int, role: Role, store: int, rid: nat, verdict: ReturnStatus, after: World, answer: Answer)
  {
    && (answer.Success? <==> MayDecide(w, ctx, role, store, rid) && w.returnRequests[rid].status == ReturnPending)
    && (answer.Failure? ==> after == w)
    && (answer == Failure(AlreadyReviewed) <==>
          MayDecide(w, ctx, role, store, rid) && w.returnRequests[rid].status != ReturnPending)
    && (answer == Failure(NotFound) <==>
          && role in {SuperAdmin, StoreOwner, StoreAdmin}
          && !(rid < |w.returnRequests| && (ctx == 0 || ctx == w.returnRequests[rid].store)))
    && (answer.Failure? ==> answer.error in {NotAllowed, NotFound, AlreadyReviewed})
    && (answer.Success? ==> ReviewEffect(w, user, rid, verdict, after))
  }

  // The request gets the verdict; an approval returns the order and puts its goods back, any other
  // verdict touches neither.
  ghost predicate ReviewEffect(w: World, user: int, rid: nat, verdict: ReturnStatus, after: World) {
    && rid < |w.returnRequests| && w.returnRequests[rid].order < |w.orders|
    && after == w.(returnRequests := w.returnRequests[rid := w.returnRequests[rid].(status := verdict)],
                   orders := after.orders, inventory := after.inventory)
    && (verdict != ReturnApproved ==> after.orders == w.orders && after.inventory == w.inventory)
    && (verdict == ReturnApproved ==>
          && OnlyOrderChanges(w, after, w.returnRequests[rid].order)
          && MovedTo(w.orders[w.returnRequests[rid].order], after.orders[w.returnRequests[rid].order], Returned, user)
          && GoodsAreBack(w, after, w.orders[w.returnRequests[rid].order]))
  }

  lemma {:induction false} ReviewsAreExactly(
    w0: World, ops: seq<Op>, ctx: int, user: int, role: Role, store: int, rid: nat, verdict: ReturnStatus)
    requires Initial(w0)
    ensures var (after, answer) := ReviewReturn(Run(w0, ops), ctx, user, role, store, rid, verdict);
            ReviewOutcome(Run(w0, ops), ctx, user, role, store, rid, verdict, after, answer)
  {
    Reachable(w0, ops);
    var w := Run(w0, ops);
    if rid < |w.returnRequests| {
      assert ReturnOk(w, rid);
      RestockNeverConflicts(w0, ops, w.returnRequests[rid].order);
    }
    ReviewTold(w, ctx, user, role, store, rid, verdict);
  }

  lemma ReviewTold(w: World, ctx: int, user: int, role: Role, store: int, rid: nat, verdict: ReturnStatus)
    requires rid < |w.returnRequests| ==> ReturnOk(w, rid)
    requires rid < |w.returnRequests| ==>
               var o := w.orders[w.returnRequests[rid].order];
               !RestockConflict(w.inventory, o.store, Lines(o.items))
    ensures var (after, answer) := ReviewReturn(w, ctx, user, role, store, rid, verdict);
            ReviewOutcome(w, ctx, user, role, store, rid, verdict, after, answer)
  {
    var (after, answer) := ReviewReturn(w, ctx, user, role, store, rid, verdict);
    if answer.Success? && verdict == ReturnApproved {
      RestockedGoodsAreBack(w, after, w.orders[w.returnRequests[rid].order]);
    }
  }

  // ----- paying -----

  // Exactly the first payment of an order that the caller sees is let in, pending and for the
  // order's total.
  lemma PaymentIsLetInIff(w: World, ctx: int, id: nat)
    ensures var (after, answer) := CreatePayment(w, ctx, id);
            && (answer.Success? <==>
                  && Visible(w, ctx, id) && forall m :: 0 <= m < |w.payments| ==> w.payments[m].order != id)
            && (answer.Success? ==>
                  && answer == Success(|w.payments|)
                  && after == w.(payments := w.payments
                                   + [Payment(w.orders[id].store, id, w.orders[id].total, Some(PaymentPending))]))
            && (answer.Failure? ==>
                  after == w && answer.error == if Visible(w, ctx, id) then PaymentExists else NotFound)
  {
  }

  // The payment has the status asked for, or the one it had if none was, and nothing else of it
  // changes; its order is paid if it was before or the payment is completed now.
  ghost predicate PaymentEffect(w: World, pid: nat, change: Option<Option<PaymentStatus>>, after: World)
    requires pid < |w.payments| && w.payments[pid].order < |w.orders|
  {
    var m, id := w.payments[pid], w.payments[pid].order;
    && |after.payments| == |w.payments|
    && (change.Some? ==> after.payments[pid].status == change.value)
    && (change.None? ==> after.payments[pid].status == m.status)
    && after.payments[pid] == m.(status := after.payments[pid].status)
    && (forall x :: 0 <= x < |w.payments| && x != pid ==> after.payments[x] == w.payments[x])
    && OnlyOrderChanges(w, after, id)
    && after.orders[id] == w.orders[id].(isPaid := w.orders[id].isPaid || after.payments[pid].status == Some(Completed))
    && after == w.(payments := after.payments, orders := after.orders)
  }

  // In every reachable state exactly a payment that the caller sees is changed.
  lemma {:induction false} PaymentsAreExactly(w0: World, ops: seq<Op>, ctx: int, pid: nat, change: Option<Option<PaymentStatus>>)
    requires Initial(w0)
    ensures var w := Run(w0, ops);
            var (after, answer) := ProcessPayment(w, ctx, pid, change);
            && (answer.Success? <==> pid < |w.payments| && (ctx == 0 || ctx == w.payments[pid].store))
            && (answer.Failure? ==> after == w && answer.error == NotFound)
            && (answer.Success? ==>
                  answer == Success(pid) && w.payments[pid].order < |w.orders| && PaymentEffect(w, pid, change, after))
  {
    Reachable(w0, ops);
    if pid < |Run(w0, ops).payments| {
      assert PaymentOk(Run(w0, ops), Run(w0, ops).payments[pid]);
    }
    PaymentTold(Run(w0, ops), ctx, pid, change);
  }

  lemma PaymentTold(w: World, ctx: int, pid: nat, change: Option<Option<PaymentStatus>>)
    requires pid < |w.payments| ==> PaymentOk(w, w.payments[pid])
    ensures var (after, answer) := ProcessPayment(w, ctx, pid, change);
            && (answer.Success? <==> pid < |w.payments| && (ctx == 0 || ctx == w.payments[pid].store))
            && (answer.Failure? ==> after == w && answer.error == NotFound)
            && (answer.Success? ==> answer == Success(pid) && PaymentEffect(w, pid, change, after))
  {
  }

  // The call goes through and leaves the payment of order `id` completed.
  ghost predicate Completes(w: World, op: Op, id: nat) {
    match op
    case OpProcessPayment(ctx, pid, change) =>
      var (after, answer) := ProcessPayment(w, ctx, pid, change);
      && answer.Success? && pid < |after.payments|
      && after.payments[pid].order == id && after.payments[pid].status == Some(Completed)
    case _ => false
  }

  lemma PaidAfterProcess(w: World, ctx: int, pid: nat, change: Option<Option<PaymentStatus>>, id: nat)
    requires PaymentsOk(w) && id < |w.orders|
    ensures ProcessPayment(w, ctx, pid, change).0.orders[id].isPaid
            <==> w.orders[id].isPaid || Completes(w, OpProcessPayment(ctx, pid, change), id)
  {
    if pid < |w.payments| {
      assert PaymentOk(w, w.payments[pid]);
    }
  }

  lemma PaidAfterStep(w: World, op: Op, id: nat)
    requires Inv(w) && id < |Apply(w, op).orders|
    ensures Apply(w, op).orders[id].isPaid <==> (id < |w.orders| && w.orders[id].isPaid) || Completes(w, op, id)
  {
    match op
    case OpProcessPayment(ctx, pid, change) => PaidAfterProcess(w, ctx, pid, change, id);
    case _ => OthersPayNothing(w, op, id);
  }

  lemma OthersPayNothing(w: World, op: Op, id: nat)
    requires !op.OpProcessPayment? && id < |Apply(w, op).orders|
    ensures Apply(w, op).orders[id].isPaid <==> id < |w.orders| && w.orders[id].isPaid
  {
  }

  ghost predicate CompletedBy(w0: World, ops: seq<Op>, k: nat, id: nat)
    requires k < |ops|
  {
    Completes(Run(w0, ops[..k]), ops[k], id)
  }

  // A payment belongs to an order that exists.
  lemma CompletedExists(w: World, op: Op, id: nat)
    requires Inv(w) && Completes(w, op, id)
    ensures id < |w.orders|
  {
    assert PaymentOk(w, w.payments[op.payment]);
  }

  // Some call among the first n left the payment of the order completed.
  ghost predicate EverCompleted(w0: World, ops: seq<Op>, n: nat, id: nat)
    requires n <= |ops|
  {
    exists k :: 0 <= k < n && CompletedBy(w0, ops, k, id)
  }

  lemma EverCompletedStep(w0: World, ops: seq<Op>, n: nat, m: nat, id: nat)
    requires n < m == n + 1 <= |ops|
    ensures EverCompleted(w0, ops, m, id) <==> EverCompleted(w0, ops, n, id) || CompletedBy(w0, ops, n, id)
  {
    if EverCompleted(w0, ops, m, id) {
      var k :| 0 <= k < m && CompletedBy(w0, ops, k, id);
      assert k < n || k == n;
    }
  }

  lemma {:induction false} PaidUpTo(w0: World, ops: seq<Op>, n: nat, id: nat)
    requires Initial(w0) && n <= |ops|
    ensures EverCompleted(w0, ops, n, id)
            <==> id < |Run(w0, ops[..n]).orders| && Run(w0, ops[..n]).orders[id].isPaid
  {
    if n > 0 {
      var b, op := Run(w0, ops[..n - 1]), ops[n - 1];
      PaidUpTo(w0, ops, n - 1, id);
      EverCompletedStep(w0, ops, n - 1, n, id);
      RunStep(w0, ops, n - 1);
      Reachable(w0, ops[..n - 1]);
      PaidStep(b, op, id);
    }
  }

  lemma PaidStep(w: World, op: Op, id: nat)
    requires Inv(w)
    ensures id < |Apply(w, op).orders| && Apply(w, op).orders[id].isPaid
            <==> (id < |w.orders| && w.orders[id].isPaid) || Completes(w, op, id)
  {
    OrdersGrow(w, op);
    if id < |Apply(w, op).orders| {
      PaidAfterStep(w, op, id);
    } else if Completes(w, op, id) {
      CompletedExists(w, op, id);
    }
  }

  // In every reachable state an order is paid if and only if some call of the run left its payment
  // completed.  So a new order is unpaid, and no other call, and no other status, pays it.
  lemma {:induction false} PaidIffCompleted(w0: World, ops: seq<Op>, id: nat)
    requires Initial(w0) && id < |Run(w0, ops).orders|
    ensures Run(w0, ops).orders[id].isPaid <==> exists k :: 0 <= k < |ops| && CompletedBy(w0, ops, k, id)
  {
    PaidUpTo(w0, ops, |ops|, id);
    assert ops[..|ops|] == ops;
  }

  // ----- stock -----

  // Goods can be put back unless a row belongs to another store, or a product without a row comes in
  // two lines.
  lemma RestockConflictsExactly(inv: map<int, Stock>, store: int, lines: seq<Line>)
    ensures RestockConflict(inv, store, lines) <==>
            || (exists i :: 0 <= i < |lines| && lines[i].product in inv && inv[lines[i].product].store != store)
            || (exists i, j :: 0 <= i < j < |lines| && lines[i].product == lines[j].product && lines[j].product !in inv)
  {
    if i :| 0 <= i < |lines| && LineConflict(inv, store, lines, i) {
      if lines[i].product !in inv {
        assert AskedBefore(lines, i, lines[i].product);
      }
    }
    if i :| 0 <= i < |lines| && lines[i].product in inv && inv[lines[i].product].store != store {
      assert LineConflict(inv, store, lines, i);
    }
    if i, j :| 0 <= i < j < |lines| && lines[i].product == lines[j].product && lines[j].product !in inv {
      assert LineConflict(inv, store, lines, j);
    }
  }

  // A product can be removed exactly if it is in the catalogue and no order has it; its row and its
  // stock go, and nothing else.
  lemma RemovalIff(w: World, p: int)
    ensures var (after, answer) := RemoveProduct(w, p);
            && (answer.Success? <==>
                  && p in w.catalog.products
                  && forall i, j :: 0 <= i < |w.orders| && 0 <= j < |w.orders[i].items| ==> w.orders[i].items[j].product != p)
            && (answer.Failure? ==> after == w)
            && (answer.Success? ==>
                  && after.catalog.products == w.catalog.products - {p} && after.inventory == w.inventory - {p}
                  && after == w.(catalog := w.catalog.(products := after.catalog.products), inventory := after.inventory))
  {
  }
}
