// What every run of the shop keeps.
module ShopInvariants {
  import opened Common
  import opened ShopModel
  import opened OutboxModel
  import opened ShopRuns

  // ----- orders and their history -----

  function Rank(s: OrderStatus): nat {
    match s
    case Pending => 6
    case Accepted => 5
    case Preparing => 4
    case Ready => 3
    case OutForDelivery => 2
    case Delivered => 1
    case Cancelled => 0
    case Returned => 0
  }

  // The ten moves an order can be asked to make.
  predicate LegalMove(before: OrderStatus, after: OrderStatus) {
    || (before == Pending && after == Accepted)
    || (before == Pending && after == Cancelled)
    || (before == Accepted && after == Preparing)
    || (before == Accepted && after == Cancelled)
    || (before == Preparing && after == Ready)
    || (before == Preparing && after == Cancelled)
    || (before == Ready && after == OutForDelivery)
    || (before == Ready && after == Cancelled)
    || (before == OutForDelivery && after == Delivered)
    || (before == OutForDelivery && after == Returned)
  }

  ghost predicate ApprovalEdge(row: HistoryRow) {
    row.from == Delivered && row.to == Returned
  }

  ghost predicate Chain(history: seq<HistoryRow>, status: OrderStatus) {
    && (if history == [] then status == Pending
        else history[0].from == Pending && history[|history| - 1].to == status)
    && (forall i :: 0 < i < |history| ==> history[i - 1].to == history[i].from)
    && (forall i :: 0 <= i < |history| ==>
          LegalMove(history[i].from, history[i].to) || ApprovalEdge(history[i]))
  }

  ghost predicate ItemOk(item: Item) {
    item.quantity > 0 && item.totalPrice == item.unitPrice * (item.quantity as real)
  }

  ghost predicate OrderOk(o: Order) {
    Chain(o.history, o.status) && o.items != [] && forall j :: 0 <= j < |o.items| ==> ItemOk(o.items[j])
  }

  ghost predicate OrdersOk(w: World) {
    forall i :: 0 <= i < |w.orders| ==> OrderOk(w.orders[i])
  }

  // Every product of an order keeps its inventory row, in the order's store.
  ghost predicate HasRows(inv: map<int, Stock>, o: Order) {
    forall j :: 0 <= j < |o.items| ==> o.items[j].product in inv && inv[o.items[j].product].store == o.store
  }

  ghost predicate RowsOk(w: World) {
    forall i :: 0 <= i < |w.orders| ==> HasRows(w.inventory, w.orders[i])
  }

  // ----- return requests -----

  ghost predicate ReturnedByApproval(o: Order) {
    o.status == Returned && |o.history| > 0 && ApprovalEdge(o.history[|o.history| - 1])
  }

  ghost predicate ReturnOk(w: World, r: nat)
    requires r < |w.returnRequests|
  {
    var rr := w.returnRequests[r];
    && rr.order < |w.orders|
    && rr.store == w.orders[rr.order].store
    && rr.customer == w.orders[rr.order].customer
    && (rr.status == ReturnPending ==> w.orders[rr.order].status == Delivered)
    && (rr.status == ReturnApproved ==> ReturnedByApproval(w.orders[rr.order]))
    && (rr.status == ReturnRejected ==> w.orders[rr.order].status == Delivered)
  }

  ghost predicate Approved(w: World, id: nat) {
    exists r :: 0 <= r < |w.returnRequests| && w.returnRequests[r].order == id && w.returnRequests[r].status == ReturnApproved
  }

  ghost predicate ReturnsOk(w: World) {
    && (forall r :: 0 <= r < |w.returnRequests| ==> ReturnOk(w, r))
    && (forall r, r' :: 0 <= r < r' < |w.returnRequests| ==> w.returnRequests[r].order != w.returnRequests[r'].order)
    && (forall i :: 0 <= i < |w.orders| && ReturnedByApproval(w.orders[i]) ==> Approved(w, i))
  }

  // ----- payments -----

  ghost predicate PaymentOk(w: World, m: Payment) {
    && m.order < |w.orders|
    && m.store == w.orders[m.order].store
    && m.amount == w.orders[m.order].total
    && (m.status == Some(Completed) ==> w.orders[m.order].isPaid)
  }

  ghost predicate PaymentsOk(w: World) {
    && (forall m :: 0 <= m < |w.payments| ==> PaymentOk(w, w.payments[m]))
    && (forall m, m' :: 0 <= m < m' < |w.payments| ==> w.payments[m].order != w.payments[m'].order)
  }

  // ----- outbox events -----

  ghost predicate WasAccepted(o: Order) {
    exists h :: 0 <= h < |o.history| && o.history[h].from == Pending && o.history[h].to == Accepted
  }

  ghost predicate EventOk(w: World, ev: Event) {
    ev.order < |w.orders| && ev.store == w.orders[ev.order].store && WasAccepted(w.orders[ev.order])
  }

  ghost predicate EventsOk(w: World) {
    && (forall e :: 0 <= e < |w.outbox| ==> EventOk(w, w.outbox[e]))
    && (forall e, e' :: 0 <= e < e' < |w.outbox| ==> w.outbox[e].order != w.outbox[e'].order)
  }

  ghost predicate Inv(w: World) {
    OrdersOk(w) && RowsOk(w) && ReturnsOk(w) && PaymentsOk(w) && EventsOk(w)
  }

  // ----- how one call changes the tables -----

  // An order that exists keeps what was agreed when it was created; its history only grows.
  ghost predicate Grows(o: Order, o': Order) {
    && o'.store == o.store && o'.customer == o.customer && o'.total == o.total && o'.items == o.items
    && o.history <= o'.history
    && (o.isPaid ==> o'.isPaid)
    && (o'.history == o.history ==> o'.status == o.status)
    && (Rank(o.status) == 0 ==> o'.status == o.status && o'.history == o.history)
  }

  lemma MoveGrows(o: Order, to: OrderStatus, user: int)
    requires LegalMove(o.status, to) || (o.status == Delivered && to == Returned)
    ensures Grows(o, Moved(o, to, user))
  {
    assert Moved(o, to, user).history == o.history + [HistoryRow(o.status, to, user)];
  }

  // An approval that goes through finds its order delivered, although nothing checks that.
  lemma ApprovalFindsDelivered(w: World, ctx: int, user: int, role: Role, store: int, rid: nat)
    requires Inv(w)
    requires ReviewReturn(w, ctx, user, role, store, rid, ReturnApproved).1.Success?
    ensures rid < |w.returnRequests| && w.returnRequests[rid].order < |w.orders|
    ensures w.orders[w.returnRequests[rid].order].status == Delivered
  {
    assert ReturnOk(w, rid);
  }

  lemma OrdersGrow(w: World, op: Op)
    requires Inv(w)
    ensures OrdersGrew(w, Apply(w, op))
  {
    match op
    case OpUpdateStatus(ctx, user, now, id, to) => UpdateGrows(w, ctx, user, now, id, to);
    case OpReviewReturn(ctx, user, role, store, rid, verdict) => ReviewGrows(w, ctx, user, role, store, rid, verdict);
    case _ => OthersGrow(w, op);
  }

  ghost predicate OrdersGrew(w: World, w': World) {
    |w.orders| <= |w'.orders| && forall i :: 0 <= i < |w.orders| ==> Grows(w.orders[i], w'.orders[i])
  }

  lemma UpdateGrows(w: World, ctx: int, user: int, now: int, id: nat, to: OrderStatus)
    ensures OrdersGrew(w, UpdateStatus(w, ctx, user, now, id, to).0)
  {
    if UpdateStatus(w, ctx, user, now, id, to).1.Success? {
      MoveGrows(w.orders[id], to, user);
    }
  }

  lemma ReviewGrows(w: World, ctx: int, user: int, role: Role, store: int, rid: nat, verdict: ReturnStatus)
    requires Inv(w)
    ensures OrdersGrew(w, ReviewReturn(w, ctx, user, role, store, rid, verdict).0)
  {
    if ReviewReturn(w, ctx, user, role, store, rid, verdict).1.Success? && verdict == ReturnApproved {
      ApprovalFindsDelivered(w, ctx, user, role, store, rid);
      MoveGrows(w.orders[w.returnRequests[rid].order], Returned, user);
    }
  }

  lemma OthersGrow(w: World, op: Op)
    requires !op.OpUpdateStatus? && !op.OpReviewReturn?
    ensures OrdersGrew(w, Apply(w, op))
  {
    OthersKeepTerms(w, op);
  }

  lemma OthersKeepTerms(w: World, op: Op)
    requires !op.OpUpdateStatus? && !op.OpReviewReturn?
    ensures |w.orders| <= |Apply(w, op).orders|
    ensures forall i :: 0 <= i < |w.orders| ==>
              Apply(w, op).orders[i] == w.orders[i].(isPaid := Apply(w, op).orders[i].isPaid)
    ensures forall i :: 0 <= i < |w.orders| && w.orders[i].isPaid ==> Apply(w, op).orders[i].isPaid
  {
  }

  // An outbox event keeps its order; a sent one stays as it is.
  ghost predicate EventGrows(ev: Event, ev': Event) {
    && ev'.order == ev.order && ev'.store == ev.store && ev'.createdAt == ev.createdAt
    && ev.attempts <= ev'.attempts
    && (ev.status == EventSent ==> ev' == ev)
  }

  lemma AfterGrows(w: World, now: int, ev: Event, reply: Reply)
    requires ev.status != EventSent
    ensures EventGrows(ev, After(w, now, ev, reply))
  {
  }

  lemma {:induction false} OthersUntouched(w: World, now: int, batch: seq<nat>, replies: seq<Reply>, n: nat, e: nat)
    requires Within(w.outbox, batch) && n <= |batch| <= |replies| && e < |w.outbox|
    requires forall k :: 0 <= k < n ==> batch[k] != e
    ensures PassUpTo(w, now, batch, replies, n).outbox[e] == w.outbox[e]
  {
    if n > 0 {
      OthersUntouched(w, now, batch, replies, n - 1, e);
    }
  }

  lemma {:induction false} PassGrowsAt(w: World, now: int, batch: seq<nat>, replies: seq<Reply>, n: nat, e: nat)
    requires Within(w.outbox, batch) && Distinct(batch) && n <= |batch| <= |replies| && e < |w.outbox|
    requires forall i :: 0 <= i < |batch| ==> w.outbox[batch[i]].status != EventSent
    ensures EventGrows(w.outbox[e], PassUpTo(w, now, batch, replies, n).outbox[e])
  {
    if n > 0 {
      var a := PassUpTo(w, now, batch, replies, n - 1);
      PassGrowsAt(w, now, batch, replies, n - 1, e);
      if batch[n - 1] == e {
        assert a.outbox[e] == w.outbox[e] by {
          OthersUntouched(w, now, batch, replies, n - 1, e);
        }
        AfterGrows(a, now, a.outbox[e], replies[n - 1]);
      }
    }
  }

  lemma PassGrows(w: World, now: int, batch: seq<nat>, replies: seq<Reply>, n: nat)
    requires IsBatch(w.outbox, now, batch) && n <= |batch| <= |replies|
    ensures forall e :: 0 <= e < |w.outbox| ==> EventGrows(w.outbox[e], PassUpTo(w, now, batch, replies, n).outbox[e])
    ensures forall e :: 0 <= e < |w.outbox| && e !in batch[..n] ==> PassUpTo(w, now, batch, replies, n).outbox[e] == w.outbox[e]
  {
    forall i | 0 <= i < |batch|
      ensures w.outbox[batch[i]].status != EventSent
    {
      assert batch[i] in EligibleSet(w.outbox, now);
    }
    forall e | 0 <= e < |w.outbox|
      ensures EventGrows(w.outbox[e], PassUpTo(w, now, batch, replies, n).outbox[e])
    {
      PassGrowsAt(w, now, batch, replies, n, e);
    }
    forall e | 0 <= e < |w.outbox| && e !in batch[..n]
      ensures PassUpTo(w, now, batch, replies, n).outbox[e] == w.outbox[e]
    {
      assert forall k :: 0 <= k < n ==> batch[k] == batch[..n][k];
      OthersUntouched(w, now, batch, replies, n, e);
    }
  }

  // The next event of a batch is eligible and has not been handled by this pass.
  lemma NextInBatch(w: World, now: int, batch: seq<nat>, n: nat)
    requires IsBatch(w.outbox, now, batch) && n < |batch|
    ensures batch[n] < |w.outbox| && Eligible(w.outbox[batch[n]], now)
    ensures batch[n] !in batch[..n]
    ensures batch[..n + 1] == batch[..n] + [batch[n]]
  {
    assert batch[n] in EligibleSet(w.outbox, now);
  }

  // When its turn comes, an event of the batch is still as the pass found it.
  lemma NextIsUntouched(w: World, now: int, batch: seq<nat>, replies: seq<Reply>, n: nat)
    requires IsBatch(w.outbox, now, batch) && n < |batch| <= |replies|
    ensures batch[n] < |w.outbox| && w.outbox[batch[n]].status != EventSent
    ensures PassUpTo(w, now, batch, replies, n).outbox[batch[n]] == w.outbox[batch[n]]
  {
    PassGrows(w, now, batch, replies, n);
    NextInBatch(w, now, batch, n);
  }

  lemma OutboxGrows(w: World, op: Op)
    ensures |w.outbox| <= |Apply(w, op).outbox|
    ensures forall e :: 0 <= e < |w.outbox| ==> EventGrows(w.outbox[e], Apply(w, op).outbox[e])
  {
    if op.OpOutboxPass? && IsBatch(w.outbox, op.now, op.batch) && |op.batch| <= |op.replies| {
      PassGrows(w, op.now, op.batch, op.replies, Attempted(w, op.batch, op.replies));
    }
  }

  // ----- every call keeps the invariant -----

  lemma NewOrderOk(cat: Catalog, inv: map<int, Stock>, ctx: int, customer: int, req: OrderRequest)
    requires Verdict(cat, inv, ctx, req).None?
    ensures OrderOk(NewOrder(cat, customer, req)) && HasRows(inv, NewOrder(cat, customer, req))
  {
    LinesPass(cat, inv, ctx, req, 0);
    var o := NewOrder(cat, customer, req);
    forall j | 0 <= j < |o.items|
      ensures ItemOk(o.items[j]) && o.items[j].product in inv && inv[o.items[j].product].store == o.store
    {
      assert LineVerdict(cat, inv, ctx, req, j).None?;
    }
  }

  lemma {:induction false} LinesPass(cat: Catalog, inv: map<int, Stock>, ctx: int, req: OrderRequest, k: nat)
    requires k <= |req.lines| && FirstLineError(cat, inv, ctx, req, k).None?
    ensures forall j :: k <= j < |req.lines| ==> LineVerdict(cat, inv, ctx, req, j).None?
    decreases |req.lines| - k
  {
    if k < |req.lines| {
      LinesPass(cat, inv, ctx, req, k + 1);
    }
  }

  lemma OrdersAfterCreate(w: World, ctx: int, customer: int, req: OrderRequest)
    requires OrdersOk(w)
    ensures OrdersOk(CreateOrder(w, ctx, customer, req).0)
  {
    if Verdict(w.catalog, w.inventory, ctx, req).None? {
      NewOrderOk(w.catalog, w.inventory, ctx, customer, req);
    }
  }

  lemma OrdersAfterMove(w: World, w': World, id: nat, to: OrderStatus, user: int)
    requires OrdersOk(w) && id < |w.orders|
    requires LegalMove(w.orders[id].status, to) || (w.orders[id].status == Delivered && to == Returned)
    requires w'.orders == w.orders[id := Moved(w.orders[id], to, user)]
    ensures OrdersOk(w')
  {
    MoveKeepsChain(w.orders[id], to, user);
  }

  // The table of transitions holds exactly the ten moves.
  lemma TableIsLegal(s: OrderStatus, to: OrderStatus)
    ensures to in Transitions(s) <==> LegalMove(s, to)
  {
  }

  lemma KeepsOrders(w: World, op: Op)
    requires Inv(w)
    ensures OrdersOk(Apply(w, op))
  {
    match op
    case OpCreateOrder(ctx, customer, req) => OrdersAfterCreate(w, ctx, customer, req);
    case OpUpdateStatus(ctx, user, now, id, to) =>
      if UpdateStatus(w, ctx, user, now, id, to).1.Success? {
        TableIsLegal(w.orders[id].status, to);
        OrdersAfterMove(w, Apply(w, op), id, to, user);
      }
    case OpReviewReturn(ctx, user, role, store, rid, verdict) =>
      if ReviewReturn(w, ctx, user, role, store, rid, verdict).1.Success? && verdict == ReturnApproved {
        ApprovalFindsDelivered(w, ctx, user, role, store, rid);
        OrdersAfterMove(w, Apply(w, op), w.returnRequests[rid].order, Returned, user);
      }
    case _ => OthersKeepOrders(w, op);
  }

  lemma OthersKeepOrders(w: World, op: Op)
    requires OrdersOk(w) && !op.OpCreateOrder? && !op.OpUpdateStatus? && !op.OpReviewReturn?
    ensures OrdersOk(Apply(w, op))
  {
    OthersKeepTerms(w, op);
    assert |Apply(w, op).orders| == |w.orders|;
    forall i | 0 <= i < |w.orders|
      ensures OrderOk(Apply(w, op).orders[i])
    {
      assert OrderOk(w.orders[i]);
    }
  }

  lemma MoveKeepsChain(o: Order, to: OrderStatus, user: int)
    requires OrderOk(o)
    requires LegalMove(o.status, to) || (o.status == Delivered && to == Returned)
    ensures OrderOk(Moved(o, to, user))
  {
  }

  lemma RowsStable(w: World, w': World)
    requires RowsOk(w) && OrdersGrew(w, w')
    requires forall p :: p in w.inventory && Ordered(w.orders, p) ==>
               p in w'.inventory && w'.inventory[p].store == w.inventory[p].store
    requires forall i :: |w.orders| <= i < |w'.orders| ==> HasRows(w'.inventory, w'.orders[i])
    ensures RowsOk(w')
  {
    forall i | 0 <= i < |w.orders|
      ensures HasRows(w'.inventory, w'.orders[i])
    {
      var o, o' := w.orders[i], w'.orders[i];
      assert HasRows(w.inventory, o) && Grows(o, o');
      forall j | 0 <= j < |o'.items|
        ensures o'.items[j].product in w'.inventory && w'.inventory[o'.items[j].product].store == o'.store
      {
        assert w.orders[i].items[j].product == o'.items[j].product;
        assert Ordered(w.orders, o'.items[j].product);
      }
    }
  }

  lemma RowsSurvive(w: World, op: Op)
    ensures forall p :: p in w.inventory && Ordered(w.orders, p) ==>
              p in Apply(w, op).inventory && Apply(w, op).inventory[p].store == w.inventory[p].store
  {
  }

  lemma KeepsRows(w: World, op: Op)
    requires Inv(w)
    ensures RowsOk(Apply(w, op))
  {
    OrdersGrow(w, op);
    RowsSurvive(w, op);
    if op.OpCreateOrder? && CreateOrder(w, op.ctx, op.customer, op.req).1.Success? {
      NewOrderOk(w.catalog, w.inventory, op.ctx, op.customer, op.req);
      assert HasRows(w.inventory, NewOrder(w.catalog, op.customer, op.req));
    }
    RowsStable(w, Apply(w, op));
  }

  // Calls that leave the return requests alone neither move a delivered order nor approve one.
  lemma ReturnsStable(w: World, w': World)
    requires ReturnsOk(w) && w'.returnRequests == w.returnRequests && OrdersGrew(w, w')
    requires forall i :: 0 <= i < |w.orders| && w.orders[i].status == Delivered ==> w'.orders[i].status == Delivered
    requires forall i :: 0 <= i < |w'.orders| && ReturnedByApproval(w'.orders[i]) ==>
               i < |w.orders| && ReturnedByApproval(w.orders[i])
    ensures ReturnsOk(w')
  {
    forall r | 0 <= r < |w'.returnRequests|
      ensures ReturnOk(w', r)
    {
      assert ReturnOk(w, r);
      var id := w.returnRequests[r].order;
      assert Grows(w.orders[id], w'.orders[id]);
    }
    forall i | 0 <= i < |w'.orders| && ReturnedByApproval(w'.orders[i])
      ensures Approved(w', i)
    {
      assert Approved(w, i);
    }
  }

  lemma ReturnsAfterCreate(w: World, ctx: int, user: int, role: Role, id: nat)
    requires ReturnsOk(w) && CreateReturn(w, ctx, user, role, id).1.Success?
    ensures ReturnsOk(CreateReturn(w, ctx, user, role, id).0)
  {
    var w' := CreateReturn(w, ctx, user, role, id).0;
    var rr := ReturnRequest(w.orders[id].store, id, w.orders[id].customer, ReturnPending);
    assert w'.returnRequests == w.returnRequests + [rr] && w'.orders == w.orders;
    forall r | 0 <= r < |w'.returnRequests|
      ensures ReturnOk(w', r)
    {
      assert r < |w.returnRequests| ==> ReturnOk(w, r);
    }
    forall i | 0 <= i < |w'.orders| && ReturnedByApproval(w'.orders[i])
      ensures Approved(w', i)
    {
      var r :| 0 <= r < |w.returnRequests| && w.returnRequests[r].order == i && w.returnRequests[r].status == ReturnApproved;
      assert w'.returnRequests[r] == w.returnRequests[r];
    }
  }

  lemma ReturnsAfterReview(w: World, ctx: int, user: int, role: Role, store: int, rid: nat, verdict: ReturnStatus)
    requires Inv(w)
    requires ReviewReturn(w, ctx, user, role, store, rid, verdict).1.Success?
    ensures ReturnsOk(ReviewReturn(w, ctx, user, role, store, rid, verdict).0)
  {
    var w' := ReviewReturn(w, ctx, user, role, store, rid, verdict).0;
    var id := w.returnRequests[rid].order;
    assert ReturnOk(w, rid);
    forall r | 0 <= r < |w'.returnRequests|
      ensures ReturnOk(w', r)
    {
      assert ReturnOk(w, r);
    }
    forall i | 0 <= i < |w'.orders| && ReturnedByApproval(w'.orders[i])
      ensures Approved(w', i)
    {
      if i == id && verdict == ReturnApproved {
        assert w'.returnRequests[rid].order == i && w'.returnRequests[rid].status == ReturnApproved;
      } else {
        assert w'.orders[i] == w.orders[i];
        var r :| 0 <= r < |w.returnRequests| && w.returnRequests[r].order == i && w.returnRequests[r].status == ReturnApproved;
        assert w'.returnRequests[r] == w.returnRequests[r];
      }
    }
  }

  lemma MoveKeepsReturns(w: World, w': World, id: nat, to: OrderStatus, user: int)
    requires ReturnsOk(w) && id < |w.orders| && LegalMove(w.orders[id].status, to)
    requires w'.returnRequests == w.returnRequests && w'.orders == w.orders[id := Moved(w.orders[id], to, user)]
    ensures ReturnsOk(w')
  {
    MoveGrows(w.orders[id], to, user);
    assert !ReturnedByApproval(w'.orders[id]) && w.orders[id].status != Delivered;
    ReturnsStable(w, w');
  }

  lemma {:induction false} ReturnsAfterUpdate(w: World, ctx: int, user: int, now: int, id: nat, to: OrderStatus)
    requires Inv(w)
    ensures ReturnsOk(UpdateStatus(w, ctx, user, now, id, to).0)
  {
    if UpdateStatus(w, ctx, user, now, id, to).1.Success? {
      MoveKeepsReturns(w, UpdateStatus(w, ctx, user, now, id, to).0, id, to, user);
    }
  }

  lemma OthersLeaveReturns(w: World, op: Op)
    requires !op.OpUpdateStatus? && !op.OpReviewReturn? && !op.OpCreateReturn?
    ensures Apply(w, op).returnRequests == w.returnRequests
    ensures |w.orders| <= |Apply(w, op).orders|
    ensures forall i :: 0 <= i < |w.orders| ==> Apply(w, op).orders[i].status == w.orders[i].status
    ensures forall i :: 0 <= i < |w.orders| ==> Apply(w, op).orders[i].history == w.orders[i].history
    ensures forall i :: |w.orders| <= i < |Apply(w, op).orders| ==> Apply(w, op).orders[i].status == Pending
  {
  }

  lemma ReturnsAfterOthers(w: World, op: Op)
    requires Inv(w) && !op.OpCreateReturn? && !op.OpReviewReturn? && !op.OpUpdateStatus?
    ensures ReturnsOk(Apply(w, op))
  {
    OrdersGrow(w, op);
    OthersLeaveReturns(w, op);
    ReturnsStable(w, Apply(w, op));
  }

  lemma KeepsReturns(w: World, op: Op)
    requires Inv(w)
    ensures ReturnsOk(Apply(w, op))
  {
    match op
    case OpCreateReturn(ctx, user, role, id) =>
      if CreateReturn(w, ctx, user, role, id).1.Success? {
        ReturnsAfterCreate(w, ctx, user, role, id);
      }
    case OpReviewReturn(ctx, user, role, store, rid, verdict) =>
      if ReviewReturn(w, ctx, user, role, store, rid, verdict).1.Success? {
        ReturnsAfterReview(w, ctx, user, role, store, rid, verdict);
      }
    case OpUpdateStatus(ctx, user, now, id, to) =>
      ReturnsAfterUpdate(w, ctx, user, now, id, to);
    case _ => ReturnsAfterOthers(w, op);
  }

  lemma PaymentsStable(w: World, w': World)
    requires PaymentsOk(w) && w'.payments == w.payments
    requires |w.orders| <= |w'.orders|
    requires forall i :: 0 <= i < |w.orders| ==> Grows(w.orders[i], w'.orders[i])
    ensures PaymentsOk(w')
  {
    forall m | 0 <= m < |w'.payments|
      ensures PaymentOk(w', w'.payments[m])
    {
      assert PaymentOk(w, w.payments[m]);
      assert Grows(w.orders[w.payments[m].order], w'.orders[w.payments[m].order]);
    }
  }

  lemma PaymentsAfterCreate(w: World, ctx: int, id: nat)
    requires PaymentsOk(w)
    ensures PaymentsOk(CreatePayment(w, ctx, id).0)
  {
    var w' := CreatePayment(w, ctx, id).0;
    forall m | 0 <= m < |w'.payments|
      ensures PaymentOk(w', w'.payments[m])
    {
      assert m < |w.payments| ==> PaymentOk(w, w.payments[m]);
    }
  }

  lemma PaymentsAfterProcess(w: World, ctx: int, pid: nat, change: Option<Option<PaymentStatus>>)
    requires PaymentsOk(w)
    ensures PaymentsOk(ProcessPayment(w, ctx, pid, change).0)
  {
    var w' := ProcessPayment(w, ctx, pid, change).0;
    forall m | 0 <= m < |w'.payments|
      ensures PaymentOk(w', w'.payments[m])
    {
      assert PaymentOk(w, w.payments[m]);
    }
  }

  lemma KeepsPayments(w: World, op: Op)
    requires Inv(w)
    ensures PaymentsOk(Apply(w, op))
  {
    match op
    case OpCreatePayment(ctx, id) => PaymentsAfterCreate(w, ctx, id);
    case OpProcessPayment(ctx, pid, change) => PaymentsAfterProcess(w, ctx, pid, change);
    case _ =>
      OrdersGrow(w, op);
      PaymentsStable(w, Apply(w, op));
  }

  lemma EventStaysOk(w: World, w': World, e: nat)
    requires e < |w.outbox| && e < |w'.outbox| && EventOk(w, w.outbox[e]) && EventGrows(w.outbox[e], w'.outbox[e])
    requires OrdersGrew(w, w')
    ensures EventOk(w', w'.outbox[e])
  {
    var o, o' := w.orders[w.outbox[e].order], w'.orders[w.outbox[e].order];
    assert Grows(o, o');
    var h :| 0 <= h < |o.history| && o.history[h].from == Pending && o.history[h].to == Accepted;
    assert o'.history[h] == o.history[h];
  }

  // At most one event is new, and then for an order that was just accepted and had none.
  lemma NewEvents(w: World, op: Op)
    ensures var w' := Apply(w, op);
            && |w.outbox| <= |w'.outbox| <= |w.outbox| + 1
            && (|w'.outbox| > |w.outbox| ==>
                  && EventOk(w', w'.outbox[|w.outbox|])
                  && w'.outbox[..|w.outbox|] == w.outbox
                  && !HasEvent(w.outbox, w'.outbox[|w.outbox|].order))
  {
    if op.OpUpdateStatus? && |Apply(w, op).outbox| > |w.outbox| {
      AcceptanceLogged(w.orders[op.order], op.user);
    }
  }

  lemma EventsStable(w: World, w': World)
    requires EventsOk(w) && OrdersGrew(w, w') && |w.outbox| <= |w'.outbox| <= |w.outbox| + 1
    requires forall e :: 0 <= e < |w.outbox| ==> EventGrows(w.outbox[e], w'.outbox[e])
    requires |w'.outbox| > |w.outbox| ==>
               EventOk(w', w'.outbox[|w.outbox|]) && !HasEvent(w.outbox, w'.outbox[|w.outbox|].order)
    ensures EventsOk(w')
  {
    forall e | 0 <= e < |w.outbox|
      ensures EventOk(w', w'.outbox[e])
    {
      EventStaysOk(w, w', e);
    }
    forall e, e' | 0 <= e < e' < |w'.outbox|
      ensures w'.outbox[e].order != w'.outbox[e'].order
    {
      assert w'.outbox[e].order == w.outbox[e].order;
      if e' == |w.outbox| {
        assert !HasEvent(w.outbox, w'.outbox[e'].order);
      } else {
        assert w'.outbox[e'].order == w.outbox[e'].order;
      }
    }
  }

  lemma {:induction false} KeepsEvents(w: World, op: Op)
    requires Inv(w)
    ensures EventsOk(Apply(w, op))
  {
    OrdersGrow(w, op);
    OutboxGrows(w, op);
    NewEvents(w, op);
    EventsStable(w, Apply(w, op));
  }

  lemma AcceptanceLogged(o: Order, user: int)
    requires LegalMove(o.status, Accepted)
    ensures WasAccepted(Moved(o, Accepted, user))
  {
    assert Moved(o, Accepted, user).history[|o.history|] == HistoryRow(Pending, Accepted, user);
  }

  lemma {:induction false} Keeps(w: World, op: Op)
    requires Inv(w)
    ensures Inv(Apply(w, op))
  {
    KeepsOrders(w, op);
    KeepsRows(w, op);
    KeepsReturns(w, op);
    KeepsPayments(w, op);
    KeepsEvents(w, op);
  }

  lemma {:induction false} RunKeeps(w: World, ops: seq<Op>)
    requires Inv(w)
    ensures Inv(Run(w, ops))
  {
    if ops != [] {
      RunKeeps(w, ops[..|ops| - 1]);
      Keeps(Run(w, ops[..|ops| - 1]), ops[|ops| - 1]);
    }
  }
}
