// Payments for orders, in place.
module PaymentService {
  import opened Common
  import opened ShopModel
  import opened Tables

  method CreatePayment(db: Database, ctx: int, id: nat) returns (answer: Answer)
    modifies db`payments
    ensures (db.Snapshot(), answer) == ShopModel.CreatePayment(old(db.Snapshot()), ctx, id)
  {
    if id >= |db.orders| || !Sees(ctx, db.orders[id].store) {
      return Failure(NotFound);
    }
    if HasPayment(db.payments, id) {
      return Failure(PaymentExists);
    }
    var order := db.orders[id];
    db.payments := db.payments + [Payment(order.store, id, order.total, Some(PaymentPending))];
    return Success(|db.payments| - 1);
  }

  // The caller may set any status or leave it alone; whenever the payment ends up completed the
  // order is marked paid.
  method ProcessPayment(db: Database, ctx: int, pid: nat, change: Option<Option<PaymentStatus>>)
    returns (answer: Answer)
    modifies db`payments, db`orders
    ensures (db.Snapshot(), answer) == ShopModel.ProcessPayment(old(db.Snapshot()), ctx, pid, change)
  {
    if pid >= |db.payments| || !Sees(ctx, db.payments[pid].store) {
      return Failure(NotFound);
    }
    var payment := db.payments[pid];
    if change.Some? {
      payment := payment.(status := change.value);
    }
    db.payments := db.payments[pid := payment];
    if payment.status == Some(Completed) {
      if payment.order < |db.orders| && Sees(ctx, db.orders[payment.order].store) {
        db.orders := db.orders[payment.order := db.orders[payment.order].(isPaid := true)];
      }
    }
    return Success(pid);
  }
}
