// Asking for a return and reviewing it, in place.
module ReturnRouter {
  import opened Common
  import opened ShopModel
  import opened Tables
  import OrderService

  method CreateReturnRequest(db: Database, ctx: int, user: int, role: Role, id: nat) returns (answer: Answer)
    modifies db`returnRequests
    ensures (db.Snapshot(), answer) == ShopModel.CreateReturn(old(db.Snapshot()), ctx, user, role, id)
  {
    if id >= |db.orders| || !Sees(ctx, db.orders[id].store) {
      return Failure(NotFound);
    }
    var order := db.orders[id];
    if order.customer != user && role != SuperAdmin {
      return Failure(NotAllowed);
    }
    if order.status != Delivered {
      return Failure(NotDelivered);
    }
    if HasReturn(db.returnRequests, id) {
      return Failure(ReturnExists);
    }
    db.returnRequests := db.returnRequests + [ReturnRequest(order.store, id, order.customer, ReturnPending)];
    return Success(|db.returnRequests| - 1);
  }

  // The request is marked first; an approval then puts the goods back and moves the order, whose
  // own status is not looked at.  A failure on the way undoes all of it.
  method ReviewReturnRequest(
    db: Database, ctx: int, user: int, role: Role, store: int, rid: nat, verdict: ReturnStatus) returns (answer: Answer)
    modifies db`returnRequests, db`inventory, db`orders
    ensures (db.Snapshot(), answer) == ShopModel.ReviewReturn(old(db.Snapshot()), ctx, user, role, store, rid, verdict)
  {
    if role == OtherRole {
      return Failure(NotAllowed);
    }
    if rid >= |db.returnRequests| || !Sees(ctx, db.returnRequests[rid].store) {
      return Failure(NotFound);
    }
    var rr := db.returnRequests[rid];
    if role != SuperAdmin && rr.store != store {
      return Failure(NotAllowed);
    }
    if rr.status != ReturnPending {
      return Failure(AlreadyReviewed);
    }
    var savedRequests, savedInventory := db.returnRequests, db.inventory;
    db.returnRequests := db.returnRequests[rid := rr.(status := verdict)];
    if verdict == ReturnApproved {
      if rr.order >= |db.orders| || !Sees(ctx, db.orders[rr.order].store) {
        db.returnRequests := savedRequests;
        return Failure(NotFound);
      }
      var order := db.orders[rr.order];
      var conflict := OrderService.Restock(db, order.store, order.items);
      if conflict {
        db.returnRequests, db.inventory := savedRequests, savedInventory;
        return Failure(IntegrityError);
      }
      var oldStatus := order.status;
      order := order.(status := Returned);
      order := order.(history := order.history + [HistoryRow(oldStatus, Returned, user)]);
      db.orders := db.orders[rr.order := order];
    }
    return Success(rid);
  }
}
