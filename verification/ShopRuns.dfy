// Runs: any number of service calls, one after the other, from a shop without orders.
module ShopRuns {
  import opened Common
  import opened ShopModel
  import opened OutboxModel

  datatype Op =
    | OpCreateOrder(ctx: int, customer: int, req: OrderRequest)
    | OpUpdateStatus(ctx: int, user: int, now: int, order: nat, to: OrderStatus)
    | OpCreateReturn(ctx: int, user: int, role: Role, order: nat)
    | OpReviewReturn(ctx: int, user: int, role: Role, store: int, request: nat, verdict: ReturnStatus)
    | OpCreatePayment(ctx: int, order: nat)
    | OpProcessPayment(ctx: int, payment: nat, change: Option<Option<PaymentStatus>>)
    | OpAdjustStock(product: int, store: int, quantity: int)
    | OpRemoveProduct(product: int)
    | OpOutboxPass(now: int, batch: seq<nat>, replies: seq<Reply>)
      // A pass whose first `handled` events were worked off but whose commit never happened.
    | OpLostPass(now: int, batch: seq<nat>, replies: seq<Reply>, handled: nat)
      // Anything outside the modelled calls that edits the catalogue, connections or mappings.
    | OpEditSettings(catalog: Catalog, connected: set<int>, mapping: map<(int, int), string>)

  ghost function Apply(w: World, op: Op): World {
    match op
    case OpCreateOrder(ctx, customer, req) => CreateOrder(w, ctx, customer, req).0
    case OpUpdateStatus(ctx, user, now, id, to) => UpdateStatus(w, ctx, user, now, id, to).0
    case OpCreateReturn(ctx, user, role, id) => CreateReturn(w, ctx, user, role, id).0
    case OpReviewReturn(ctx, user, role, store, rid, verdict) =>
      ReviewReturn(w, ctx, user, role, store, rid, verdict).0
    case OpCreatePayment(ctx, id) => CreatePayment(w, ctx, id).0
    case OpProcessPayment(ctx, pid, change) => ProcessPayment(w, ctx, pid, change).0
    case OpAdjustStock(p, store, quantity) => AdjustStock(w, p, store, quantity)
    case OpRemoveProduct(p) => RemoveProduct(w, p).0
    case OpOutboxPass(now, batch, replies) =>
      if IsBatch(w.outbox, now, batch) && |batch| <= |replies| then Pass(w, now, batch, replies) else w
    case OpLostPass(now, batch, replies, handled) =>
      if IsBatch(w.outbox, now, batch) && |batch| <= |replies| && handled <= Attempted(w, batch, replies)
      then LostPass(w, now, batch, replies, handled) else w
    case OpEditSettings(catalog, connected, mapping) =>
      w.(catalog := catalog, connected := connected, mapping := mapping)
  }

  ghost function Run(w: World, ops: seq<Op>): World {
    if ops == [] then w else Apply(Run(w, ops[..|ops| - 1]), ops[|ops| - 1])
  }

  // A shop that has not taken an order yet; its catalogue and stock are arbitrary.
  ghost predicate Initial(w: World) {
    w.orders == [] && w.returnRequests == [] && w.payments == [] && w.outbox == [] && w.posts == []
  }
}
