// The tables of the shop, as values, and what each service call may do to them.
//
// A `World` is one committed snapshot of the tables.  Every service call is specified by a
// function from the world before to the world after and its answer; the methods that update
// the tables in place are proved against these functions in the service modules.
// Row ids are positions in their table, and rows stay where they are.  Money is `real`, time is
// `int` (seconds), a store id of 0 in the request context means that no store was selected.
module ShopModel {
  import opened Common

  // ----- rows -----

  datatype OrderStatus =
    | Pending | Accepted | Preparing | Ready | OutForDelivery | Delivered | Cancelled | Returned

  datatype ReturnStatus = ReturnPending | ReturnApproved | ReturnRejected

  datatype PaymentStatus = PaymentPending | Completed | Failed | Refunded | Rejected

  datatype EventStatus = EventPending | EventSent | EventFailed

  datatype Role = SuperAdmin | StoreOwner | StoreAdmin | OtherRole

  datatype Product = Product(
    store: int, active: bool, price: real,
    freeShipping: bool, shippingFee: real, maxQty: Option<int>)

  datatype Store = Store(minOrderTotal: Option<real>, orderShippingFee: Option<real>)

  datatype Catalog = Catalog(products: map<int, Product>, stores: map<int, Store>)

  // An inventory row; product_id is unique, so the table is a map from product to row.
  datatype Stock = Stock(store: int, quantity: int)

  datatype Line = Line(product: int, quantity: int)

  datatype OrderRequest = OrderRequest(store: int, lines: seq<Line>)

  datatype Item = Item(product: int, quantity: int, unitPrice: real, totalPrice: real)

  datatype HistoryRow = HistoryRow(from: OrderStatus, to: OrderStatus, changedBy: int)

  datatype Order = Order(
    store: int, customer: int, status: OrderStatus, total: real, isPaid: bool,
    items: seq<Item>, history: seq<HistoryRow>)

  datatype ReturnRequest = ReturnRequest(store: int, order: nat, customer: int, status: ReturnStatus)

  datatype Payment = Payment(store: int, order: nat, amount: real, status: Option<PaymentStatus>)

  datatype OutboxError = NoConnection | OrderNotFound | MissingMapping | SalesFailed(code: int)

  datatype Event = Event(
    store: int, order: nat, createdAt: int, status: EventStatus, attempts: nat,
    nextRetry: Option<int>, lastError: Option<OutboxError>, invoiceId: Option<string>)

  datatype InvoiceItem = InvoiceItem(product: string, quantity: int, unitPrice: real, totalPrice: real)

  datatype Invoice = Invoice(order: nat, total: real, paid: real, items: seq<InvoiceItem>)

  // What the remote does with a POST: whether it takes the sale, and what the shop hears of it.  The
  // two need not agree, as when a gateway answers 504 for a sale that was recorded.  An answer has a
  // status code and a body, which may fail to decode or decode to something that is not an object.
  datatype Body = EmptyBody | Undecodable | NonObject | Document(id: string)
  datatype Reply = NoAnswer(taken: bool) | Answer(taken: bool, code: int, body: Body)

  // One POST that left the shop: for which event, what became of it, and whether the pass that
  // sent it got to store what it wrote.
  datatype Post = Post(event: nat, invoice: Invoice, reply: Reply, stored: bool)

  datatype World = World(
    catalog: Catalog,
    connected: set<int>,                // stores with an active remote connection
    mapping: map<(int, int), string>,   // (store, product) to the remote product id
    inventory: map<int, Stock>,
    orders: seq<Order>,
    returnRequests: seq<ReturnRequest>,
    payments: seq<Payment>,
    outbox: seq<Event>,
    posts: seq<Post>)

  datatype Error =
    | ProductUnavailable | OverQuantityCap | MixedStores | WrongStore | NoInventory
    | BadQuantity | OutOfStock | NoStoreResolved | StoreMissing | BelowMinimum
    | NotFound | InvalidTransition(from: OrderStatus, to: OrderStatus) | IntegrityError
    | NotAllowed | NotDelivered | ReturnExists | AlreadyReviewed | PaymentExists

  type Answer = Result<nat, Error>

  // ----- reading -----

  predicate Sees(ctx: int, store: int) {
    ctx == 0 || ctx == store
  }

  function Transitions(s: OrderStatus): set<OrderStatus> {
    match s
    case Pending => {Accepted, Cancelled}
    case Accepted => {Preparing, Cancelled}
    case Preparing => {Ready, Cancelled}
    case Ready => {OutForDelivery, Cancelled}
    case OutForDelivery => {Delivered, Returned}
    case Delivered => {}
    case Cancelled => {}
    case Returned => {}
  }

  // Quantity of product p asked for by the first n lines.
  function Demand(lines: seq<Line>, n: nat, p: int): int
    requires n <= |lines|
  {
    if n == 0 then 0
    else Demand(lines, n - 1, p) + if lines[n - 1].product == p then lines[n - 1].quantity else 0
  }

  function TotalDemand(lines: seq<Line>, p: int): int {
    Demand(lines, |lines|, p)
  }

  function Lines(items: seq<Item>): seq<Line> {
    seq(|items|, i requires 0 <= i < |items| => Line(items[i].product, items[i].quantity))
  }

  function Products(lines: seq<Line>): set<int> {
    set i | 0 <= i < |lines| :: lines[i].product
  }

  // ----- creating an order -----

  // What is wrong with line k by itself, whatever is in stock.
  function StaticVerdict(cat: Catalog, inv: map<int, Stock>, ctx: int, req: OrderRequest, k: nat): Option<Error>
    requires k < |req.lines|
  {
    var Line(p, q) := req.lines[k];
    if p !in cat.products || !Sees(ctx, cat.products[p].store) || !cat.products[p].active then
      Some(ProductUnavailable)
    else
      var product := cat.products[p];
      if product.maxQty.Some? && product.maxQty.value > 0 && q > product.maxQty.value then Some(OverQuantityCap)
      else if product.store != req.store then Some(if k == 0 then WrongStore else MixedStores)
      else if p !in inv || inv[p].store != req.store then Some(NoInventory)
      else if q <= 0 then Some(BadQuantity)
      else None
  }

  // What is wrong with line k once the earlier lines have taken their share.
  function LineVerdict(cat: Catalog, inv: map<int, Stock>, ctx: int, req: OrderRequest, k: nat): Option<Error>
    requires k < |req.lines|
  {
    var own := StaticVerdict(cat, inv, ctx, req, k);
    if own.Some? then own
    else
      var Line(p, q) := req.lines[k];
      if inv[p].quantity - Demand(req.lines, k, p) < q then Some(OutOfStock) else None
  }

  function FirstLineError(cat: Catalog, inv: map<int, Stock>, ctx: int, req: OrderRequest, k: nat): Option<Error>
    requires k <= |req.lines|
    decreases |req.lines| - k
  {
    if k == |req.lines| then None
    else
      var v := LineVerdict(cat, inv, ctx, req, k);
      if v.Some? then v else FirstLineError(cat, inv, ctx, req, k + 1)
  }

  function UnitPrice(cat: Catalog, p: int): real {
    if p in cat.products then cat.products[p].price else 0.0
  }

  function UnitShipping(cat: Catalog, p: int): real {
    if p in cat.products && !cat.products[p].freeShipping && cat.products[p].shippingFee > 0.0
    then cat.products[p].shippingFee else 0.0
  }

  function Subtotal(cat: Catalog, lines: seq<Line>, n: nat): real
    requires n <= |lines|
  {
    if n == 0 then 0.0
    else Subtotal(cat, lines, n - 1) + UnitPrice(cat, lines[n - 1].product) * (lines[n - 1].quantity as real)
  }

  function LineShipping(cat: Catalog, lines: seq<Line>, n: nat): real
    requires n <= |lines|
  {
    if n == 0 then 0.0
    else LineShipping(cat, lines, n - 1) + UnitShipping(cat, lines[n - 1].product) * (lines[n - 1].quantity as real)
  }

  function StoreShipping(cat: Catalog, store: int): real {
    if store in cat.stores && cat.stores[store].orderShippingFee.Some? && cat.stores[store].orderShippingFee.value > 0.0
    then cat.stores[store].orderShippingFee.value else 0.0
  }

  function StoreVerdict(cat: Catalog, req: OrderRequest): Option<Error> {
    if |req.lines| == 0 then Some(NoStoreResolved)
    else if req.store !in cat.stores then Some(StoreMissing)
    else
      var least := cat.stores[req.store].minOrderTotal;
      if least.Some? && least.value > 0.0 && Subtotal(cat, req.lines, |req.lines|) < least.value
      then Some(BelowMinimum) else None
  }

  function Verdict(cat: Catalog, inv: map<int, Stock>, ctx: int, req: OrderRequest): Option<Error> {
    var first := FirstLineError(cat, inv, ctx, req, 0);
    if first.Some? then first else StoreVerdict(cat, req)
  }

  // The inventory after the first n lines were taken out.
  function Taken(inv: map<int, Stock>, lines: seq<Line>, n: nat): map<int, Stock>
    requires n <= |lines|
  {
    map p | p in inv :: inv[p].(quantity := inv[p].quantity - Demand(lines, n, p))
  }

  function Priced(cat: Catalog, line: Line): Item {
    var price := UnitPrice(cat, line.product);
    Item(line.product, line.quantity, price, price * (line.quantity as real))
  }

  function PricedLines(cat: Catalog, lines: seq<Line>): seq<Item> {
    seq(|lines|, i requires 0 <= i < |lines| => Priced(cat, lines[i]))
  }

  function NewOrder(cat: Catalog, customer: int, req: OrderRequest): Order {
    Order(
      req.store, customer, Pending,
      Subtotal(cat, req.lines, |req.lines|)
        + (LineShipping(cat, req.lines, |req.lines|) + StoreShipping(cat, req.store)),
      false,
      PricedLines(cat, req.lines),
      [])
  }

  function CreateOrder(w: World, ctx: int, customer: int, req: OrderRequest): (World, Answer) {
    var v := Verdict(w.catalog, w.inventory, ctx, req);
    if v.Some? then (w, Failure(v.value))
    else
      (w.(inventory := Taken(w.inventory, req.lines, |req.lines|),
          orders := w.orders + [NewOrder(w.catalog, customer, req)]),
       Success(|w.orders|))
  }

  // ----- putting goods back -----

  // Pending inserts are invisible to later lookups of the same session (autoflush is off), so a
  // second line for a product without a row would insert a second row.
  ghost predicate RestockConflict(inv: map<int, Stock>, store: int, lines: seq<Line>) {
    exists i :: 0 <= i < |lines| && LineConflict(inv, store, lines, i)
  }

  ghost predicate LineConflict(inv: map<int, Stock>, store: int, lines: seq<Line>, i: nat)
    requires i < |lines|
  {
    var p := lines[i].product;
    if p in inv then inv[p].store != store
    else AskedBefore(lines, i, p)
  }

  ghost predicate AskedBefore(lines: seq<Line>, n: nat, p: int)
    requires n <= |lines|
  {
    exists j :: 0 <= j < n && lines[j].product == p
  }

  ghost function Restocked(inv: map<int, Stock>, store: int, lines: seq<Line>): map<int, Stock> {
    map p | p in inv.Keys + Products(lines) ::
      if p in inv then inv[p].(quantity := inv[p].quantity + TotalDemand(lines, p))
      else Stock(store, TotalDemand(lines, p))
  }

  // ----- status changes -----

  predicate HasEvent(outbox: seq<Event>, id: nat) {
    exists e :: 0 <= e < |outbox| && outbox[e].order == id
  }

  function Enqueued(w: World, id: nat, now: int): seq<Event>
    requires id < |w.orders|
  {
    var store := w.orders[id].store;
    if store !in w.connected || HasEvent(w.outbox, id) then w.outbox
    else w.outbox + [Event(store, id, now, EventPending, 0, None, None, None)]
  }

  function Moved(o: Order, to: OrderStatus, user: int): Order {
    o.(status := to, history := o.history + [HistoryRow(o.status, to, user)])
  }

  ghost function UpdateStatus(w: World, ctx: int, user: int, now: int, id: nat, to: OrderStatus): (World, Answer) {
    if id >= |w.orders| || !Sees(ctx, w.orders[id].store) then (w, Failure(NotFound))
    else
      var o := w.orders[id];
      var lines := Lines(o.items);
      if to !in Transitions(o.status) then (w, Failure(InvalidTransition(o.status, to)))
      else if to == Cancelled && RestockConflict(w.inventory, o.store, lines) then (w, Failure(IntegrityError))
      else
        (w.(orders := w.orders[id := Moved(o, to, user)],
            inventory := if to == Cancelled then Restocked(w.inventory, o.store, lines) else w.inventory,
            outbox := if to == Accepted then Enqueued(w, id, now) else w.outbox),
         Success(id))
  }

  // ----- returns -----

  predicate HasReturn(returnRequests: seq<ReturnRequest>, id: nat) {
    exists r :: 0 <= r < |returnRequests| && returnRequests[r].order == id
  }

  function CreateReturn(w: World, ctx: int, user: int, role: Role, id: nat): (World, Answer) {
    if id >= |w.orders| || !Sees(ctx, w.orders[id].store) then (w, Failure(NotFound))
    else
      var o := w.orders[id];
      if o.customer != user && role != SuperAdmin then (w, Failure(NotAllowed))
      else if o.status != Delivered then (w, Failure(NotDelivered))
      else if HasReturn(w.returnRequests, id) then (w, Failure(ReturnExists))
      else
        (w.(returnRequests := w.returnRequests + [ReturnRequest(o.store, id, o.customer, ReturnPending)]),
         Success(|w.returnRequests|))
  }

  ghost function ReviewReturn(
    w: World, ctx: int, user: int, role: Role, store: int, rid: nat, verdict: ReturnStatus): (World, Answer)
  {
    if role == OtherRole then (w, Failure(NotAllowed))
    else if rid >= |w.returnRequests| || !Sees(ctx, w.returnRequests[rid].store) then (w, Failure(NotFound))
    else
      var rr := w.returnRequests[rid];
      if role != SuperAdmin && rr.store != store then (w, Failure(NotAllowed))
      else if rr.status != ReturnPending then (w, Failure(AlreadyReviewed))
      else
        var reviewed := w.(returnRequests := w.returnRequests[rid := rr.(status := verdict)]);
        if verdict != ReturnApproved then (reviewed, Success(rid))
        else if rr.order >= |w.orders| || !Sees(ctx, w.orders[rr.order].store) then (w, Failure(NotFound))
        else
          var o := w.orders[rr.order];
          if RestockConflict(w.inventory, o.store, Lines(o.items)) then (w, Failure(IntegrityError))
          else
            (reviewed.(orders := w.orders[rr.order := Moved(o, Returned, user)],
                       inventory := Restocked(w.inventory, o.store, Lines(o.items))),
             Success(rid))
  }

  // ----- payments -----

  predicate HasPayment(payments: seq<Payment>, id: nat) {
    exists m :: 0 <= m < |payments| && payments[m].order == id
  }

  function CreatePayment(w: World, ctx: int, id: nat): (World, Answer) {
    if id >= |w.orders| || !Sees(ctx, w.orders[id].store) then (w, Failure(NotFound))
    else if HasPayment(w.payments, id) then (w, Failure(PaymentExists))
    else
      (w.(payments := w.payments + [Payment(w.orders[id].store, id, w.orders[id].total, Some(PaymentPending))]),
       Success(|w.payments|))
  }

  // `change` is None when the request leaves the status field out; the field itself may be null.
  function ProcessPayment(w: World, ctx: int, pid: nat, change: Option<Option<PaymentStatus>>): (World, Answer) {
    if pid >= |w.payments| || !Sees(ctx, w.payments[pid].store) then (w, Failure(NotFound))
    else
      var status := if change.Some? then change.value else w.payments[pid].status;
      var id := w.payments[pid].order;
      var updated := w.(payments := w.payments[pid := w.payments[pid].(status := status)]);
      if status == Some(Completed) && id < |w.orders| && Sees(ctx, w.orders[id].store) then
        (updated.(orders := w.orders[id := w.orders[id].(isPaid := true)]), Success(pid))
      else (updated, Success(pid))
  }

  // ----- stock adjustments -----

  function AdjustStock(w: World, p: int, store: int, quantity: int): World {
    w.(inventory := w.inventory[p := Stock(if p in w.inventory then w.inventory[p].store else store, quantity)])
  }

  predicate Ordered(orders: seq<Order>, p: int) {
    exists i, j :: 0 <= i < |orders| && 0 <= j < |orders[i].items| && orders[i].items[j].product == p
  }

  // Deleting a product removes its inventory row; an order item that names it forbids the delete.
  function RemoveProduct(w: World, p: int): (World, Answer) {
    if p !in w.catalog.products then (w, Failure(NotFound))
    else if Ordered(w.orders, p) then (w, Failure(IntegrityError))
    else
      (w.(inventory := w.inventory - {p},
          catalog := w.catalog.(products := w.catalog.products - {p})),
       Success(0))
  }
}
