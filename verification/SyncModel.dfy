// Taking over a store's products from the remote system: what one sync does to the tables.
module SyncModel {
  import opened Common

  datatype Origin = Local | Bero

  // The columns a sync reads or writes.
  datatype Product = Product(store: int, name: string, price: real, sku: Option<string>, origin: Origin)

  datatype Stock = Stock(store: int, quantity: int)

  datatype Mapping = Mapping(
    store: int, product: int, remoteId: string, barcode: Option<string>, sku: Option<string>, lastSynced: int)

  // One product of the feed; empty texts are None, a missing id is "".  `parses` is false when it
  // is no object or one of its numbers cannot be read, and then the other fields mean nothing.
  datatype FeedItem = FeedItem(
    id: string, parses: bool, barcode: Option<string>, otherSku: Option<string>, quantity: int, price: real, name: string)

  datatype Shop = Shop(products: map<int, Product>, inventory: map<int, Stock>, mappings: seq<Mapping>, nextId: int)

  // What the lookup by sku comes back with.  The query sees flushed skus while the session holds
  // newer ones, so it may be any product of the store; several matches raise.
  datatype Pick = NoMatch | Match(product: int) | Ambiguous

  datatype Error = NotConnected | FetchFailed | Malformed | AmbiguousSku | IntegrityError

  // The session: the tables with its own changes, how many mapping rows its queries can see, and
  // the products whose stock row they cannot see yet.
  datatype Session = Session(shop: Shop, visible: nat, pendingStock: set<int>)

  function Opened(s: Shop): Session {
    Session(s, |s.mappings|, {})
  }

  function SkuOf(item: FeedItem): Option<string> {
    if item.barcode.Some? then item.barcode else item.otherSku
  }

  // The first visible mapping of the store for the id.
  function FindRow(rows: seq<Mapping>, n: nat, store: int, id: string): (r: Option<nat>)
    requires n <= |rows|
    ensures r.Some? ==> r.value < n && rows[r.value].store == store && rows[r.value].remoteId == id
    ensures r.None? ==> forall i :: 0 <= i < n ==> !(rows[i].store == store && rows[i].remoteId == id)
  {
    if n == 0 then None
    else
      var earlier := FindRow(rows, n - 1, store, id);
      if earlier.Some? then earlier
      else if rows[n - 1].store == store && rows[n - 1].remoteId == id then Some(n - 1)
      else None
  }

  predicate InStore(shop: Shop, store: int, p: int) {
    p in shop.products && shop.products[p].store == store
  }

  predicate HasForeignStock(shop: Shop, store: int, p: int) {
    p in shop.inventory && shop.inventory[p].store != store
  }

  // The existing product the item is written to: the mapped one, or else what the sku finds.
  function Located(shop: Shop, store: int, item: FeedItem, row: Option<nat>, pick: Pick): Result<Option<int>, Error>
    requires row.Some? ==> row.value < |shop.mappings|
  {
    if row.Some? && InStore(shop, store, shop.mappings[row.value].product) then
      Success(Some(shop.mappings[row.value].product))
    else if SkuOf(item).None? then Success(None)
    else if pick.Ambiguous? then Failure(AmbiguousSku)
    else Success(if pick.Match? && InStore(shop, store, pick.product) then Some(pick.product) else None)
  }

  function Overwritten(product: Product, item: FeedItem): Product {
    product.(name := item.name, price := item.price, origin := Bero,
             sku := if SkuOf(item).Some? then SkuOf(item) else product.sku)
  }

  function Written(shop: Shop, store: int, item: FeedItem, found: Option<int>): Product
    requires found.Some? ==> InStore(shop, store, found.value)
  {
    if found.Some? then Overwritten(shop.products[found.value], item)
    else Product(store, item.name, item.price, SkuOf(item), Bero)
  }

  function Upsert(s: Session, store: int, item: FeedItem, pick: Pick, now: int): (r: Result<Session, Error>)
    requires s.visible <= |s.shop.mappings|
    ensures r.Success? ==> r.value.visible <= |r.value.shop.mappings|
  {
    var shop := s.shop;
    if item.id == "" then Success(s)
    else if !item.parses then Failure(Malformed)
    else
      var row := FindRow(shop.mappings, s.visible, store, item.id);
      var located := Located(shop, store, item, row, pick);
      if located.Failure? then Failure(located.error)
      else
        var found := located.value;
        // a stock row the query cannot see is inserted a second time
        if found.Some? && (found.value in s.pendingStock || HasForeignStock(shop, store, found.value)) then
          Failure(IntegrityError)
        else
          var p := if found.Some? then found.value else shop.nextId;
          var mappings :=
            if row.Some? then
              shop.mappings[row.value := shop.mappings[row.value].(barcode := item.barcode, sku := SkuOf(item), lastSynced := now)]
            else shop.mappings + [Mapping(store, p, item.id, item.barcode, SkuOf(item), now)];
          Success(Session(
            Shop(shop.products[p := Written(shop, store, item, found)], shop.inventory[p := Stock(store, item.quantity)],
                 mappings, if found.Some? then shop.nextId else shop.nextId + 1),
            // creating a product flushes everything added so far
            if found.Some? then s.visible else |shop.mappings|,
            if found.None? then {p} else if p in shop.inventory then s.pendingStock else s.pendingStock + {p}))
  }

  // The first n products of the feed, on top of what the session holds.
  function UpsertUpTo(s: Session, store: int, feed: seq<FeedItem>, picks: seq<Pick>, now: int, n: nat): (r: Result<Session, Error>)
    requires n <= |feed| <= |picks| && s.visible <= |s.shop.mappings|
    ensures r.Success? ==> r.value.visible <= |r.value.shop.mappings|
  {
    if n == 0 then Success(s)
    else
      var before := UpsertUpTo(s, store, feed, picks, now, n - 1);
      if before.Failure? then before else Upsert(before.value, store, feed[n - 1], picks[n - 1], now)
  }

  // How many of the first n products carry an id.
  function Identified(feed: seq<FeedItem>, n: nat): nat
    requires n <= |feed|
  {
    if n == 0 then 0 else Identified(feed, n - 1) + if feed[n - 1].id != "" then 1 else 0
  }

  // The two unique keys of the mapping table.
  predicate OneToOne(rows: seq<Mapping>) {
    forall i, j :: 0 <= i < j < |rows| && rows[i].store == rows[j].store ==>
      rows[i].remoteId != rows[j].remoteId && rows[i].product != rows[j].product
  }

  // A sync commits only if the mapping rows still meet their unique keys.
  ghost function Sync(s: Shop, store: int, feed: seq<FeedItem>, picks: seq<Pick>, now: int): Result<Shop, Error>
    requires |feed| <= |picks|
  {
    var done := UpsertUpTo(Opened(s), store, feed, picks, now, |feed|);
    if done.Failure? then Failure(done.error) else Committed(done.value)
  }

  function Committed(s: Session): Result<Shop, Error> {
    if OneToOne(s.shop.mappings) then Success(s.shop) else Failure(IntegrityError)
  }

  // ----- the background job -----

  // One connected store's turn: the products fetched for it, none if the fetch failed, with what the
  // lookups by sku come back with.
  datatype Turn = Turn(store: int, feed: seq<FeedItem>, picks: seq<Pick>)

  predicate IsTurn(turn: Turn) {
    |turn.feed| <= |turn.picks|
  }

  // How far a turn got: the session, how many products went through, how many of them carried an
  // id, and what then raised.
  datatype Progress = Progress(session: Session, through: nat, synced: nat, error: Option<Error>)

  function Progressed(s: Session, turn: Turn, now: int, n: nat): (r: Progress)
    requires IsTurn(turn) && n <= |turn.feed| && s.visible <= |s.shop.mappings|
    ensures r.session.visible <= |r.session.shop.mappings|
    ensures r.through <= n && (r.error.None? <==> r.through == n)
  {
    if n == 0 then Progress(s, 0, 0, None)
    else
      var before := Progressed(s, turn, now, n - 1);
      if before.error.Some? then before
      else
        match Upsert(before.session, turn.store, turn.feed[n - 1], turn.picks[n - 1], now)
        case Success(next) => Progress(next, n, before.synced + if turn.feed[n - 1].id != "" then 1 else 0, None)
        case Failure(error) => before.(error := Some(error))
  }

  // The session of the job, whether it holds a row that breaks a key of the stock table, and how
  // many products of each store so far went through.
  datatype Job = Job(session: Session, broken: bool, got: seq<nat>)

  // An exception ends the turn and is only logged: the session keeps what got through, and the next
  // store has its turn.
  function AfterTurn(job: Job, turn: Turn, now: int): (r: Job)
    requires IsTurn(turn) && job.session.visible <= |job.session.shop.mappings|
    ensures r.session.visible <= |r.session.shop.mappings|
  {
    var end := Progressed(job.session, turn, now, |turn.feed|);
    Job(end.session, job.broken || end.error == Some(IntegrityError), job.got + [end.through])
  }

  function TurnsUpTo(s: Shop, turns: seq<Turn>, now: int, n: nat): (r: Job)
    requires n <= |turns| && forall t :: 0 <= t < |turns| ==> IsTurn(turns[t])
    ensures r.session.visible <= |r.session.shop.mappings|
  {
    if n == 0 then Job(Opened(s), false, []) else AfterTurn(TurnsUpTo(s, turns, now, n - 1), turns[n - 1], now)
  }

  // All stores in one session, one commit at the end.
  function SyncAll(s: Shop, turns: seq<Turn>, now: int): Result<Shop, Error>
    requires forall t :: 0 <= t < |turns| ==> IsTurn(turns[t])
  {
    var job := TurnsUpTo(s, turns, now, |turns|);
    if job.broken then Failure(IntegrityError) else Committed(job.session)
  }
}
