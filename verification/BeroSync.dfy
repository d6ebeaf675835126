// The product sync, in place.
module BeroSync {
  import opened Common
  import opened SyncModel
  import opened SyncTheorems

  class ProductTables {
    var products: map<int, Product>
    var inventory: map<int, Stock>
    var mappings: seq<Mapping>
    var nextId: int

    ghost function Snapshot(): Shop
      reads this
    {
      Shop(products, inventory, mappings, nextId)
    }

    constructor (products: map<int, Product>, inventory: map<int, Stock>, mappings: seq<Mapping>, nextId: int)
      ensures Snapshot() == Shop(products, inventory, mappings, nextId)
    {
      this.products, this.inventory, this.mappings, this.nextId := products, inventory, mappings, nextId;
    }

    // The product of the mapping row, or else whatever the sku lookup finds.
    method LocateProduct(store: int, item: FeedItem, row: Option<nat>, pick: Pick) returns (found: Result<Option<int>, Error>)
      requires row.Some? ==> row.value < |mappings|
      ensures found == Located(Snapshot(), store, item, row, pick)
    {
      if row.Some? {
        var mapped := mappings[row.value].product;
        if mapped in products && products[mapped].store == store {
          return Success(Some(mapped));
        }
      }
      if item.barcode.None? && item.otherSku.None? {
        return Success(None);
      }
      match pick {
        case Ambiguous => return Failure(AmbiguousSku);
        case NoMatch => return Success(None);
        case Match(p) =>
          if p in products && products[p].store == store {
            return Success(Some(p));
          }
          return Success(None);
      }
    }

    // Creates the product, or overwrites it, together with its stock.
    method WriteProduct(store: int, item: FeedItem, found: Option<int>) returns (p: int)
      requires found.Some? ==> InStore(Snapshot(), store, found.value)
      requires found.Some? && found.value in inventory ==> inventory[found.value].store == store
      modifies this`products, this`inventory, this`nextId
      ensures p == if found.Some? then found.value else old(nextId)
      ensures products == old(products)[p := Written(old(Snapshot()), store, item, found)]
      ensures inventory == old(inventory)[p := Stock(store, item.quantity)]
      ensures nextId == if found.Some? then old(nextId) else old(nextId) + 1
    {
      var sku := if item.barcode.Some? then item.barcode else item.otherSku;
      if found.None? {
        p := nextId;
        products := products[p := Product(store, item.name, item.price, sku, Bero)];
        nextId := nextId + 1;
        inventory := inventory[p := Stock(store, item.quantity)];
      } else {
        p := found.value;
        var product := products[p];
        product := product.(name := item.name, price := item.price, origin := Bero);
        if sku.Some? {
          product := product.(sku := sku);
        }
        products := products[p := product];
        if p !in inventory {
          inventory := inventory[p := Stock(store, item.quantity)];
        } else {
          inventory := inventory[p := inventory[p].(quantity := item.quantity)];
        }
      }
    }

    // Brings one product of the feed in.  `visible` mapping rows have been flushed, and the stock
    // rows of `pending` have not; what raises has written nothing that a commit would keep.
    method UpsertProduct(store: int, item: FeedItem, pick: Pick, now: int, visible: nat, pending: set<int>)
      returns (error: Option<Error>, visible': nat, pending': set<int>)
      requires visible <= |mappings|
      modifies this
      ensures match Upsert(Session(old(Snapshot()), visible, pending), store, item, pick, now)
              case Success(s) => error == None && Session(Snapshot(), visible', pending') == s
              case Failure(e) =>
                error == Some(e) && Session(Snapshot(), visible', pending') == Session(old(Snapshot()), visible, pending)
    {
      if item.id == "" {
        return None, visible, pending;
      }
      if !item.parses {
        return Some(Malformed), visible, pending;
      }
      var sku := if item.barcode.Some? then item.barcode else item.otherSku;
      var row := FindRow(mappings, visible, store, item.id);
      var located := LocateProduct(store, item, row, pick);
      if located.Failure? {
        return Some(located.error), visible, pending;
      }
      var found := located.value;
      if found.Some? && (found.value in pending || (found.value in inventory && inventory[found.value].store != store)) {
        return Some(IntegrityError), visible, pending;
      }
      visible' := if found.Some? then visible else |mappings|;
      var stocked := found.Some? && found.value in inventory;
      var p := WriteProduct(store, item, found);
      pending' := if found.None? then {p} else if stocked then pending else pending + {p};
      if row.None? {
        mappings := mappings + [Mapping(store, p, item.id, item.barcode, sku, now)];
      } else {
        mappings := mappings[row.value := mappings[row.value].(barcode := item.barcode, sku := sku, lastSynced := now)];
      }
      return None, visible', pending';
    }

    // Every product of the feed in turn, until one raises.
    method SyncProducts(turn: Turn, now: int, visible: nat, pending: set<int>)
      returns (error: Option<Error>, visible': nat, pending': set<int>, synced: nat)
      requires IsTurn(turn) && visible <= |mappings|
      modifies this
      ensures var end := Progressed(Session(old(Snapshot()), visible, pending), turn, now, |turn.feed|);
              Session(Snapshot(), visible', pending') == end.session
              && error == end.error && synced == end.synced
    {
      ghost var s := Session(Snapshot(), visible, pending);
      error, visible', pending', synced := None, visible, pending, 0;
      for k := 0 to |turn.feed|
        invariant error.None? && visible' <= |mappings|
        invariant Progressed(s, turn, now, k) == Progress(Session(Snapshot(), visible', pending'), k, synced, None)
      {
        OneThrough(s, turn, now, k, Session(Snapshot(), visible', pending'), synced);
        error, visible', pending' := UpsertProduct(turn.store, turn.feed[k], turn.picks[k], now, visible', pending');
        if error.Some? {
          return;
        }
        if turn.feed[k].id != "" {
          synced := synced + 1;
        }
      }
    }

    // A sync by request: an exception or a refused commit undoes all of it.
    method SyncBeroNow(connected: bool, fetched: Option<Turn>, now: int) returns (answer: Result<nat, Error>)
      requires fetched.Some? ==> IsTurn(fetched.value)
      modifies this
      ensures !connected ==> answer == Failure(NotConnected)
      ensures connected && fetched.None? ==> answer == Failure(FetchFailed)
      ensures connected && fetched.Some? ==>
                match Sync(old(Snapshot()), fetched.value.store, fetched.value.feed, fetched.value.picks, now)
                case Success(s) => Snapshot() == s && answer == Success(Identified(fetched.value.feed, |fetched.value.feed|))
                case Failure(error) => answer == Failure(error)
      ensures answer.Failure? ==> Snapshot() == old(Snapshot())
    {
      if !connected {
        return Failure(NotConnected);
      }
      if fetched.None? {
        return Failure(FetchFailed);
      }
      var turn := fetched.value;
      var savedProducts, savedInventory, savedMappings, savedId := products, inventory, mappings, nextId;
      ghost var s := Opened(Snapshot());
      var error, visible, pending, synced := SyncProducts(turn, now, |mappings|, {});
      ProgressIs(s, turn, now, |turn.feed|);
      if error.None? && !OneToOne(mappings) {
        error := Some(IntegrityError);
      }
      if error.Some? {
        products, inventory, mappings, nextId := savedProducts, savedInventory, savedMappings, savedId;
        return Failure(error.value);
      }
      return Success(synced);
    }

    // The background job: every store in turn in one session; an exception is logged and its store
    // left as far as it got.  One commit ends it, and fails if any row broke a key.
    method RunIncrementalSync(turns: seq<Turn>, now: int) returns (committed: bool)
      requires forall t :: 0 <= t < |turns| ==> IsTurn(turns[t])
      modifies this
      ensures committed <==> SyncAll(old(Snapshot()), turns, now).Success?
      ensures Snapshot() == if committed then SyncAll(old(Snapshot()), turns, now).value else old(Snapshot())
    {
      ghost var s := Snapshot();
      var savedProducts, savedInventory, savedMappings, savedId := products, inventory, mappings, nextId;
      var broken, visible: nat, pending: set<int> := false, |mappings|, {};
      for t := 0 to |turns|
        invariant visible <= |mappings|
        invariant TurnsUpTo(s, turns, now, t).session == Session(Snapshot(), visible, pending)
        invariant TurnsUpTo(s, turns, now, t).broken == broken
      {
        var error, visible', pending', _ := SyncProducts(turns[t], now, visible, pending);
        visible, pending := visible', pending';
        broken := broken || error == Some(IntegrityError);
      }
      committed := !broken && OneToOne(mappings);
      if !committed {
        products, inventory, mappings, nextId := savedProducts, savedInventory, savedMappings, savedId;
      }
    }
  }

  // The next product either goes through or stops the turn.
  lemma OneThrough(s: Session, turn: Turn, now: int, k: nat, session: Session, synced: nat)
    requires IsTurn(turn) && k < |turn.feed| && s.visible <= |s.shop.mappings|
    requires Progressed(s, turn, now, k) == Progress(session, k, synced, None)
    ensures match Upsert(session, turn.store, turn.feed[k], turn.picks[k], now)
            case Success(next) => Progressed(s, turn, now, k + 1) == Progress(next, k + 1, synced + if turn.feed[k].id != "" then 1 else 0, None)
            case Failure(error) => Progressed(s, turn, now, |turn.feed|) == Progress(session, k, synced, Some(error))
  {
    if Upsert(session, turn.store, turn.feed[k], turn.picks[k], now).Failure? {
      StoppedStays(s, turn, now, k + 1, |turn.feed|);
    }
  }

  lemma {:induction false} StoppedStays(s: Session, turn: Turn, now: int, m: nat, n: nat)
    requires IsTurn(turn) && s.visible <= |s.shop.mappings| && m <= n <= |turn.feed|
    requires Progressed(s, turn, now, m).error.Some?
    ensures Progressed(s, turn, now, n) == Progressed(s, turn, now, m)
  {
    if m < n {
      StoppedStays(s, turn, now, m, n - 1);
    }
  }
}
