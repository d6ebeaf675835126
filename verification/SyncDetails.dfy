// What one product of the feed writes, column by column, and when its rows were last synced.
module SyncDetails {
  import opened Common
  import opened SyncModel
  import opened SyncTheorems

  // The sku a product of the feed comes with: its barcode, or else its own sku.
  function FedSku(item: FeedItem): Option<string> {
    match item.barcode
    case Some(code) => Some(code)
    case None => item.otherSku
  }

  ghost predicate VisibleRow(s: Session, store: int, id: string, x: nat) {
    x < s.visible <= |s.shop.mappings| && s.shop.mappings[x].store == store && s.shop.mappings[x].remoteId == id
  }

  ghost predicate HasVisibleRow(s: Session, store: int, id: string) {
    exists x: nat :: VisibleRow(s, store, id, x)
  }

  // The product the item goes to: the mapped one; or else the one of the store found under its sku;
  // or else a new one.
  ghost predicate GoesTo(s: Session, store: int, item: FeedItem, pick: Pick, p: int) {
    if HasVisibleRow(s, store, item.id) then
      exists x: nat :: VisibleRow(s, store, item.id, x) && s.shop.mappings[x].product == p
    else if FedSku(item).Some? && pick.Match? && InStore(s.shop, store, pick.product) then p == pick.product
    else p == s.shop.nextId
  }

  // Product p has the item's columns; without a sku in the feed an old product keeps its own.
  predicate WrittenTo(a: Shop, b: Shop, store: int, item: FeedItem, p: int) {
    && p in b.products && p in b.inventory && b.inventory[p] == Stock(store, item.quantity)
    && b.products[p].store == store && b.products[p].name == item.name && b.products[p].price == item.price
    && b.products[p].origin == Bero
    && b.products[p].sku == (if FedSku(item).Some? then FedSku(item) else if p in a.products then a.products[p].sku else None)
    && b.nextId == (if p in a.products then a.nextId else a.nextId + 1)
  }

  // A product of the feed that goes through is written to the product it goes to, and mapping row r
  // says so, with the barcode, the sku and the time of the sync.
  lemma OneProduct(s: Session, store: int, item: FeedItem, pick: Pick, now: int) returns (p: int, r: nat)
    requires Sound(s.shop) && s.visible <= |s.shop.mappings| && item.id != ""
    requires Upsert(s, store, item, pick, now).Success?
    ensures item.parses && GoesTo(s, store, item, pick, p)
    ensures var after := Upsert(s, store, item, pick, now).value.shop;
            && WrittenTo(s.shop, after, store, item, p)
            && r <= |s.shop.mappings| && |after.mappings| == Max(|s.shop.mappings|, r + 1)
            && after.mappings[r] == Mapping(store, p, item.id, item.barcode, FedSku(item), now)
            && (forall x :: 0 <= x < |s.shop.mappings| && x != r ==> after.mappings[x] == s.shop.mappings[x])
  {
    var row := FindRow(s.shop.mappings, s.visible, store, item.id);
    var found := Located(s.shop, store, item, row, pick).value;
    assert SkuOf(item) == FedSku(item);
    p := if found.Some? then found.value else s.shop.nextId;
    r := if row.Some? then row.value else |s.shop.mappings|;
    if row.Some? {
      assert VisibleRow(s, store, item.id, row.value);
    }
  }

  // Why a product of the feed does not go through; one without an id is passed over.
  lemma WhyOneFails(s: Session, store: int, item: FeedItem, pick: Pick, now: int)
    requires Sound(s.shop) && s.visible <= |s.shop.mappings|
    ensures var r := Upsert(s, store, item, pick, now);
            && (item.id == "" ==> r == Success(s))
            && (item.id != "" && !item.parses <==> r == Failure(Malformed))
            && (r == Failure(AmbiguousSku) <==>
                  && item.id != "" && item.parses && !HasVisibleRow(s, store, item.id)
                  && FedSku(item).Some? && pick.Ambiguous?)
            && (r.Failure? ==> r.error in {Malformed, AmbiguousSku, IntegrityError})
            && (r == Failure(IntegrityError) ==> exists p :: GoesTo(s, store, item, pick, p) && p in s.pendingStock)
  {
    var row := FindRow(s.shop.mappings, s.visible, store, item.id);
    assert SkuOf(item) == FedSku(item);
    if row.Some? {
      assert VisibleRow(s, store, item.id, row.value);
    }
    if item.id != "" && item.parses && Located(s.shop, store, item, row, pick).Success? {
      var found := Located(s.shop, store, item, row, pick).value;
      if found.Some? {
        assert InStore(s.shop, store, found.value);
        assert GoesTo(s, store, item, pick, found.value);
      }
    }
  }

  // ----- the same id twice -----

  // An unmapped id that comes twice in a row gets two mapping rows, since the query does not see the
  // first one yet, and the sync can not be committed.
  lemma TwiceInARow(s: Session, store: int, item: FeedItem, pick: Pick, pick': Pick, now: int)
    requires Sound(s.shop) && s.visible <= |s.shop.mappings| && item.id != ""
    requires forall x :: 0 <= x < |s.shop.mappings| ==> !(s.shop.mappings[x].store == store && s.shop.mappings[x].remoteId == item.id)
    requires Upsert(s, store, item, pick, now).Success?
    requires Upsert(Upsert(s, store, item, pick, now).value, store, item, pick', now).Success?
    ensures !OneToOne(Upsert(Upsert(s, store, item, pick, now).value, store, item, pick', now).value.shop.mappings)
  {
    var once := Upsert(s, store, item, pick, now).value;
    AddsUnseenRow(s, store, item, pick, now);
    UpsertSound(s, store, item, pick, now);
    AddsUnseenRow(once, store, item, pick', now);
    var rows, m := Upsert(once, store, item, pick', now).value.shop.mappings, |s.shop.mappings|;
    assert rows[m].store == rows[m + 1].store && rows[m].remoteId == rows[m + 1].remoteId;
  }

  // The row of an id without a visible row is added at the end, where the query does not see it yet.
  lemma AddsUnseenRow(s: Session, store: int, item: FeedItem, pick: Pick, now: int)
    requires Sound(s.shop) && s.visible <= |s.shop.mappings| && item.id != ""
    requires forall x :: 0 <= x < s.visible ==> !(s.shop.mappings[x].store == store && s.shop.mappings[x].remoteId == item.id)
    requires Upsert(s, store, item, pick, now).Success?
    ensures var after, m := Upsert(s, store, item, pick, now).value, |s.shop.mappings|;
            && |after.shop.mappings| == m + 1 && after.visible <= m
            && after.shop.mappings[m].store == store && after.shop.mappings[m].remoteId == item.id
            && forall x :: 0 <= x < m ==> after.shop.mappings[x] == s.shop.mappings[x]
  {
    assert FindRow(s.shop.mappings, s.visible, store, item.id).None?;
  }

  // Creating a product flushes what was added before it: the id is then found again, it keeps its
  // one row and its product, and nothing but that product and its stock is written.
  lemma FoundAfterCreation(s: Session, store: int, item: FeedItem, other: FeedItem, picks: seq<Pick>, now: int)
    requires Sound(s.shop) && s.visible <= |s.shop.mappings| && |picks| == 3 && item.id != "" && other.id != ""
    requires Upsert(s, store, item, picks[0], now).Success?
    requires var once := Upsert(s, store, item, picks[0], now).value;
             && Upsert(once, store, other, picks[1], now).Success?
             && once.shop.nextId in Upsert(once, store, other, picks[1], now).value.shop.products
    ensures var once := Upsert(s, store, item, picks[0], now).value;
            var between := Upsert(once, store, other, picks[1], now).value;
            var again := Upsert(between, store, item, picks[2], now);
            && again.Success? && |again.value.shop.mappings| == |between.shop.mappings|
            && again.value.shop.products.Keys == between.shop.products.Keys
  {
    var once := Upsert(s, store, item, picks[0], now).value;
    UpsertSound(s, store, item, picks[0], now);
    UpsertSound(once, store, other, picks[1], now);
    var between := Upsert(once, store, other, picks[1], now).value;
    var p, r := OneProduct(s, store, item, picks[0], now);
    assert r < |once.shop.mappings| == between.visible;
    assert between.shop.mappings[r].store == store && between.shop.mappings[r].remoteId == item.id;
    assert FindRow(between.shop.mappings, between.visible, store, item.id).Some?;
    assert between.pendingStock == {once.shop.nextId};
    MappingDecides(between, store, item, picks[2], now);
  }

  // ----- timestamps and counts -----

  ghost predicate Stamped(s: Shop, store: int, feed: seq<FeedItem>, n: nat, now: int)
    requires n <= |feed|
  {
    forall x :: 0 <= x < |s.mappings| && s.mappings[x].store == store && FedBefore(feed, n, s.mappings[x].remoteId) ==>
      s.mappings[x].lastSynced == now
  }

  lemma StampedStep(a: Shop, b: Shop, store: int, feed: seq<FeedItem>, n: nat, m: nat, now: int, r: nat)
    requires n < m == n + 1 <= |feed| && Stamped(a, store, feed, n, now) && OneToOne(b.mappings)
    requires r <= |a.mappings| && |b.mappings| == Max(|a.mappings|, r + 1)
    requires b.mappings[r].store == store && b.mappings[r].remoteId == feed[n].id && b.mappings[r].lastSynced == now
    requires forall x :: 0 <= x < |a.mappings| && x != r ==> b.mappings[x] == a.mappings[x]
    ensures Stamped(b, store, feed, m, now)
  {
    forall x | 0 <= x < |b.mappings| && x != r && b.mappings[x].store == store && FedBefore(feed, m, b.mappings[x].remoteId)
      ensures b.mappings[x].lastSynced == now
    {
      var i :| 0 <= i < m && feed[i].id == b.mappings[x].remoteId && b.mappings[x].remoteId != "";
      assert i != n by {
        assert b.mappings[Min(x, r)].store == b.mappings[Max(x, r)].store;
      }
      assert FedBefore(feed, n, a.mappings[x].remoteId);
    }
  }

  lemma UpsertGrowsRows(s: Session, store: int, item: FeedItem, pick: Pick, now: int)
    requires s.visible <= |s.shop.mappings| && Upsert(s, store, item, pick, now).Success?
    ensures RowsGrow(s.shop.mappings, Upsert(s, store, item, pick, now).value.shop.mappings)
  {
  }

  lemma StampedOneMore(a: Session, b: Session, store: int, feed: seq<FeedItem>, pick: Pick, now: int, n: nat)
    requires Sound(a.shop) && a.visible <= |a.shop.mappings| && 0 < n <= |feed|
    requires Upsert(a, store, feed[n - 1], pick, now) == Success(b)
    requires Stamped(a.shop, store, feed, n - 1, now) && OneToOne(b.shop.mappings)
    ensures Stamped(b.shop, store, feed, n, now)
  {
    if feed[n - 1].id != "" {
      var p, r := OneProduct(a, store, feed[n - 1], pick, now);
      StampedStep(a.shop, b.shop, store, feed, n - 1, n, now, r);
    } else {
      PassedOver(feed, n - 1, n);
    }
  }

  // The session before product n - 1 is one a sync can reach and commit.
  lemma OneProductBefore(s: Session, store: int, feed: seq<FeedItem>, picks: seq<Pick>, now: int, n: nat)
    requires Sound(s.shop) && Seen(s, store) && DistinctIds(feed) && 0 < n <= |feed| <= |picks|
    requires UpsertUpTo(s, store, feed, picks, now, n).Success?
    requires OneToOne(UpsertUpTo(s, store, feed, picks, now, n).value.shop.mappings)
    ensures var before := UpsertUpTo(s, store, feed, picks, now, n - 1);
            && before.Success? && Sound(before.value.shop) && OneToOne(before.value.shop.mappings)
            && UpsertUpTo(s, store, feed, picks, now, n) == Upsert(before.value, store, feed[n - 1], picks[n - 1], now)
  {
    FoldFacts(s, store, feed, picks, now, n - 1);
    var a := UpsertUpTo(s, store, feed, picks, now, n - 1).value;
    UpsertGrowsRows(a, store, feed[n - 1], picks[n - 1], now);
    OneToOneBackwards(a.shop.mappings, UpsertUpTo(s, store, feed, picks, now, n).value.shop.mappings);
  }

  lemma {:induction false} StampedUpTo(s: Session, store: int, feed: seq<FeedItem>, picks: seq<Pick>, now: int, n: nat)
    requires Sound(s.shop) && Seen(s, store) && DistinctIds(feed) && n <= |feed| <= |picks|
    requires UpsertUpTo(s, store, feed, picks, now, n).Success?
    requires OneToOne(UpsertUpTo(s, store, feed, picks, now, n).value.shop.mappings)
    ensures Stamped(UpsertUpTo(s, store, feed, picks, now, n).value.shop, store, feed, n, now)
  {
    if n > 0 {
      OneProductBefore(s, store, feed, picks, now, n);
      var a, b := UpsertUpTo(s, store, feed, picks, now, n - 1).value, UpsertUpTo(s, store, feed, picks, now, n).value;
      StampedUpTo(s, store, feed, picks, now, n - 1);
      StampedOneMore(a, b, store, feed, picks[n - 1], now, n);
    }
  }

  lemma PassedOver(feed: seq<FeedItem>, n: nat, m: nat)
    requires n < m == n + 1 <= |feed| && feed[n].id == ""
    ensures forall id :: FedBefore(feed, m, id) ==> FedBefore(feed, n, id)
  {
  }

  predicate IsRowOf(row: Mapping, store: int, item: FeedItem) {
    row.store == store && item.id != "" && row.remoteId == item.id
  }

  // After a committed sync every mapping row of a fed id says so with the time of the sync.
  lemma SyncStampsItsRows(s: Shop, store: int, feed: seq<FeedItem>, picks: seq<Pick>, now: int)
    requires Sound(s) && DistinctIds(feed) && |feed| <= |picks|
    requires Sync(s, store, feed, picks, now).Success?
    ensures var rows := Sync(s, store, feed, picks, now).value.mappings;
            forall x, i :: 0 <= x < |rows| && 0 <= i < |feed| && IsRowOf(rows[x], store, feed[i]) ==> rows[x].lastSynced == now
  {
    StampedUpTo(Opened(s), store, feed, picks, now, |feed|);
    var rows := Sync(s, store, feed, picks, now).value.mappings;
    forall x, i | 0 <= x < |rows| && 0 <= i < |feed| && IsRowOf(rows[x], store, feed[i])
      ensures rows[x].lastSynced == now
    {
      assert FedBefore(feed, |feed|, rows[x].remoteId);
    }
  }

  function WithId(feed: seq<FeedItem>, n: nat): set<nat>
    requires n <= |feed|
  {
    set i: nat | i < n && feed[i].id != ""
  }

  // The number a sync reports is that of the products with an id.
  lemma {:induction false} ReportsIdentified(feed: seq<FeedItem>, n: nat)
    requires n <= |feed|
    ensures Identified(feed, n) == |WithId(feed, n)|
  {
    if n > 0 {
      ReportsIdentified(feed, n - 1);
      assert WithId(feed, n) == if feed[n - 1].id != "" then WithId(feed, n - 1) + {n - 1} else WithId(feed, n - 1);
    }
  }
}
