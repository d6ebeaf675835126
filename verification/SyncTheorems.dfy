// What a committed sync achieves.
module SyncTheorems {
  import opened Common
  import opened SyncModel

  // Foreign keys and store agreement of the tables.
  ghost predicate Sound(s: Shop) {
    && (forall i :: 0 <= i < |s.mappings| ==> InStore(s, s.mappings[i].store, s.mappings[i].product))
    && (forall p :: p in s.inventory ==> p in s.products && s.inventory[p].store == s.products[p].store)
    && (forall p :: p in s.products ==> p < s.nextId)
  }

  ghost predicate DistinctIds(feed: seq<FeedItem>) {
    forall i, j :: 0 <= i < j < |feed| && feed[i].id != "" ==> feed[i].id != feed[j].id
  }

  // Row r carries the item, and its product is exactly what the feed says.
  ghost predicate Carries(s: Shop, store: int, item: FeedItem, r: nat) {
    && r < |s.mappings|
    && s.mappings[r].store == store && s.mappings[r].remoteId == item.id
    && s.mappings[r].barcode == item.barcode && s.mappings[r].sku == SkuOf(item)
    && InStore(s, store, s.mappings[r].product)
    && Agrees(s.products[s.mappings[r].product], item)
    && s.mappings[r].product in s.inventory
    && s.inventory[s.mappings[r].product] == Stock(store, item.quantity)
  }

  ghost predicate Agrees(product: Product, item: FeedItem) {
    && product.name == item.name && product.price == item.price && product.origin == Bero
    && (SkuOf(item).Some? ==> product.sku == SkuOf(item))
  }

  ghost predicate Reflected(s: Shop, store: int, item: FeedItem) {
    item.id == "" || exists r :: Carries(s, store, item, r)
  }

  // Rows keep what they map; only rows are added.
  ghost predicate RowsGrow(a: seq<Mapping>, b: seq<Mapping>) {
    && |a| <= |b|
    && forall i :: 0 <= i < |a| ==>
         b[i].store == a[i].store && b[i].product == a[i].product && b[i].remoteId == a[i].remoteId
  }

  lemma OneToOneBackwards(a: seq<Mapping>, b: seq<Mapping>)
    requires RowsGrow(a, b) && OneToOne(b)
    ensures OneToOne(a)
  {
  }

  lemma UpsertSound(s: Session, store: int, item: FeedItem, pick: Pick, now: int)
    requires Sound(s.shop) && s.visible <= |s.shop.mappings|
    requires Upsert(s, store, item, pick, now).Success?
    ensures Sound(Upsert(s, store, item, pick, now).value.shop)
  {
  }

  // The item was written to product p, which row r maps afterwards; nothing else changed.
  ghost predicate StepIs(a: Shop, b: Shop, store: int, item: FeedItem, p: int, r: nat) {
    && Sound(b) && RowsGrow(a.mappings, b.mappings)
    && Carries(b, store, item, r) && b.mappings[r].product == p
    && (p in a.products ==> a.products[p].store == store)
    && (forall i :: 0 <= i < |a.mappings| && i != r ==> b.mappings[i] == a.mappings[i])
    && r <= |a.mappings| && |b.mappings| == Max(|a.mappings|, r + 1)
    && (forall q :: q != p ==> (q in b.products <==> q in a.products) && (q in b.inventory <==> q in a.inventory))
    && (forall q :: q in a.products && q != p ==> b.products[q] == a.products[q])
    && (forall q :: q in a.inventory && q != p ==> b.inventory[q] == a.inventory[q])
  }

  lemma UpsertEffect(s: Session, store: int, item: FeedItem, pick: Pick, now: int) returns (p: int, r: nat)
    requires Sound(s.shop) && s.visible <= |s.shop.mappings| && item.id != ""
    requires FindRow(s.shop.mappings, |s.shop.mappings|, store, item.id)
             == FindRow(s.shop.mappings, s.visible, store, item.id)
    requires Upsert(s, store, item, pick, now).Success?
    ensures StepIs(s.shop, Upsert(s, store, item, pick, now).value.shop, store, item, p, r)
  {
    UpsertSound(s, store, item, pick, now);
    var row := FindRow(s.shop.mappings, s.visible, store, item.id);
    var found := Located(s.shop, store, item, row, pick).value;
    p := if found.Some? then found.value else s.shop.nextId;
    r := if row.Some? then row.value else |s.shop.mappings|;
  }

  // A visible mapping decides where a product of the feed goes: the lookup by sku has no say, no row
  // and no product is added, and nothing but a stock row waiting to be flushed can be in the way.
  lemma MappingDecides(s: Session, store: int, item: FeedItem, pick: Pick, now: int)
    requires Sound(s.shop) && s.visible <= |s.shop.mappings| && item.id != "" && item.parses
    requires FindRow(s.shop.mappings, s.visible, store, item.id).Some?
    ensures var p := s.shop.mappings[FindRow(s.shop.mappings, s.visible, store, item.id).value].product;
            var r := Upsert(s, store, item, pick, now);
            && (forall other :: Upsert(s, store, item, other, now) == r)
            && (r.Failure? <==> p in s.pendingStock) && (r.Failure? ==> r.error == IntegrityError)
            && (r.Success? ==>
                  && r.value.shop.products.Keys == s.shop.products.Keys && |r.value.shop.mappings| == |s.shop.mappings|
                  && Agrees(r.value.shop.products[p], item) && r.value.shop.inventory[p] == Stock(store, item.quantity))
  {
    var p := s.shop.mappings[FindRow(s.shop.mappings, s.visible, store, item.id).value].product;
    assert InStore(s.shop, store, p);
  }

  lemma {:induction false} FindRowExtends(rows: seq<Mapping>, m: nat, n: nat, store: int, id: string)
    requires m <= n <= |rows|
    requires forall i :: m <= i < n ==> !(rows[i].store == store && rows[i].remoteId == id)
    ensures FindRow(rows, n, store, id) == FindRow(rows, m, store, id)
  {
    if m < n {
      FindRowExtends(rows, m, n - 1, store, id);
    }
  }

  ghost predicate FedBefore(feed: seq<FeedItem>, n: nat, id: string)
    requires n <= |feed|
  {
    exists i :: 0 <= i < n && feed[i].id == id && id != ""
  }

  // A session can start a store's turn when its queries see all rows of that store.
  ghost predicate Seen(s: Session, store: int) {
    && s.visible <= |s.shop.mappings|
    && forall i :: s.visible <= i < |s.shop.mappings| ==> s.shop.mappings[i].store != store
  }

  // Rows added so far belong to the store and to ids fed so far, and rows that could be seen still
  // can.
  ghost predicate OnlyFedRows(s: Session, store: int, feed: seq<FeedItem>, n: nat, done: Session)
    requires n <= |feed|
  {
    && Sound(done.shop) && RowsGrow(s.shop.mappings, done.shop.mappings)
    && s.visible <= done.visible <= |done.shop.mappings|
    && (forall i :: |s.shop.mappings| <= i < |done.shop.mappings| ==>
          done.shop.mappings[i].store == store && FedBefore(feed, n, done.shop.mappings[i].remoteId))
  }

  lemma {:induction false} FoldFacts(s: Session, store: int, feed: seq<FeedItem>, picks: seq<Pick>, now: int, n: nat)
    requires Sound(s.shop) && Seen(s, store) && DistinctIds(feed) && n <= |feed| <= |picks|
    requires UpsertUpTo(s, store, feed, picks, now, n).Success?
    ensures OnlyFedRows(s, store, feed, n, UpsertUpTo(s, store, feed, picks, now, n).value)
  {
    if n > 0 {
      FoldFacts(s, store, feed, picks, now, n - 1);
      if feed[n - 1].id != "" {
        var p, r := StepEffect(s, store, feed, picks, now, n);
        var before, done := UpsertUpTo(s, store, feed, picks, now, n - 1).value, UpsertUpTo(s, store, feed, picks, now, n).value;
        forall i | |s.shop.mappings| <= i < |done.shop.mappings|
          ensures done.shop.mappings[i].store == store && FedBefore(feed, n, done.shop.mappings[i].remoteId)
        {
          if i < |before.shop.mappings| {
            assert FedBefore(feed, n - 1, before.shop.mappings[i].remoteId);
          } else {
            assert i == r && done.shop.mappings[r].remoteId == feed[n - 1].id;
          }
        }
      } else {
        assert forall id :: FedBefore(feed, n - 1, id) ==> FedBefore(feed, n, id);
      }
    }
  }

  // The effect of item n - 1, in a feed with distinct ids.
  lemma StepEffect(s: Session, store: int, feed: seq<FeedItem>, picks: seq<Pick>, now: int, n: nat)
    returns (p: int, r: nat)
    requires Seen(s, store) && 0 < n <= |feed| <= |picks| && DistinctIds(feed) && feed[n - 1].id != ""
    requires UpsertUpTo(s, store, feed, picks, now, n).Success?
    requires OnlyFedRows(s, store, feed, n - 1, UpsertUpTo(s, store, feed, picks, now, n - 1).value)
    ensures StepIs(UpsertUpTo(s, store, feed, picks, now, n - 1).value.shop,
                   UpsertUpTo(s, store, feed, picks, now, n).value.shop, store, feed[n - 1], p, r)
    ensures UpsertUpTo(s, store, feed, picks, now, n).value.visible >= s.visible
  {
    var before := UpsertUpTo(s, store, feed, picks, now, n - 1).value;
    forall i | before.visible <= i < |before.shop.mappings|
      ensures !(before.shop.mappings[i].store == store && before.shop.mappings[i].remoteId == feed[n - 1].id)
    {
      if i >= |s.shop.mappings| {
        assert FedBefore(feed, n - 1, before.shop.mappings[i].remoteId);
      }
    }
    FindRowExtends(before.shop.mappings, before.visible, |before.shop.mappings|, store, feed[n - 1].id);
    p, r := UpsertEffect(before, store, feed[n - 1], picks[n - 1], now);
  }

  // A sync that must take all products and a turn that keeps those before an exception agree.
  ghost predicate SameProgress(s: Session, turn: Turn, now: int, n: nat, end: Progress)
    requires IsTurn(turn) && n <= |turn.feed| && s.visible <= |s.shop.mappings|
  {
    && end.session.visible <= |end.session.shop.mappings| && end.through <= n && end.synced == Identified(turn.feed, end.through)
    && UpsertUpTo(s, turn.store, turn.feed, turn.picks, now, end.through) == Success(end.session)
    && (end.error.None? ==> end.through == n)
    && (end.error.Some? ==>
          && end.through < n && UpsertUpTo(s, turn.store, turn.feed, turn.picks, now, n) == Failure(end.error.value)
          && Upsert(end.session, turn.store, turn.feed[end.through], turn.picks[end.through], now) == Failure(end.error.value))
  }

  lemma SameProgressStep(s: Session, turn: Turn, now: int, n: nat, before: Progress, end: Progress)
    requires IsTurn(turn) && n < |turn.feed| && s.visible <= |s.shop.mappings| && SameProgress(s, turn, now, n, before)
    requires before.error.Some? ==> end == before
    requires before.error.None? ==>
               match Upsert(before.session, turn.store, turn.feed[n], turn.picks[n], now)
               case Success(next) => end == Progress(next, n + 1, before.synced + if turn.feed[n].id != "" then 1 else 0, None)
               case Failure(error) => end == before.(error := Some(error))
    ensures SameProgress(s, turn, now, n + 1, end)
  {
  }

  lemma {:induction false} ProgressIs(s: Session, turn: Turn, now: int, n: nat)
    requires IsTurn(turn) && n <= |turn.feed| && s.visible <= |s.shop.mappings|
    ensures SameProgress(s, turn, now, n, Progressed(s, turn, now, n))
  {
    if n > 0 {
      ProgressIs(s, turn, now, n - 1);
      SameProgressStep(s, turn, now, n - 1, Progressed(s, turn, now, n - 1), Progressed(s, turn, now, n));
    }
  }

  // ----- what is in the tables afterwards -----

  lemma StepKeepsOthers(a: Shop, b: Shop, store: int, item: FeedItem, p: int, r: nat, other: FeedItem)
    requires StepIs(a, b, store, item, p, r) && OneToOne(b.mappings)
    requires other.id != item.id && Reflected(a, store, other)
    ensures Reflected(b, store, other)
  {
    if other.id != "" {
      var r': nat :| Carries(a, store, other, r');
      assert r' != r;
      assert b.mappings[r'].product != p;
      assert Carries(b, store, other, r');
    }
  }

  lemma {:induction false} FedIsReflected(s: Session, store: int, feed: seq<FeedItem>, picks: seq<Pick>, now: int, n: nat)
    requires Sound(s.shop) && Seen(s, store) && DistinctIds(feed) && n <= |feed| <= |picks|
    requires UpsertUpTo(s, store, feed, picks, now, n).Success?
    requires OneToOne(UpsertUpTo(s, store, feed, picks, now, n).value.shop.mappings)
    ensures forall i :: 0 <= i < n ==> Reflected(UpsertUpTo(s, store, feed, picks, now, n).value.shop, store, feed[i])
  {
    if n > 0 && feed[n - 1].id == "" {
      FedIsReflected(s, store, feed, picks, now, n - 1);
    } else if n > 0 {
      FoldFacts(s, store, feed, picks, now, n - 1);
      var p, r := StepEffect(s, store, feed, picks, now, n);
      var a, b := UpsertUpTo(s, store, feed, picks, now, n - 1).value.shop, UpsertUpTo(s, store, feed, picks, now, n).value.shop;
      OneToOneBackwards(a.mappings, b.mappings);
      FedIsReflected(s, store, feed, picks, now, n - 1);
      StepReflects(a, b, store, feed, n, p, r);
    }
  }

  lemma StepReflects(a: Shop, b: Shop, store: int, feed: seq<FeedItem>, n: nat, p: int, r: nat)
    requires 0 < n <= |feed| && DistinctIds(feed) && feed[n - 1].id != ""
    requires StepIs(a, b, store, feed[n - 1], p, r) && OneToOne(b.mappings)
    requires forall i :: 0 <= i < n - 1 ==> Reflected(a, store, feed[i])
    ensures forall i :: 0 <= i < n ==> Reflected(b, store, feed[i])
  {
    forall i | 0 <= i < n - 1
      ensures Reflected(b, store, feed[i])
    {
      StepKeepsOthers(a, b, store, feed[n - 1], p, r, feed[i]);
    }
  }

  // Some row of the store maps q to one of the first n ids.
  ghost predicate Touched(s: Shop, store: int, feed: seq<FeedItem>, n: nat, q: int)
    requires n <= |feed|
  {
    exists r :: 0 <= r < |s.mappings| && s.mappings[r].store == store && s.mappings[r].product == q
                && FedBefore(feed, n, s.mappings[r].remoteId)
  }

  ghost predicate SameProduct(a: Shop, b: Shop, q: int) {
    && (q in a.products <==> q in b.products) && (q in a.inventory <==> q in b.inventory)
    && (q in a.products ==> b.products[q] == a.products[q])
    && (q in a.inventory ==> b.inventory[q] == a.inventory[q])
  }

  // A product that a step touches, or that was touched before it, is touched afterwards.
  lemma TouchedGrows(a: Shop, b: Shop, store: int, feed: seq<FeedItem>, n: nat, q: int)
    requires n < |feed| && RowsGrow(a.mappings, b.mappings)
    requires Touched(a, store, feed, n, q)
    ensures Touched(b, store, feed, n + 1, q)
  {
    var x :| 0 <= x < |a.mappings| && a.mappings[x].store == store && a.mappings[x].product == q
             && FedBefore(feed, n, a.mappings[x].remoteId);
    assert FedBefore(feed, n + 1, b.mappings[x].remoteId);
  }

  lemma StepTouches(a: Shop, b: Shop, store: int, feed: seq<FeedItem>, n: nat, p: int, r: nat)
    requires n < |feed| && feed[n].id != "" && StepIs(a, b, store, feed[n], p, r)
    ensures Touched(b, store, feed, n + 1, p)
  {
    assert FedBefore(feed, n + 1, b.mappings[r].remoteId);
  }

  lemma {:induction false} UntouchedStays(
    s: Session, store: int, feed: seq<FeedItem>, picks: seq<Pick>, now: int, n: nat, q: int)
    requires Sound(s.shop) && Seen(s, store) && DistinctIds(feed) && n <= |feed| <= |picks|
    requires UpsertUpTo(s, store, feed, picks, now, n).Success?
    requires !Touched(UpsertUpTo(s, store, feed, picks, now, n).value.shop, store, feed, n, q)
    ensures SameProduct(s.shop, UpsertUpTo(s, store, feed, picks, now, n).value.shop, q)
  {
    if n > 0 {
      FoldFacts(s, store, feed, picks, now, n - 1);
      var a, b := UpsertUpTo(s, store, feed, picks, now, n - 1).value.shop, UpsertUpTo(s, store, feed, picks, now, n).value.shop;
      if feed[n - 1].id != "" {
        var p, r := StepEffect(s, store, feed, picks, now, n);
        StepTouches(a, b, store, feed, n - 1, p, r);
        assert SameProduct(a, b, q);
      }
      if Touched(a, store, feed, n - 1, q) {
        TouchedGrows(a, b, store, feed, n - 1, q);
      }
      UntouchedStays(s, store, feed, picks, now, n - 1, q);
    }
  }

  lemma {:induction false} OtherRowsStay(
    s: Session, store: int, feed: seq<FeedItem>, picks: seq<Pick>, now: int, n: nat, x: nat)
    requires Sound(s.shop) && Seen(s, store) && DistinctIds(feed) && n <= |feed| <= |picks|
    requires UpsertUpTo(s, store, feed, picks, now, n).Success?
    requires x < |s.shop.mappings| && !(s.shop.mappings[x].store == store && FedBefore(feed, n, s.shop.mappings[x].remoteId))
    ensures x < |UpsertUpTo(s, store, feed, picks, now, n).value.shop.mappings|
    ensures UpsertUpTo(s, store, feed, picks, now, n).value.shop.mappings[x] == s.shop.mappings[x]
  {
    if n > 0 {
      FoldFacts(s, store, feed, picks, now, n - 1);
      OtherRowsStay(s, store, feed, picks, now, n - 1, x);
      if feed[n - 1].id != "" {
        var p, r := StepEffect(s, store, feed, picks, now, n);
        assert FedBefore(feed, n, feed[n - 1].id);
      }
    }
  }

  // What the first n products of a feed did to the tables: the mapping rows are still those of
  // before plus one-to-one rows of the store for fed ids, the product of every fed id has the
  // feed's name, price and quantity, and every other product and mapping is as it was.
  ghost predicate Brought(s: Shop, s': Shop, store: int, feed: seq<FeedItem>, n: nat)
    requires n <= |feed|
  {
    && Sound(s') && RowsGrow(s.mappings, s'.mappings)
    && (forall i :: 0 <= i < n ==> Reflected(s', store, feed[i]))
    && (forall q :: !Touched(s', store, feed, n, q) ==> SameProduct(s, s', q))
    && (forall x :: 0 <= x < |s.mappings| && !(s.mappings[x].store == store && FedBefore(feed, n, s.mappings[x].remoteId)) ==>
          s'.mappings[x] == s.mappings[x])
    && (forall x :: |s.mappings| <= x < |s'.mappings| ==>
          s'.mappings[x].store == store && FedBefore(feed, n, s'.mappings[x].remoteId))
  }

  lemma FoldBrings(s: Session, store: int, feed: seq<FeedItem>, picks: seq<Pick>, now: int, n: nat)
    requires Sound(s.shop) && Seen(s, store) && DistinctIds(feed) && n <= |feed| <= |picks|
    requires UpsertUpTo(s, store, feed, picks, now, n).Success?
    requires OneToOne(UpsertUpTo(s, store, feed, picks, now, n).value.shop.mappings)
    ensures Brought(s.shop, UpsertUpTo(s, store, feed, picks, now, n).value.shop, store, feed, n)
  {
    FoldFacts(s, store, feed, picks, now, n);
    FedIsReflected(s, store, feed, picks, now, n);
    var s' := UpsertUpTo(s, store, feed, picks, now, n).value.shop;
    forall q | !Touched(s', store, feed, n, q)
      ensures SameProduct(s.shop, s', q)
    {
      UntouchedStays(s, store, feed, picks, now, n, q);
    }
    forall x | 0 <= x < |s.shop.mappings| && !(s.shop.mappings[x].store == store && FedBefore(feed, n, s.shop.mappings[x].remoteId))
      ensures s'.mappings[x] == s.shop.mappings[x]
    {
      OtherRowsStay(s, store, feed, picks, now, n, x);
    }
  }

  // A committed sync keeps the mapping one-to-one and brings in the whole feed and nothing else,
  // whatever the sku lookups came back with.
  lemma CommittedSync(s: Shop, store: int, feed: seq<FeedItem>, picks: seq<Pick>, now: int)
    requires Sound(s) && DistinctIds(feed) && |feed| <= |picks|
    requires Sync(s, store, feed, picks, now).Success?
    ensures OneToOne(Sync(s, store, feed, picks, now).value.mappings)
    ensures Brought(s, Sync(s, store, feed, picks, now).value, store, feed, |feed|)
  {
    FoldBrings(Opened(s), store, feed, picks, now, |feed|);
  }

  // ----- a feed whose products all parse and are all mapped -----

  ghost predicate AllMapped(s: Shop, store: int, feed: seq<FeedItem>) {
    forall i :: 0 <= i < |feed| && feed[i].id != "" ==>
      feed[i].parses && FindRow(s.mappings, |s.mappings|, store, feed[i].id).Some?
  }

  // After n products of such a feed: no row or product was added, and a stock row waits to be
  // flushed only for products already fed.
  ghost predicate NothingAdded(s: Shop, store: int, feed: seq<FeedItem>, n: nat, done: Session)
    requires n <= |feed|
  {
    && Sound(done.shop) && RowsGrow(s.mappings, done.shop.mappings)
    && done.visible == |done.shop.mappings| == |s.mappings|
    && done.shop.products.Keys == s.products.Keys
    && forall p :: p in done.pendingStock ==> Touched(s, store, feed, n, p)
  }

  lemma NextProductIsFree(s: Shop, store: int, feed: seq<FeedItem>, n: nat, done: Session)
    requires Sound(s) && OneToOne(s.mappings) && DistinctIds(feed) && n < |feed| && feed[n].id != ""
    requires AllMapped(s, store, feed) && NothingAdded(s, store, feed, n, done)
    ensures var row := FindRow(done.shop.mappings, done.visible, store, feed[n].id);
            row.Some? && done.shop.mappings[row.value].product !in done.pendingStock
            && Touched(s, store, feed, n + 1, done.shop.mappings[row.value].product)
  {
    var x := FindRow(s.mappings, |s.mappings|, store, feed[n].id).value;
    assert done.shop.mappings[x].store == store && done.shop.mappings[x].remoteId == feed[n].id;
    var row := FindRow(done.shop.mappings, done.visible, store, feed[n].id);
    assert row.Some? && s.mappings[row.value].remoteId == feed[n].id;
    var p := done.shop.mappings[row.value].product;
    assert FedBefore(feed, n + 1, s.mappings[row.value].remoteId);
    forall y | 0 <= y < |s.mappings| && s.mappings[y].store == store && s.mappings[y].product == p
      ensures !FedBefore(feed, n, s.mappings[y].remoteId)
    {
      assert y == row.value;
    }
    assert !Touched(s, store, feed, n, p);
  }

  lemma TouchedMore(s: Shop, store: int, feed: seq<FeedItem>, n: nat, p: int)
    requires n < |feed| && Touched(s, store, feed, n, p)
    ensures Touched(s, store, feed, n + 1, p)
  {
    TouchedGrows(s, s, store, feed, n, p);
  }

  lemma MappedStep(s: Shop, store: int, feed: seq<FeedItem>, n: nat, done: Session, pick: Pick, pick': Pick, now: int)
    requires Sound(s) && OneToOne(s.mappings) && DistinctIds(feed) && 0 < n <= |feed|
    requires AllMapped(s, store, feed) && NothingAdded(s, store, feed, n - 1, done)
    ensures var r := Upsert(done, store, feed[n - 1], pick, now);
            r.Success? && NothingAdded(s, store, feed, n, r.value) && Upsert(done, store, feed[n - 1], pick', now) == r
  {
    forall p | p in done.pendingStock
      ensures Touched(s, store, feed, n, p)
    {
      TouchedMore(s, store, feed, n - 1, p);
    }
    if feed[n - 1].id != "" {
      NextProductIsFree(s, store, feed, n - 1, done);
      MappingDecides(done, store, feed[n - 1], pick, now);
      UpsertSound(done, store, feed[n - 1], pick, now);
    }
  }

  lemma OneUpsertMore(s: Session, store: int, feed: seq<FeedItem>, picks: seq<Pick>, now: int, n: nat)
    requires 0 < n <= |feed| <= |picks| && s.visible <= |s.shop.mappings|
    requires UpsertUpTo(s, store, feed, picks, now, n - 1).Success?
    ensures UpsertUpTo(s, store, feed, picks, now, n)
            == Upsert(UpsertUpTo(s, store, feed, picks, now, n - 1).value, store, feed[n - 1], picks[n - 1], now)
  {
  }

  // Both lookups led to the same session, without adding anything.
  ghost predicate SameSoFar(s: Shop, store: int, feed: seq<FeedItem>, picks: seq<Pick>, picks': seq<Pick>, now: int, n: nat)
    requires n <= |feed| <= |picks| && |feed| <= |picks'|
  {
    var r := UpsertUpTo(Opened(s), store, feed, picks, now, n);
    r.Success? && NothingAdded(s, store, feed, n, r.value) && UpsertUpTo(Opened(s), store, feed, picks', now, n) == r
  }

  lemma SameOneMore(s: Shop, store: int, feed: seq<FeedItem>, picks: seq<Pick>, picks': seq<Pick>, now: int, n: nat)
    requires Sound(s) && OneToOne(s.mappings) && DistinctIds(feed) && AllMapped(s, store, feed)
    requires 0 < n <= |feed| <= |picks| && |feed| <= |picks'| && SameSoFar(s, store, feed, picks, picks', now, n - 1)
    ensures SameSoFar(s, store, feed, picks, picks', now, n)
  {
    var before := UpsertUpTo(Opened(s), store, feed, picks, now, n - 1).value;
    MappedStep(s, store, feed, n, before, picks[n - 1], picks'[n - 1], now);
    OneUpsertMore(Opened(s), store, feed, picks, now, n);
    OneUpsertMore(Opened(s), store, feed, picks', now, n);
  }

  lemma {:induction false} MappedFeed(
    s: Shop, store: int, feed: seq<FeedItem>, picks: seq<Pick>, picks': seq<Pick>, now: int, n: nat)
    requires Sound(s) && OneToOne(s.mappings) && DistinctIds(feed) && AllMapped(s, store, feed)
    requires n <= |feed| <= |picks| && |feed| <= |picks'|
    ensures SameSoFar(s, store, feed, picks, picks', now, n)
  {
    if n > 0 {
      MappedFeed(s, store, feed, picks, picks', now, n - 1);
      SameOneMore(s, store, feed, picks, picks', now, n);
    }
  }

  // When every product of the feed parses and is mapped, what the lookups by sku would find makes no difference: the
  // sync commits, to the same tables, and adds no row and no product.
  lemma MappedFeedIgnoresLookups(s: Shop, store: int, feed: seq<FeedItem>, picks: seq<Pick>, picks': seq<Pick>, now: int)
    requires Sound(s) && OneToOne(s.mappings) && DistinctIds(feed) && AllMapped(s, store, feed)
    requires |feed| <= |picks| && |feed| <= |picks'|
    ensures var r := Sync(s, store, feed, picks, now);
            && r.Success? && Sync(s, store, feed, picks', now) == r
            && |r.value.mappings| == |s.mappings| && r.value.products.Keys == s.products.Keys
  {
    MappedFeed(s, store, feed, picks, picks', now, |feed|);
    var rows := UpsertUpTo(Opened(s), store, feed, picks, now, |feed|).value.shop.mappings;
    forall i, j | 0 <= i < j < |rows| && rows[i].store == rows[j].store
      ensures rows[i].remoteId != rows[j].remoteId && rows[i].product != rows[j].product
    {
      assert s.mappings[i].store == s.mappings[j].store;
    }
  }

  // ----- repeating a feed -----

  function Untimed(row: Mapping): Mapping {
    row.(lastSynced := 0)
  }

  // The same tables up to the time of the last sync.
  ghost predicate SameButTimes(a: Shop, b: Shop) {
    && b.products == a.products && b.inventory == a.inventory && b.nextId == a.nextId
    && |b.mappings| == |a.mappings|
    && forall i :: 0 <= i < |a.mappings| ==> Untimed(b.mappings[i]) == Untimed(a.mappings[i])
  }

  ghost predicate AllParse(feed: seq<FeedItem>, n: nat)
    requires n <= |feed|
  {
    forall i :: 0 <= i < n && feed[i].id != "" ==> feed[i].parses
  }

  lemma {:induction false} BroughtParses(s: Session, store: int, feed: seq<FeedItem>, picks: seq<Pick>, now: int, n: nat)
    requires n <= |feed| <= |picks| && s.visible <= |s.shop.mappings|
    requires UpsertUpTo(s, store, feed, picks, now, n).Success?
    ensures AllParse(feed, n)
  {
    if n > 0 {
      BroughtParses(s, store, feed, picks, now, n - 1);
    }
  }

  lemma RepeatStep(s: Shop, t: Session, store: int, item: FeedItem, pick: Pick, now: int)
    requires OneToOne(s.mappings) && Reflected(s, store, item) && (item.id != "" ==> item.parses)
    requires SameButTimes(s, t.shop) && t.visible == |s.mappings| && t.pendingStock == {}
    ensures Upsert(t, store, item, pick, now).Success?
    ensures SameButTimes(s, Upsert(t, store, item, pick, now).value.shop)
    ensures Upsert(t, store, item, pick, now).value.visible == |s.mappings|
    ensures Upsert(t, store, item, pick, now).value.pendingStock == {}
  {
    if item.id != "" {
      var r: nat :| Carries(s, store, item, r);
      var row := FindRow(t.shop.mappings, t.visible, store, item.id);
      assert Untimed(t.shop.mappings[r]) == Untimed(s.mappings[r]);
      assert row.Some? && Untimed(t.shop.mappings[row.value]) == Untimed(s.mappings[row.value]);
      assert row.value == r;
      var p := s.mappings[r].product;
      assert Overwritten(t.shop.products[p], item) == t.shop.products[p];
    }
  }

  lemma {:induction false} RepeatUpTo(s: Shop, store: int, feed: seq<FeedItem>, picks: seq<Pick>, now: int, n: nat)
    requires n <= |feed| <= |picks| && OneToOne(s.mappings) && AllParse(feed, |feed|)
    requires forall i :: 0 <= i < |feed| ==> Reflected(s, store, feed[i])
    ensures UpsertUpTo(Opened(s), store, feed, picks, now, n).Success?
    ensures SameButTimes(s, UpsertUpTo(Opened(s), store, feed, picks, now, n).value.shop)
    ensures UpsertUpTo(Opened(s), store, feed, picks, now, n).value.visible == |s.mappings|
    ensures UpsertUpTo(Opened(s), store, feed, picks, now, n).value.pendingStock == {}
  {
    if n > 0 {
      RepeatUpTo(s, store, feed, picks, now, n - 1);
      RepeatStep(s, UpsertUpTo(Opened(s), store, feed, picks, now, n - 1).value, store, feed[n - 1], picks[n - 1], now);
    }
  }

  // Syncing the same feed again commits, creates no row and changes nothing but timestamps,
  // whatever the sku lookups come back with either time.
  lemma SyncIsIdempotent(
    s: Shop, store: int, feed: seq<FeedItem>, picks: seq<Pick>, now: int, picks': seq<Pick>, now': int)
    requires Sound(s) && DistinctIds(feed) && |feed| <= |picks| && |feed| <= |picks'|
    requires Sync(s, store, feed, picks, now).Success?
    ensures Sync(Sync(s, store, feed, picks, now).value, store, feed, picks', now').Success?
    ensures SameButTimes(Sync(s, store, feed, picks, now).value,
                         Sync(Sync(s, store, feed, picks, now).value, store, feed, picks', now').value)
  {
    CommittedSync(s, store, feed, picks, now);
    BroughtParses(Opened(s), store, feed, picks, now, |feed|);
    var s1 := Sync(s, store, feed, picks, now).value;
    RepeatUpTo(s1, store, feed, picks', now', |feed|);
    var s2 := UpsertUpTo(Opened(s1), store, feed, picks', now', |feed|).value.shop;
    assert OneToOne(s2.mappings) by {
      forall i, j | 0 <= i < j < |s2.mappings| && s2.mappings[i].store == s2.mappings[j].store
        ensures s2.mappings[i].remoteId != s2.mappings[j].remoteId && s2.mappings[i].product != s2.mappings[j].product
      {
        assert Untimed(s2.mappings[i]) == Untimed(s1.mappings[i]) && Untimed(s2.mappings[j]) == Untimed(s1.mappings[j]);
      }
    }
  }
}
