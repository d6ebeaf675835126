// When a sync by request commits, told before it runs.
module SyncCommits {
  import opened Common
  import opened SyncModel
  import opened SyncTheorems

  // A sync of one feed, as it is called.
  datatype Call = Call(shop: Shop, store: int, feed: seq<FeedItem>, picks: seq<Pick>, now: int)

  ghost predicate Proper(c: Call) {
    Sound(c.shop) && DistinctIds(c.feed) && |c.feed| <= |c.picks|
  }

  function RowOf(c: Call, k: nat): Option<nat>
    requires k < |c.feed|
  {
    FindRow(c.shop.mappings, |c.shop.mappings|, c.store, c.feed[k].id)
  }

  predicate Unmapped(c: Call, k: nat)
    requires k < |c.feed|
  {
    c.feed[k].id != "" && RowOf(c, k).None?
  }

  // How many products the first n of the feed create: those that are unmapped and find none by sku.
  function Created(c: Call, n: nat): nat
    requires n <= |c.feed| <= |c.picks|
  {
    if n == 0 then 0
    else
      var before := Created(c, n - 1);
      before + if Unmapped(c, n - 1) && !Finds(c, n - 1, before) then 1 else 0
  }

  // The lookup of product k finds one of the store, an old one or one of the `created` new ones.
  predicate Finds(c: Call, k: nat, created: nat)
    requires k < |c.feed| <= |c.picks|
  {
    SkuOf(c.feed[k]).Some? && c.picks[k].Match? && InStoreBy(c, created, c.picks[k].product)
  }

  predicate InStoreBy(c: Call, created: nat, p: int) {
    InStore(c.shop, c.store, p) || c.shop.nextId <= p < c.shop.nextId + created
  }

  // Where product k of the feed goes.
  function Target(c: Call, k: nat): int
    requires k < |c.feed| <= |c.picks|
  {
    if RowOf(c, k).Some? then c.shop.mappings[RowOf(c, k).value].product
    else if Finds(c, k, Created(c, k)) then c.picks[k].product
    else c.shop.nextId + Created(c, k)
  }

  // ----- the condition -----

  // Product k can be read, and if it needs the lookup by sku that is not ambiguous.
  predicate Readable(c: Call, k: nat)
    requires k < |c.feed| <= |c.picks|
  {
    c.feed[k].id != "" ==>
      c.feed[k].parses && !(Unmapped(c, k) && SkuOf(c.feed[k]).Some? && c.picks[k].Ambiguous?)
  }

  // No mapping of the store leads to the product that unmapped k goes to.
  ghost predicate Untaken(c: Call, k: nat)
    requires k < |c.feed| <= |c.picks|
  {
    forall x :: 0 <= x < |c.shop.mappings| && c.shop.mappings[x].store == c.store ==> c.shop.mappings[x].product != Target(c, k)
  }

  // Every product can be read, the mapping is one-to-one, and the unmapped products go to products
  // that are neither mapped yet nor shared.
  ghost predicate Clear(c: Call)
    requires |c.feed| <= |c.picks|
  {
    && OneToOne(c.shop.mappings)
    && (forall k :: 0 <= k < |c.feed| ==> Readable(c, k))
    && (forall k :: 0 <= k < |c.feed| && Unmapped(c, k) ==> Untaken(c, k))
    && (forall j, k :: 0 <= j < k < |c.feed| && Unmapped(c, j) && Unmapped(c, k) ==> Target(c, j) != Target(c, k))
  }

  // ----- the session after n products -----

  // Row x was added for product k of the feed.
  ghost predicate RowFor(c: Call, done: Session, x: nat, k: nat)
    requires k < |c.feed| <= |c.picks|
  {
    && |c.shop.mappings| <= x < |done.shop.mappings| && Unmapped(c, k)
    && done.shop.mappings[x].remoteId == c.feed[k].id && done.shop.mappings[x].product == Target(c, k)
  }

  ghost predicate HasRow(c: Call, done: Session, k: nat)
    requires k < |c.feed| <= |c.picks|
  {
    exists x: nat :: RowFor(c, done, x, k)
  }

  ghost predicate IsRow(c: Call, n: nat, done: Session, x: nat)
    requires n <= |c.feed| <= |c.picks|
  {
    exists k: nat :: k < n && RowFor(c, done, x, k)
  }

  ghost predicate RowsForAll(c: Call, n: nat, done: Session)
    requires n <= |c.feed| <= |c.picks|
  {
    && (forall k: nat :: k < n && Unmapped(c, k) ==> HasRow(c, done, k))
    && (forall x: nat :: |c.shop.mappings| <= x < |done.shop.mappings| ==> IsRow(c, n, done, x))
  }

  ghost predicate NewIdsDiffer(c: Call, done: Session) {
    forall x, y :: |c.shop.mappings| <= x < y < |done.shop.mappings| ==>
      done.shop.mappings[x].remoteId != done.shop.mappings[y].remoteId
  }

  // A stock row waits to be flushed only for products the feed has gone to.
  ghost predicate PendingAreTargets(c: Call, n: nat, done: Session)
    requires n <= |c.feed| <= |c.picks|
  {
    && done.pendingStock <= done.shop.inventory.Keys
    && forall p :: p in done.pendingStock ==> exists k: nat :: k < n && c.feed[k].id != "" && Target(c, k) == p
  }

  ghost predicate SoFar(c: Call, n: nat, done: Session)
    requires n <= |c.feed| <= |c.picks|
  {
    && OnlyFedRows(Opened(c.shop), c.store, c.feed, n, done)
    && done.shop.nextId == c.shop.nextId + Created(c, n)
    && (forall p :: InStore(done.shop, c.store, p) <==> InStoreBy(c, Created(c, n), p))
    && RowsForAll(c, n, done) && NewIdsDiffer(c, done) && PendingAreTargets(c, n, done)
  }

  function After(c: Call, n: nat): Result<Session, Error>
    requires n <= |c.feed| <= |c.picks|
  {
    UpsertUpTo(Opened(c.shop), c.store, c.feed, c.picks, c.now, n)
  }

  function Step(c: Call, n: nat, done: Session): Result<Session, Error>
    requires n < |c.feed| <= |c.picks| && done.visible <= |done.shop.mappings|
  {
    Upsert(done, c.store, c.feed[n], c.picks[n], c.now)
  }

  // ----- one product -----

  lemma {:induction false} SameRows(a: seq<Mapping>, b: seq<Mapping>, n: nat, store: int, id: string)
    requires n <= |a| && RowsGrow(a, b)
    ensures FindRow(b, n, store, id) == FindRow(a, n, store, id)
  {
    if n > 0 {
      SameRows(a, b, n - 1, store, id);
    }
  }

  lemma RowIsSeen(c: Call, n: nat, done: Session)
    requires Proper(c) && n < |c.feed| && c.feed[n].id != "" && OnlyFedRows(Opened(c.shop), c.store, c.feed, n, done)
    ensures FindRow(done.shop.mappings, done.visible, c.store, c.feed[n].id) == RowOf(c, n)
  {
    var m := |c.shop.mappings|;
    forall i | m <= i < done.visible
      ensures done.shop.mappings[i].remoteId != c.feed[n].id
    {
      assert FedBefore(c.feed, n, done.shop.mappings[i].remoteId);
    }
    FindRowExtends(done.shop.mappings, m, done.visible, c.store, c.feed[n].id);
    SameRows(c.shop.mappings, done.shop.mappings, m, c.store, c.feed[n].id);
  }

  // Exactly what can stop product n.
  lemma StepOutcome(c: Call, n: nat, done: Session)
    requires Proper(c) && n < |c.feed| && c.feed[n].id != "" && SoFar(c, n, done)
    ensures Step(c, n, done).Success? <==> Readable(c, n) && Target(c, n) !in done.pendingStock
  {
    RowIsSeen(c, n, done);
    if RowOf(c, n).Some? {
      assert InStore(done.shop, c.store, done.shop.mappings[RowOf(c, n).value].product);
    }
  }

  // What a product that goes through leaves behind.
  ghost predicate Leaves(c: Call, n: nat, done: Session, next: Session)
    requires n < |c.feed| <= |c.picks|
  {
    && next.shop.nextId == c.shop.nextId + Created(c, n + 1)
    && (forall p :: InStore(next.shop, c.store, p) <==> InStoreBy(c, Created(c, n + 1), p))
    && next.pendingStock <= done.pendingStock + {Target(c, n)} && next.pendingStock <= next.shop.inventory.Keys
    && |next.shop.mappings| == |done.shop.mappings| + (if Unmapped(c, n) then 1 else 0)
    && (forall x :: 0 <= x < |done.shop.mappings| ==>
          next.shop.mappings[x].remoteId == done.shop.mappings[x].remoteId
          && next.shop.mappings[x].product == done.shop.mappings[x].product)
    && (Unmapped(c, n) ==> RowFor(c, next, |done.shop.mappings|, n))
  }

  lemma StepLeaves(c: Call, n: nat, done: Session)
    requires Proper(c) && n < |c.feed| && c.feed[n].id != "" && SoFar(c, n, done) && Step(c, n, done).Success?
    ensures Leaves(c, n, done, Step(c, n, done).value)
  {
    var next, p := Step(c, n, done).value, Target(c, n);
    RowIsSeen(c, n, done);
    if RowOf(c, n).Some? {
      assert InStore(done.shop, c.store, p);
      assert Created(c, n + 1) == Created(c, n);
    } else if Finds(c, n, Created(c, n)) {
      assert InStore(done.shop, c.store, p);
    } else {
      assert p == done.shop.nextId && !InStore(done.shop, c.store, p);
    }
    forall q
      ensures InStore(next.shop, c.store, q) <==> InStore(done.shop, c.store, q) || q == p
    {
    }
    forall q
      ensures InStore(next.shop, c.store, q) <==> InStoreBy(c, Created(c, n + 1), q)
    {
      assert InStore(done.shop, c.store, q) <==> InStoreBy(c, Created(c, n), q);
    }
  }

  lemma RowsStillFor(c: Call, n: nat, done: Session, next: Session)
    requires n < |c.feed| <= |c.picks| && RowsForAll(c, n, done) && Leaves(c, n, done, next)
    ensures RowsForAll(c, n + 1, next)
  {
    forall k: nat | k < n + 1 && Unmapped(c, k)
      ensures HasRow(c, next, k)
    {
      if k < n {
        var x: nat :| RowFor(c, done, x, k);
        assert RowFor(c, next, x, k);
      }
    }
    var m := n + 1;
    forall x: nat | |c.shop.mappings| <= x < |next.shop.mappings|
      ensures IsRow(c, m, next, x)
    {
      if x < |done.shop.mappings| {
        assert IsRow(c, n, done, x);
        var k: nat :| k < n && RowFor(c, done, x, k);
        assert RowFor(c, next, x, k);
      }
    }
  }

  lemma NewIdDiffers(c: Call, n: nat, done: Session, next: Session)
    requires Proper(c) && n < |c.feed| && c.feed[n].id != "" && NewIdsDiffer(c, done)
    requires OnlyFedRows(Opened(c.shop), c.store, c.feed, n, done)
    requires |done.shop.mappings| <= |next.shop.mappings| <= |done.shop.mappings| + 1
    requires forall x :: 0 <= x < |done.shop.mappings| ==> next.shop.mappings[x].remoteId == done.shop.mappings[x].remoteId
    requires |next.shop.mappings| > |done.shop.mappings| ==> next.shop.mappings[|done.shop.mappings|].remoteId == c.feed[n].id
    ensures NewIdsDiffer(c, next)
  {
    forall x, y | |c.shop.mappings| <= x < y < |next.shop.mappings|
      ensures next.shop.mappings[x].remoteId != next.shop.mappings[y].remoteId
    {
      assert FedBefore(c.feed, n, done.shop.mappings[x].remoteId);
    }
  }

  lemma PendingStillTargets(c: Call, n: nat, done: Session, next: Session)
    requires n < |c.feed| <= |c.picks| && c.feed[n].id != "" && PendingAreTargets(c, n, done)
    requires Leaves(c, n, done, next)
    ensures PendingAreTargets(c, n + 1, next)
  {
    forall p | p in next.pendingStock
      ensures exists k: nat :: k < n + 1 && c.feed[k].id != "" && Target(c, k) == p
    {
      if p != Target(c, n) {
        var k: nat :| k < n && c.feed[k].id != "" && Target(c, k) == p;
        assert k < n + 1;
      }
    }
  }

  lemma SoFarOneMore(c: Call, n: nat)
    requires Proper(c) && n < |c.feed| && After(c, n).Success? && SoFar(c, n, After(c, n).value) && After(c, n + 1).Success?
    ensures SoFar(c, n + 1, After(c, n + 1).value)
  {
    var done, next := After(c, n).value, After(c, n + 1).value;
    FoldFacts(Opened(c.shop), c.store, c.feed, c.picks, c.now, n + 1);
    if c.feed[n].id == "" {
      assert next == done && Created(c, n + 1) == Created(c, n);
      SkipOne(c, n, done);
    } else {
      StepLeaves(c, n, done);
      RowsStillFor(c, n, done, next);
      NewIdDiffers(c, n, done, next);
      PendingStillTargets(c, n, done, next);
    }
  }

  lemma PendingSkips(c: Call, n: nat, done: Session)
    requires n < |c.feed| <= |c.picks| && PendingAreTargets(c, n, done)
    ensures PendingAreTargets(c, n + 1, done)
  {
    forall p | p in done.pendingStock
      ensures exists k: nat :: k < n + 1 && c.feed[k].id != "" && Target(c, k) == p
    {
      var k: nat :| k < n && c.feed[k].id != "" && Target(c, k) == p;
      assert k < n + 1;
    }
  }

  lemma SkipOne(c: Call, n: nat, done: Session)
    requires n < |c.feed| <= |c.picks| && c.feed[n].id == "" && RowsForAll(c, n, done) && PendingAreTargets(c, n, done)
    ensures RowsForAll(c, n + 1, done) && PendingAreTargets(c, n + 1, done)
  {
    var m := n + 1;
    forall x: nat | |c.shop.mappings| <= x < |done.shop.mappings|
      ensures IsRow(c, m, done, x)
    {
      assert IsRow(c, n, done, x);
      var k: nat :| k < n && RowFor(c, done, x, k);
      assert k < n + 1;
    }
    PendingSkips(c, n, done);
  }

  lemma {:induction false} SoFarUpTo(c: Call, n: nat)
    requires Proper(c) && n <= |c.feed| && After(c, n).Success?
    ensures SoFar(c, n, After(c, n).value)
  {
    if n == 0 {
      assert After(c, 0).value == Opened(c.shop);
    } else {
      SoFarUpTo(c, n - 1);
      SoFarOneMore(c, n - 1);
    }
  }

  // ----- both directions -----

  lemma {:induction false} AllWereReadable(c: Call, n: nat)
    requires Proper(c) && n <= |c.feed| && After(c, n).Success?
    ensures forall k :: 0 <= k < n ==> Readable(c, k)
  {
    if n > 0 {
      AllWereReadable(c, n - 1);
      assert Readable(c, n - 1) by {
        if c.feed[n - 1].id != "" {
          SoFarUpTo(c, n - 1);
          StepOutcome(c, n - 1, After(c, n - 1).value);
        }
      }
    }
  }

  lemma RowTellsUntaken(c: Call, done: Session, k: nat)
    requires Proper(c) && SoFar(c, |c.feed|, done) && OneToOne(done.shop.mappings) && k < |c.feed| && Unmapped(c, k)
    ensures Untaken(c, k)
  {
    assert HasRow(c, done, k);
    var x: nat :| RowFor(c, done, x, k);
    forall y | 0 <= y < |c.shop.mappings| && c.shop.mappings[y].store == c.store
      ensures c.shop.mappings[y].product != Target(c, k)
    {
      assert done.shop.mappings[y].store == done.shop.mappings[x].store;
    }
  }

  lemma RowsTellApart(c: Call, done: Session, j: nat, k: nat)
    requires Proper(c) && SoFar(c, |c.feed|, done) && OneToOne(done.shop.mappings)
    requires j < k < |c.feed| && Unmapped(c, j) && Unmapped(c, k)
    ensures Target(c, j) != Target(c, k)
  {
    assert HasRow(c, done, j) && HasRow(c, done, k);
    var x: nat :| RowFor(c, done, x, j);
    var y: nat :| RowFor(c, done, y, k);
    RowsApart(done.shop.mappings, x, y, c.feed[j].id, c.feed[k].id);
  }

  lemma RowsApart(rows: seq<Mapping>, x: nat, y: nat, id: string, other: string)
    requires OneToOne(rows) && x < |rows| && y < |rows| && rows[x].store == rows[y].store
    requires rows[x].remoteId == id && rows[y].remoteId == other && id != other
    ensures rows[x].product != rows[y].product
  {
  }

  // Different products of the feed go to different products of the shop.
  lemma TargetsDiffer(c: Call, j: nat, k: nat)
    requires Proper(c) && Clear(c) && j < k < |c.feed| && c.feed[j].id != "" && c.feed[k].id != ""
    ensures Target(c, j) != Target(c, k)
  {
    if RowOf(c, j).Some? && RowOf(c, k).Some? {
      assert c.shop.mappings[RowOf(c, j).value].remoteId != c.shop.mappings[RowOf(c, k).value].remoteId;
    } else if RowOf(c, j).Some? {
      assert Untaken(c, k);
    } else if RowOf(c, k).Some? {
      assert Untaken(c, j);
    }
  }

  lemma TargetIsFree(c: Call, n: nat, done: Session)
    requires Proper(c) && Clear(c) && n < |c.feed| && c.feed[n].id != "" && PendingAreTargets(c, n, done)
    ensures Target(c, n) !in done.pendingStock
  {
    forall k: nat | k < n && c.feed[k].id != ""
      ensures Target(c, k) != Target(c, n)
    {
      TargetsDiffer(c, k, n);
    }
  }

  lemma {:induction false} ClearGoesThrough(c: Call, n: nat)
    requires Proper(c) && Clear(c) && n <= |c.feed|
    ensures After(c, n).Success?
  {
    if n > 0 {
      ClearGoesThrough(c, n - 1);
      SoFarUpTo(c, n - 1);
      var done := After(c, n - 1).value;
      if c.feed[n - 1].id != "" {
        TargetIsFree(c, n - 1, done);
        StepOutcome(c, n - 1, done);
      }
    }
  }

  lemma ClearKeepsApart(c: Call, done: Session, i: nat, j: nat)
    requires Proper(c) && Clear(c) && SoFar(c, |c.feed|, done)
    requires i < j < |done.shop.mappings| && done.shop.mappings[i].store == done.shop.mappings[j].store
    ensures done.shop.mappings[i].remoteId != done.shop.mappings[j].remoteId
    ensures done.shop.mappings[i].product != done.shop.mappings[j].product
  {
    var m := |c.shop.mappings|;
    if j < m {
      assert c.shop.mappings[i].store == c.shop.mappings[j].store;
    } else {
      assert IsRow(c, |c.feed|, done, j);
      var k: nat :| k < |c.feed| && RowFor(c, done, j, k);
      if i < m {
        assert Untaken(c, k) && c.shop.mappings[i].store == c.store;
      } else {
        assert IsRow(c, |c.feed|, done, i);
        var l: nat :| l < |c.feed| && RowFor(c, done, i, l);
        assert l != k;
      }
    }
  }

  // A sync by request commits if and only if the call is clear, which can be told before it runs
  // from the tables, the feed and what the lookups find.
  lemma CommitsIffClear(c: Call)
    requires Proper(c)
    ensures Sync(c.shop, c.store, c.feed, c.picks, c.now).Success? <==> Clear(c)
  {
    if After(c, |c.feed|).Success? {
      SoFarUpTo(c, |c.feed|);
      ReachedCommits(c, After(c, |c.feed|).value);
    } else if Clear(c) {
      ClearGoesThrough(c, |c.feed|);
    }
  }

  // Once every product went through, the unique keys of the mapping table decide.
  lemma ReachedCommits(c: Call, done: Session)
    requires Proper(c) && After(c, |c.feed|) == Success(done) && SoFar(c, |c.feed|, done)
    ensures OneToOne(done.shop.mappings) <==> Clear(c)
  {
    if OneToOne(done.shop.mappings) {
      OneToOneBackwards(c.shop.mappings, done.shop.mappings);
      AllWereReadable(c, |c.feed|);
      forall k: nat | k < |c.feed| && Unmapped(c, k)
        ensures Untaken(c, k)
      {
        RowTellsUntaken(c, done, k);
      }
      forall j: nat, k: nat | j < k < |c.feed| && Unmapped(c, j) && Unmapped(c, k)
        ensures Target(c, j) != Target(c, k)
      {
        RowsTellApart(c, done, j, k);
      }
    }
    if Clear(c) {
      forall i: nat, j: nat | i < j < |done.shop.mappings| && done.shop.mappings[i].store == done.shop.mappings[j].store
        ensures done.shop.mappings[i].remoteId != done.shop.mappings[j].remoteId
        ensures done.shop.mappings[i].product != done.shop.mappings[j].product
      {
        ClearKeepsApart(c, done, i, j);
      }
    }
  }
}
