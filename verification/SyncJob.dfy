// What the background job's sync of all stores achieves, exceptions included.
module SyncJob {
  import opened Common
  import opened SyncModel
  import opened SyncTheorems

  // One turn per connected store, each with a feed of distinct ids.
  ghost predicate AreTurns(turns: seq<Turn>) {
    && (forall t :: 0 <= t < |turns| ==> IsTurn(turns[t]) && DistinctIds(turns[t].feed))
    && (forall t, u :: 0 <= t < u < |turns| ==> turns[t].store != turns[u].store)
  }

  // ----- one turn -----

  lemma TurnBrings(a: Session, turn: Turn, now: int)
    requires Sound(a.shop) && Seen(a, turn.store) && IsTurn(turn) && DistinctIds(turn.feed)
    requires OneToOne(Progressed(a, turn, now, |turn.feed|).session.shop.mappings)
    ensures var end := Progressed(a, turn, now, |turn.feed|);
            Brought(a.shop, end.session.shop, turn.store, turn.feed, end.through) && a.visible <= end.session.visible
  {
    ProgressIs(a, turn, now, |turn.feed|);
    var k := Progressed(a, turn, now, |turn.feed|).through;
    FoldFacts(a, turn.store, turn.feed, turn.picks, now, k);
    FoldBrings(a, turn.store, turn.feed, turn.picks, now, k);
  }

  // Unless a key of the stock table was broken, only a product that cannot be parsed or an ambiguous
  // lookup by sku can stop a turn.
  ghost predicate WellStopped(turn: Turn, k: nat) {
    k < |turn.feed| ==>
      k < |turn.picks| && (!turn.feed[k].parses || (turn.picks[k].Ambiguous? && SkuOf(turn.feed[k]).Some?))
  }

  lemma WhatStops(a: Session, turn: Turn, now: int)
    requires IsTurn(turn) && a.visible <= |a.shop.mappings|
    requires Progressed(a, turn, now, |turn.feed|).error != Some(IntegrityError)
    ensures WellStopped(turn, Progressed(a, turn, now, |turn.feed|).through)
  {
    ProgressIs(a, turn, now, |turn.feed|);
  }

  lemma RowsGrowTransitive(a: seq<Mapping>, b: seq<Mapping>, c: seq<Mapping>)
    requires RowsGrow(a, b) && RowsGrow(b, c)
    ensures RowsGrow(a, c)
  {
  }

  // A turn of one store leaves what is known of another.
  lemma OtherStoreStays(a: Shop, b: Shop, turn: Turn, n: nat, other: int, item: FeedItem)
    requires n <= |turn.feed| && Brought(a, b, turn.store, turn.feed, n) && other != turn.store
    requires Reflected(a, other, item)
    ensures Reflected(b, other, item)
  {
    if item.id != "" {
      var r: nat :| Carries(a, other, item, r);
      assert b.mappings[r] == a.mappings[r];
      assert !Touched(b, turn.store, turn.feed, n, a.mappings[r].product);
      assert SameProduct(a, b, a.mappings[r].product);
      assert Carries(b, other, item, r);
    }
  }

  // ----- all turns -----

  // `got` products of each of the first turns.
  ghost predicate Fits(turns: seq<Turn>, got: seq<nat>) {
    |got| <= |turns| && forall t {:trigger got[t]} :: 0 <= t < |got| ==> got[t] <= |turns[t].feed|
  }

  // Store by store what got through is in the tables, and nothing else changed.
  ghost predicate BroughtAll(s: Shop, turns: seq<Turn>, got: seq<nat>, s': Shop) {
    && Fits(turns, got) && Sound(s') && RowsGrow(s.mappings, s'.mappings)
    && (forall t, i :: 0 <= t < |got| && 0 <= i < got[t] ==> Reflected(s', turns[t].store, turns[t].feed[i]))
    && (forall q :: !TouchedByAny(turns, got, s', q) ==> SameProduct(s, s', q))
    && (forall x :: 0 <= x < |s.mappings| && !FedByAny(turns, got, s.mappings[x]) ==> s'.mappings[x] == s.mappings[x])
    && (forall x :: |s.mappings| <= x < |s'.mappings| ==> FedByAny(turns, got, s'.mappings[x]))
  }

  ghost predicate TouchedByAny(turns: seq<Turn>, got: seq<nat>, s': Shop, q: int)
    requires Fits(turns, got)
  {
    exists t {:trigger got[t]} :: 0 <= t < |got| && Touched(s', turns[t].store, turns[t].feed, got[t], q)
  }

  ghost predicate FedByAny(turns: seq<Turn>, got: seq<nat>, row: Mapping)
    requires Fits(turns, got)
  {
    exists t {:trigger got[t]} :: 0 <= t < |got| && row.store == turns[t].store && FedBefore(turns[t].feed, got[t], row.remoteId)
  }

  // No turn was stopped by anything else.
  ghost predicate AllWellStopped(turns: seq<Turn>, got: seq<nat>)
    requires |got| <= |turns|
  {
    forall t {:trigger got[t]} :: 0 <= t < |got| ==> WellStopped(turns[t], got[t])
  }

  lemma TouchedStays(a: Shop, b: Shop, store: int, feed: seq<FeedItem>, n: nat, q: int)
    requires n <= |feed| && RowsGrow(a.mappings, b.mappings) && Touched(a, store, feed, n, q)
    ensures Touched(b, store, feed, n, q)
  {
    var x :| 0 <= x < |a.mappings| && a.mappings[x].store == store && a.mappings[x].product == q
             && FedBefore(feed, n, a.mappings[x].remoteId);
    assert b.mappings[x].store == store && b.mappings[x].product == q;
  }

  lemma SameProductTransitive(a: Shop, b: Shop, c: Shop, q: int)
    requires SameProduct(a, b, q) && SameProduct(b, c, q)
    ensures SameProduct(a, c, q)
  {
  }

  // What is told of one more turn: k products of the next store.
  ghost predicate OneMore(turns: seq<Turn>, got: seq<nat>, k: nat, a: Shop, b: Shop) {
    && |got| < |turns| && k <= |turns[|got|].feed| && Fits(turns, got) && Fits(turns, got + [k])
    && Brought(a, b, turns[|got|].store, turns[|got|].feed, k)
  }

  lemma StillReflected(s: Shop, turns: seq<Turn>, got: seq<nat>, k: nat, a: Shop, b: Shop, t: nat, i: nat)
    requires AreTurns(turns) && BroughtAll(s, turns, got, a) && OneMore(turns, got, k, a, b)
    requires t <= |got| && i < (got + [k])[t]
    ensures Reflected(b, turns[t].store, turns[t].feed[i])
  {
    if t < |got| {
      assert got[t] <= |turns[t].feed|;
      OtherStoreStays(a, b, turns[|got|], k, turns[t].store, turns[t].feed[i]);
    }
  }

  lemma UntouchedByMore(turns: seq<Turn>, got: seq<nat>, k: nat, a: Shop, b: Shop, q: int)
    requires OneMore(turns, got, k, a, b) && !TouchedByAny(turns, got + [k], b, q)
    ensures !TouchedByAny(turns, got, a, q) && !Touched(b, turns[|got|].store, turns[|got|].feed, k, q)
  {
    assert (got + [k])[|got|] == k;
    if TouchedByAny(turns, got, a, q) {
      var t :| 0 <= t < |got| && Touched(a, turns[t].store, turns[t].feed, got[t], q);
      assert (got + [k])[t] == got[t];
      TouchedStays(a, b, turns[t].store, turns[t].feed, got[t], q);
    }
  }

  lemma FedStays(turns: seq<Turn>, got: seq<nat>, k: nat, row: Mapping)
    requires Fits(turns, got) && Fits(turns, got + [k]) && FedByAny(turns, got, row)
    ensures FedByAny(turns, got + [k], row)
  {
    var t :| 0 <= t < |got| && row.store == turns[t].store && FedBefore(turns[t].feed, got[t], row.remoteId);
    assert (got + [k])[t] == got[t];
  }

  lemma UnfedRowStays(s: Shop, turns: seq<Turn>, got: seq<nat>, k: nat, a: Shop, b: Shop, x: nat)
    requires BroughtAll(s, turns, got, a) && OneMore(turns, got, k, a, b)
    requires x < |s.mappings| && !FedByAny(turns, got + [k], s.mappings[x])
    ensures b.mappings[x] == s.mappings[x]
  {
    if FedByAny(turns, got, s.mappings[x]) {
      FedStays(turns, got, k, s.mappings[x]);
    }
    assert (got + [k])[|got|] == k;
    assert a.mappings[x] == s.mappings[x];
  }

  lemma NewRowIsFed(s: Shop, turns: seq<Turn>, got: seq<nat>, k: nat, a: Shop, b: Shop, x: nat)
    requires BroughtAll(s, turns, got, a) && OneMore(turns, got, k, a, b)
    requires |s.mappings| <= x < |b.mappings|
    ensures FedByAny(turns, got + [k], b.mappings[x])
  {
    if x < |a.mappings| {
      FedStays(turns, got, k, a.mappings[x]);
      var t :| 0 <= t < |got| + 1 && a.mappings[x].store == turns[t].store
               && FedBefore(turns[t].feed, (got + [k])[t], a.mappings[x].remoteId);
      assert b.mappings[x].store == turns[t].store && b.mappings[x].remoteId == a.mappings[x].remoteId;
    } else {
      assert (got + [k])[|got|] == k;
    }
  }

  lemma OneMoreTurn(s: Shop, turns: seq<Turn>, got: seq<nat>, k: nat, a: Shop, b: Shop)
    requires AreTurns(turns) && BroughtAll(s, turns, got, a) && OneMore(turns, got, k, a, b)
    ensures BroughtAll(s, turns, got + [k], b)
  {
    RowsGrowTransitive(s.mappings, a.mappings, b.mappings);
    forall t, i | 0 <= t < |got + [k]| && 0 <= i < (got + [k])[t]
      ensures Reflected(b, turns[t].store, turns[t].feed[i])
    {
      StillReflected(s, turns, got, k, a, b, t, i);
    }
    forall q | !TouchedByAny(turns, got + [k], b, q)
      ensures SameProduct(s, b, q)
    {
      UntouchedByMore(turns, got, k, a, b, q);
      SameProductTransitive(s, a, b, q);
    }
    forall x | 0 <= x < |s.mappings| && !FedByAny(turns, got + [k], s.mappings[x])
      ensures b.mappings[x] == s.mappings[x]
    {
      UnfedRowStays(s, turns, got, k, a, b, x);
    }
    forall x | |s.mappings| <= x < |b.mappings|
      ensures FedByAny(turns, got + [k], b.mappings[x])
    {
      NewRowIsFed(s, turns, got, k, a, b, x);
    }
  }

  lemma {:induction false} FoldGrowsRows(a: Session, turn: Turn, now: int, n: nat)
    requires IsTurn(turn) && a.visible <= |a.shop.mappings| && n <= |turn.feed|
    requires UpsertUpTo(a, turn.store, turn.feed, turn.picks, now, n).Success?
    ensures RowsGrow(a.shop.mappings, UpsertUpTo(a, turn.store, turn.feed, turn.picks, now, n).value.shop.mappings)
  {
    if n > 0 {
      FoldGrowsRows(a, turn, now, n - 1);
      var before := UpsertUpTo(a, turn.store, turn.feed, turn.picks, now, n - 1).value;
      var after := UpsertUpTo(a, turn.store, turn.feed, turn.picks, now, n).value;
      assert RowsGrow(before.shop.mappings, after.shop.mappings);
      RowsGrowTransitive(a.shop.mappings, before.shop.mappings, after.shop.mappings);
    }
  }

  // Rows only ever grow, whether or not they stay one-to-one.
  lemma TurnGrowsRows(a: Session, turn: Turn, now: int)
    requires IsTurn(turn) && a.visible <= |a.shop.mappings|
    ensures RowsGrow(a.shop.mappings, Progressed(a, turn, now, |turn.feed|).session.shop.mappings)
  {
    ProgressIs(a, turn, now, |turn.feed|);
    FoldGrowsRows(a, turn, now, Progressed(a, turn, now, |turn.feed|).through);
  }

  // ----- the job -----

  ghost predicate AllSeen(turns: seq<Turn>, n: nat, session: Session) {
    forall t :: n <= t < |turns| ==> Seen(session, turns[t].store)
  }

  // What holds of the job between two turns, if it can still commit.
  ghost predicate Going(s: Shop, turns: seq<Turn>, job: Job) {
    && BroughtAll(s, turns, job.got, job.session.shop)
    && AllWellStopped(turns, job.got) && AllSeen(turns, |job.got|, job.session)
  }

  predicate CanCommit(job: Job) {
    !job.broken && OneToOne(job.session.shop.mappings)
  }

  lemma CouldCommit(a: Job, turn: Turn, now: int)
    requires IsTurn(turn) && a.session.visible <= |a.session.shop.mappings| && CanCommit(AfterTurn(a, turn, now))
    ensures CanCommit(a)
  {
    TurnGrowsRows(a.session, turn, now);
    OneToOneBackwards(a.session.shop.mappings, AfterTurn(a, turn, now).session.shop.mappings);
  }

  lemma OthersStillSeen(a: Session, b: Session, turns: seq<Turn>, n: nat, k: nat)
    requires AreTurns(turns) && n < |turns| && k <= |turns[n].feed| && AllSeen(turns, n, a)
    requires Brought(a.shop, b.shop, turns[n].store, turns[n].feed, k)
    requires a.visible <= b.visible <= |b.shop.mappings|
    ensures AllSeen(turns, n + 1, b)
  {
    forall t | n + 1 <= t < |turns|
      ensures Seen(b, turns[t].store)
    {
      assert Seen(a, turns[t].store);
    }
  }

  lemma GoesOn(s: Shop, turns: seq<Turn>, now: int, a: Job)
    requires AreTurns(turns) && Going(s, turns, a) && |a.got| < |turns|
    requires Seen(a.session, turns[|a.got|].store) && CanCommit(AfterTurn(a, turns[|a.got|], now))
    ensures Going(s, turns, AfterTurn(a, turns[|a.got|], now))
  {
    var turn, n := turns[|a.got|], |a.got|;
    var end := Progressed(a.session, turn, now, |turn.feed|);
    TurnBrings(a.session, turn, now);
    WhatStops(a.session, turn, now);
    assert forall t :: 0 <= t < n ==> (a.got + [end.through])[t] == a.got[t];
    OneMoreTurn(s, turns, a.got, end.through, a.session.shop, end.session.shop);
    OthersStillSeen(a.session, end.session, turns, n, end.through);
  }

  lemma {:induction false} TurnsGo(s: Shop, turns: seq<Turn>, now: int, n: nat)
    requires Sound(s) && AreTurns(turns) && n <= |turns| && CanCommit(TurnsUpTo(s, turns, now, n))
    ensures |TurnsUpTo(s, turns, now, n).got| == n && Going(s, turns, TurnsUpTo(s, turns, now, n))
  {
    if n > 0 {
      var a := TurnsUpTo(s, turns, now, n - 1);
      CouldCommit(a, turns[n - 1], now);
      TurnsGo(s, turns, now, n - 1);
      GoesOn(s, turns, now, a);
    }
  }

  // What the job commits is, for every store, exactly the products before the one that stopped its
  // turn, if any did, and only one that cannot be parsed or has an ambiguous sku can have stopped it;
  // the mapping is one-to-one and all else is as it was.  One store's exception costs no other store anything.
  lemma CommittedJob(s: Shop, turns: seq<Turn>, now: int)
    requires Sound(s) && AreTurns(turns) && SyncAll(s, turns, now).Success?
    ensures var got := TurnsUpTo(s, turns, now, |turns|).got;
            && OneToOne(SyncAll(s, turns, now).value.mappings)
            && |got| == |turns| && AllWellStopped(turns, got)
            && BroughtAll(s, turns, got, SyncAll(s, turns, now).value)
  {
    TurnsGo(s, turns, now, |turns|);
  }

  // ----- the job against a sync by request -----

  lemma {:induction false} FirstProducts(s: Session, store: int, feed: seq<FeedItem>, picks: seq<Pick>, now: int, k: nat, n: nat)
    requires n <= k <= |feed| <= |picks| && s.visible <= |s.shop.mappings|
    ensures UpsertUpTo(s, store, feed[..k], picks, now, n) == UpsertUpTo(s, store, feed, picks, now, n)
  {
    if n > 0 {
      FirstProducts(s, store, feed, picks, now, k, n - 1);
    }
  }

  // With one connected store the job does what a sync by request does, except that a product which
  // cannot be parsed or has an ambiguous sku costs only the products from there on: the job then
  // does what the request would do with the products before.
  lemma JobOfOneStore(s: Shop, turn: Turn, now: int)
    requires IsTurn(turn)
    ensures var request := Sync(s, turn.store, turn.feed, turn.picks, now);
            var end := Progressed(Opened(s), turn, now, |turn.feed|);
            var k := end.through;
            && (request.Success? || request.error == IntegrityError ==> SyncAll(s, [turn], now) == request)
            && (request.Failure? && request.error != IntegrityError ==>
                  && k < |turn.feed|
                  && UpsertUpTo(Opened(s), turn.store, turn.feed, turn.picks, now, k) == Success(end.session)
                  && Upsert(end.session, turn.store, turn.feed[k], turn.picks[k], now) == Failure(request.error)
                  && SyncAll(s, [turn], now) == Sync(s, turn.store, turn.feed[..k], turn.picks, now))
  {
    var end := Progressed(Opened(s), turn, now, |turn.feed|);
    ProgressIs(Opened(s), turn, now, |turn.feed|);
    FirstProducts(Opened(s), turn.store, turn.feed, turn.picks, now, end.through, end.through);
    assert TurnsUpTo(s, [turn], now, 0) == Job(Opened(s), false, []);
    assert TurnsUpTo(s, [turn], now, 1) == AfterTurn(Job(Opened(s), false, []), turn, now);
  }
}
