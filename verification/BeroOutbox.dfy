// Working off the outbox of accepted orders, in place.
module BeroOutbox {
  import opened Common
  import opened ShopModel
  import opened OutboxModel
  import opened ShopInvariants
  import opened Tables

  // The invoice lines of the order, or None as soon as one product is not mapped.
  method BuildItems(db: Database, ev: Event) returns (lines: Option<seq<InvoiceItem>>)
    requires OrderFound(db.Snapshot(), ev)
    ensures lines.Some? <==> AllMapped(db.Snapshot(), ev)
    ensures lines.Some? && ev.store in db.connected ==> lines.value == InvoiceFor(db.Snapshot(), ev).items
  {
    var items := db.orders[ev.order].items;
    var built: seq<InvoiceItem> := [];
    for i := 0 to |items|
      invariant |built| == i
      invariant forall j :: 0 <= j < i ==> (ev.store, items[j].product) in db.mapping
      invariant forall j :: 0 <= j < i ==>
                  built[j] == InvoiceItem(db.mapping[(ev.store, items[j].product)], items[j].quantity,
                                          items[j].unitPrice, items[j].totalPrice)
    {
      var it := items[i];
      if (ev.store, it.product) !in db.mapping {
        return None;
      }
      built := built + [InvoiceItem(db.mapping[(ev.store, it.product)], it.quantity, it.unitPrice, it.totalPrice)];
    }
    return Some(built);
  }

  // One event of a pass; `raised` means that an exception left the loop, either before the event
  // was touched or, for a body that is not an object, right after it was marked SENT.  The remote's
  // answer is `reply`, should it be asked.
  method HandleEvent(db: Database, now: int, e: nat, reply: Reply) returns (raised: bool)
    requires e < |db.outbox|
    modifies db`outbox, db`posts
    ensures db.Snapshot() == Handle(old(db.Snapshot()), now, e, reply)
    ensures raised <==> Raises(old(db.Snapshot()), old(db.outbox[e]), reply)
  {
    var ev := db.outbox[e];
    if ev.store !in db.connected {
      ev := ev.(status := EventFailed, lastError := Some(NoConnection), attempts := ev.attempts + 1);
      db.outbox := db.outbox[e := ev.(nextRetry := Some(now + RETRY_DELAY))];
      return false;
    }
    if ev.order >= |db.orders| || db.orders[ev.order].store != ev.store {
      ev := ev.(status := EventFailed, lastError := Some(OrderNotFound), attempts := ev.attempts + 1);
      db.outbox := db.outbox[e := ev.(nextRetry := Some(now + RETRY_DELAY))];
      return false;
    }
    var lines := BuildItems(db, ev);
    if lines.None? {
      ev := ev.(status := EventFailed, lastError := Some(MissingMapping), attempts := ev.attempts + 1);
      db.outbox := db.outbox[e := ev.(nextRetry := Some(now + RETRY_DELAY))];
      return false;
    }
    var payload := Invoice(ev.order, db.orders[ev.order].total, 0.0, lines.value);
    db.posts := db.posts + [Post(e, payload, reply, true)];
    if reply.NoAnswer? {
      assert db.outbox == db.outbox[e := ev];
      return true;
    }
    if reply.code >= 400 {
      ev := ev.(status := EventFailed, lastError := Some(SalesFailed(reply.code)), attempts := ev.attempts + 1);
      db.outbox := db.outbox[e := ev.(nextRetry := Some(now + Backoff(ev.attempts)))];
      return false;
    }
    if reply.body.Undecodable? {
      assert db.outbox == db.outbox[e := ev];
      return true;
    }
    ev := ev.(status := EventSent);
    db.outbox := db.outbox[e := ev];
    if reply.body.NonObject? {
      return true;
    }
    ev := ev.(invoiceId := Some(if reply.body.Document? then reply.body.id else ""));
    db.outbox := db.outbox[e := ev.(lastError := None, attempts := ev.attempts + 1)];
    return false;
  }

  // Handling the next event of the batch takes the pass one further, and raises if and only if the
  // pass ends there.
  lemma HandleNext(w: World, now: int, batch: seq<nat>, replies: seq<Reply>, k: nat)
    requires IsBatch(w.outbox, now, batch) && k < |batch| <= |replies|
    requires Cut(w, batch, replies, 0) == Cut(w, batch, replies, k)
    ensures var a := PassUpTo(w, now, batch, replies, k);
            var raises := Raises(a, a.outbox[batch[k]], replies[k]);
            && Handle(a, now, batch[k], replies[k]) == PassUpTo(w, now, batch, replies, k + 1)
            && (raises ==> Cut(w, batch, replies, 0) == k && Attempted(w, batch, replies) == k + 1)
            && (!raises ==> Cut(w, batch, replies, 0) == Cut(w, batch, replies, k + 1))
  {
    NextIsUntouched(w, now, batch, replies, k);
  }

  // The batch is what the query returned.  The background job commits what was done, also when an
  // exception cut the pass short.
  method ProcessOutbox(db: Database, now: int, batch: seq<nat>, replies: seq<Reply>) returns (raised: bool)
    requires IsBatch(db.outbox, now, batch) && |batch| <= |replies|
    modifies db`outbox, db`posts
    ensures db.Snapshot() == Pass(old(db.Snapshot()), now, batch, replies)
    ensures raised <==> Cut(old(db.Snapshot()), batch, replies, 0) < |batch|
  {
    ghost var w := db.Snapshot();
    for k := 0 to |batch|
      invariant db.Snapshot() == PassUpTo(w, now, batch, replies, k)
      invariant Cut(w, batch, replies, 0) == Cut(w, batch, replies, k)
    {
      HandleNext(w, now, batch, replies, k);
      raised := HandleEvent(db, now, batch[k], replies[k]);
      if raised {
        return true;
      }
    }
    return false;
  }
}
