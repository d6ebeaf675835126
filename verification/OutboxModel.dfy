// What one pass over the outbox of accepted orders does.
module OutboxModel {
  import opened Common
  import opened ShopModel

  const BATCH_LIMIT := 50
  const RETRY_DELAY := 5 * 60

  function Pow2(n: nat): nat {
    if n == 0 then 1 else 2 * Pow2(n - 1)
  }

  // Minutes to wait after a refusal, as seconds; `attempts` already counts the refused one.
  function Backoff(attempts: nat): int {
    60 * Min(60, Pow2(Min(attempts, 6)))
  }

  predicate Eligible(ev: Event, now: int) {
    ev.status != EventSent && (ev.nextRetry.None? || ev.nextRetry.value <= now)
  }

  function EligibleSet(outbox: seq<Event>, now: int): set<nat> {
    set e: nat | e < |outbox| && Eligible(outbox[e], now)
  }

  ghost predicate Distinct(batch: seq<nat>) {
    forall i, j :: 0 <= i < j < |batch| ==> batch[i] != batch[j]
  }

  ghost predicate Within(outbox: seq<Event>, batch: seq<nat>) {
    forall i :: 0 <= i < |batch| ==> batch[i] < |outbox|
  }

  ghost predicate OldestFirst(outbox: seq<Event>, batch: seq<nat>)
    requires Within(outbox, batch)
  {
    forall i, j :: 0 <= i < j < |batch| ==> outbox[batch[i]].createdAt <= outbox[batch[j]].createdAt
  }

  // The rows the query of a pass may return: eligible events, oldest first, cut at the limit.
  // Events created at the same instant may come in any order.
  ghost predicate IsBatch(outbox: seq<Event>, now: int, batch: seq<nat>) {
    && Distinct(batch)
    && Within(outbox, batch)
    && (forall i :: 0 <= i < |batch| ==> batch[i] in EligibleSet(outbox, now))
    && |batch| == Min(BATCH_LIMIT, |EligibleSet(outbox, now)|)
    && OldestFirst(outbox, batch)
    && (forall i, e :: 0 <= i < |batch| && e in EligibleSet(outbox, now) && e !in batch ==>
          outbox[batch[i]].createdAt <= outbox[e].createdAt)
  }

  // ----- one event -----

  predicate OrderFound(w: World, ev: Event) {
    ev.order < |w.orders| && w.orders[ev.order].store == ev.store
  }

  predicate AllMapped(w: World, ev: Event)
    requires OrderFound(w, ev)
  {
    forall i :: 0 <= i < |w.orders[ev.order].items| ==> (ev.store, w.orders[ev.order].items[i].product) in w.mapping
  }

  // Handling the event gets as far as the POST.
  predicate ReachesPost(w: World, ev: Event) {
    ev.store in w.connected && OrderFound(w, ev) && AllMapped(w, ev)
  }

  function InvoiceFor(w: World, ev: Event): Invoice
    requires ReachesPost(w, ev)
  {
    var items := w.orders[ev.order].items;
    Invoice(
      ev.order, w.orders[ev.order].total, 0.0,
      seq(|items|, i requires 0 <= i < |items| =>
        InvoiceItem(w.mapping[(ev.store, items[i].product)], items[i].quantity, items[i].unitPrice, items[i].totalPrice)))
  }

  // For an answer below 400 the event is marked SENT before the body is looked into; a body that is
  // not an object raises after that.
  predicate RaisesAfterMark(reply: Reply) {
    reply.Answer? && reply.code < 400 && reply.body.NonObject?
  }

  // No answer, or one below 400 that cannot be decoded, raises before the event is marked.
  predicate RaisesBeforeMark(reply: Reply) {
    reply.NoAnswer? || (reply.code < 400 && reply.body.Undecodable?)
  }

  predicate Raises(w: World, ev: Event, reply: Reply) {
    ReachesPost(w, ev) && (RaisesBeforeMark(reply) || RaisesAfterMark(reply))
  }

  function Deferred(ev: Event, error: OutboxError, until: int): Event {
    ev.(status := EventFailed, lastError := Some(error), attempts := ev.attempts + 1, nextRetry := Some(until))
  }

  function After(w: World, now: int, ev: Event, reply: Reply): Event {
    if ev.store !in w.connected then Deferred(ev, NoConnection, now + RETRY_DELAY)
    else if !OrderFound(w, ev) then Deferred(ev, OrderNotFound, now + RETRY_DELAY)
    else if !AllMapped(w, ev) then Deferred(ev, MissingMapping, now + RETRY_DELAY)
    else if RaisesBeforeMark(reply) then ev
    else if reply.code >= 400 then Deferred(ev, SalesFailed(reply.code), now + Backoff(ev.attempts + 1))
    else if RaisesAfterMark(reply) then ev.(status := EventSent)
    else
      ev.(status := EventSent, lastError := None, attempts := ev.attempts + 1,
          invoiceId := Some(if reply.body.Document? then reply.body.id else ""))
  }

  function Logged(w: World, e: nat, reply: Reply): seq<Post>
    requires e < |w.outbox|
  {
    if ReachesPost(w, w.outbox[e]) then [Post(e, InvoiceFor(w, w.outbox[e]), reply, true)] else []
  }

  function Handle(w: World, now: int, e: nat, reply: Reply): World
    requires e < |w.outbox|
  {
    w.(outbox := w.outbox[e := After(w, now, w.outbox[e], reply)],
       posts := w.posts + Logged(w, e, reply))
  }

  // ----- one pass -----

  // The first n events of the batch, each with the answer the remote gives if it is asked.
  ghost function PassUpTo(w: World, now: int, batch: seq<nat>, replies: seq<Reply>, n: nat): (r: World)
    requires Within(w.outbox, batch) && n <= |batch| <= |replies|
    ensures |r.outbox| == |w.outbox|
    ensures r == w.(outbox := r.outbox, posts := r.posts) && w.posts <= r.posts
  {
    if n == 0 then w
    else Handle(PassUpTo(w, now, batch, replies, n - 1), now, batch[n - 1], replies[n - 1])
  }

  // The position of the first event that raises, or the length of the batch.
  ghost function Cut(w: World, batch: seq<nat>, replies: seq<Reply>, i: nat): (c: nat)
    requires Within(w.outbox, batch) && i <= |batch| <= |replies|
    ensures i <= c <= |batch|
    ensures forall j :: i <= j < c ==> !Raises(w, w.outbox[batch[j]], replies[j])
    ensures c < |batch| ==> Raises(w, w.outbox[batch[c]], replies[c])
    decreases |batch| - i
  {
    if i == |batch| || Raises(w, w.outbox[batch[i]], replies[i]) then i
    else Cut(w, batch, replies, i + 1)
  }

  // How many events of the batch a pass gets to: all up to and including the first that raises.
  ghost function Attempted(w: World, batch: seq<nat>, replies: seq<Reply>): (n: nat)
    requires Within(w.outbox, batch) && |batch| <= |replies|
    ensures n <= |batch|
  {
    Min(|batch|, Cut(w, batch, replies, 0) + 1)
  }

  ghost function Pass(w: World, now: int, batch: seq<nat>, replies: seq<Reply>): World
    requires Within(w.outbox, batch) && |batch| <= |replies|
  {
    PassUpTo(w, now, batch, replies, Attempted(w, batch, replies))
  }

  function Unstored(posts: seq<Post>): seq<Post> {
    seq(|posts|, i requires 0 <= i < |posts| => posts[i].(stored := false))
  }

  // A pass of which only the POSTs remain: the process ends, or the commit fails, after n events.
  ghost function LostPass(w: World, now: int, batch: seq<nat>, replies: seq<Reply>, n: nat): World
    requires Within(w.outbox, batch) && n <= |batch| <= |replies|
  {
    w.(posts := w.posts + Unstored(PassUpTo(w, now, batch, replies, n).posts[|w.posts|..]))
  }
}
