// The log of POSTs over whole runs: how often an event was invoiced, and what the invoices said.
module OutboxHistory {
  import opened Common
  import opened ShopModel
  import opened OutboxModel
  import opened ShopRuns
  import opened ShopInvariants
  import opened OrderLifecycle
  import opened OutboxTheorems

  // ----- how often the remote took the order of an event -----

  ghost function Count(posts: seq<Post>, e: nat, counts: Post -> bool): nat {
    if posts == [] then 0
    else
      var last := posts[|posts| - 1];
      Count(posts[..|posts| - 1], e, counts) + if last.event == e && counts(last) then 1 else 0
  }

  predicate TookSale(p: Post) {
    p.reply.taken
  }

  // What marks an event SENT: an answer below 400 that can be decoded, in a pass that was committed.
  predicate Confirmed(p: Post) {
    p.stored && p.reply.Answer? && p.reply.code < 400 && !p.reply.body.Undecodable?
  }

  // The shop believes in a sale that was not taken.
  predicate ConfirmedNotTaken(p: Post) {
    Confirmed(p) && !p.reply.taken
  }

  // It does not know of a sale that was: the answer could not be decoded, or was lost, or was a
  // refusal, or what the pass recorded was lost with the rest of it.
  predicate Garbled(p: Post) {
    p.reply.taken && p.stored && p.reply.Answer? && p.reply.code < 400 && p.reply.body.Undecodable?
  }

  predicate AnswerLost(p: Post) {
    p.reply.taken && p.stored && p.reply.NoAnswer?
  }

  predicate RefusedButTaken(p: Post) {
    p.reply.taken && p.stored && p.reply.Answer? && p.reply.code >= 400
  }

  predicate NeverStored(p: Post) {
    p.reply.taken && !p.stored
  }

  // The sales of an event that the shop does not know of.
  ghost function Unknown(posts: seq<Post>, e: nat): nat {
    Count(posts, e, Garbled) + Count(posts, e, AnswerLost) + Count(posts, e, RefusedButTaken) + Count(posts, e, NeverStored)
  }

  lemma {:induction false} SalesSplit(posts: seq<Post>, e: nat)
    ensures Count(posts, e, TookSale) + Count(posts, e, ConfirmedNotTaken) == Count(posts, e, Confirmed) + Unknown(posts, e)
    ensures Count(posts, e, ConfirmedNotTaken) <= Count(posts, e, Confirmed)
  {
    if posts != [] {
      SalesSplit(posts[..|posts| - 1], e);
    }
  }

  lemma {:induction false} NothingCounts(posts: seq<Post>, e: nat, counts: Post -> bool)
    requires forall j :: 0 <= j < |posts| && posts[j].event == e ==> !counts(posts[j])
    ensures Count(posts, e, counts) == 0
  {
    if posts != [] {
      NothingCounts(posts[..|posts| - 1], e, counts);
    }
  }

  lemma {:induction false} CountAppends(posts: seq<Post>, more: seq<Post>, e: nat, counts: Post -> bool)
    ensures Count(posts + more, e, counts) == Count(posts, e, counts) + Count(more, e, counts)
  {
    if more == [] {
      assert posts + more == posts;
    } else {
      var front := more[..|more| - 1];
      CountAppends(posts, front, e, counts);
      assert (posts + more)[..|posts + more| - 1] == posts + front;
    }
  }

  ghost predicate Counted(w: World, e: nat)
    requires e < |w.outbox|
  {
    Count(w.posts, e, Confirmed) == if w.outbox[e].status == EventSent then 1 else 0
  }

  ghost predicate PostsOk(w: World) {
    && (forall j :: 0 <= j < |w.posts| ==> w.posts[j].event < |w.outbox|)
    && (forall e :: 0 <= e < |w.outbox| ==> Counted(w, e))
  }

  lemma LoggedCounts(w: World, now: int, e: nat, reply: Reply, x: nat)
    requires e < |w.outbox| && w.outbox[e].status != EventSent
    ensures Count(Logged(w, e, reply), x, Confirmed)
            == if x == e && After(w, now, w.outbox[e], reply).status == EventSent then 1 else 0
  {
    if ReachesPost(w, w.outbox[e]) {
      var p := Post(e, InvoiceFor(w, w.outbox[e]), reply, true);
      assert Logged(w, e, reply) == [p];
      assert Count([p][..0], x, Confirmed) == 0;
      assert Confirmed(p) <==> After(w, now, w.outbox[e], reply).status == EventSent;
    }
  }

  lemma HandleKeepsCount(w: World, now: int, e: nat, reply: Reply)
    requires PostsOk(w) && e < |w.outbox| && w.outbox[e].status != EventSent
    ensures PostsOk(Handle(w, now, e, reply))
  {
    var w' := Handle(w, now, e, reply);
    forall x | 0 <= x < |w'.outbox|
      ensures Counted(w', x)
    {
      assert Counted(w, x);
      CountAppends(w.posts, Logged(w, e, reply), x, Confirmed);
      LoggedCounts(w, now, e, reply, x);
    }
  }

  lemma {:induction false} PassKeepsCount(w: World, now: int, batch: seq<nat>, replies: seq<Reply>, n: nat)
    requires PostsOk(w) && IsBatch(w.outbox, now, batch) && n <= |batch| <= |replies|
    ensures PostsOk(PassUpTo(w, now, batch, replies, n))
  {
    if n > 0 {
      var a := PassUpTo(w, now, batch, replies, n - 1);
      PassKeepsCount(w, now, batch, replies, n - 1);
      assert a.outbox[batch[n - 1]].status != EventSent by {
        NextIsUntouched(w, now, batch, replies, n - 1);
      }
      HandleKeepsCount(a, now, batch[n - 1], replies[n - 1]);
    }
  }

  lemma LostPassKeepsCount(w: World, now: int, batch: seq<nat>, replies: seq<Reply>, n: nat)
    requires PostsOk(w) && IsBatch(w.outbox, now, batch) && n <= |batch| <= |replies|
    ensures PostsOk(LostPass(w, now, batch, replies, n))
  {
    PassKeepsCount(w, now, batch, replies, n);
    var sent := PassUpTo(w, now, batch, replies, n).posts[|w.posts|..];
    forall x | 0 <= x < |w.outbox|
      ensures Counted(LostPass(w, now, batch, replies, n), x)
    {
      assert Counted(w, x);
      CountAppends(w.posts, Unstored(sent), x, Confirmed);
      NothingCounts(Unstored(sent), x, Confirmed);
    }
  }

  lemma OthersLeaveEvents(w: World, op: Op)
    requires !op.OpOutboxPass? && !op.OpLostPass?
    ensures Apply(w, op).posts == w.posts && w.outbox <= Apply(w, op).outbox
    ensures forall e :: |w.outbox| <= e < |Apply(w, op).outbox| ==> Apply(w, op).outbox[e].status == EventPending
  {
  }

  lemma MoreEventsCounted(w: World, w': World)
    requires PostsOk(w) && w'.posts == w.posts && w.outbox <= w'.outbox
    requires forall e :: |w.outbox| <= e < |w'.outbox| ==> w'.outbox[e].status == EventPending
    ensures PostsOk(w')
  {
    forall e | 0 <= e < |w'.outbox|
      ensures Counted(w', e)
    {
      if e < |w.outbox| {
        assert Counted(w, e) && w'.outbox[e] == w.outbox[e];
      } else {
        NothingCounts(w.posts, e, Confirmed);
      }
    }
  }

  lemma StepKeepsCount(w: World, op: Op)
    requires PostsOk(w)
    ensures PostsOk(Apply(w, op))
  {
    match op
    case OpOutboxPass(now, batch, replies) =>
      if IsBatch(w.outbox, now, batch) && |batch| <= |replies| {
        PassKeepsCount(w, now, batch, replies, Attempted(w, batch, replies));
      }
    case OpLostPass(now, batch, replies, handled) =>
      if IsBatch(w.outbox, now, batch) && |batch| <= |replies| && handled <= Attempted(w, batch, replies) {
        LostPassKeepsCount(w, now, batch, replies, handled);
      }
    case _ => OthersKeepCount(w, op);
  }

  lemma OthersKeepCount(w: World, op: Op)
    requires PostsOk(w) && !op.OpOutboxPass? && !op.OpLostPass?
    ensures PostsOk(Apply(w, op))
  {
    OthersLeaveEvents(w, op);
    MoreEventsCounted(w, Apply(w, op));
  }

  lemma {:induction false} RunKeepsCount(w0: World, ops: seq<Op>)
    requires Initial(w0)
    ensures PostsOk(Run(w0, ops))
  {
    if ops != [] {
      RunKeepsCount(w0, ops[..|ops| - 1]);
      StepKeepsCount(Run(w0, ops[..|ops| - 1]), ops[|ops| - 1]);
    }
  }

  // Over every run, with passes cut short or lost, and whatever the remote does and answers: the
  // sales it took for an event, plus the confirmed one it did not take, number one if the event is
  // SENT and none otherwise, plus the sales the shop does not know of.  So the number is right if and
  // only if as many sales are unknown as are falsely confirmed, which is one at most.
  lemma {:induction false} SentMeansInvoicedOnce(w0: World, ops: seq<Op>, e: nat)
    requires Initial(w0) && e < |Run(w0, ops).outbox|
    ensures var posts := Run(w0, ops).posts;
            var once := if Run(w0, ops).outbox[e].status == EventSent then 1 else 0;
            && Count(posts, e, TookSale) + Count(posts, e, ConfirmedNotTaken) == once + Unknown(posts, e)
            && Count(posts, e, ConfirmedNotTaken) <= once
            && (Count(posts, e, TookSale) == once <==> Unknown(posts, e) == Count(posts, e, ConfirmedNotTaken))
  {
    RunKeepsCount(w0, ops);
    assert Counted(Run(w0, ops), e);
    SalesSplit(Run(w0, ops).posts, e);
  }

  // The answers that reached the shop and were stored told the truth about the event.
  ghost predicate Truthful(posts: seq<Post>, e: nat) {
    forall j :: 0 <= j < |posts| && posts[j].event == e && posts[j].stored && posts[j].reply.Answer? ==>
      (posts[j].reply.taken <==> posts[j].reply.code < 400)
  }

  // Then the number is right if and only if no sale met an undecodable answer, a lost answer or a
  // lost pass.
  lemma {:induction false} TruthfulAnswersSuffice(w0: World, ops: seq<Op>, e: nat)
    requires Initial(w0) && e < |Run(w0, ops).outbox| && Truthful(Run(w0, ops).posts, e)
    ensures var posts := Run(w0, ops).posts;
            Count(posts, e, TookSale) == (if Run(w0, ops).outbox[e].status == EventSent then 1 else 0) <==>
              forall j :: 0 <= j < |posts| && posts[j].event == e ==>
                !Garbled(posts[j]) && !AnswerLost(posts[j]) && !NeverStored(posts[j])
  {
    var posts := Run(w0, ops).posts;
    SentMeansInvoicedOnce(w0, ops, e);
    NothingCounts(posts, e, ConfirmedNotTaken);
    NothingCounts(posts, e, RefusedButTaken);
    NoneIffZero(posts, e, Garbled);
    NoneIffZero(posts, e, AnswerLost);
    NoneIffZero(posts, e, NeverStored);
  }

  lemma {:induction false} NoneIffZero(posts: seq<Post>, e: nat, counts: Post -> bool)
    ensures Count(posts, e, counts) == 0 <==> forall j :: 0 <= j < |posts| && posts[j].event == e ==> !counts(posts[j])
  {
    if posts != [] {
      NoneIffZero(posts[..|posts| - 1], e, counts);
    }
  }

  // ----- what one pass adds -----

  // What handling event e logs, of the posts that count.
  ghost function Adds(w: World, e: nat, reply: Reply, counts: Post -> bool): nat
    requires e < |w.outbox|
  {
    if ReachesPost(w, w.outbox[e]) && counts(Post(e, InvoiceFor(w, w.outbox[e]), reply, true)) then 1 else 0
  }

  lemma HandleCounts(w: World, a: World, now: int, e: nat, reply: Reply, x: nat, counts: Post -> bool)
    requires a == w.(outbox := a.outbox, posts := a.posts) && e < |w.outbox| == |a.outbox| && a.outbox[e] == w.outbox[e]
    ensures Count(Handle(a, now, e, reply).posts, x, counts)
            == Count(a.posts, x, counts) + if x == e then Adds(w, e, reply, counts) else 0
  {
    AfterFrame(w, a, 0, w.outbox[e], reply);
    CountAppends(a.posts, Logged(a, e, reply), x, counts);
    if ReachesPost(w, w.outbox[e]) {
      var p := Post(e, InvoiceFor(w, w.outbox[e]), reply, true);
      assert Logged(a, e, reply) == [p];
      assert Count([p][..0], x, counts) == 0;
    }
  }

  ghost predicate CountedUpTo(
    w: World, now: int, batch: seq<nat>, replies: seq<Reply>, n: nat, i: nat, counts: Post -> bool)
    requires Within(w.outbox, batch) && n <= |batch| <= |replies| && i < |batch|
  {
    Count(PassUpTo(w, now, batch, replies, n).posts, batch[i], counts)
    == Count(w.posts, batch[i], counts) + if i < n then Adds(w, batch[i], replies[i], counts) else 0
  }

  lemma CountedOneMore(
    w: World, now: int, batch: seq<nat>, replies: seq<Reply>, n: nat, i: nat, counts: Post -> bool)
    requires Within(w.outbox, batch) && Distinct(batch) && 0 < n <= |batch| <= |replies| && i < |batch|
    requires PassUpTo(w, now, batch, replies, n - 1).outbox[batch[n - 1]] == w.outbox[batch[n - 1]]
    requires CountedUpTo(w, now, batch, replies, n - 1, i, counts)
    ensures CountedUpTo(w, now, batch, replies, n, i, counts)
  {
    HandleCounts(w, PassUpTo(w, now, batch, replies, n - 1), now, batch[n - 1], replies[n - 1], batch[i], counts);
    assert batch[i] == batch[n - 1] <==> i == n - 1;
  }

  // The event at position i of the batch is posted once, if the pass gets that far and it can be.
  lemma {:induction false} PassCounts(
    w: World, now: int, batch: seq<nat>, replies: seq<Reply>, n: nat, i: nat, counts: Post -> bool)
    requires Within(w.outbox, batch) && Distinct(batch) && n <= |batch| <= |replies| && i < |batch|
    ensures CountedUpTo(w, now, batch, replies, n, i, counts)
  {
    if n > 0 {
      assert PassUpTo(w, now, batch, replies, n - 1).outbox[batch[n - 1]] == w.outbox[batch[n - 1]] by {
        OthersUntouched(w, now, batch, replies, n - 1, batch[n - 1]);
      }
      PassCounts(w, now, batch, replies, n - 1, i, counts);
      CountedOneMore(w, now, batch, replies, n, i, counts);
    }
  }

  // The remote took the sale but its reply does not mark the event.
  predicate TakenUnmarked(reply: Reply) {
    reply.taken && (RaisesBeforeMark(reply) || reply.code >= 400)
  }

  lemma UnmarkedIsEligible(w: World, now: int, ev: Event, reply: Reply, later: int)
    requires Eligible(ev, now) && ReachesPost(w, ev) && TakenUnmarked(reply) && later >= now + Backoff(ev.attempts + 1)
    ensures Eligible(After(w, now, ev, reply), later) && ReachesPost(w, After(w, now, ev, reply))
  {
    Pow2AtLeastTwo(Min(ev.attempts + 1, 6));
  }

  // Any event of any batch: a pass in which the sale is taken but the event not marked adds one sale
  // and leaves the event in the queue, at the latest once the back-off is over.
  lemma UnmarkedStaysInQueue(w: World, now: int, batch: seq<nat>, replies: seq<Reply>, i: nat, later: int)
    requires IsBatch(w.outbox, now, batch) && |batch| <= |replies| && i < Attempted(w, batch, replies)
    requires ReachesPost(w, w.outbox[batch[i]]) && TakenUnmarked(replies[i])
    requires later >= now + Backoff(w.outbox[batch[i]].attempts + 1)
    ensures var w' := Pass(w, now, batch, replies);
            && batch[i] in EligibleSet(w'.outbox, later) && ReachesPost(w', w'.outbox[batch[i]])
            && Count(w'.posts, batch[i], TookSale) == Count(w.posts, batch[i], TookSale) + 1
  {
    var ev, w' := w.outbox[batch[i]], Pass(w, now, batch, replies);
    assert w'.outbox[batch[i]] == After(w, now, ev, replies[i]) by {
      CutPass(w, now, batch, replies);
    }
    PassCounts(w, now, batch, replies, Attempted(w, batch, replies), i, TookSale);
    assert batch[i] in EligibleSet(w.outbox, now);
    UnmarkedIsEligible(w, now, ev, replies[i], later);
    AfterFrame(w, w', now, After(w, now, ev, replies[i]), replies[i]);
  }

  // So the next pass that gets to it posts the order again, and if the remote takes that sale too it
  // has taken two.
  lemma UnmarkedIsPostedAgain(
    w: World, now: int, batch: seq<nat>, replies: seq<Reply>, i: nat,
    later: int, batch': seq<nat>, replies': seq<Reply>, i': nat)
    requires IsBatch(w.outbox, now, batch) && |batch| <= |replies| && i < Attempted(w, batch, replies)
    requires ReachesPost(w, w.outbox[batch[i]]) && TakenUnmarked(replies[i])
    requires later >= now + Backoff(w.outbox[batch[i]].attempts + 1)
    requires var w' := Pass(w, now, batch, replies);
             && IsBatch(w'.outbox, later, batch') && |batch'| <= |replies'|
             && i' < Attempted(w', batch', replies') && batch'[i'] == batch[i] && replies'[i'].taken
    ensures Count(Pass(Pass(w, now, batch, replies), later, batch', replies').posts, batch[i], TookSale)
            == Count(w.posts, batch[i], TookSale) + 2
  {
    var w' := Pass(w, now, batch, replies);
    UnmarkedStaysInQueue(w, now, batch, replies, i, later);
    PassCounts(w', later, batch', replies', Attempted(w', batch', replies'), i', TookSale);
  }

  // ----- what the invoices said -----

  ghost function SumInvoice(items: seq<InvoiceItem>, n: nat): real
    requires n <= |items|
  {
    if n == 0 then 0.0 else SumInvoice(items, n - 1) + items[n - 1].totalPrice
  }

  // Line by line in the order's own order, every product under its mapped id.
  ghost predicate CompleteInvoice(w: World, id: nat, invoice: Invoice) {
    && id < |w.orders|
    && invoice.order == id
    && invoice.total == w.orders[id].total
    && invoice.paid == 0.0
    && |invoice.items| == |w.orders[id].items|
    && forall i :: 0 <= i < |invoice.items| ==> CompleteLine(w, w.orders[id].store, w.orders[id].items[i], invoice.items[i])
  }

  ghost predicate CompleteLine(w: World, store: int, item: Item, line: InvoiceItem) {
    && (store, item.product) in w.mapping
    && line.product == w.mapping[(store, item.product)]
    && line.quantity == item.quantity
    && line.unitPrice == item.unitPrice
    && line.totalPrice == item.totalPrice
  }

  ghost predicate CompletePost(w: World, post: Post) {
    post.event < |w.outbox| && CompleteInvoice(w, w.outbox[post.event].order, post.invoice)
  }

  // What handling an event logs depends on the orders and mappings only, and is complete.
  lemma LoggedIsComplete(w: World, a: World, e: nat, reply: Reply)
    requires e < |w.outbox| == |a.outbox| && a.outbox[e] == w.outbox[e]
    requires a == w.(outbox := a.outbox, posts := a.posts)
    ensures |Logged(a, e, reply)| <= 1
    ensures forall j :: 0 <= j < |Logged(a, e, reply)| ==> CompletePost(w, Logged(a, e, reply)[j])
  {
    AfterFrame(w, a, 0, w.outbox[e], reply);
  }

  // The log grew, by complete posts.
  ghost predicate GrewComplete(w: World, posts: seq<Post>) {
    w.posts <= posts && forall j :: |w.posts| <= j < |posts| ==> CompletePost(w, posts[j])
  }

  lemma MorePostsComplete(w: World, posts: seq<Post>, more: seq<Post>)
    requires GrewComplete(w, posts)
    requires forall j :: 0 <= j < |more| ==> CompletePost(w, more[j])
    ensures GrewComplete(w, posts + more)
  {
  }

  lemma {:induction false} PassPostsComplete(w: World, now: int, batch: seq<nat>, replies: seq<Reply>, n: nat)
    requires IsBatch(w.outbox, now, batch) && n <= |batch| <= |replies|
    ensures GrewComplete(w, PassUpTo(w, now, batch, replies, n).posts)
  {
    if n > 0 {
      var a, e := PassUpTo(w, now, batch, replies, n - 1), batch[n - 1];
      PassPostsComplete(w, now, batch, replies, n - 1);
      assert a.outbox[e] == w.outbox[e] by {
        NextIsUntouched(w, now, batch, replies, n - 1);
      }
      LoggedIsComplete(w, a, e, replies[n - 1]);
      MorePostsComplete(w, a.posts, Logged(a, e, replies[n - 1]));
    }
  }

  lemma LostPostsComplete(w: World, now: int, batch: seq<nat>, replies: seq<Reply>, n: nat)
    requires IsBatch(w.outbox, now, batch) && n <= |batch| <= |replies|
    ensures GrewComplete(w, LostPass(w, now, batch, replies, n).posts)
  {
    PassPostsComplete(w, now, batch, replies, n);
    var posts := PassUpTo(w, now, batch, replies, n).posts;
    var sent := posts[|w.posts|..];
    forall j | 0 <= j < |sent|
      ensures CompletePost(w, Unstored(sent)[j])
    {
      assert sent[j] == posts[|w.posts| + j];
    }
    MorePostsComplete(w, w.posts, Unstored(sent));
  }

  lemma StepPostsComplete(w: World, op: Op)
    ensures GrewComplete(w, Apply(w, op).posts)
    ensures !op.OpOutboxPass? && !op.OpLostPass? ==> Apply(w, op).posts == w.posts
  {
    match op
    case OpOutboxPass(now, batch, replies) =>
      if IsBatch(w.outbox, now, batch) && |batch| <= |replies| {
        PassPostsComplete(w, now, batch, replies, Attempted(w, batch, replies));
      }
    case OpLostPass(now, batch, replies, handled) =>
      if IsBatch(w.outbox, now, batch) && |batch| <= |replies| && handled <= Attempted(w, batch, replies) {
        LostPostsComplete(w, now, batch, replies, handled);
      }
    case _ =>
      OthersLeaveEvents(w, op);
  }

  // Call k is the pass that sent the POST: the log reached it during that call, and it fits the
  // orders and mappings that call found.
  ghost predicate PostedBy(w0: World, ops: seq<Op>, j: nat, k: nat)
    requires j < |Run(w0, ops).posts| && k < |ops|
  {
    && (ops[k].OpOutboxPass? || ops[k].OpLostPass?)
    && |Run(w0, ops[..k]).posts| <= j < |Run(w0, ops[..k + 1]).posts|
    && Run(w0, ops[..k + 1]).posts[j] == Run(w0, ops).posts[j]
    && CompletePost(Run(w0, ops[..k]), Run(w0, ops).posts[j])
  }

  lemma {:induction false} PostedStays(w0: World, ops: seq<Op>, n: nat, j: nat, k: nat)
    requires k < n < |ops| && j < |Run(w0, ops[..n]).posts| && j < |Run(w0, ops[..n + 1]).posts|
    requires Run(w0, ops[..n]).posts[j] == Run(w0, ops[..n + 1]).posts[j]
    requires PostedBy(w0, ops[..n], j, k)
    ensures PostedBy(w0, ops[..n + 1], j, k)
  {
    assert ops[..n][..k] == ops[..n + 1][..k];
    assert ops[..n][..k + 1] == ops[..n + 1][..k + 1];
  }

  lemma {:induction false} EveryPostHasItsPass(w0: World, ops: seq<Op>, j: nat)
    requires Initial(w0) && j < |Run(w0, ops).posts|
    ensures exists k :: 0 <= k < |ops| && PostedBy(w0, ops, j, k)
  {
    if ops == [] {
    } else {
      var n := |ops| - 1;
      assert ops[..n + 1] == ops;
      StepPostsComplete(Run(w0, ops[..n]), ops[n]);
      if j < |Run(w0, ops[..n]).posts| {
        EveryPostHasItsPass(w0, ops[..n], j);
        var k :| 0 <= k < n && PostedBy(w0, ops[..n], j, k);
        PostedStays(w0, ops, n, j, k);
      } else {
        assert PostedBy(w0, ops, j, n);
      }
    }
  }

  lemma {:induction false} InvoiceSum(w: World, id: nat, invoice: Invoice, n: nat)
    requires CompleteInvoice(w, id, invoice) && n <= |invoice.items|
    ensures SumInvoice(invoice.items, n) == SumTotals(w.orders[id].items, n)
  {
    if n > 0 {
      InvoiceSum(w, id, invoice, n - 1);
      assert CompleteLine(w, w.orders[id].store, w.orders[id].items[n - 1], invoice.items[n - 1]);
    }
  }

  // The invoice agrees with the order, whose total is the invoice lines plus the shipping that was
  // charged when call k created the order.
  ghost predicate AddsUp(w0: World, ops: seq<Op>, id: nat, invoice: Invoice, k: nat)
    requires k < |ops|
  {
    var w := Run(w0, ops);
    var cat := Run(w0, ops[..k]).catalog;
    && id < |w.orders| && PricedAt(w0, ops, id, k)
    && invoice.total == w.orders[id].total
    && |invoice.items| == |w.orders[id].items|
    && invoice.total == SumInvoice(invoice.items, |invoice.items|)
         + SumFees(cat, w.orders[id].items, |w.orders[id].items|) + OrderFee(cat, w.orders[id].store)
  }

  // Every invoice that ever left the shop is complete, and its total is its lines plus shipping.
  lemma {:induction false} EveryInvoiceIsComplete(w0: World, ops: seq<Op>, j: nat)
    requires Initial(w0) && j < |Run(w0, ops).posts|
    ensures exists k :: 0 <= k < |ops| && PostedBy(w0, ops, j, k)
    ensures exists k :: 0 <= k < |ops| && AddsUp(w0, ops, Run(w0, ops).posts[j].invoice.order, Run(w0, ops).posts[j].invoice, k)
  {
    EveryPostHasItsPass(w0, ops, j);
    var k :| 0 <= k < |ops| && PostedBy(w0, ops, j, k);
    var invoice, before := Run(w0, ops).posts[j].invoice, Run(w0, ops[..k]);
    var id := invoice.order;
    RunGrows(w0, ops, k);
    assert Grows(before.orders[id], Run(w0, ops).orders[id]);
    InvoiceSum(before, id, invoice, |invoice.items|);
    EveryOrderIsPriced(w0, ops, id);
    var c :| 0 <= c < |ops| && PricedAt(w0, ops, id, c);
    assert AddsUp(w0, ops, id, invoice, c);
  }
}
