// Runs of one small shop that show what the remote and a lost commit can do to an event.
module OutboxExamples {
  import opened Common
  import opened ShopModel
  import opened OutboxModel
  import opened ShopRuns
  import opened OutboxTheorems
  import opened OutboxHistory

  // One product in one connected store, and no order yet.
  function Shop(): World {
    World(Catalog(map[7 := Product(1, true, 10.0, true, 0.0, None)], map[1 := Store(None, None)]),
          {1}, map[(1, 7) := "B"], map[7 := Stock(1, 5)], [], [], [], [], [])
  }

  // A customer orders the product and the shop accepts.
  function OrderAccepted(): seq<Op> {
    [OpCreateOrder(0, 2, OrderRequest(1, [Line(7, 1)])), OpUpdateStatus(0, 9, 0, 0, Accepted)]
  }

  function PassAnswered(now: int, reply: Reply): Op {
    OpOutboxPass(now, [0], [reply])
  }

  // The sale is taken and the shop told so.
  function Told(): Reply {
    Answer(true, 200, Document("X"))
  }

  ghost predicate OneEventReady(w: World, now: int) {
    |w.outbox| == 1 && Eligible(w.outbox[0], now) && ReachesPost(w, w.outbox[0])
  }

  lemma RunOneMore(w0: World, ops: seq<Op>, op: Op)
    ensures Run(w0, ops + [op]) == Apply(Run(w0, ops), op)
  {
    assert (ops + [op])[..|ops|] == ops;
  }

  lemma ShopIsReady()
    ensures Initial(Shop())
    ensures OneEventReady(Run(Shop(), OrderAccepted()), 0) && Run(Shop(), OrderAccepted()).posts == []
    ensures Run(Shop(), OrderAccepted()).outbox == [Event(1, 0, 0, EventPending, 0, None, None, None)]
  {
    var create, accept := OrderAccepted()[0], OrderAccepted()[1];
    OrderIsTaken();
    AcceptanceIsQueued(Apply(Shop(), create));
    TwoCalls(Shop(), create, accept);
    assert OrderAccepted() == [create, accept];
  }

  lemma TwoCalls(w0: World, first: Op, second: Op)
    ensures Run(w0, [first, second]) == Apply(Apply(w0, first), second)
  {
    RunOneMore(w0, [], first);
    RunOneMore(w0, [first], second);
    assert [] + [first] == [first] && [first] + [second] == [first, second];
  }

  lemma AcceptanceIsQueued(w: World)
    requires |w.orders| == 1 && w.orders[0].store == 1 && w.orders[0].status == Pending && w.outbox == []
    requires |w.orders[0].items| == 1 && w.orders[0].items[0].product == 7
    requires 1 in w.connected && (1, 7) in w.mapping
    ensures var w' := UpdateStatus(w, 0, 9, 0, 0, Accepted).0;
            && w'.outbox == [Event(1, 0, 0, EventPending, 0, None, None, None)]
            && w'.posts == w.posts && OneEventReady(w', 0)
  {
  }

  lemma OrderIsTaken()
    ensures var w := CreateOrder(Shop(), 0, 2, OrderRequest(1, [Line(7, 1)])).0;
            && |w.orders| == 1 && w.orders[0].store == 1 && w.orders[0].status == Pending
            && w.orders[0].items == [Item(7, 1, 10.0, 10.0)]
            && w == Shop().(inventory := w.inventory, orders := w.orders)
  {
    var lines := [Line(7, 1)];
    var cat, inv := Shop().catalog, Shop().inventory;
    assert Demand(lines, 0, 7) == 0;
    assert LineVerdict(cat, inv, 0, OrderRequest(1, lines), 0) == None;
    assert FirstLineError(cat, inv, 0, OrderRequest(1, lines), 0) == None by {
      assert FirstLineError(cat, inv, 0, OrderRequest(1, lines), 1) == None;
    }
    assert PricedLines(cat, lines)[0] == Item(7, 1, 10.0, 10.0);
  }

  lemma PassOverOne(w: World, now: int, reply: Reply)
    requires |w.outbox| == 1 && Eligible(w.outbox[0], now)
    ensures IsBatch(w.outbox, now, [0]) && Pass(w, now, [0], [reply]) == Handle(w, now, 0, reply)
  {
    assert EligibleSet(w.outbox, now) == {0};
    assert PassUpTo(w, now, [0], [reply], 1) == Handle(PassUpTo(w, now, [0], [reply], 0), now, 0, reply);
  }

  lemma LostPassOverOne(w: World, now: int, reply: Reply)
    requires OneEventReady(w, now)
    ensures LostPass(w, now, [0], [reply], 1)
            == w.(posts := w.posts + [Post(0, InvoiceFor(w, w.outbox[0]), reply, false)])
  {
    assert PassUpTo(w, now, [0], [reply], 1) == Handle(PassUpTo(w, now, [0], [reply], 0), now, 0, reply);
    var p := Post(0, InvoiceFor(w, w.outbox[0]), reply, true);
    assert (w.posts + [p])[|w.posts|..] == [p];
    assert Unstored([p]) == [p.(stored := false)];
  }

  lemma OneMore(posts: seq<Post>, p: Post)
    ensures Count(posts + [p], p.event, TookSale) == Count(posts, p.event, TookSale) + if p.reply.taken then 1 else 0
  {
    assert (posts + [p])[..|posts|] == posts;
  }

  lemma PassIsApplied(w: World, now: int, reply: Reply)
    requires OneEventReady(w, now)
    ensures Apply(w, PassAnswered(now, reply)) == Handle(w, now, 0, reply)
  {
    PassOverOne(w, now, reply);
  }

  lemma ToldMarks(w: World, now: int)
    requires OneEventReady(w, now)
    ensures var w' := Handle(w, now, 0, Told());
            && |w'.outbox| == 1 && w'.outbox[0].status == EventSent
            && Count(w'.posts, 0, TookSale) == Count(w.posts, 0, TookSale) + 1
  {
    OneMore(w.posts, Post(0, InvoiceFor(w, w.outbox[0]), Told(), true));
  }

  // Any run up to an event that is ready, and one more pass that the remote answers properly.
  lemma {:induction false} ThenTold(w0: World, ops: seq<Op>, now: int)
    requires OneEventReady(Run(w0, ops), now)
    ensures var w := Run(w0, ops + [PassAnswered(now, Told())]);
            && |w.outbox| == 1 && w.outbox[0].status == EventSent
            && Count(w.posts, 0, TookSale) == Count(Run(w0, ops).posts, 0, TookSale) + 1
  {
    var w := Run(w0, ops);
    assert Run(w0, ops + [PassAnswered(now, Told())]) == Handle(w, now, 0, Told()) by {
      RunOneMore(w0, ops, PassAnswered(now, Told()));
      PassIsApplied(w, now, Told());
    }
    ToldMarks(w, now);
  }

  // A first call that leaves the event ready after one sale.
  ghost predicate TakenButReady(w: World, first: Op, now: int) {
    OneEventReady(Apply(w, first), now) && Count(Apply(w, first).posts, 0, TookSale) == 1
  }

  ghost predicate InvoicedTwice(w: World) {
    |w.outbox| == 1 && w.outbox[0].status == EventSent && Count(w.posts, 0, TookSale) == 2
  }

  lemma {:induction false} Twice(w0: World, ops: seq<Op>, first: Op, now: int)
    requires TakenButReady(Run(w0, ops), first, now)
    ensures InvoicedTwice(Run(w0, ops + [first] + [PassAnswered(now, Told())]))
  {
    RunOneMore(w0, ops, first);
    ThenTold(w0, ops + [first], now);
  }

  lemma UnmarkedPass(w: World, reply: Reply)
    requires OneEventReady(w, 0) && w.posts == [] && reply.taken && RaisesBeforeMark(reply)
    ensures TakenButReady(w, PassAnswered(0, reply), 0)
  {
    PassIsApplied(w, 0, reply);
    OneMore([], Post(0, InvoiceFor(w, w.outbox[0]), reply, true));
  }

  lemma RefusedPass(w: World, code: int, body: Body)
    requires OneEventReady(w, 0) && w.posts == [] && code >= 400 && w.outbox[0].attempts == 0
    ensures TakenButReady(w, PassAnswered(0, Answer(true, code, body)), Backoff(1))
  {
    PassIsApplied(w, 0, Answer(true, code, body));
    OneMore([], Post(0, InvoiceFor(w, w.outbox[0]), Answer(true, code, body), true));
  }

  lemma LostPassLeavesReady(w: World, reply: Reply)
    requires OneEventReady(w, 0) && w.posts == [] && reply.taken
    ensures TakenButReady(w, OpLostPass(0, [0], [reply], 1), 0)
  {
    PassOverOne(w, 0, reply);
    LostPassOverOne(w, 0, reply);
    OneMore([], Post(0, InvoiceFor(w, w.outbox[0]), reply, false));
  }

  // The remote takes the order of an event twice when its first answer cannot be decoded.
  lemma GarbledExample()
    ensures Initial(Shop())
    ensures InvoicedTwice(Run(Shop(), OrderAccepted() + [PassAnswered(0, Answer(true, 200, Undecodable))]
                                      + [PassAnswered(0, Told())]))
  {
    ShopIsReady();
    UnmarkedPass(Run(Shop(), OrderAccepted()), Answer(true, 200, Undecodable));
    Twice(Shop(), OrderAccepted(), PassAnswered(0, Answer(true, 200, Undecodable)), 0);
  }

  // So it does when it took the sale and its answer was lost.
  lemma LostAnswerExample()
    ensures Initial(Shop())
    ensures InvoicedTwice(Run(Shop(), OrderAccepted() + [PassAnswered(0, NoAnswer(true))] + [PassAnswered(0, Told())]))
  {
    ShopIsReady();
    UnmarkedPass(Run(Shop(), OrderAccepted()), NoAnswer(true));
    Twice(Shop(), OrderAccepted(), PassAnswered(0, NoAnswer(true)), 0);
  }

  // When it took the sale and a gateway answered 504; the next pass has to wait for two minutes.
  lemma RefusedButTakenExample()
    ensures Initial(Shop())
    ensures InvoicedTwice(Run(Shop(), OrderAccepted() + [PassAnswered(0, Answer(true, 504, EmptyBody))]
                                      + [PassAnswered(120, Told())]))
  {
    ShopIsReady();
    RefusedPass(Run(Shop(), OrderAccepted()), 504, EmptyBody);
    assert Pow2(1) == 2 && Backoff(1) == 120;
    Twice(Shop(), OrderAccepted(), PassAnswered(0, Answer(true, 504, EmptyBody)), 120);
  }

  // And when the pass that heard of the sale was never committed.
  lemma LostPassExample()
    ensures Initial(Shop())
    ensures InvoicedTwice(Run(Shop(), OrderAccepted() + [OpLostPass(0, [0], [Told()], 1)] + [PassAnswered(0, Told())]))
  {
    ShopIsReady();
    LostPassLeavesReady(Run(Shop(), OrderAccepted()), Told());
    Twice(Shop(), OrderAccepted(), OpLostPass(0, [0], [Told()], 1), 0);
  }

  // An answer below 400 for a sale that was not taken leaves the event SENT without one.
  lemma ConfirmedNotTakenExample()
    ensures Initial(Shop())
    ensures var w := Run(Shop(), OrderAccepted() + [PassAnswered(0, Answer(false, 200, Document("X")))]);
            |w.outbox| == 1 && w.outbox[0].status == EventSent && Count(w.posts, 0, TookSale) == 0
  {
    ShopIsReady();
    var reply := Answer(false, 200, Document("X"));
    RunOneMore(Shop(), OrderAccepted(), PassAnswered(0, reply));
    Believed(Run(Shop(), OrderAccepted()), reply);
  }

  lemma Believed(w: World, reply: Reply)
    requires OneEventReady(w, 0) && w.posts == [] && reply.Answer? && !reply.taken && reply.code < 400 && reply.body.Document?
    ensures var w' := Apply(w, PassAnswered(0, reply));
            |w'.outbox| == 1 && w'.outbox[0].status == EventSent && Count(w'.posts, 0, TookSale) == 0
  {
    PassIsApplied(w, 0, reply);
    OneMore([], Post(0, InvoiceFor(w, w.outbox[0]), reply, true));
  }

  // A body that is not an object leaves the event SENT for good, with no attempt and no invoice id.
  lemma NonObjectExample()
    ensures Initial(Shop())
    ensures var w := Run(Shop(), OrderAccepted() + [PassAnswered(0, Answer(true, 200, NonObject))]);
            && w.outbox == [Event(1, 0, 0, EventSent, 0, None, None, None)]
            && Count(w.posts, 0, TookSale) == 1
  {
    ShopIsReady();
    MarkedOnly(Run(Shop(), OrderAccepted()), 200);
    RunOneMore(Shop(), OrderAccepted(), PassAnswered(0, Answer(true, 200, NonObject)));
  }

  lemma MarkedOnly(w: World, code: int)
    requires OneEventReady(w, 0) && w.posts == [] && code < 400
    ensures Apply(w, PassAnswered(0, Answer(true, code, NonObject))).outbox == [w.outbox[0].(status := EventSent)]
    ensures Count(Apply(w, PassAnswered(0, Answer(true, code, NonObject))).posts, 0, TookSale) == 1
  {
    var reply := Answer(true, code, NonObject);
    PassIsApplied(w, 0, reply);
    NonObjectIsSentUncounted(w, 0, w.outbox[0], true, code);
    OneMore([], Post(0, InvoiceFor(w, w.outbox[0]), reply, true));
  }
}
