// Webhooks delivered any number of times, over many payments and stores.
module WebhookRedelivery {
  import opened Common
  import opened BillingModel
  import opened Renewals
  import opened SubscriptionEffects

  datatype Arrival = Arrival(delivery: Delivery, at: int)

  function Deliver(b: Books, ds: seq<Arrival>): Books {
    if ds == [] then b
    else HandleWebhook(Deliver(b, ds[..|ds| - 1]), ds[|ds| - 1].delivery, ds[|ds| - 1].at).0
  }

  // Subscriptions and payments agree; the log of webhooks may differ.
  ghost predicate SameAccounts(a: Books, b: Books) {
    a.plans == b.plans && a.subscriptions == b.subscriptions && a.payments == b.payments
  }

  // Rows, stores and intents of payments, which no webhook changes.
  ghost predicate SamePayments(a: seq<Option<Payment>>, b: seq<Option<Payment>>) {
    && |a| == |b|
    && forall i :: 0 <= i < |a| ==>
         (a[i].Some? <==> b[i].Some?)
         && (a[i].Some? ==> a[i].value.store == b[i].value.store && a[i].value.intent == b[i].value.intent)
  }

  // The delivery is genuine, about one known payment, and either reports a failure or reports a
  // success for a known plan.  This can be told before any delivery is processed.
  predicate Effective(b: Books, d: Delivery) {
    && d.providerKnown && d.signatureValid
    && Resolve(b.payments, d).Success? && Resolve(b.payments, d).value.Some?
    && (d.kind == FailureEvent || (d.kind == SuccessEvent && d.plan.Some? && d.plan.value in b.plans))
  }

  function PaymentOf(b: Books, d: Delivery): nat
    requires Effective(b, d)
  {
    Resolve(b.payments, d).value.value
  }

  // Payment `id` counts as paid after the deliveries: its latest effective event is a success, or
  // there is none and it was paid before.
  function PaidAfter(b: Books, ds: seq<Arrival>, id: nat): bool {
    if ds == [] then Row(b.payments, id) && b.payments[id].value.status == Succeeded
    else
      var d := ds[|ds| - 1].delivery;
      if Effective(b, d) && PaymentOf(b, d) == id then d.kind == SuccessEvent
      else PaidAfter(b, ds[..|ds| - 1], id)
  }

  // The deliveries that do something: failures, and successes for a payment not counted as paid.
  function Kept(b: Books, ds: seq<Arrival>): seq<Arrival> {
    if ds == [] then []
    else
      var front, last := ds[..|ds| - 1], ds[|ds| - 1];
      if !Effective(b, last.delivery) then Kept(b, front)
      else if last.delivery.kind == SuccessEvent && PaidAfter(b, front, PaymentOf(b, last.delivery)) then Kept(b, front)
      else Kept(b, front) + [last]
  }

  // ----- one delivery -----

  lemma {:induction false} WithIntentSame(a: seq<Option<Payment>>, b: seq<Option<Payment>>, n: nat, intent: string)
    requires SamePayments(a, b) && n <= |a|
    ensures WithIntent(a, n, intent) == WithIntent(b, n, intent)
  {
    if n > 0 {
      WithIntentSame(a, b, n - 1, intent);
    }
  }

  lemma ResolveSame(a: seq<Option<Payment>>, b: seq<Option<Payment>>, d: Delivery)
    requires SamePayments(a, b)
    ensures Resolve(a, d) == Resolve(b, d)
  {
    if d.intent.Some? {
      WithIntentSame(a, b, |a|, d.intent.value);
    }
  }

  lemma HandleKeepsPayments(b: Books, d: Delivery, now: int)
    ensures SamePayments(b.payments, HandleWebhook(b, d, now).0.payments)
    ensures HandleWebhook(b, d, now).0.plans == b.plans
  {
  }

  lemma SamePaymentsTransitive(a: seq<Option<Payment>>, b: seq<Option<Payment>>, c: seq<Option<Payment>>)
    requires SamePayments(a, b) && SamePayments(b, c)
    ensures SamePayments(a, c)
  {
  }

  lemma {:induction false} DeliverKeepsPayments(b: Books, ds: seq<Arrival>)
    ensures SamePayments(b.payments, Deliver(b, ds).payments) && Deliver(b, ds).plans == b.plans
  {
    if ds != [] {
      var front, last := ds[..|ds| - 1], ds[|ds| - 1];
      DeliverKeepsPayments(b, front);
      HandleKeepsPayments(Deliver(b, front), last.delivery, last.at);
      SamePaymentsTransitive(b.payments, Deliver(b, front).payments, Deliver(b, ds).payments);
    }
  }

  lemma EffectiveSame(a: Books, b: Books, d: Delivery)
    requires SamePayments(a.payments, b.payments) && a.plans == b.plans
    ensures Effective(a, d) <==> Effective(b, d)
    ensures Effective(a, d) ==> PaymentOf(a, d) == PaymentOf(b, d)
  {
    ResolveSame(a.payments, b.payments, d);
  }

  // A delivery that is not effective changes nothing but the log.
  lemma IneffectiveLeavesAccounts(b: Books, d: Delivery, now: int)
    requires !Effective(b, d)
    ensures SameAccounts(b, HandleWebhook(b, d, now).0)
  {
  }

  lemma CongruentHandling(a: Books, b: Books, d: Delivery, now: int)
    requires SameAccounts(a, b)
    ensures SameAccounts(HandleWebhook(a, d, now).0, HandleWebhook(b, d, now).0)
  {
  }

  // The status of a payment is what its latest effective event says.
  lemma {:induction false} StatusIsLatestEvent(b: Books, ds: seq<Arrival>, id: nat)
    requires Row(b.payments, id)
    ensures Row(Deliver(b, ds).payments, id)
    ensures Deliver(b, ds).payments[id].value.status == Succeeded <==> PaidAfter(b, ds, id)
  {
    DeliverKeepsPayments(b, ds);
    if ds != [] {
      var front, last := ds[..|ds| - 1], ds[|ds| - 1];
      StatusIsLatestEvent(b, front, id);
      DeliverKeepsPayments(b, front);
      EffectiveSame(b, Deliver(b, front), last.delivery);
      if !Effective(b, last.delivery) {
        IneffectiveLeavesAccounts(Deliver(b, front), last.delivery, last.at);
      }
    }
  }

  // ----- any list of deliveries -----

  // Dropping every success that came when its payment counted as paid, and everything that is not
  // effective, leaves the same subscriptions and payments.  Failures may come anywhere.
  lemma {:induction false} OnlyKeptMatter(b: Books, ds: seq<Arrival>)
    ensures SameAccounts(Deliver(b, ds), Deliver(b, Kept(b, ds)))
  {
    if ds != [] {
      var front, last := ds[..|ds| - 1], ds[|ds| - 1];
      var a := Deliver(b, front);
      OnlyKeptMatter(b, front);
      DeliverKeepsPayments(b, front);
      EffectiveSame(b, a, last.delivery);
      if !Effective(b, last.delivery) {
        IneffectiveLeavesAccounts(a, last.delivery, last.at);
      } else {
        var id := PaymentOf(b, last.delivery);
        StatusIsLatestEvent(b, front, id);
        if last.delivery.kind == SuccessEvent && PaidAfter(b, front, id) {
          assert SameAccounts(a, Deliver(b, ds));
        } else {
          var kept := Kept(b, front);
          assert (kept + [last])[..|kept|] == kept;
          CongruentHandling(a, Deliver(b, kept), last.delivery, last.at);
        }
      }
    }
  }

  // ----- without failures: the first delivery of each payment -----

  ghost predicate SeenBefore(b: Books, ds: seq<Arrival>, id: nat) {
    exists i :: 0 <= i < |ds| && Effective(b, ds[i].delivery) && PaymentOf(b, ds[i].delivery) == id
  }

  ghost function Firsts(b: Books, ds: seq<Arrival>): seq<Arrival> {
    if ds == [] then []
    else
      var front, last := ds[..|ds| - 1], ds[|ds| - 1];
      if Effective(b, last.delivery) && !SeenBefore(b, front, PaymentOf(b, last.delivery)) then Firsts(b, front) + [last]
      else Firsts(b, front)
  }

  ghost predicate NoFailures(ds: seq<Arrival>) {
    forall i :: 0 <= i < |ds| ==> ds[i].delivery.kind != FailureEvent
  }

  lemma {:induction false} PaidOnceSeen(b: Books, ds: seq<Arrival>, id: nat)
    requires NoFailures(ds)
    ensures PaidAfter(b, ds, id) <==>
            SeenBefore(b, ds, id) || (Row(b.payments, id) && b.payments[id].value.status == Succeeded)
  {
    if ds != [] {
      var front, d := ds[..|ds| - 1], ds[|ds| - 1].delivery;
      PaidOnceSeen(b, front, id);
      if SeenBefore(b, front, id) {
        var i :| 0 <= i < |front| && Effective(b, front[i].delivery) && PaymentOf(b, front[i].delivery) == id;
        assert ds[i] == front[i];
      }
      if SeenBefore(b, ds, id) && !(Effective(b, d) && PaymentOf(b, d) == id) {
        var i :| 0 <= i < |ds| && Effective(b, ds[i].delivery) && PaymentOf(b, ds[i].delivery) == id;
        assert front[i] == ds[i];
      }
    }
  }

  // Any list of success webhooks, duplicated and interleaved at will, leaves the subscriptions and
  // payments of each payment's first delivery alone.
  lemma {:induction false} FirstDeliveriesSuffice(b: Books, ds: seq<Arrival>)
    requires NoFailures(ds)
    ensures SameAccounts(Deliver(b, ds), Deliver(b, Firsts(b, ds)))
  {
    if ds != [] {
      var front, last := ds[..|ds| - 1], ds[|ds| - 1];
      var a := Deliver(b, front);
      FirstDeliveriesSuffice(b, front);
      DeliverKeepsPayments(b, front);
      EffectiveSame(b, a, last.delivery);
      if !Effective(b, last.delivery) {
        IneffectiveLeavesAccounts(a, last.delivery, last.at);
      } else if SeenBefore(b, front, PaymentOf(b, last.delivery)) {
        StatusIsLatestEvent(b, front, PaymentOf(b, last.delivery));
        PaidOnceSeen(b, front, PaymentOf(b, last.delivery));
        assert SameAccounts(a, Deliver(b, ds));
      } else {
        var firsts := Firsts(b, front);
        assert (firsts + [last])[..|firsts|] == firsts;
        CongruentHandling(a, Deliver(b, firsts), last.delivery, last.at);
      }
    }
  }

  // ----- the end date after any list of deliveries -----

  function IsPurchaseFor(b: Books, arrival: Arrival, store: int): bool {
    && Effective(b, arrival.delivery)
    && arrival.delivery.kind == SuccessEvent
    && b.payments[PaymentOf(b, arrival.delivery)].value.store == store
  }

  // What the deliveries buy for one store, each payment once as long as it counts as paid.
  function Purchases(b: Books, ds: seq<Arrival>, store: int): seq<Purchase> {
    if ds == [] then []
    else
      var front, last := ds[..|ds| - 1], ds[|ds| - 1];
      if IsPurchaseFor(b, last, store) && !PaidAfter(b, front, PaymentOf(b, last.delivery)) then
        Purchases(b, front, store) + [Purchase(last.at, DAY * b.plans[last.delivery.plan.value].durationDays)]
      else Purchases(b, front, store)
  }

  lemma EndAfterExtension(b: Books, b': Books, paidStore: int, plan: int, days: int, now: int, store: int)
    requires b'.subscriptions == Extended(b.subscriptions, paidStore, plan, days, now)
    ensures EndOf(b', store)
            == if store == paidStore then Some(Renewed(EndOf(b, store), Purchase(now, DAY * days))) else EndOf(b, store)
  {
    var subs := b.subscriptions;
    var s := FindSubscription(subs, |subs|, paidStore);
    if s.Some? {
      var held := subs[s.value].value;
      FindAfterUpdate(subs, |subs|, s.value, held.(plan := plan, status := Active, end := Max(held.end, now) + DAY * days), store);
    } else {
      FindInPrefix(subs, [Some(Subscription(paidStore, plan, Active, now, now + DAY * days, None))], |subs|, store);
    }
  }

  lemma {:induction false} EndAfterPrefix(end: Option<int>, ps: seq<Purchase>, p: Purchase, n: nat)
    requires n <= |ps|
    ensures EndAfter(end, ps + [p], n) == EndAfter(end, ps, n)
  {
    if n > 0 {
      EndAfterPrefix(end, ps, p, n - 1);
    }
  }

  // The end date of every store is that of its purchases in order, whatever was delivered for
  // whom, how often and with which failures in between; the closed form applies to it.
  lemma {:induction false} EndIsThatOfPurchases(b: Books, ds: seq<Arrival>, store: int)
    ensures EndOf(Deliver(b, ds), store)
            == EndAfter(EndOf(b, store), Purchases(b, ds, store), |Purchases(b, ds, store)|)
  {
    if ds != [] {
      var front, last := ds[..|ds| - 1], ds[|ds| - 1];
      var a := Deliver(b, front);
      EndIsThatOfPurchases(b, front, store);
      DeliverKeepsPayments(b, front);
      EffectiveSame(b, a, last.delivery);
      if !Effective(b, last.delivery) {
        IneffectiveLeavesAccounts(a, last.delivery, last.at);
      } else if last.delivery.kind == SuccessEvent {
        var id := PaymentOf(b, last.delivery);
        StatusIsLatestEvent(b, front, id);
        if !PaidAfter(b, front, id) {
          var days := b.plans[last.delivery.plan.value].durationDays;
          EndAfterExtension(a, Deliver(b, ds), a.payments[id].value.store, last.delivery.plan.value, days, last.at, store);
          EndAfterPrefix(EndOf(b, store), Purchases(b, front, store), Purchase(last.at, DAY * days), |Purchases(b, front, store)|);
        }
      }
    }
  }

  // So it is the largest of: the old end plus everything bought, and any purchase's time plus
  // everything bought from then on.
  lemma EndInClosedForm(b: Books, ds: seq<Arrival>, store: int)
    requires EndOf(b, store).Some? || Purchases(b, ds, store) != []
    ensures var ps := Purchases(b, ds, store);
            var end := EndOf(b, store);
            var e := EndOf(Deliver(b, ds), store);
            && e.Some?
            && (end.Some? ==> e.value >= end.value + Bought(ps, 0, |ps|))
            && (forall i :: 0 <= i < |ps| ==> e.value >= ps[i].at + Bought(ps, i, |ps|))
            && Attained(end, ps, |ps|, e.value)
  {
    EndIsThatOfPurchases(b, ds, store);
    ClosedForm(EndOf(b, store), Purchases(b, ds, store), |Purchases(b, ds, store)|);
  }

  // ----- a failure in between -----

  // A failure delivered after a success reopens the payment: the next copy of the success extends
  // the subscription a second time.
  lemma FailureReopensPayment(b: Books, success: Delivery, failure: Delivery, t1: int, t2: int, t3: int)
    requires Effective(b, success) && success.kind == SuccessEvent
    requires Effective(b, failure) && failure.kind == FailureEvent && PaymentOf(b, failure) == PaymentOf(b, success)
    requires b.payments[PaymentOf(b, success)].value.status != Succeeded
    ensures var store := b.payments[PaymentOf(b, success)].value.store;
            var length := DAY * b.plans[success.plan.value].durationDays;
            EndOf(Deliver(b, [Arrival(success, t1), Arrival(failure, t2), Arrival(success, t3)]), store)
            == Some(Renewed(Some(Renewed(EndOf(b, store), Purchase(t1, length))), Purchase(t3, length)))
  {
    var a1, a2, a3 := Arrival(success, t1), Arrival(failure, t2), Arrival(success, t3);
    var id := PaymentOf(b, success);
    var store := b.payments[id].value.store;
    var length := DAY * b.plans[success.plan.value].durationDays;
    assert [a1][..0] == [] && [a1, a2][..1] == [a1] && [a1, a2, a3][..2] == [a1, a2];
    assert !PaidAfter(b, [], id) && !PaidAfter(b, [a1, a2], id);
    assert Purchases(b, [a1], store) == [Purchase(t1, length)];
    assert Purchases(b, [a1, a2], store) == Purchases(b, [a1], store);
    assert Purchases(b, [a1, a2, a3], store) == [Purchase(t1, length)] + [Purchase(t3, length)];
    EndIsThatOfPurchases(b, [a1, a2, a3], store);
    EndAfterPrefix(EndOf(b, store), [Purchase(t1, length)], Purchase(t3, length), 1);
  }

  predicate About(b: Books, arrival: Arrival, id: nat, kind: Kind) {
    Effective(b, arrival.delivery) && PaymentOf(b, arrival.delivery) == id && arrival.delivery.kind == kind
  }

  // The payment was paid before or a success of it arrived; a failure came after that; a success
  // after such a failure.
  predicate EverPaid(b: Books, ds: seq<Arrival>, id: nat) {
    if ds == [] then Row(b.payments, id) && b.payments[id].value.status == Succeeded
    else EverPaid(b, ds[..|ds| - 1], id) || About(b, ds[|ds| - 1], id, SuccessEvent)
  }

  predicate EverReopened(b: Books, ds: seq<Arrival>, id: nat) {
    ds != [] && (EverReopened(b, ds[..|ds| - 1], id)
                 || (EverPaid(b, ds[..|ds| - 1], id) && About(b, ds[|ds| - 1], id, FailureEvent)))
  }

  predicate EverRepaid(b: Books, ds: seq<Arrival>, id: nat) {
    ds != [] && (EverRepaid(b, ds[..|ds| - 1], id)
                 || (EverReopened(b, ds[..|ds| - 1], id) && About(b, ds[|ds| - 1], id, SuccessEvent)))
  }

  // The row of the payment became Succeeded from one state of the tables to the next.
  predicate Turned(before: Books, after: Books, id: nat) {
    && Row(after.payments, id) && after.payments[id].value.status == Succeeded
    && !(Row(before.payments, id) && before.payments[id].value.status == Succeeded)
  }

  // A webhook extends a subscription if and only if it turns a payment, and then it extends that of
  // the payment's store; otherwise no subscription changes.
  lemma ExtendsWhatItTurns(b: Books, d: Delivery, now: int)
    ensures var after := HandleWebhook(b, d, now).0;
            && (forall id: nat :: Turned(b, after, id) ==>
                  && Effective(b, d) && PaymentOf(b, d) == id && d.kind == SuccessEvent
                  && after.subscriptions == Extended(b.subscriptions, b.payments[id].value.store, d.plan.value,
                                                     b.plans[d.plan.value].durationDays, now))
            && ((forall id: nat :: !Turned(b, after, id)) ==> after.subscriptions == b.subscriptions)
  {
    var after := HandleWebhook(b, d, now).0;
    if Effective(b, d) && d.kind == SuccessEvent && b.payments[PaymentOf(b, d)].value.status != Succeeded {
      assert Turned(b, after, PaymentOf(b, d));
    }
  }

  // How often the payment's row turns to Succeeded, so how often it extends a subscription.
  function TimesExtended(b: Books, ds: seq<Arrival>, id: nat): nat {
    if ds == [] then 0
    else
      TimesExtended(b, ds[..|ds| - 1], id) + if Turned(Deliver(b, ds[..|ds| - 1]), Deliver(b, ds), id) then 1 else 0
  }

  // The same count told from the list of deliveries alone.
  function Reckoned(b: Books, ds: seq<Arrival>, id: nat): nat {
    if ds == [] then 0
    else
      var front, last := ds[..|ds| - 1], ds[|ds| - 1];
      Reckoned(b, front, id) + if About(b, last, id, SuccessEvent) && !PaidAfter(b, front, id) then 1 else 0
  }

  lemma {:induction false} CountedFromTheList(b: Books, ds: seq<Arrival>, id: nat)
    requires Row(b.payments, id)
    ensures TimesExtended(b, ds, id) == Reckoned(b, ds, id)
  {
    if ds != [] {
      CountedFromTheList(b, ds[..|ds| - 1], id);
      StatusIsLatestEvent(b, ds[..|ds| - 1], id);
      StatusIsLatestEvent(b, ds, id);
    }
  }

  // One when the payment was paid before the deliveries: that was bought already.
  function Before(b: Books, id: nat): nat {
    if Row(b.payments, id) && b.payments[id].value.status == Succeeded then 1 else 0
  }

  lemma {:induction false} ReckonedOnceUnlessReopened(b: Books, ds: seq<Arrival>, id: nat)
    requires Row(b.payments, id)
    ensures Before(b, id) + Reckoned(b, ds, id) >= 1 <==> EverPaid(b, ds, id)
    ensures Before(b, id) + Reckoned(b, ds, id) >= 2 <==> EverRepaid(b, ds, id)
    ensures PaidAfter(b, ds, id) ==> EverPaid(b, ds, id)
    ensures EverPaid(b, ds, id) && !PaidAfter(b, ds, id) ==> EverReopened(b, ds, id)
    ensures EverReopened(b, ds, id) ==> EverPaid(b, ds, id)
    ensures EverReopened(b, ds, id) && PaidAfter(b, ds, id) ==> EverRepaid(b, ds, id)
    ensures EverRepaid(b, ds, id) ==> EverPaid(b, ds, id)
  {
    if ds != [] {
      ReckonedOnceUnlessReopened(b, ds[..|ds| - 1], id);
    }
  }

  // Any payment, paid before or not: it has extended a subscription at least once if and only if it
  // was ever paid, and more than once if and only if a failure came between being paid and a success.
  lemma ExtendedOnceUnlessReopened(b: Books, ds: seq<Arrival>, id: nat)
    requires Row(b.payments, id)
    ensures Before(b, id) + TimesExtended(b, ds, id) >= 1 <==> EverPaid(b, ds, id)
    ensures Before(b, id) + TimesExtended(b, ds, id) >= 2 <==> EverRepaid(b, ds, id)
  {
    CountedFromTheList(b, ds, id);
    ReckonedOnceUnlessReopened(b, ds, id);
  }

  // One payment, one plan of a day: paid twice for one purchase.
  lemma FailureReopensExample()
    ensures var b := Books(map[3 := Plan(1, 0)], [Some(Subscription(9, 3, Active, 0, 0, None))], [],
                           [Some(Payment(9, None, None, Pending, None))], []);
            var success := Delivery(true, true, SuccessEvent, Some(0), None, Some(3));
            var failure := Delivery(true, true, FailureEvent, Some(0), None, None);
            EndOf(Deliver(b, [Arrival(success, 0), Arrival(failure, 1), Arrival(success, 2)]), 9) == Some(2 * 24 * 3600)
  {
    var b := Books(map[3 := Plan(1, 0)], [Some(Subscription(9, 3, Active, 0, 0, None))], [],
                   [Some(Payment(9, None, None, Pending, None))], []);
    var success := Delivery(true, true, SuccessEvent, Some(0), None, Some(3));
    var failure := Delivery(true, true, FailureEvent, Some(0), None, None);
    assert Resolve(b.payments, success) == Success(Some(0)) && Resolve(b.payments, failure) == Success(Some(0));
    FailureReopensPayment(b, success, failure, 0, 1, 2);
    assert FindSubscription(b.subscriptions, 0, 9) == None;
    assert OfStore(b, 9) == Some(0);
  }
}
