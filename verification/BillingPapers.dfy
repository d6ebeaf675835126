// What the calls on subscriptions answer and what they leave of invoices, payments and the log.
module BillingPapers {
  import opened Common
  import opened BillingModel
  import opened SubscriptionGate
  import opened SubscriptionEffects
  import opened StoreAccounts

  ghost predicate OnlyInvoiceChanges(b: Books, after: Books, i: nat) {
    |after.invoices| == |b.invoices| && forall j :: 0 <= j < |b.invoices| && j != i ==> after.invoices[j] == b.invoices[j]
  }

  // An invoice goes through exactly if its subscription exists and has a known plan.  Then it is
  // marked paid at the time of the call, and the store may use its plan for that plan's days from
  // now on; no other paper changes.
  lemma InvoiceIsMarkedPaid(b: Books, i: nat, now: int)
    requires OnePerStore(b.subscriptions)
    ensures var (after, answer) := PayInvoice(b, i, now);
            && (answer.Failure? ==> after == b)
            && (answer == Failure(InvoiceNotFound) <==> !Row(b.invoices, i))
            && (answer == Failure(SubscriptionNotFound) <==>
                  Row(b.invoices, i) && !Row(b.subscriptions, b.invoices[i].value.subscription))
            && (answer.Success? <==>
                  && Row(b.invoices, i) && Row(b.subscriptions, b.invoices[i].value.subscription)
                  && b.subscriptions[b.invoices[i].value.subscription].value.plan in b.plans)
            && (answer.Success? ==>
                  var id := b.invoices[i].value.subscription;
                  var held := b.subscriptions[id].value;
                  && answer == Success(i)
                  && OnlyInvoiceChanges(b, after, i)
                  && after.invoices[i] == Some(Invoice(id, true, Some(now)))
                  && after.payments == b.payments && after.webhooks == b.webhooks && after.plans == b.plans
                  && AccountOf(after, held.store)
                     == Account(held.plan, Active, held.start, now + DAY * b.plans[held.plan].durationDays, held.trialEnd))
  {
    if PayInvoice(b, i, now).1.Success? {
      var id, after := b.invoices[i].value.subscription, PayInvoice(b, i, now).0;
      OneRowRewritten(b, after, id, after.subscriptions[id].value);
    }
  }

  // Trials, upgrades, activations and sweeps touch nothing but subscriptions, and a refused call
  // touches nothing at all.
  lemma OnlySubscriptionsChange(b: Books, timed: Timed)
    requires timed.op.OpTrial? || timed.op.OpUpgrade? || timed.op.OpActivate? || timed.op.OpSweep?
    ensures Apply(b, timed) == b.(subscriptions := Apply(b, timed).subscriptions)
  {
  }

  // An upgrade needs the subscription and the plan, in this order; so does an activation, whose plan
  // is that of the subscription; a suspension or deletion needs the subscription alone.
  lemma SubscriptionAnswers(b: Books, id: nat, plan: int, now: int)
    ensures Upgrade(b, id, plan, now).1
            == if !Row(b.subscriptions, id) then Failure(SubscriptionNotFound)
               else if plan in b.plans then Success(id) else Failure(PlanNotFound)
    ensures Activate(b, id, now).1
            == if !Row(b.subscriptions, id) then Failure(SubscriptionNotFound)
               else if b.subscriptions[id].value.plan in b.plans then Success(id) else Failure(PlanNotFound)
    ensures Suspend(b, id).1 == Delete(b, id).1
            == if Row(b.subscriptions, id) then Success(id) else Failure(SubscriptionNotFound)
    ensures Upgrade(b, id, plan, now).1.Failure? ==> Upgrade(b, id, plan, now).0 == b
    ensures Activate(b, id, now).1.Failure? ==> Activate(b, id, now).0 == b
    ensures !Row(b.subscriptions, id) ==> Suspend(b, id).0 == Delete(b, id).0 == b
    ensures Delete(b, id).0.webhooks == b.webhooks && Delete(b, id).0.plans == b.plans
    ensures |Delete(b, id).0.subscriptions| == |b.subscriptions|
  {
  }
}
