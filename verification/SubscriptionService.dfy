// Subscriptions, the sweep and the payment webhooks, in place.
module SubscriptionService {
  import opened Common
  import opened BillingModel

  class BillingTables {
    var plans: map<int, Plan>
    var subscriptions: seq<Option<Subscription>>
    var invoices: seq<Option<Invoice>>
    var payments: seq<Option<Payment>>
    var webhooks: seq<WebhookLog>

    ghost function Snapshot(): Books
      reads this
    {
      Books(plans, subscriptions, invoices, payments, webhooks)
    }

    constructor (plans: map<int, Plan>)
      ensures Snapshot() == Books(plans, [], [], [], [])
    {
      this.plans := plans;
      subscriptions, invoices, payments, webhooks := [], [], [], [];
    }

    method StartTrial(store: int, plan: int, now: int) returns (answer: Answer)
      modifies this`subscriptions
      ensures (Snapshot(), answer) == BillingModel.StartTrial(old(Snapshot()), store, plan, now)
    {
      var existing := FindSubscription(subscriptions, |subscriptions|, store);
      if existing.Some? {
        return Failure(AlreadySubscribed);
      }
      if plan !in plans {
        return Failure(PlanNotFound);
      }
      var trialEnd := now + DAY * plans[plan].trialDays;
      subscriptions := subscriptions + [Some(Subscription(store, plan, Trial, now, trialEnd, Some(trialEnd)))];
      return Success(|subscriptions| - 1);
    }

    method UpgradeSubscription(id: nat, plan: int, now: int) returns (answer: Answer)
      modifies this`subscriptions
      ensures (Snapshot(), answer) == Upgrade(old(Snapshot()), id, plan, now)
    {
      if !Row(subscriptions, id) {
        return Failure(SubscriptionNotFound);
      }
      if plan !in plans {
        return Failure(PlanNotFound);
      }
      var subscription := subscriptions[id].value;
      subscription := subscription.(plan := plan, status := Active, start := now);
      subscription := subscription.(end := subscription.start + DAY * plans[plan].durationDays, trialEnd := None);
      subscriptions := subscriptions[id := Some(subscription)];
      return Success(id);
    }

    method ActivateSubscription(id: nat, now: int) returns (answer: Answer)
      modifies this`subscriptions
      ensures (Snapshot(), answer) == Activate(old(Snapshot()), id, now)
    {
      if !Row(subscriptions, id) {
        return Failure(SubscriptionNotFound);
      }
      var subscription := subscriptions[id].value;
      subscription := subscription.(status := Active);
      if subscription.plan !in plans {
        return Failure(PlanNotFound);
      }
      subscription := subscription.(end := now + DAY * plans[subscription.plan].durationDays);
      subscriptions := subscriptions[id := Some(subscription)];
      return Success(id);
    }

    // Marks the invoice, then activates its subscription; if that fails both are undone.
    method HandleInvoicePayment(id: nat, now: int) returns (answer: Answer)
      modifies this`subscriptions, this`invoices
      ensures (Snapshot(), answer) == PayInvoice(old(Snapshot()), id, now)
    {
      if !Row(invoices, id) {
        return Failure(InvoiceNotFound);
      }
      var saved, invoice := invoices, invoices[id].value;
      invoices := invoices[id := Some(invoice.(paid := true, paidAt := Some(now)))];
      var activated := ActivateSubscription(invoice.subscription, now);
      if activated.Failure? {
        invoices := saved;
        return activated;
      }
      return Success(id);
    }

    method SuspendSubscription(id: nat) returns (answer: Answer)
      modifies this`subscriptions
      ensures (Snapshot(), answer) == Suspend(old(Snapshot()), id)
    {
      if !Row(subscriptions, id) {
        return Failure(SubscriptionNotFound);
      }
      subscriptions := subscriptions[id := Some(subscriptions[id].value.(status := Suspended))];
      return Success(id);
    }

    method DeleteSubscription(id: nat) returns (answer: Answer)
      modifies this`subscriptions, this`invoices, this`payments
      ensures (Snapshot(), answer) == Delete(old(Snapshot()), id)
    {
      if !Row(subscriptions, id) {
        return Failure(SubscriptionNotFound);
      }
      var theirs, paid := invoices, payments;
      invoices := seq(|theirs|, i requires 0 <= i < |theirs| =>
        if theirs[i].Some? && theirs[i].value.subscription == id then None else theirs[i]);
      payments := seq(|paid|, i requires 0 <= i < |paid| =>
        if paid[i].Some? && paid[i].value.subscription == Some(id) then None else paid[i]);
      subscriptions := subscriptions[id := None];
      ghost var deleted := Delete(old(Snapshot()), id).0;
      assert invoices == deleted.invoices && payments == deleted.payments;
      return Success(id);
    }

    // Selects the rows that have run out, then suspends them one after the other.
    method CheckExpiredSubscriptions(now: int)
      modifies this`subscriptions
      ensures Snapshot() == Sweep(old(Snapshot()), now)
    {
      ghost var before, swept := subscriptions, Sweep(Snapshot(), now).subscriptions;
      var expired := OverdueIds(subscriptions, |subscriptions|, now);
      for k := 0 to |expired|
        invariant |subscriptions| == |before|
        invariant forall i :: 0 <= i < |before| ==> subscriptions[i] == if i in expired[k..] then before[i] else swept[i]
      {
        var id := expired[k];
        assert expired[k..] == [id] + expired[k + 1..];
        assert id !in expired[k + 1..];
        assert id in expired;
        assert subscriptions[id] == before[id];
        var _ := SuspendSubscription(id);
      }
      assert expired[|expired|..] == [];
      assert subscriptions == swept;
    }

    // Looks the payment up, acts on it and keeps a log entry; an exception undoes all of it.
    method HandleWebhook(d: Delivery, now: int) returns (answer: Answer)
      modifies this`subscriptions, this`payments, this`webhooks
      ensures (Snapshot(), answer) == BillingModel.HandleWebhook(old(Snapshot()), d, now)
    {
      if !d.providerKnown {
        return Failure(ProviderUnknown);
      }
      var saved, log := webhooks, |webhooks|;
      webhooks := webhooks + [WebhookLog(None, false, None)];
      if !d.signatureValid {
        webhooks := webhooks[log := webhooks[log].(problem := Some(InvalidSignature))];
        assert webhooks == saved + [WebhookLog(None, false, Some(InvalidSignature))];
        return Success(log);
      }
      var resolved := Resolve(payments, d);
      if resolved.Failure? {
        webhooks := saved;
        return Failure(resolved.error);
      }
      if resolved.value.None? {
        webhooks := webhooks[log := webhooks[log].(processed := true, problem := Some(PaymentNotFound))];
        assert webhooks == saved + [WebhookLog(None, true, Some(PaymentNotFound))];
        return Success(log);
      }
      var id := resolved.value.value;
      webhooks := webhooks[log := webhooks[log].(payment := Some(id))];
      if d.kind == SuccessEvent {
        var processed := ProcessSuccess(id, d.plan, now);
        if processed.Failure? {
          webhooks := saved;
          return processed;
        }
      } else if d.kind == FailureEvent {
        ProcessFailure(id);
      }
      webhooks := webhooks[log := webhooks[log].(processed := true)];
      assert webhooks == saved + [WebhookLog(Some(id), true, None)];
      return Success(log);
    }

    method ProcessSuccess(id: nat, plan: Option<int>, now: int) returns (answer: Answer)
      requires Row(payments, id)
      modifies this`subscriptions, this`payments
      ensures (Snapshot(), answer) == BillingModel.ProcessSuccess(old(Snapshot()), id, plan, now)
    {
      var payment := payments[id].value;
      if payment.status == Succeeded {
        return Success(id);
      }
      var saved := payments;
      payments := payments[id := Some(payment.(status := Succeeded, paidAt := Some(now)))];
      if plan.None? || plan.value !in plans {
        payments := saved;
        return Failure(PlanNotFound);
      }
      var days := plans[plan.value].durationDays;
      var held := FindSubscription(subscriptions, |subscriptions|, payment.store);
      if held.Some? {
        var subscription := subscriptions[held.value].value;
        var newEnd := Max(subscription.end, now) + DAY * days;
        subscriptions := subscriptions[held.value := Some(subscription.(plan := plan.value, status := Active, end := newEnd))];
      } else {
        subscriptions := subscriptions + [Some(Subscription(payment.store, plan.value, Active, now, now + DAY * days, None))];
      }
      return Success(id);
    }

    method ProcessFailure(id: nat)
      requires Row(payments, id)
      modifies this`payments
      ensures Snapshot() == BillingModel.ProcessFailure(old(Snapshot()), id)
    {
      payments := payments[id := Some(payments[id].value.(status := Failed))];
    }
  }

  // The rows the sweep's query selects, each once.
  function OverdueIds(subs: seq<Option<Subscription>>, n: nat, now: int): (ids: seq<nat>)
    requires n <= |subs|
    ensures forall i: nat :: i in ids <==> i < n && subs[i].Some? && Overdue(subs[i].value, now)
    ensures forall x :: 0 <= x < |ids| ==> ids[x] < n
    ensures forall x, y :: 0 <= x < y < |ids| ==> ids[x] < ids[y]
  {
    if n == 0 then []
    else OverdueIds(subs, n - 1, now) + if subs[n - 1].Some? && Overdue(subs[n - 1].value, now) then [n - 1] else []
  }
}
