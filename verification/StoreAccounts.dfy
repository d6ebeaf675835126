// Every call on the billing tables, told store by store.
module StoreAccounts {
  import opened Common
  import opened BillingModel
  import opened SubscriptionGate
  import opened SubscriptionEffects
  import opened WebhookRedelivery

  predicate Holds(b: Books, id: nat, store: int) {
    Row(b.subscriptions, id) && b.subscriptions[id].value.store == store
  }

  // The store's subscription, if it has a known plan, runs that plan's days from now.
  function Restarted(b: Books, id: nat, store: int, now: int, a: Account): Account {
    if Holds(b, id, store) && a.Account? && a.plan in b.plans
    then a.(status := Active, end := now + DAY * b.plans[a.plan].durationDays) else a
  }

  // A payment of `days` days for the plan: they follow the time the store has left.
  function PaidFor(a: Account, plan: int, days: int, now: int): Account {
    if a.NoAccount? then Account(plan, Active, now, now + DAY * days, None)
    else a.(plan := plan, status := Active, end := (if a.end > now then a.end else now) + DAY * days)
  }

  // What a call makes of one store's account.
  function Next(b: Books, timed: Timed, store: int, a: Account): Account {
    var now := timed.at;
    match timed.op
    case OpTrial(of, plan) =>
      if of == store && a.NoAccount? && plan in b.plans then
        var end := now + DAY * b.plans[plan].trialDays;
        Account(plan, Trial, now, end, Some(end))
      else a
    case OpUpgrade(id, plan) =>
      if Holds(b, id, store) && plan in b.plans then Account(plan, Active, now, now + DAY * b.plans[plan].durationDays, None)
      else a
    case OpActivate(id) => Restarted(b, id, store, now, a)
    case OpPayInvoice(i) => if Row(b.invoices, i) then Restarted(b, b.invoices[i].value.subscription, store, now, a) else a
    case OpWebhook(d) =>
      if Effective(b, d) && d.kind == SuccessEvent && b.payments[PaymentOf(b, d)].value.status != Succeeded
         && b.payments[PaymentOf(b, d)].value.store == store
      then PaidFor(a, d.plan.value, b.plans[d.plan.value].durationDays, now) else a
    case OpDelete(id) => if Holds(b, id, store) then NoAccount else a
    case OpSweep => if Open(a) && a.end <= now then a.(status := Suspended) else a
    case OpEditOthers(_, _, _) => a
  }

  // The tables hold one account per store after the call, and each is what the call makes of it.
  ghost predicate Refines(b: Books, timed: Timed) {
    && OnePerStore(Apply(b, timed).subscriptions)
    && forall store :: AccountOf(Apply(b, timed), store) == Next(b, timed, store, AccountOf(b, store))
  }

  lemma Unchanged(b: Books, timed: Timed)
    requires OnePerStore(b.subscriptions) && Apply(b, timed).subscriptions == b.subscriptions
    requires forall store :: Next(b, timed, store, AccountOf(b, store)) == AccountOf(b, store)
    ensures Refines(b, timed)
  {
    forall store
      ensures AccountOf(Apply(b, timed), store) == AccountOf(b, store)
    {
    }
  }

  lemma TrialRefines(b: Books, of: int, plan: int, now: int)
    requires OnePerStore(b.subscriptions)
    ensures Refines(b, Timed(OpTrial(of, plan), now))
  {
    if AccountOf(b, of).NoAccount? && plan in b.plans {
      var after := StartTrial(b, of, plan, now).0;
      OneRowAdded(b, after, after.subscriptions[|b.subscriptions|].value);
    } else {
      Unchanged(b, Timed(OpTrial(of, plan), now));
    }
  }

  lemma UpgradeRefines(b: Books, id: nat, plan: int, now: int)
    requires OnePerStore(b.subscriptions)
    ensures Refines(b, Timed(OpUpgrade(id, plan), now))
  {
    if Row(b.subscriptions, id) && plan in b.plans {
      var after := Upgrade(b, id, plan, now).0;
      OneRowRewritten(b, after, id, after.subscriptions[id].value);
    } else {
      Unchanged(b, Timed(OpUpgrade(id, plan), now));
    }
  }

  lemma ActivateRefines(b: Books, id: nat, now: int)
    requires OnePerStore(b.subscriptions)
    ensures Refines(b, Timed(OpActivate(id), now))
  {
    if Row(b.subscriptions, id) && b.subscriptions[id].value.plan in b.plans {
      var after := Activate(b, id, now).0;
      OneRowRewritten(b, after, id, after.subscriptions[id].value);
    } else {
      Unchanged(b, Timed(OpActivate(id), now));
    }
  }

  lemma InvoiceRefines(b: Books, i: nat, now: int)
    requires OnePerStore(b.subscriptions)
    ensures Refines(b, Timed(OpPayInvoice(i), now))
  {
    if PayInvoice(b, i, now).1.Success? {
      var id, after := b.invoices[i].value.subscription, PayInvoice(b, i, now).0;
      OneRowRewritten(b, after, id, after.subscriptions[id].value);
    } else {
      Unchanged(b, Timed(OpPayInvoice(i), now));
    }
  }

  lemma WebhookRefines(b: Books, d: Delivery, now: int)
    requires OnePerStore(b.subscriptions)
    ensures Refines(b, Timed(OpWebhook(d), now))
  {
    if Effective(b, d) && d.kind == SuccessEvent && b.payments[PaymentOf(b, d)].value.status != Succeeded {
      var store := b.payments[PaymentOf(b, d)].value.store;
      OneRowExtended(b, HandleWebhook(b, d, now).0, store, d.plan.value, b.plans[d.plan.value].durationDays, now);
    } else {
      Unchanged(b, Timed(OpWebhook(d), now));
    }
  }

  lemma DeleteRefines(b: Books, id: nat, now: int)
    requires OnePerStore(b.subscriptions)
    ensures Refines(b, Timed(OpDelete(id), now))
  {
    if Row(b.subscriptions, id) {
      OneRowRemoved(b, Delete(b, id).0, id);
    } else {
      Unchanged(b, Timed(OpDelete(id), now));
    }
  }

  lemma SweepRefines(b: Books, now: int)
    requires OnePerStore(b.subscriptions)
    ensures Refines(b, Timed(OpSweep, now))
  {
    var after := Sweep(b, now);
    forall store
      ensures AccountOf(after, store) == Next(b, Timed(OpSweep, now), store, AccountOf(b, store))
    {
      var s := OfStore(b, store);
      if s.Some? {
        UniqueIsFound(after, store, s.value);
      } else {
        assert OfStore(after, store).None?;
      }
    }
  }

  // Any call, with the tables holding one subscription per store: every store's account becomes what
  // the call makes of it, so all stores the call is not about keep theirs.
  lemma AnyCall(b: Books, timed: Timed)
    requires OnePerStore(b.subscriptions)
    ensures Refines(b, timed)
  {
    match timed.op
    case OpTrial(of, plan) => TrialRefines(b, of, plan, timed.at);
    case OpUpgrade(id, plan) => UpgradeRefines(b, id, plan, timed.at);
    case OpActivate(id) => ActivateRefines(b, id, timed.at);
    case OpPayInvoice(i) => InvoiceRefines(b, i, timed.at);
    case OpWebhook(d) => WebhookRefines(b, d, timed.at);
    case OpDelete(id) => DeleteRefines(b, id, timed.at);
    case OpSweep => SweepRefines(b, timed.at);
    case OpEditOthers(_, _, _) => Unchanged(b, timed);
  }

  // The account of one store, kept call by call.
  function Kept(b: Books, ops: seq<Timed>, store: int): Account {
    if ops == [] then NoAccount
    else
      var front, last := ops[..|ops| - 1], ops[|ops| - 1];
      Next(Run(b, front), last, store, Kept(b, front, store))
  }

  // Over every run from empty tables the rows and their first-match lookup amount to one account per
  // store, whatever the clock does; gate and end date are those of the account.
  lemma {:induction false} AccountsOverRuns(b: Books, ops: seq<Timed>, store: int)
    requires b.subscriptions == []
    ensures OnePerStore(Run(b, ops).subscriptions)
    ensures AccountOf(Run(b, ops), store) == Kept(b, ops, store)
    ensures GateOpen(Run(b, ops), store) <==> store == 0 || Open(Kept(b, ops, store))
    ensures EndOf(Run(b, ops), store) == if Kept(b, ops, store).Account? then Some(Kept(b, ops, store).end) else None
  {
    if ops != [] {
      AccountsOverRuns(b, ops[..|ops| - 1], store);
      AnyCall(Run(b, ops[..|ops| - 1]), ops[|ops| - 1]);
    }
    AccountTells(Run(b, ops), store);
  }
}
