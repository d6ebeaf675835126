// The subscription gate against paid time, over whole runs with a clock that never goes back.
module SubscriptionGate {
  import opened Common
  import opened BillingModel

  datatype Op =
    | OpTrial(store: int, plan: int)
    | OpUpgrade(subscription: nat, plan: int)
    | OpPayInvoice(invoice: nat)
    | OpActivate(subscription: nat)
    | OpWebhook(delivery: Delivery)
    | OpDelete(subscription: nat)
    | OpSweep
      // Editing plans, writing invoices, starting payments: anything that leaves subscriptions alone.
    | OpEditOthers(plans: map<int, Plan>, invoices: seq<Option<Invoice>>, payments: seq<Option<Payment>>)

  datatype Timed = Timed(op: Op, at: int)

  function Apply(b: Books, timed: Timed): Books {
    match timed.op
    case OpTrial(store, plan) => StartTrial(b, store, plan, timed.at).0
    case OpUpgrade(id, plan) => Upgrade(b, id, plan, timed.at).0
    case OpPayInvoice(id) => PayInvoice(b, id, timed.at).0
    case OpActivate(id) => Activate(b, id, timed.at).0
    case OpWebhook(d) => HandleWebhook(b, d, timed.at).0
    case OpDelete(id) => Delete(b, id).0
    case OpSweep => Sweep(b, timed.at)
    case OpEditOthers(plans, invoices, payments) => b.(plans := plans, invoices := invoices, payments := payments)
  }

  function Run(b: Books, ops: seq<Timed>): Books {
    if ops == [] then b else Apply(Run(b, ops[..|ops| - 1]), ops[|ops| - 1])
  }

  ghost predicate ClockRuns(ops: seq<Timed>) {
    forall i, j :: 0 <= i < j < |ops| ==> ops[i].at <= ops[j].at
  }

  // At most one subscription per store; a suspended one has run out by `clock`.
  ghost predicate SubscriptionOk(s: Subscription, clock: int) {
    (s.status == Trial || s.status == Active || s.status == Suspended) && (s.status == Suspended ==> s.end <= clock)
  }

  ghost predicate Consistent(subs: seq<Option<Subscription>>, clock: int) {
    && (forall i :: 0 <= i < |subs| && subs[i].Some? ==> SubscriptionOk(subs[i].value, clock))
    && OnePerStore(subs)
  }

  ghost predicate OnePerStore(subs: seq<Option<Subscription>>) {
    forall i, j :: 0 <= i < j < |subs| && subs[i].Some? && subs[j].Some? ==> subs[i].value.store != subs[j].value.store
  }

  lemma ExtendedConsistent(subs: seq<Option<Subscription>>, store: int, plan: int, days: int, now: int)
    requires Consistent(subs, now)
    ensures Consistent(Extended(subs, store, plan, days, now), now)
  {
  }

  lemma LaterStillConsistent(subs: seq<Option<Subscription>>, clock: int, later: int)
    requires Consistent(subs, clock) && clock <= later
    ensures Consistent(subs, later)
  {
  }

  lemma StepConsistent(b: Books, timed: Timed)
    requires Consistent(b.subscriptions, timed.at)
    ensures Consistent(Apply(b, timed).subscriptions, timed.at)
  {
    match timed.op
    case OpWebhook(d) => WebhookConsistent(b, d, timed.at);
    case _ => OthersConsistent(b, timed);
  }

  lemma WebhookConsistent(b: Books, d: Delivery, now: int)
    requires Consistent(b.subscriptions, now)
    ensures Consistent(HandleWebhook(b, d, now).0.subscriptions, now)
  {
    if HandleWebhook(b, d, now).0.subscriptions != b.subscriptions {
      var payment := b.payments[Resolve(b.payments, d).value.value].value;
      ExtendedConsistent(b.subscriptions, payment.store, d.plan.value, b.plans[d.plan.value].durationDays, now);
    }
  }

  lemma OthersConsistent(b: Books, timed: Timed)
    requires Consistent(b.subscriptions, timed.at) && !timed.op.OpWebhook?
    ensures Consistent(Apply(b, timed).subscriptions, timed.at)
  {
  }

  lemma {:induction false} RunConsistent(b: Books, ops: seq<Timed>, clock: int)
    requires b.subscriptions == [] && ClockRuns(ops)
    requires forall i :: 0 <= i < |ops| ==> ops[i].at <= clock
    ensures Consistent(Run(b, ops).subscriptions, clock)
  {
    if ops != [] {
      var front, last := ops[..|ops| - 1], ops[|ops| - 1];
      RunConsistent(b, front, last.at);
      StepConsistent(Run(b, front), last);
      LaterStillConsistent(Run(b, ops).subscriptions, last.at, clock);
    }
  }

  // The store has a subscription that has not run out at time t.
  ghost predicate Paid(b: Books, store: int, t: int) {
    exists i :: 0 <= i < |b.subscriptions| && b.subscriptions[i].Some?
                && b.subscriptions[i].value.store == store && b.subscriptions[i].value.end > t
  }

  lemma UniqueIsFound(b: Books, store: int, i: nat)
    requires OnePerStore(b.subscriptions) && Row(b.subscriptions, i) && b.subscriptions[i].value.store == store
    ensures OfStore(b, store) == Some(i)
  {
  }

  // Nobody is locked out of time they have: at any moment, a subscription that has not run out
  // opens the gate.
  lemma {:induction false} PaidTimeIsNeverLocked(b: Books, ops: seq<Timed>, t: int, store: int)
    requires b.subscriptions == [] && ClockRuns(ops)
    requires forall i :: 0 <= i < |ops| ==> ops[i].at <= t
    requires Paid(Run(b, ops), store, t)
    ensures GateOpen(Run(b, ops), store)
  {
    RunConsistent(b, ops, t);
    var after := Run(b, ops);
    var i :| 0 <= i < |after.subscriptions| && after.subscriptions[i].Some?
             && after.subscriptions[i].value.store == store && after.subscriptions[i].value.end > t;
    UniqueIsFound(after, store, i);
  }

  // The store's subscription has run out but no sweep has come by since.
  ghost predicate AwaitsSweep(b: Books, store: int, t: int) {
    exists i :: 0 <= i < |b.subscriptions| && b.subscriptions[i].Some?
                && b.subscriptions[i].value.store == store && Overdue(b.subscriptions[i].value, t)
  }

  // At any moment the gate is open exactly for paid time and for what the next sweep will close.
  lemma {:induction false} GateAtAnyMoment(b: Books, ops: seq<Timed>, t: int, store: int)
    requires b.subscriptions == [] && ClockRuns(ops) && store != 0
    requires forall i :: 0 <= i < |ops| ==> ops[i].at <= t
    ensures GateOpen(Run(b, ops), store) <==> Paid(Run(b, ops), store, t) || AwaitsSweep(Run(b, ops), store, t)
  {
    RunConsistent(b, ops, t);
    var after := Run(b, ops);
    if Paid(after, store, t) {
      PaidTimeIsNeverLocked(b, ops, t, store);
    }
    if AwaitsSweep(after, store, t) {
      var i :| 0 <= i < |after.subscriptions| && after.subscriptions[i].Some?
               && after.subscriptions[i].value.store == store && Overdue(after.subscriptions[i].value, t);
      UniqueIsFound(after, store, i);
    }
    if GateOpen(after, store) {
      var i := OfStore(after, store).value;
      assert after.subscriptions[i].value.store == store;
    }
  }

  // Right after a sweep the gate agrees with paid time in both directions.
  lemma {:induction false} GateAgreesAfterSweep(b: Books, ops: seq<Timed>, store: int)
    requires b.subscriptions == [] && ClockRuns(ops) && store != 0
    requires |ops| > 0 && ops[|ops| - 1].op.OpSweep?
    ensures GateOpen(Run(b, ops), store) <==> Paid(Run(b, ops), store, ops[|ops| - 1].at)
  {
    var t := ops[|ops| - 1].at;
    var after := Run(b, ops);
    RunConsistent(b, ops, t);
    if GateOpen(after, store) {
      var i := OfStore(after, store).value;
      assert after.subscriptions[i].value.end > t;
      assert after.subscriptions[i].value.store == store;
    }
    if Paid(after, store, t) {
      PaidTimeIsNeverLocked(b, ops, t, store);
    }
  }
}
