// Subscriptions, their invoices and the payments that extend them: the tables as values and what
// each service call does to them.  Row ids are positions; a deleted row leaves a gap.  Time is in
// seconds.
module BillingModel {
  import opened Common

  const DAY := 24 * 60 * 60

  datatype SubscriptionStatus = Trial | Active | PastDue | Suspended | Cancelled | Expired

  datatype PaymentStatus = Pending | Succeeded | Failed | Refunded

  datatype Plan = Plan(durationDays: int, trialDays: int)

  datatype Subscription = Subscription(
    store: int, plan: int, status: SubscriptionStatus, start: int, end: int, trialEnd: Option<int>)

  datatype Invoice = Invoice(subscription: nat, paid: bool, paidAt: Option<int>)

  datatype Payment = Payment(
    store: int, subscription: Option<nat>, intent: Option<string>, status: PaymentStatus, paidAt: Option<int>)

  // The log entry a webhook leaves.
  datatype Problem = InvalidSignature | PaymentNotFound
  datatype WebhookLog = WebhookLog(payment: Option<nat>, processed: bool, problem: Option<Problem>)

  datatype Books = Books(
    plans: map<int, Plan>,
    subscriptions: seq<Option<Subscription>>,
    invoices: seq<Option<Invoice>>,
    payments: seq<Option<Payment>>,
    webhooks: seq<WebhookLog>)

  // What a provider's event says, after the provider has normalised it.
  datatype Kind = SuccessEvent | FailureEvent | OtherEvent
  datatype Delivery = Delivery(
    providerKnown: bool, signatureValid: bool, kind: Kind,
    payment: Option<nat>, intent: Option<string>, plan: Option<int>)

  datatype Error =
    | AlreadySubscribed | PlanNotFound | SubscriptionNotFound | InvoiceNotFound
    | ProviderUnknown | SeveralPayments

  type Answer = Result<nat, Error>

  // ----- reading -----

  predicate Row<T>(table: seq<Option<T>>, id: nat) {
    id < |table| && table[id].Some?
  }

  // The subscription of the store among the first n rows.
  function FindSubscription(subs: seq<Option<Subscription>>, n: nat, store: int): (r: Option<nat>)
    requires n <= |subs|
    ensures r.Some? ==> r.value < n && subs[r.value].Some? && subs[r.value].value.store == store
    ensures r.None? ==> forall i :: 0 <= i < n && subs[i].Some? ==> subs[i].value.store != store
  {
    if n == 0 then None
    else
      var earlier := FindSubscription(subs, n - 1, store);
      if earlier.Some? then earlier
      else if subs[n - 1].Some? && subs[n - 1].value.store == store then Some(n - 1)
      else None
  }

  function OfStore(b: Books, store: int): Option<nat> {
    FindSubscription(b.subscriptions, |b.subscriptions|, store)
  }

  function EndOf(b: Books, store: int): Option<int> {
    var s := OfStore(b, store);
    if s.Some? then Some(b.subscriptions[s.value].value.end) else None
  }

  // What a store has: nothing, or a subscription with everything its row says.
  datatype Account =
    | NoAccount
    | Account(plan: int, status: SubscriptionStatus, start: int, end: int, trialEnd: Option<int>)

  // The store may use what it pays for.
  predicate Open(a: Account) {
    a.Account? && (a.status == Active || a.status == Trial)
  }

  function AccountOf(b: Books, store: int): Account {
    var s := OfStore(b, store);
    if s.None? then NoAccount else AccountIn(b.subscriptions[s.value].value)
  }

  function AccountIn(s: Subscription): Account {
    Account(s.plan, s.status, s.start, s.end, s.trialEnd)
  }

  // What the subscription gate lets through; no store selected means nothing to check.
  predicate GateOpen(b: Books, store: int) {
    store == 0 ||
    (var s := OfStore(b, store);
     s.Some? && (b.subscriptions[s.value].value.status == Active || b.subscriptions[s.value].value.status == Trial))
  }

  // ----- subscriptions -----

  function StartTrial(b: Books, store: int, plan: int, now: int): (Books, Answer) {
    if OfStore(b, store).Some? then (b, Failure(AlreadySubscribed))
    else if plan !in b.plans then (b, Failure(PlanNotFound))
    else
      var end := now + DAY * b.plans[plan].trialDays;
      (b.(subscriptions := b.subscriptions + [Some(Subscription(store, plan, Trial, now, end, Some(end)))]),
       Success(|b.subscriptions|))
  }

  function Upgrade(b: Books, id: nat, plan: int, now: int): (Books, Answer) {
    if !Row(b.subscriptions, id) then (b, Failure(SubscriptionNotFound))
    else if plan !in b.plans then (b, Failure(PlanNotFound))
    else
      var s := b.subscriptions[id].value;
      (b.(subscriptions := b.subscriptions[id := Some(s.(plan := plan, status := Active, start := now,
                                                         end := now + DAY * b.plans[plan].durationDays, trialEnd := None))]),
       Success(id))
  }

  function Activate(b: Books, id: nat, now: int): (Books, Answer) {
    if !Row(b.subscriptions, id) then (b, Failure(SubscriptionNotFound))
    else
      var s := b.subscriptions[id].value;
      if s.plan !in b.plans then (b, Failure(PlanNotFound))
      else
        (b.(subscriptions := b.subscriptions[id := Some(s.(status := Active, end := now + DAY * b.plans[s.plan].durationDays))]),
         Success(id))
  }

  function PayInvoice(b: Books, id: nat, now: int): (Books, Answer) {
    if !Row(b.invoices, id) then (b, Failure(InvoiceNotFound))
    else
      var invoice := b.invoices[id].value;
      var activated := Activate(b, invoice.subscription, now);
      if activated.1.Failure? then (b, activated.1)
      else
        (activated.0.(invoices := b.invoices[id := Some(invoice.(paid := true, paidAt := Some(now)))]), Success(id))
  }

  function Suspend(b: Books, id: nat): (Books, Answer) {
    if !Row(b.subscriptions, id) then (b, Failure(SubscriptionNotFound))
    else
      (b.(subscriptions := b.subscriptions[id := Some(b.subscriptions[id].value.(status := Suspended))]), Success(id))
  }

  // Deleting a subscription takes its invoices and, by cascade, its payments along.
  function Delete(b: Books, id: nat): (Books, Answer) {
    if !Row(b.subscriptions, id) then (b, Failure(SubscriptionNotFound))
    else
      (b.(subscriptions := b.subscriptions[id := None],
          invoices := seq(|b.invoices|, i requires 0 <= i < |b.invoices| =>
            if b.invoices[i].Some? && b.invoices[i].value.subscription == id then None else b.invoices[i]),
          payments := seq(|b.payments|, i requires 0 <= i < |b.payments| =>
            if b.payments[i].Some? && b.payments[i].value.subscription == Some(id) then None else b.payments[i])),
       Success(id))
  }

  // ----- the sweep -----

  predicate Overdue(s: Subscription, now: int) {
    (s.status == Active || s.status == Trial) && s.end <= now
  }

  function Sweep(b: Books, now: int): Books {
    b.(subscriptions := seq(|b.subscriptions|, i requires 0 <= i < |b.subscriptions| =>
         if b.subscriptions[i].Some? && Overdue(b.subscriptions[i].value, now)
         then Some(b.subscriptions[i].value.(status := Suspended)) else b.subscriptions[i]))
  }

  // ----- webhooks -----

  // The payments with this intent among the first n rows.
  function WithIntent(payments: seq<Option<Payment>>, n: nat, intent: string): (r: seq<nat>)
    requires n <= |payments|
    ensures forall i :: 0 <= i < |r| ==> r[i] < n && payments[r[i]].Some?
  {
    if n == 0 then []
    else
      WithIntent(payments, n - 1, intent)
      + if payments[n - 1].Some? && payments[n - 1].value.intent == Some(intent) then [n - 1] else []
  }

  // The payment an event is about: by its id, or else by its intent, which must be unambiguous.
  function Resolve(payments: seq<Option<Payment>>, d: Delivery): (r: Result<Option<nat>, Error>)
    ensures r.Success? && r.value.Some? ==> Row(payments, r.value.value)
  {
    if d.payment.Some? && Row(payments, d.payment.value) then Success(d.payment)
    else if d.intent.None? then Success(None)
    else
      var found := WithIntent(payments, |payments|, d.intent.value);
      if |found| == 0 then Success(None)
      else if |found| == 1 then Success(Some(found[0]))
      else Failure(SeveralPayments)
  }

  function Extended(subs: seq<Option<Subscription>>, store: int, plan: int, days: int, now: int): seq<Option<Subscription>> {
    var s := FindSubscription(subs, |subs|, store);
    if s.Some? then
      var held := subs[s.value].value;
      subs[s.value := Some(held.(plan := plan, status := Active, end := Max(held.end, now) + DAY * days))]
    else subs + [Some(Subscription(store, plan, Active, now, now + DAY * days, None))]
  }

  // A payment that already succeeded is left alone; otherwise it is marked and the store's
  // subscription extended.  An event without a known plan raises and undoes everything.
  function ProcessSuccess(b: Books, id: nat, plan: Option<int>, now: int): (Books, Answer)
    requires Row(b.payments, id)
  {
    var payment := b.payments[id].value;
    if payment.status == Succeeded then (b, Success(id))
    else if plan.None? || plan.value !in b.plans then (b, Failure(PlanNotFound))
    else
      (b.(payments := b.payments[id := Some(payment.(status := Succeeded, paidAt := Some(now)))],
          subscriptions := Extended(b.subscriptions, payment.store, plan.value, b.plans[plan.value].durationDays, now)),
       Success(id))
  }

  function ProcessFailure(b: Books, id: nat): Books
    requires Row(b.payments, id)
  {
    b.(payments := b.payments[id := Some(b.payments[id].value.(status := Failed))])
  }

  function HandleWebhook(b: Books, d: Delivery, now: int): (Books, Answer) {
    var log := |b.webhooks|;
    if !d.providerKnown then (b, Failure(ProviderUnknown))
    else if !d.signatureValid then
      (b.(webhooks := b.webhooks + [WebhookLog(None, false, Some(InvalidSignature))]), Success(log))
    else
      var resolved := Resolve(b.payments, d);
      if resolved.Failure? then (b, Failure(resolved.error))
      else if resolved.value.None? then
        (b.(webhooks := b.webhooks + [WebhookLog(None, true, Some(PaymentNotFound))]), Success(log))
      else
        var id := resolved.value.value;
        var logged := b.(webhooks := b.webhooks + [WebhookLog(Some(id), true, None)]);
        match d.kind
        case SuccessEvent =>
          var processed := ProcessSuccess(logged, id, d.plan, now);
          if processed.1.Failure? then (b, processed.1) else (processed.0, Success(log))
        case FailureEvent => (ProcessFailure(logged, id), Success(log))
        case OtherEvent => (logged, Success(log))
  }
}
