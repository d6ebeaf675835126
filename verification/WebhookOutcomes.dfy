// Which payment a webhook is about, told from the rows of the table, and what the webhook then does
// to every row.
module WebhookOutcomes {
  import opened Common
  import opened BillingModel
  import opened WebhookRedelivery

  // ----- which payment an event is about -----

  predicate IsRow(payments: seq<Option<Payment>>, i: nat) {
    i < |payments| && payments[i] != None
  }

  predicate RowWithIntent(payments: seq<Option<Payment>>, i: nat, intent: Option<string>) {
    IsRow(payments, i) && intent.Some? && payments[i].value.intent == intent
  }

  predicate NamesARow(payments: seq<Option<Payment>>, d: Delivery) {
    d.payment.Some? && IsRow(payments, d.payment.value)
  }

  // The event's id names the row; or it names no row, and this is the only row with its intent.
  ghost predicate IsAbout(payments: seq<Option<Payment>>, d: Delivery, i: nat) {
    if NamesARow(payments, d) then i == d.payment.value
    else RowWithIntent(payments, i, d.intent) && forall j: nat :: RowWithIntent(payments, j, d.intent) ==> j == i
  }

  // The id names no row, and two rows have the event's intent.
  ghost predicate IsAmbiguous(payments: seq<Option<Payment>>, d: Delivery) {
    && !NamesARow(payments, d)
    && exists i: nat, j: nat :: i < j && RowWithIntent(payments, i, d.intent) && RowWithIntent(payments, j, d.intent)
  }

  lemma {:induction false} IntentRows(payments: seq<Option<Payment>>, n: nat, intent: string)
    requires n <= |payments|
    ensures forall i: nat :: i in WithIntent(payments, n, intent) <==> i < n && RowWithIntent(payments, i, Some(intent))
    ensures forall x, y :: 0 <= x < y < |WithIntent(payments, n, intent)| ==>
              WithIntent(payments, n, intent)[x] < WithIntent(payments, n, intent)[y]
  {
    if n > 0 {
      IntentRows(payments, n - 1, intent);
    }
  }

  // The lookup raises exactly for an ambiguous event, finds exactly the row the event is about, and
  // comes back empty-handed exactly if there is no such row.
  lemma LookupFindsIt(payments: seq<Option<Payment>>, d: Delivery)
    ensures Resolve(payments, d).Failure? <==> IsAmbiguous(payments, d)
    ensures Resolve(payments, d).Failure? ==> Resolve(payments, d).error == SeveralPayments
    ensures forall i: nat :: Resolve(payments, d) == Success(Some(i)) <==> IsAbout(payments, d, i)
    ensures Resolve(payments, d) == Success(None)
            <==> !IsAmbiguous(payments, d) && forall i: nat :: !IsAbout(payments, d, i)
  {
    if !NamesARow(payments, d) && d.intent.Some? {
      LookupByIntent(payments, d);
    }
  }

  lemma LookupByIntent(payments: seq<Option<Payment>>, d: Delivery)
    requires !NamesARow(payments, d) && d.intent.Some?
    ensures Resolve(payments, d).Failure? <==> IsAmbiguous(payments, d)
    ensures forall i: nat :: Resolve(payments, d) == Success(Some(i)) <==> IsAbout(payments, d, i)
  {
    var found := WithIntent(payments, |payments|, d.intent.value);
    IntentRows(payments, |payments|, d.intent.value);
    if |found| >= 2 {
      assert found[0] in found && found[1] in found;
      assert RowWithIntent(payments, found[0], d.intent) && RowWithIntent(payments, found[1], d.intent);
    } else if |found| == 1 {
      assert found[0] in found;
      assert RowWithIntent(payments, found[0], d.intent);
    }
  }

  // ----- what a webhook does -----

  ghost predicate OnlyPaymentChanges(b: Books, after: Books, i: nat) {
    && |after.payments| == |b.payments|
    && forall j :: 0 <= j < |b.payments| && j != i ==> after.payments[j] == b.payments[j]
  }

  // The row is marked with the status, and with the time of the call if it was paid.
  predicate Marked(before: Option<Payment>, after: Option<Payment>, status: PaymentStatus, now: int) {
    && before.Some? && after.Some?
    && after.value.store == before.value.store && after.value.subscription == before.value.subscription
    && after.value.intent == before.value.intent && after.value.status == status
    && after.value.paidAt == if status == Succeeded then Some(now) else before.value.paidAt
  }

  // A genuine event about payment i: what it says decides what happens.
  ghost predicate Acted(b: Books, d: Delivery, i: nat, now: int, after: Books, answer: Answer)
    requires IsRow(b.payments, i)
  {
    var paid := b.payments[i].value.status == Succeeded;
    var known := d.plan.Some? && d.plan.value in b.plans;
    && (answer.Failure? <==> d.kind == SuccessEvent && !paid && !known)
    && (answer.Failure? ==> after == b && answer.error == PlanNotFound)
    && (answer.Success? ==>
          && answer.value == |b.webhooks|
          && after.webhooks == b.webhooks + [WebhookLog(Some(i), true, None)]
          && after.plans == b.plans && after.invoices == b.invoices
          && OnlyPaymentChanges(b, after, i)
          && (match d.kind
              case SuccessEvent =>
                if paid then after.payments == b.payments && after.subscriptions == b.subscriptions
                else Marked(b.payments[i], after.payments[i], Succeeded, now)
              case FailureEvent =>
                Marked(b.payments[i], after.payments[i], Failed, now) && after.subscriptions == b.subscriptions
              case OtherEvent => after.payments == b.payments && after.subscriptions == b.subscriptions))
  }

  // A genuine event about no row is logged, and that is all.
  ghost predicate OnlyLogged(b: Books, entry: WebhookLog, after: Books, answer: Answer) {
    answer == Success(|b.webhooks|) && after == b.(webhooks := b.webhooks + [entry])
  }

  lemma ActsOn(b: Books, d: Delivery, i: nat, now: int)
    requires d.providerKnown && d.signatureValid && IsAbout(b.payments, d, i)
    ensures var (after, answer) := HandleWebhook(b, d, now);
            IsRow(b.payments, i) && Acted(b, d, i, now, after, answer)
  {
    LookupFindsIt(b.payments, d);
    assert Resolve(b.payments, d) == Success(Some(i));
  }

  // Any webhook: an unknown provider and an ambiguous event raise and leave no trace; a forged one
  // and one about no payment leave a log entry alone; any other acts on the one row it is about.
  lemma AnyWebhook(b: Books, d: Delivery, now: int)
    ensures var (after, answer) := HandleWebhook(b, d, now);
            && (!d.providerKnown ==> after == b && answer == Failure(ProviderUnknown))
            && (d.providerKnown && !d.signatureValid ==>
                  OnlyLogged(b, WebhookLog(None, false, Some(InvalidSignature)), after, answer))
            && (d.providerKnown && d.signatureValid ==>
                  && (answer == Failure(SeveralPayments) <==> IsAmbiguous(b.payments, d))
                  && (IsAmbiguous(b.payments, d) ==> after == b)
                  && (!IsAmbiguous(b.payments, d) && (forall i: nat :: !IsAbout(b.payments, d, i)) ==>
                        OnlyLogged(b, WebhookLog(None, true, Some(PaymentNotFound)), after, answer))
                  && (forall i: nat :: IsAbout(b.payments, d, i) ==>
                        IsRow(b.payments, i) && Acted(b, d, i, now, after, answer)))
  {
    if d.providerKnown && d.signatureValid {
      LookupFindsIt(b.payments, d);
      forall i: nat | IsAbout(b.payments, d, i)
        ensures IsRow(b.payments, i)
        ensures Acted(b, d, i, now, HandleWebhook(b, d, now).0, HandleWebhook(b, d, now).1)
      {
        ActsOn(b, d, i, now);
      }
    }
  }

  // The redelivery theorems speak of effective events: those are the genuine ones that report a
  // failure, or a success for a known plan, of the one row they are about.
  lemma EffectiveIsAbout(b: Books, d: Delivery)
    ensures Effective(b, d) <==>
            && d.providerKnown && d.signatureValid
            && (exists i: nat :: IsAbout(b.payments, d, i))
            && (d.kind == FailureEvent || (d.kind == SuccessEvent && d.plan.Some? && d.plan.value in b.plans))
    ensures Effective(b, d) ==> IsAbout(b.payments, d, PaymentOf(b, d))
  {
    LookupFindsIt(b.payments, d);
    if Resolve(b.payments, d).Success? && Resolve(b.payments, d).value.Some? {
      assert IsAbout(b.payments, d, Resolve(b.payments, d).value.value);
    }
  }
}
