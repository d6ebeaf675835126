// What the calls on subscriptions mean for the stores: who has an account afterwards, until when, and
// whether the gate lets it pass.
module SubscriptionEffects {
  import opened Common
  import opened BillingModel
  import opened SubscriptionGate

  lemma {:induction false} FindAfterUpdate(subs: seq<Option<Subscription>>, n: nat, x: nat, s: Subscription, store: int)
    requires n <= |subs| && x < |subs| && subs[x].Some? && subs[x].value.store == s.store
    ensures FindSubscription(subs[x := Some(s)], n, store) == FindSubscription(subs, n, store)
  {
    if n > 0 {
      FindAfterUpdate(subs, n - 1, x, s, store);
    }
  }

  lemma {:induction false} FindInPrefix(subs: seq<Option<Subscription>>, more: seq<Option<Subscription>>, n: nat, store: int)
    requires n <= |subs|
    ensures FindSubscription(subs + more, n, store) == FindSubscription(subs, n, store)
  {
    if n > 0 {
      FindInPrefix(subs, more, n - 1, store);
    }
  }

  // The gate and the end date are read off the account.
  lemma AccountTells(b: Books, store: int)
    ensures GateOpen(b, store) <==> store == 0 || Open(AccountOf(b, store))
    ensures EndOf(b, store) == if AccountOf(b, store).Account? then Some(AccountOf(b, store).end) else None
  {
  }

  // ----- one row and the others -----

  function OfOthers(subs: seq<Option<Subscription>>, i: nat, store: int): Option<Subscription> {
    if i < |subs| && subs[i].Some? && subs[i].value.store != store then subs[i] else None
  }

  ghost predicate OthersKept(before: Books, after: Books, store: int) {
    forall other :: other != store ==> AccountOf(after, other) == AccountOf(before, other)
  }

  lemma OthersUntouched(before: Books, after: Books, store: int)
    requires OnePerStore(before.subscriptions) && OnePerStore(after.subscriptions)
    requires forall i: nat :: OfOthers(after.subscriptions, i, store) == OfOthers(before.subscriptions, i, store)
    ensures OthersKept(before, after, store)
  {
    forall other | other != store
      ensures AccountOf(after, other) == AccountOf(before, other)
    {
      var s := OfStore(before, other);
      if s.Some? {
        assert OfOthers(before.subscriptions, s.value, store) == OfOthers(after.subscriptions, s.value, store);
        UniqueIsFound(after, other, s.value);
      } else {
        forall i | 0 <= i < |after.subscriptions| && after.subscriptions[i].Some?
          ensures after.subscriptions[i].value.store != other
        {
          assert OfOthers(before.subscriptions, i, store) == OfOthers(after.subscriptions, i, store);
        }
      }
    }
  }

  // One row rewritten within its store.
  lemma OneRowRewritten(b: Books, after: Books, id: nat, s: Subscription)
    requires OnePerStore(b.subscriptions) && Row(b.subscriptions, id) && s.store == b.subscriptions[id].value.store
    requires after.subscriptions == b.subscriptions[id := Some(s)]
    ensures OnePerStore(after.subscriptions) && OthersKept(b, after, s.store)
    ensures AccountOf(b, s.store) == AccountIn(b.subscriptions[id].value) && AccountOf(after, s.store) == AccountIn(s)
  {
    UniqueIsFound(b, s.store, id);
    UniqueIsFound(after, s.store, id);
    OthersUntouched(b, after, s.store);
  }

  // One row added for a store that had none.
  lemma OneRowAdded(b: Books, after: Books, s: Subscription)
    requires OnePerStore(b.subscriptions) && AccountOf(b, s.store).NoAccount?
    requires after.subscriptions == b.subscriptions + [Some(s)]
    ensures OnePerStore(after.subscriptions) && OthersKept(b, after, s.store)
    ensures AccountOf(after, s.store) == AccountIn(s)
  {
    assert Row(after.subscriptions, |b.subscriptions|);
    UniqueIsFound(after, s.store, |b.subscriptions|);
    OthersUntouched(b, after, s.store);
  }

  // One row removed.
  lemma OneRowRemoved(b: Books, after: Books, id: nat)
    requires OnePerStore(b.subscriptions) && Row(b.subscriptions, id)
    requires after.subscriptions == b.subscriptions[id := None]
    ensures OnePerStore(after.subscriptions) && OthersKept(b, after, b.subscriptions[id].value.store)
    ensures AccountOf(after, b.subscriptions[id].value.store).NoAccount?
  {
    var store := b.subscriptions[id].value.store;
    forall i: nat
      ensures OfOthers(after.subscriptions, i, store) == OfOthers(b.subscriptions, i, store)
    {
    }
    OthersUntouched(b, after, store);
    assert OfStore(after, store).None?;
  }

  // A payment extends or creates the subscription of one store.
  lemma OneRowExtended(b: Books, after: Books, store: int, plan: int, days: int, now: int)
    requires OnePerStore(b.subscriptions) && after.subscriptions == Extended(b.subscriptions, store, plan, days, now)
    ensures OnePerStore(after.subscriptions) && OthersKept(b, after, store)
    ensures var a := AccountOf(b, store);
            AccountOf(after, store)
            == if a.Account? then a.(plan := plan, status := Active, end := Max(a.end, now) + DAY * days)
               else Account(plan, Active, now, now + DAY * days, None)
  {
    var s := OfStore(b, store);
    if s.Some? {
      OneRowRewritten(b, after, s.value, after.subscriptions[s.value].value);
    } else {
      OneRowAdded(b, after, after.subscriptions[|b.subscriptions|].value);
    }
  }

  // ----- trials -----

  lemma HolderStays(b: Books, timed: Timed, store: int)
    requires EndOf(b, store).Some? && !timed.op.OpDelete?
    ensures EndOf(Apply(b, timed), store).Some?
  {
    var i := OfStore(b, store).value;
    assert Row(Apply(b, timed).subscriptions, i) && Apply(b, timed).subscriptions[i].value.store == store;
  }

  // Whatever happens to a subscription, short of deleting one, its store gets no second trial.
  lemma {:induction false} OneTrialPerStore(b: Books, ops: seq<Timed>, store: int, plan: int, now: int)
    requires EndOf(b, store).Some? && forall i :: 0 <= i < |ops| ==> !ops[i].op.OpDelete?
    ensures EndOf(Run(b, ops), store).Some?
    ensures StartTrial(Run(b, ops), store, plan, now) == (Run(b, ops), Failure(AlreadySubscribed))
  {
    if ops != [] {
      OneTrialPerStore(b, ops[..|ops| - 1], store, plan, now);
      HolderStays(Run(b, ops[..|ops| - 1]), ops[|ops| - 1], store);
    }
  }

  // ----- what a call answers -----

  // A trial is granted exactly to a store without an account; a refusal leaves the tables alone.
  lemma TrialAnswers(b: Books, store: int, plan: int, now: int)
    ensures var (after, answer) := StartTrial(b, store, plan, now);
            && (answer.Success? <==> AccountOf(b, store).NoAccount? && plan in b.plans)
            && (answer.Failure? ==> after == b)
  {
  }

  // Activating twice is activating the second time: the invoice of one period buys no second one.
  lemma ActivatingReplaces(b: Books, id: nat, now: int, later: int)
    ensures Activate(Activate(b, id, now).0, id, later) == Activate(b, id, later)
  {
    assert Activate(Activate(b, id, now).0, id, later).0.subscriptions == Activate(b, id, later).0.subscriptions;
  }

  // A deletion takes exactly the subscription's invoices and payments along, and frees its store to
  // start a trial again.
  lemma DeletionTakesItsPapers(b: Books, id: nat, now: int)
    requires OnePerStore(b.subscriptions) && Row(b.subscriptions, id)
    ensures var (after, answer) := Delete(b, id);
            && answer == Success(id)
            && (forall i: nat :: Row(after.invoices, i) <==> Row(b.invoices, i) && b.invoices[i].value.subscription != id)
            && (forall i: nat :: Row(after.invoices, i) ==> after.invoices[i] == b.invoices[i])
            && (forall i: nat :: Row(after.payments, i) <==>
                  Row(b.payments, i) && b.payments[i].value.subscription != Some(id))
            && (forall i: nat :: Row(after.payments, i) ==> after.payments[i] == b.payments[i])
            && (forall plan :: StartTrial(after, b.subscriptions[id].value.store, plan, now).1.Success? <==> plan in b.plans)
  {
    OneRowRemoved(b, Delete(b, id).0, id);
  }

  // ----- upgrade, payment and suspension -----

  // A payment for the same plan at the same moment leaves the store better off by exactly the time
  // it had left: an upgrade drops that time, a payment keeps it.
  lemma UpgradeDropsTimeLeft(b: Books, id: nat, plan: int, now: int)
    requires OnePerStore(b.subscriptions) && Row(b.subscriptions, id) && plan in b.plans
    ensures var s := b.subscriptions[id].value;
            var paid := b.(subscriptions := Extended(b.subscriptions, s.store, plan, b.plans[plan].durationDays, now));
            var upgraded := Upgrade(b, id, plan, now).0;
            && EndOf(paid, s.store).Some? && EndOf(upgraded, s.store).Some?
            && EndOf(paid, s.store).value - EndOf(upgraded, s.store).value == Max(s.end - now, 0)
  {
    var s := b.subscriptions[id].value;
    var paid := b.(subscriptions := Extended(b.subscriptions, s.store, plan, b.plans[plan].durationDays, now));
    var upgraded := Upgrade(b, id, plan, now).0;
    OneRowExtended(b, paid, s.store, plan, b.plans[plan].durationDays, now);
    OneRowRewritten(b, upgraded, id, upgraded.subscriptions[id].value);
    AccountTells(paid, s.store);
    AccountTells(upgraded, s.store);
  }

  // Suspending closes the gate and takes no time away, so the next payment undoes it altogether: the
  // tables are those of a payment alone.
  lemma PaymentUndoesSuspension(b: Books, id: nat, plan: int, days: int, now: int)
    requires OnePerStore(b.subscriptions) && Row(b.subscriptions, id)
    ensures var s := b.subscriptions[id].value;
            && AccountOf(Suspend(b, id).0, s.store) == AccountOf(b, s.store).(status := Suspended) && OthersKept(b, Suspend(b, id).0, s.store)
            && Extended(Suspend(b, id).0.subscriptions, s.store, plan, days, now) == Extended(b.subscriptions, s.store, plan, days, now)
  {
    var s := b.subscriptions[id].value;
    OneRowRewritten(b, Suspend(b, id).0, id, s.(status := Suspended));
    UniqueIsFound(b, s.store, id);
    FindAfterUpdate(b.subscriptions, |b.subscriptions|, id, s.(status := Suspended), s.store);
    assert Extended(Suspend(b, id).0.subscriptions, s.store, plan, days, now)
           == Extended(b.subscriptions, s.store, plan, days, now);
  }
}
