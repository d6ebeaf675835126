// How successive payments extend an end date.
module Renewals {
  import opened Common

  // A successful payment: when it was processed and how much time it buys.
  datatype Purchase = Purchase(at: int, length: int)

  // The end date after one payment; None stands for a store without a subscription.
  function Renewed(end: Option<int>, p: Purchase): int {
    (if end.Some? then Max(end.value, p.at) else p.at) + p.length
  }

  function EndAfter(end: Option<int>, ps: seq<Purchase>, n: nat): (r: Option<int>)
    requires n <= |ps|
    ensures n > 0 ==> r.Some?
  {
    if n == 0 then end else Some(Renewed(EndAfter(end, ps, n - 1), ps[n - 1]))
  }

  // The time bought by payments i to n - 1.
  function Bought(ps: seq<Purchase>, i: nat, n: nat): int
    requires i <= n <= |ps|
  {
    if i == n then 0 else Bought(ps, i, n - 1) + ps[n - 1].length
  }

  // The candidates for the end date: everything after the old end, or everything from payment i on
  // after payment i.
  ghost predicate Attained(end: Option<int>, ps: seq<Purchase>, n: nat, e: int)
    requires n <= |ps|
  {
    || (end.Some? && e == end.value + Bought(ps, 0, n))
    || exists i :: 0 <= i < n && e == ps[i].at + Bought(ps, i, n)
  }

  // The end date is the largest of them.
  lemma {:induction false} ClosedForm(end: Option<int>, ps: seq<Purchase>, n: nat)
    requires n <= |ps| && (end.Some? || n > 0)
    ensures var e := EndAfter(end, ps, n).value;
            && (end.Some? ==> e >= end.value + Bought(ps, 0, n))
            && (forall i :: 0 <= i < n ==> e >= ps[i].at + Bought(ps, i, n))
            && Attained(end, ps, n, e)
  {
    if n > 0 {
      var e := EndAfter(end, ps, n).value;
      if end.Some? || n > 1 {
        ClosedForm(end, ps, n - 1);
        var before := EndAfter(end, ps, n - 1).value;
        if before >= ps[n - 1].at {
          if !(end.Some? && before == end.value + Bought(ps, 0, n - 1)) {
            var i :| 0 <= i < n - 1 && before == ps[i].at + Bought(ps, i, n - 1);
            assert e == ps[i].at + Bought(ps, i, n);
          }
        } else {
          assert e == ps[n - 1].at + Bought(ps, n - 1, n);
        }
      } else {
        assert e == ps[0].at + Bought(ps, 0, 1);
      }
    }
  }

  // The interval that payment i pays for.
  function StartOf(end: Option<int>, ps: seq<Purchase>, i: nat): int
    requires i < |ps|
  {
    var before := EndAfter(end, ps, i);
    if before.Some? then Max(before.value, ps[i].at) else ps[i].at
  }

  function StopOf(end: Option<int>, ps: seq<Purchase>, i: nat): int
    requires i < |ps|
  {
    EndAfter(end, ps, i + 1).value
  }

  // Whatever the lengths: each interval is as long as was paid for, starts no earlier than its
  // payment, and starts where the one before stopped unless its payment came later.
  lemma PaidIntervals(end: Option<int>, ps: seq<Purchase>)
    ensures forall i :: 0 <= i < |ps| ==> StopOf(end, ps, i) - StartOf(end, ps, i) == ps[i].length
    ensures forall i :: 0 <= i < |ps| ==> StartOf(end, ps, i) >= ps[i].at
    ensures forall i :: 0 < i < |ps| ==> StartOf(end, ps, i) >= StopOf(end, ps, i - 1)
    ensures forall i :: 0 < i < |ps| && StopOf(end, ps, i - 1) >= ps[i].at ==> StartOf(end, ps, i) == StopOf(end, ps, i - 1)
    ensures end.Some? && |ps| > 0 ==> StartOf(end, ps, 0) >= end.value
  {
    forall i | 0 < i < |ps|
      ensures EndAfter(end, ps, i) == Some(StopOf(end, ps, i - 1))
    {
    }
  }

  // No second is sold twice: every interval lies after the old end date and after all earlier ones.
  ghost predicate InOrder(end: Option<int>, ps: seq<Purchase>) {
    && (forall j :: 0 <= j < |ps| && end.Some? ==> end.value <= StartOf(end, ps, j))
    && (forall i, j :: 0 <= i < j < |ps| ==> StopOf(end, ps, i) <= StartOf(end, ps, j))
  }

  function PurchasesAt(lengths: seq<int>, ats: seq<int>): seq<Purchase>
    requires |ats| == |lengths|
  {
    seq(|ats|, i requires 0 <= i < |ats| => Purchase(ats[i], lengths[i]))
  }

  ghost predicate Rising(ats: seq<int>) {
    forall i, j :: 0 <= i < j < |ats| ==> ats[i] <= ats[j]
  }

  lemma {:induction false} EndsRise(end: Option<int>, ps: seq<Purchase>, m: nat, n: nat)
    requires m <= n <= |ps| && (m > 0 || end.Some?)
    requires forall i :: m <= i < n ==> ps[i].length >= 0
    ensures EndAfter(end, ps, m).value <= EndAfter(end, ps, n).value
  {
    if m < n {
      EndsRise(end, ps, m, n - 1);
    }
  }

  lemma LengthsGiveOrder(end: Option<int>, ps: seq<Purchase>)
    requires forall i :: 0 <= i < |ps| - 1 ==> ps[i].length >= 0
    ensures InOrder(end, ps)
  {
    forall i, j | 0 <= i < j < |ps|
      ensures StopOf(end, ps, i) <= StartOf(end, ps, j)
    {
      EndsRise(end, ps, i + 1, j);
    }
    forall j | 0 <= j < |ps| && end.Some?
      ensures end.value <= StartOf(end, ps, j)
    {
      EndsRise(end, ps, 0, j);
    }
  }

  lemma {:induction false} FirstNegative(lengths: seq<int>, n: nat) returns (k: nat)
    requires n <= |lengths| && exists i :: 0 <= i < n && lengths[i] < 0
    ensures k < n && lengths[k] < 0 && forall i :: 0 <= i < k ==> lengths[i] >= 0
  {
    k := n - 1;
    if i :| 0 <= i < n - 1 && lengths[i] < 0 {
      k := FirstNegative(lengths, n - 1);
    }
  }

  // Payments at one instant for a store that is paid up already: the interval after a negative one
  // starts before the ones in front of it stopped.
  lemma NegativeBreaksOrder(lengths: seq<int>, k: nat)
    requires k + 1 < |lengths| && lengths[k] < 0 && forall i :: 0 <= i < k ==> lengths[i] >= 0
    ensures !InOrder(Some(1), PurchasesAt(lengths, seq(|lengths|, i => 0)))
  {
    var end, ps := Some(1), PurchasesAt(lengths, seq(|lengths|, i => 0));
    EndsRise(end, ps, 0, k);
    var before := EndAfter(end, ps, k).value;
    assert before >= 1 && EndAfter(end, ps, k + 1).value == before + lengths[k];
    assert StartOf(end, ps, k + 1) < before;
    if k > 0 {
      assert StopOf(end, ps, k - 1) == before;
    }
  }

  // A plan's duration is not checked anywhere.  Whatever the old end date and the times, in clock
  // order, the intervals are in order if and only if no length but the last is negative.
  lemma OrderNeedsLengths(lengths: seq<int>)
    ensures (forall end: Option<int>, ats: seq<int> | |ats| == |lengths| && Rising(ats) :: InOrder(end, PurchasesAt(lengths, ats)))
            <==> (forall i :: 0 <= i < |lengths| - 1 ==> lengths[i] >= 0)
  {
    if i :| 0 <= i < |lengths| - 1 && lengths[i] < 0 {
      var k := FirstNegative(lengths, |lengths| - 1);
      NegativeBreaksOrder(lengths, k);
      assert Rising(seq(|lengths|, i => 0));
    } else {
      forall end: Option<int>, ats: seq<int> | |ats| == |lengths| && Rising(ats)
        ensures InOrder(end, PurchasesAt(lengths, ats))
      {
        LengthsGiveOrder(end, PurchasesAt(lengths, ats));
      }
    }
  }
}
