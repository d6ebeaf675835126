// What passes over the outbox achieve, one by one and over whole runs.
module OutboxTheorems {
  import opened Common
  import opened ShopModel
  import opened OutboxModel
  import opened ShopInvariants

  // ----- the query always has an answer -----

  lemma {:induction false} OldestOf(outbox: seq<Event>, s: set<nat>) returns (m: nat)
    requires s != {} && forall e :: e in s ==> e < |outbox|
    ensures m in s && forall e :: e in s ==> outbox[m].createdAt <= outbox[e].createdAt
  {
    m :| m in s;
    if s != {m} {
      var m' := OldestOf(outbox, s - {m});
      if outbox[m'].createdAt < outbox[m].createdAt {
        m := m';
      }
    }
  }

  lemma {:induction false} BatchOfSize(outbox: seq<Event>, now: int, n: nat) returns (batch: seq<nat>)
    requires n <= |EligibleSet(outbox, now)|
    ensures Distinct(batch) && Within(outbox, batch) && |batch| == n && OldestFirst(outbox, batch)
    ensures forall i :: 0 <= i < n ==> batch[i] in EligibleSet(outbox, now)
    ensures forall i, e :: 0 <= i < n && e in EligibleSet(outbox, now) && e !in batch ==>
              outbox[batch[i]].createdAt <= outbox[e].createdAt
  {
    if n == 0 {
      batch := [];
    } else {
      var shorter := BatchOfSize(outbox, now, n - 1);
      var rest := EligibleSet(outbox, now) - Elements(shorter);
      ElementsCount(shorter);
      MoreRemain(Elements(shorter), EligibleSet(outbox, now));
      var m := OldestOf(outbox, rest);
      batch := shorter + [m];
    }
  }

  lemma MoreRemain(small: set<nat>, big: set<nat>)
    requires |small| < |big|
    ensures big - small != {}
  {
    assert |big - small| + |big * small| == |big|;
    assert |small - big| + |big * small| == |small|;
  }

  function Elements(batch: seq<nat>): set<nat> {
    set i | 0 <= i < |batch| :: batch[i]
  }

  lemma {:induction false} ElementsCount(batch: seq<nat>)
    requires Distinct(batch)
    ensures |Elements(batch)| == |batch|
  {
    if batch != [] {
      var front, last := batch[..|batch| - 1], batch[|batch| - 1];
      assert Distinct(front) && forall i :: 0 <= i < |front| ==> front[i] != last;
      ElementsCount(front);
      assert last !in Elements(front);
      assert Elements(batch) == Elements(front) + {last};
    }
  }

  lemma BatchExists(outbox: seq<Event>, now: int)
    ensures exists batch :: IsBatch(outbox, now, batch)
  {
    var batch := BatchOfSize(outbox, now, Min(BATCH_LIMIT, |EligibleSet(outbox, now)|));
    assert IsBatch(outbox, now, batch);
  }

  // ----- one pass, event by event -----

  // Handling an event looks at orders, connections and mappings only, which a pass leaves alone.
  lemma AfterFrame(w: World, w': World, now: int, ev: Event, reply: Reply)
    requires w' == w.(outbox := w'.outbox, posts := w'.posts)
    ensures After(w', now, ev, reply) == After(w, now, ev, reply)
    ensures ReachesPost(w', ev) <==> ReachesPost(w, ev)
    ensures Raises(w', ev, reply) <==> Raises(w, ev, reply)
    ensures ReachesPost(w, ev) ==> InvoiceFor(w', ev) == InvoiceFor(w, ev)
  {
  }

  lemma {:induction false} PassAt(w: World, now: int, batch: seq<nat>, replies: seq<Reply>, n: nat, i: nat)
    requires IsBatch(w.outbox, now, batch) && i < n <= |batch| <= |replies|
    ensures PassUpTo(w, now, batch, replies, n).outbox[batch[i]] == After(w, now, w.outbox[batch[i]], replies[i])
  {
    var e := batch[n - 1];
    var w' := PassUpTo(w, now, batch, replies, n - 1);
    if i == n - 1 {
      NextIsUntouched(w, now, batch, replies, n - 1);
      AfterFrame(w, w', now, w.outbox[e], replies[i]);
    } else {
      PassAt(w, now, batch, replies, n - 1, i);
      assert batch[i] != e;
    }
  }

  // The whole effect of the first n events: their outcomes, and nothing else.
  ghost predicate ExactlyHandled(w: World, now: int, batch: seq<nat>, replies: seq<Reply>, n: nat, outbox: seq<Event>)
    requires Within(w.outbox, batch) && n <= |batch| <= |replies|
  {
    && |outbox| == |w.outbox|
    && (forall i :: 0 <= i < n ==> outbox[batch[i]] == After(w, now, w.outbox[batch[i]], replies[i]))
    && (forall e :: 0 <= e < |w.outbox| && e !in batch[..n] ==> outbox[e] == w.outbox[e])
  }

  lemma {:induction false} PassIsExact(w: World, now: int, batch: seq<nat>, replies: seq<Reply>, n: nat)
    requires IsBatch(w.outbox, now, batch) && n <= |batch| <= |replies|
    ensures ExactlyHandled(w, now, batch, replies, n, PassUpTo(w, now, batch, replies, n).outbox)
  {
    PassGrows(w, now, batch, replies, n);
    forall i | 0 <= i < n
      ensures PassUpTo(w, now, batch, replies, n).outbox[batch[i]] == After(w, now, w.outbox[batch[i]], replies[i])
    {
      PassAt(w, now, batch, replies, n, i);
    }
  }

  // What a pass leaves, cut short by an exception or not: every event it got to has its outcome and
  // no other event changed.  The event that raised is untouched if and only if the exception came
  // before the mark; otherwise SENT is all that was written to it.
  lemma {:induction false} CutPass(w: World, now: int, batch: seq<nat>, replies: seq<Reply>)
    requires IsBatch(w.outbox, now, batch) && |batch| <= |replies|
    ensures var c := Cut(w, batch, replies, 0);
            var outbox := Pass(w, now, batch, replies).outbox;
            && ExactlyHandled(w, now, batch, replies, Attempted(w, batch, replies), outbox)
            && (c < |batch| ==>
                  && outbox[batch[c]] == (if RaisesAfterMark(replies[c]) then w.outbox[batch[c]].(status := EventSent)
                                          else w.outbox[batch[c]])
                  && (outbox[batch[c]] == w.outbox[batch[c]] <==> RaisesBeforeMark(replies[c])))
  {
    PassIsExact(w, now, batch, replies, Attempted(w, batch, replies));
    var c := Cut(w, batch, replies, 0);
    if c < |batch| {
      assert batch[c] in EligibleSet(w.outbox, now);
    }
  }

  // A confirmation whose body is not an object leaves its event SENT, with the attempt not counted
  // and no invoice id.
  lemma NonObjectIsSentUncounted(w: World, now: int, ev: Event, taken: bool, code: int)
    requires ReachesPost(w, ev) && code < 400
    ensures Raises(w, ev, Answer(taken, code, NonObject))
    ensures After(w, now, ev, Answer(taken, code, NonObject)) == ev.(status := EventSent)
  {
  }

  // ----- what leaves the queue -----

  lemma Pow2AtLeastTwo(n: nat)
    requires n >= 1
    ensures Pow2(n) >= 2
  {
  }

  // An event leaves the eligible ones when it is handled, unless the exception came before the mark.
  lemma EligibleAfter(w: World, now: int, ev: Event, reply: Reply)
    requires Eligible(ev, now)
    ensures Eligible(After(w, now, ev, reply), now) <==> ReachesPost(w, ev) && RaisesBeforeMark(reply)
    ensures !Raises(w, ev, reply) ==> After(w, now, ev, reply).attempts == ev.attempts + 1
  {
    Pow2AtLeastTwo(Min(ev.attempts + 1, 6));
  }

  // How many events of the batch leave the queue: those before the exception, and the one that
  // raised if it was marked by then.
  ghost function Settled(w: World, batch: seq<nat>, replies: seq<Reply>): (n: nat)
    requires Within(w.outbox, batch) && |batch| <= |replies|
    ensures n <= |batch|
  {
    var c := Cut(w, batch, replies, 0);
    if c < |batch| && RaisesAfterMark(replies[c]) then c + 1 else c
  }

  lemma SettledLeave(w: World, now: int, batch: seq<nat>, replies: seq<Reply>, i: nat)
    requires IsBatch(w.outbox, now, batch) && i < |batch| <= |replies|
    ensures batch[i] in EligibleSet(Pass(w, now, batch, replies).outbox, now) <==> i >= Settled(w, batch, replies)
  {
    var c, n := Cut(w, batch, replies, 0), Attempted(w, batch, replies);
    var outbox := Pass(w, now, batch, replies).outbox;
    CutPass(w, now, batch, replies);
    assert batch[i] in EligibleSet(w.outbox, now);
    EligibleAfter(w, now, w.outbox[batch[i]], replies[i]);
    if i >= n {
      assert batch[i] !in batch[..n];
      assert outbox[batch[i]] == w.outbox[batch[i]];
    }
  }

  // The first n of the batch left the queue and nothing else did; that is the whole batch or none
  // of it exactly when n says so.
  ghost predicate LeftExactly(before: set<nat>, after: set<nat>, batch: seq<nat>, n: nat)
    requires n <= |batch|
  {
    && after == before - Elements(batch[..n])
    && |after| == |before| - n
    && (Elements(batch) !! after <==> n == |batch|)
    && (after == before <==> n == 0)
  }

  // For every batch and whatever the remote does: exactly the settled events leave the queue.
  lemma {:induction false} PassLeaves(w: World, now: int, batch: seq<nat>, replies: seq<Reply>)
    requires IsBatch(w.outbox, now, batch) && |batch| <= |replies|
    ensures LeftExactly(EligibleSet(w.outbox, now), EligibleSet(Pass(w, now, batch, replies).outbox, now),
                        batch, Settled(w, batch, replies))
  {
    var before := EligibleSet(w.outbox, now);
    var after := EligibleSet(Pass(w, now, batch, replies).outbox, now);
    var n := Settled(w, batch, replies);
    SettledAreGone(w, now, batch, replies);
    forall i | 0 <= i < |batch|
      ensures batch[i] in before
      ensures batch[i] in after <==> i >= n
    {
      SettledLeave(w, now, batch, replies, i);
    }
    FirstOnesGone(before, after, batch, n);
  }

  lemma SettledAreGone(w: World, now: int, batch: seq<nat>, replies: seq<Reply>)
    requires IsBatch(w.outbox, now, batch) && |batch| <= |replies|
    ensures EligibleSet(Pass(w, now, batch, replies).outbox, now)
            == EligibleSet(w.outbox, now) - Elements(batch[..Settled(w, batch, replies)])
  {
    var outbox := Pass(w, now, batch, replies).outbox;
    forall i | 0 <= i < |batch|
      ensures batch[i] in EligibleSet(outbox, now) <==> i >= Settled(w, batch, replies)
    {
      SettledLeave(w, now, batch, replies, i);
    }
    forall e | 0 <= e < |w.outbox| && e !in batch
      ensures outbox[e] == w.outbox[e]
    {
      CutPass(w, now, batch, replies);
      assert e !in batch[..Attempted(w, batch, replies)];
    }
    QueueWithout(w.outbox, outbox, now, batch, Settled(w, batch, replies));
  }

  lemma FirstOnesGone(before: set<nat>, after: set<nat>, batch: seq<nat>, n: nat)
    requires Distinct(batch) && n <= |batch| && after == before - Elements(batch[..n])
    requires forall i :: 0 <= i < |batch| ==> batch[i] in before && (batch[i] in after <==> i >= n)
    ensures |after| == |before| - n
    ensures Elements(batch) !! after <==> n == |batch|
    ensures after == before <==> n == 0
  {
    assert Distinct(batch[..n]);
    ElementsCount(batch[..n]);
    assert Elements(batch[..n]) <= before;
    if n < |batch| {
      assert batch[n] in Elements(batch) && batch[n] in after;
    }
    if n > 0 {
      assert batch[0] in before && batch[0] !in after;
    }
  }

  lemma QueueWithout(before: seq<Event>, after: seq<Event>, now: int, batch: seq<nat>, n: nat)
    requires |after| == |before| && Distinct(batch) && n <= |batch|
    requires forall i :: 0 <= i < |batch| ==> batch[i] in EligibleSet(before, now)
    requires forall i :: 0 <= i < |batch| ==> (batch[i] in EligibleSet(after, now) <==> i >= n)
    requires forall e :: 0 <= e < |before| && e !in batch ==> after[e] == before[e]
    ensures EligibleSet(after, now) == EligibleSet(before, now) - Elements(batch[..n])
  {
    forall e: nat | e < |before|
      ensures e in EligibleSet(after, now) <==> e in EligibleSet(before, now) && e !in Elements(batch[..n])
    {
      if e in batch {
        var i :| 0 <= i < |batch| && batch[i] == e;
        assert i < n ==> batch[..n][i] == e;
      }
    }
  }

  // An exception at the first event blocks the queue if and only if it comes before the mark.
  lemma ExceptionBlocksTheQueue(w: World, now: int, batch: seq<nat>, replies: seq<Reply>)
    requires IsBatch(w.outbox, now, batch) && 0 < |batch| <= |replies|
    ensures Pass(w, now, batch, replies).outbox == w.outbox
            <==> ReachesPost(w, w.outbox[batch[0]]) && RaisesBeforeMark(replies[0])
  {
    CutPass(w, now, batch, replies);
    assert batch[0] in EligibleSet(w.outbox, now);
    EligibleAfter(w, now, w.outbox[batch[0]], replies[0]);
    if Cut(w, batch, replies, 0) == 0 {
      assert batch[..1] == [batch[0]];
    } else {
      assert Pass(w, now, batch, replies).outbox[batch[0]] == After(w, now, w.outbox[batch[0]], replies[0]);
    }
  }

  // ----- draining -----

  datatype Round = Round(batch: seq<nat>, replies: seq<Reply>)

  ghost predicate IsRound(w: World, now: int, round: Round) {
    IsBatch(w.outbox, now, round.batch) && |round.batch| <= |round.replies|
  }

  // Passes at a fixed clock, each over a batch of what the one before left.
  ghost predicate AreRounds(w: World, now: int, rounds: seq<Round>)
    decreases |rounds|
  {
    rounds == [] ||
    (IsRound(w, now, rounds[0]) && AreRounds(Pass(w, now, rounds[0].batch, rounds[0].replies), now, rounds[1..]))
  }

  ghost function Drain(w: World, now: int, rounds: seq<Round>): World
    requires AreRounds(w, now, rounds)
    decreases |rounds|
  {
    if rounds == [] then w
    else Drain(Pass(w, now, rounds[0].batch, rounds[0].replies), now, rounds[1..])
  }

  ghost function SettledInAll(w: World, now: int, rounds: seq<Round>): nat
    requires AreRounds(w, now, rounds)
    decreases |rounds|
  {
    if rounds == [] then 0
    else
      Settled(w, rounds[0].batch, rounds[0].replies)
      + SettledInAll(Pass(w, now, rounds[0].batch, rounds[0].replies), now, rounds[1..])
  }

  // Whatever the remote does, the queue is empty after the passes if and only if they settled as
  // many events as there were.
  lemma {:induction false} DrainLaw(w: World, now: int, rounds: seq<Round>)
    requires AreRounds(w, now, rounds)
    ensures |EligibleSet(Drain(w, now, rounds).outbox, now)|
            == |EligibleSet(w.outbox, now)| - SettledInAll(w, now, rounds)
    ensures EligibleSet(Drain(w, now, rounds).outbox, now) == {}
            <==> SettledInAll(w, now, rounds) == |EligibleSet(w.outbox, now)|
    decreases |rounds|
  {
    if rounds != [] {
      PassLeaves(w, now, rounds[0].batch, rounds[0].replies);
      DrainLaw(Pass(w, now, rounds[0].batch, rounds[0].replies), now, rounds[1..]);
    }
  }

  // Rounds in which nothing raises.
  ghost predicate Smooth(w: World, now: int, rounds: seq<Round>)
    requires AreRounds(w, now, rounds)
    decreases |rounds|
  {
    rounds == [] ||
    (Cut(w, rounds[0].batch, rounds[0].replies, 0) == |rounds[0].batch|
     && Smooth(Pass(w, now, rounds[0].batch, rounds[0].replies), now, rounds[1..]))
  }

  ghost predicate AttemptedOnce(before: seq<Event>, after: seq<Event>, handled: set<nat>) {
    && |after| == |before|
    && forall e :: 0 <= e < |before| ==>
         if e in handled then after[e].attempts == before[e].attempts + 1 else after[e] == before[e]
  }

  // Each such pass takes exactly min(50, n) of the n eligible events out, attempting each once.
  lemma SmoothPassRemoves(w: World, now: int, round: Round)
    requires IsRound(w, now, round) && Cut(w, round.batch, round.replies, 0) == |round.batch|
    ensures var outbox := Pass(w, now, round.batch, round.replies).outbox;
            && AttemptedOnce(w.outbox, outbox, Elements(round.batch))
            && EligibleSet(outbox, now) == EligibleSet(w.outbox, now) - Elements(round.batch)
            && |EligibleSet(outbox, now)| == |EligibleSet(w.outbox, now)| - Min(50, |EligibleSet(w.outbox, now)|)
  {
    assert round.batch[..|round.batch|] == round.batch;
    PassLeaves(w, now, round.batch, round.replies);
    SmoothPassAttempts(w, now, round.batch, round.replies);
  }

  lemma SmoothPassAttempts(w: World, now: int, batch: seq<nat>, replies: seq<Reply>)
    requires IsBatch(w.outbox, now, batch) && |batch| <= |replies| && Cut(w, batch, replies, 0) == |batch|
    ensures AttemptedOnce(w.outbox, Pass(w, now, batch, replies).outbox, Elements(batch))
  {
    var outbox := Pass(w, now, batch, replies).outbox;
    CutPass(w, now, batch, replies);
    assert batch[..|batch|] == batch;
    forall i | 0 <= i < |batch|
      ensures outbox[batch[i]].attempts == w.outbox[batch[i]].attempts + 1
    {
      assert batch[i] in EligibleSet(w.outbox, now);
      EligibleAfter(w, now, w.outbox[batch[i]], replies[i]);
    }
  }

  // A pass over a batch, then passes over the rest: together they attempt what left in either.
  lemma AttemptsCompose(a: seq<Event>, b: seq<Event>, c: seq<Event>, now: int, batch: set<nat>)
    requires AttemptedOnce(a, b, batch) && batch <= EligibleSet(a, now)
    requires EligibleSet(b, now) == EligibleSet(a, now) - batch
    requires EligibleSet(c, now) <= EligibleSet(b, now)
    requires AttemptedOnce(b, c, EligibleSet(b, now) - EligibleSet(c, now))
    ensures AttemptedOnce(a, c, EligibleSet(a, now) - EligibleSet(c, now))
  {
    forall e | 0 <= e < |a|
      ensures if e in EligibleSet(a, now) - EligibleSet(c, now) then c[e].attempts == a[e].attempts + 1 else c[e] == a[e]
    {
      if e in batch {
        assert e !in EligibleSet(b, now);
        assert c[e] == b[e];
      } else {
        assert b[e] == a[e];
      }
    }
  }

  // k passes over `before` without exceptions: max(0, n - 50k) of the n eligible events are left, and
  // every one that left was attempted exactly once; nothing else changed.
  ghost predicate Drained(before: seq<Event>, after: seq<Event>, now: int, k: nat) {
    && EligibleSet(after, now) <= EligibleSet(before, now)
    && |EligibleSet(after, now)| == Max(0, |EligibleSet(before, now)| - 50 * k)
    && AttemptedOnce(before, after, EligibleSet(before, now) - EligibleSet(after, now))
  }

  lemma OnePassMore(a: seq<Event>, b: seq<Event>, c: seq<Event>, now: int, batch: set<nat>, k: nat)
    requires AttemptedOnce(a, b, batch) && batch <= EligibleSet(a, now) && EligibleSet(b, now) == EligibleSet(a, now) - batch
    requires |EligibleSet(b, now)| == |EligibleSet(a, now)| - Min(50, |EligibleSet(a, now)|)
    requires Drained(b, c, now, k)
    ensures Drained(a, c, now, k + 1)
  {
    AttemptsCompose(a, b, c, now, batch);
  }

  // So none is left once 50k reaches n.
  lemma {:induction false} DrainEmptiesTheQueue(w: World, now: int, rounds: seq<Round>)
    requires AreRounds(w, now, rounds) && Smooth(w, now, rounds)
    ensures Drained(w.outbox, Drain(w, now, rounds).outbox, now, |rounds|)
    decreases |rounds|
  {
    if rounds != [] {
      var next := Pass(w, now, rounds[0].batch, rounds[0].replies);
      SmoothPassRemoves(w, now, rounds[0]);
      DrainEmptiesTheQueue(next, now, rounds[1..]);
      assert Elements(rounds[0].batch) <= EligibleSet(w.outbox, now);
      OnePassMore(w.outbox, next.outbox, Drain(next, now, rounds[1..]).outbox, now, Elements(rounds[0].batch), |rounds| - 1);
    }
  }
}
