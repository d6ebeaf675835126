// What becomes of every event, field by field: after one pass, and of its invoice id over whole runs.
module OutboxOutcomes {
  import opened Common
  import opened ShopModel
  import opened OutboxModel
  import opened ShopRuns
  import opened ShopInvariants
  import opened OutboxTheorems
  import opened OutboxHistory

  // ----- one event -----

  // The minutes to wait after the n-th failed attempt: twice as long every time, an hour at most.
  function WaitMinutes(n: nat): int {
    if n == 0 then 1 else if n == 1 then 2 else if n == 2 then 4 else if n == 3 then 8
    else if n == 4 then 16 else if n == 5 then 32 else 60
  }

  lemma BackoffDoubles(n: nat)
    ensures Backoff(n) == 60 * WaitMinutes(n)
    ensures n < 5 ==> Backoff(n + 1) == 2 * Backoff(n)
    ensures n >= 6 ==> Backoff(n) == 3600
    ensures Backoff(n) <= 3600
  {
    assert Pow2(1) == 2 && Pow2(2) == 4 && Pow2(3) == 8;
    assert Pow2(4) == 16 && Pow2(5) == 32 && Pow2(6) == 64;
  }

  predicate Postponed(ev: Event, ev': Event, error: OutboxError, until: int) {
    && ev'.status == EventFailed && ev'.attempts == ev.attempts + 1
    && ev'.lastError == Some(error) && ev'.nextRetry == Some(until) && ev'.invoiceId == ev.invoiceId
  }

  predicate Sent(ev: Event, ev': Event, id: string) {
    && ev'.status == EventSent && ev'.attempts == ev.attempts + 1
    && ev'.lastError.None? && ev'.nextRetry == ev.nextRetry && ev'.invoiceId == Some(id)
  }

  predicate HasOrder(w: World, ev: Event) {
    ev.order < |w.orders| && w.orders[ev.order].store == ev.store
  }

  predicate LacksMapping(w: World, ev: Event)
    requires HasOrder(w, ev)
  {
    exists i :: 0 <= i < |w.orders[ev.order].items| && (ev.store, w.orders[ev.order].items[i].product) !in w.mapping
  }

  // The sale can be posted at all.
  predicate Postable(w: World, ev: Event) {
    ev.store in w.connected && HasOrder(w, ev) && !LacksMapping(w, ev)
  }

  // What handling the event makes of it.
  predicate Outcome(w: World, now: int, ev: Event, reply: Reply, ev': Event) {
    && ev'.store == ev.store && ev'.order == ev.order && ev'.createdAt == ev.createdAt
    && (if ev.store !in w.connected then Postponed(ev, ev', NoConnection, now + 300)
        else if !HasOrder(w, ev) then Postponed(ev, ev', OrderNotFound, now + 300)
        else if LacksMapping(w, ev) then Postponed(ev, ev', MissingMapping, now + 300)
        else
          match reply
          case NoAnswer(_) => ev' == ev
          case Answer(_, code, body) =>
            if code >= 400 then Postponed(ev, ev', SalesFailed(code), now + 60 * WaitMinutes(ev.attempts + 1))
            else
              match body
              case Undecodable => ev' == ev
              case NonObject => ev' == ev.(status := EventSent)
              case EmptyBody => Sent(ev, ev', "")
              case Document(id) => Sent(ev, ev', id))
  }

  // The reply makes the pass stop at this event.
  predicate Stops(w: World, ev: Event, reply: Reply) {
    && Postable(w, ev)
    && match reply
       case NoAnswer(_) => true
       case Answer(_, code, body) => code < 400 && (body.Undecodable? || body.NonObject?)
  }

  lemma MappedOrLacking(w: World, ev: Event)
    requires HasOrder(w, ev)
    ensures AllMapped(w, ev) <==> !LacksMapping(w, ev)
  {
  }

  lemma AfterIsOutcome(w: World, now: int, ev: Event, reply: Reply)
    ensures Outcome(w, now, ev, reply, After(w, now, ev, reply))
    ensures Raises(w, ev, reply) <==> Stops(w, ev, reply)
  {
    BackoffDoubles(ev.attempts + 1);
    if HasOrder(w, ev) {
      MappedOrLacking(w, ev);
    }
  }

  // ----- one pass -----

  // The pass gets to n events: to all of its batch, or up to and including the first that stops it.
  ghost predicate GetsTo(w: World, batch: seq<nat>, replies: seq<Reply>, n: nat)
    requires Within(w.outbox, batch) && n <= |batch| <= |replies|
  {
    && (forall i :: 0 <= i < n - 1 ==> !Stops(w, w.outbox[batch[i]], replies[i]))
    && (n < |batch| ==> n > 0 && Stops(w, w.outbox[batch[n - 1]], replies[n - 1]))
  }

  // Whatever the remote does, a pass gives exactly the events it gets to their outcome.
  lemma PassOutcomes(w: World, now: int, batch: seq<nat>, replies: seq<Reply>) returns (n: nat)
    requires IsBatch(w.outbox, now, batch) && |batch| <= |replies|
    ensures n <= |batch| && GetsTo(w, batch, replies, n)
    ensures var outbox := Pass(w, now, batch, replies).outbox;
            && |outbox| == |w.outbox|
            && (forall i :: 0 <= i < n ==> Outcome(w, now, w.outbox[batch[i]], replies[i], outbox[batch[i]]))
            && (forall e :: 0 <= e < |w.outbox| && e !in batch[..n] ==> outbox[e] == w.outbox[e])
  {
    n := Attempted(w, batch, replies);
    CutPass(w, now, batch, replies);
    forall i | 0 <= i < n
      ensures Outcome(w, now, w.outbox[batch[i]], replies[i], Pass(w, now, batch, replies).outbox[batch[i]])
    {
      AfterIsOutcome(w, now, w.outbox[batch[i]], replies[i]);
    }
    forall i | 0 <= i < |batch|
      ensures Raises(w, w.outbox[batch[i]], replies[i]) <==> Stops(w, w.outbox[batch[i]], replies[i])
    {
      AfterIsOutcome(w, now, w.outbox[batch[i]], replies[i]);
    }
  }

  // ----- who gets into a batch -----

  function UpTo(outbox: seq<Event>, now: int, at: int): set<nat> {
    set e | e in EligibleSet(outbox, now) && outbox[e].createdAt <= at
  }

  // Nobody is passed over for younger events: an event that is due is in the batch whenever at most
  // fifty due events are as old or older.
  lemma OldestGetIn(outbox: seq<Event>, now: int, batch: seq<nat>, e: nat)
    requires IsBatch(outbox, now, batch) && e < |outbox|
    requires outbox[e].status != EventSent && (outbox[e].nextRetry.None? || outbox[e].nextRetry.value <= now)
    requires |UpTo(outbox, now, outbox[e].createdAt)| <= 50
    ensures e in batch
  {
    var due, older := EligibleSet(outbox, now), UpTo(outbox, now, outbox[e].createdAt);
    assert e in due;
    if e !in batch {
      ElementsCount(batch);
      assert Elements(batch) + {e} <= older;
      SubsetSize(Elements(batch) + {e}, older);
      assert Elements(batch) + {e} <= due;
      SubsetSize(Elements(batch) + {e}, due);
      assert false;
    }
  }

  // Nor is anybody overtaken in a pass that is cut short: a due event older than one the pass got to
  // was got to before it.
  lemma OlderComeFirst(outbox: seq<Event>, now: int, batch: seq<nat>, i: nat, e: nat)
    requires IsBatch(outbox, now, batch) && i < |batch| && e < |outbox|
    requires outbox[e].status != EventSent && (outbox[e].nextRetry.None? || outbox[e].nextRetry.value <= now)
    requires outbox[e].createdAt < outbox[batch[i]].createdAt
    ensures e in batch[..i]
  {
    assert e in EligibleSet(outbox, now);
    var j :| 0 <= j < |batch| && batch[j] == e;
    assert j < i;
  }

  lemma {:induction false} SubsetSize(small: set<nat>, big: set<nat>)
    requires small <= big
    ensures |small| <= |big|
  {
    assert |big - small| + |big * small| == |big|;
    assert big * small == small;
  }

  // ----- the invoice id over whole runs -----

  // Post j is the sale that settled event e.
  ghost predicate Settles(posts: seq<Post>, e: nat, j: nat) {
    j < |posts| && posts[j].event == e && Confirmed(posts[j])
  }

  // The invoice id an answer's body carries.
  function IdIn(body: Body): Option<string> {
    match body
    case Document(id) => Some(id)
    case EmptyBody => Some("")
    case _ => None
  }

  ghost predicate IdOk(posts: seq<Post>, e: nat, ev: Event) {
    && (ev.status == EventSent ==> exists j: nat :: Settles(posts, e, j))
    && (ev.status != EventSent ==> ev.invoiceId.None? && forall j: nat :: !Settles(posts, e, j))
    && (forall i: nat, j: nat :: Settles(posts, e, i) && Settles(posts, e, j) ==> i == j)
    && (forall j: nat :: Settles(posts, e, j) ==> ev.invoiceId == IdIn(posts[j].reply.body))
  }

  ghost predicate IdsOk(w: World) {
    && (forall j :: 0 <= j < |w.posts| ==> w.posts[j].event < |w.outbox|)
    && (forall e :: 0 <= e < |w.outbox| ==> IdOk(w.posts, e, w.outbox[e]))
  }

  // Posts that do not settle an event leave it to those before.
  lemma MorePosts(posts: seq<Post>, more: seq<Post>, e: nat, ev: Event)
    requires IdOk(posts, e, ev)
    requires forall j :: 0 <= j < |more| ==> !(more[j].event == e && Confirmed(more[j]))
    ensures IdOk(posts + more, e, ev)
  {
    forall j: nat
      ensures Settles(posts + more, e, j) <==> Settles(posts, e, j)
    {
      assert j >= |posts| && j < |posts + more| ==> (posts + more)[j] == more[j - |posts|];
    }
    if ev.status == EventSent {
      var j: nat :| Settles(posts, e, j);
      assert Settles(posts + more, e, j);
    }
  }

  // The first sale that settles the event gives it its id.
  lemma SettlingPost(posts: seq<Post>, e: nat, ev: Event, ev': Event, post: Post)
    requires IdOk(posts, e, ev) && ev.status != EventSent
    requires post.event == e && Confirmed(post)
    requires ev'.status == EventSent && ev'.invoiceId == IdIn(post.reply.body)
    ensures IdOk(posts + [post], e, ev')
  {
    assert Settles(posts + [post], e, |posts|);
    forall j: nat | Settles(posts + [post], e, j)
      ensures j == |posts|
    {
      assert j < |posts| ==> Settles(posts, e, j);
    }
  }

  lemma HandleIdOk(w: World, now: int, e: nat, reply: Reply)
    requires e < |w.outbox| && w.outbox[e].status != EventSent && IdOk(w.posts, e, w.outbox[e])
    ensures IdOk(Handle(w, now, e, reply).posts, e, Handle(w, now, e, reply).outbox[e])
  {
    var ev, ev' := w.outbox[e], After(w, now, w.outbox[e], reply);
    var logged := Logged(w, e, reply);
    assert ReachesPost(w, ev) ==> |logged| == 1 && logged[0].event == e && logged[0].reply == reply && logged[0].stored;
    if ReachesPost(w, ev) && Confirmed(logged[0]) {
      assert logged == [logged[0]];
      SettlingPost(w.posts, e, ev, ev', logged[0]);
    } else {
      assert ev'.status != EventSent && ev'.invoiceId == ev.invoiceId;
      MorePosts(w.posts, logged, e, ev);
    }
  }

  lemma HandleKeepsIds(w: World, now: int, e: nat, reply: Reply)
    requires IdsOk(w) && e < |w.outbox| && w.outbox[e].status != EventSent
    ensures IdsOk(Handle(w, now, e, reply))
  {
    var w' := Handle(w, now, e, reply);
    forall x | 0 <= x < |w'.outbox|
      ensures IdOk(w'.posts, x, w'.outbox[x])
    {
      if x == e {
        HandleIdOk(w, now, e, reply);
      } else {
        MorePosts(w.posts, Logged(w, e, reply), x, w.outbox[x]);
      }
    }
  }

  lemma {:induction false} PassKeepsIds(w: World, now: int, batch: seq<nat>, replies: seq<Reply>, n: nat)
    requires IdsOk(w) && IsBatch(w.outbox, now, batch) && n <= |batch| <= |replies|
    ensures IdsOk(PassUpTo(w, now, batch, replies, n))
  {
    if n > 0 {
      var a, e := PassUpTo(w, now, batch, replies, n - 1), batch[n - 1];
      assert PassUpTo(w, now, batch, replies, n) == Handle(a, now, e, replies[n - 1]);
      assert a.outbox[e].status != EventSent by {
        NextIsUntouched(w, now, batch, replies, n - 1);
      }
      PassKeepsIds(w, now, batch, replies, n - 1);
      HandleKeepsIds(a, now, e, replies[n - 1]);
    }
  }

  lemma LostPassKeepsIds(w: World, now: int, batch: seq<nat>, replies: seq<Reply>, n: nat)
    requires IdsOk(w) && IsBatch(w.outbox, now, batch) && n <= |batch| <= |replies|
    ensures IdsOk(LostPass(w, now, batch, replies, n))
  {
    PassKeepsIds(w, now, batch, replies, n);
    var posts := PassUpTo(w, now, batch, replies, n).posts;
    var lost := Unstored(posts[|w.posts|..]);
    forall j | 0 <= j < |lost|
      ensures !lost[j].stored && lost[j].event < |w.outbox|
    {
      assert posts[|w.posts|..][j] == posts[|w.posts| + j];
    }
    forall x | 0 <= x < |w.outbox|
      ensures IdOk(w.posts + lost, x, w.outbox[x])
    {
      MorePosts(w.posts, lost, x, w.outbox[x]);
    }
  }

  lemma OthersKeepIds(w: World, op: Op)
    requires IdsOk(w) && !op.OpOutboxPass? && !op.OpLostPass?
    ensures IdsOk(Apply(w, op))
  {
    OthersLeaveEvents(w, op);
    var w' := Apply(w, op);
    forall e | 0 <= e < |w'.outbox|
      ensures IdOk(w'.posts, e, w'.outbox[e])
    {
      if e < |w.outbox| {
        assert w'.outbox[e] == w.outbox[e];
      } else {
        NewEventHasNoId(w, op, e);
      }
    }
  }

  lemma NewEventHasNoId(w: World, op: Op, e: nat)
    requires !op.OpOutboxPass? && !op.OpLostPass? && |w.outbox| <= e < |Apply(w, op).outbox|
    ensures Apply(w, op).outbox[e].status == EventPending && Apply(w, op).outbox[e].invoiceId.None?
  {
  }

  lemma StepKeepsIds(w: World, op: Op)
    requires IdsOk(w)
    ensures IdsOk(Apply(w, op))
  {
    match op
    case OpOutboxPass(now, batch, replies) =>
      if IsBatch(w.outbox, now, batch) && |batch| <= |replies| {
        PassKeepsIds(w, now, batch, replies, Attempted(w, batch, replies));
      }
    case OpLostPass(now, batch, replies, handled) =>
      if IsBatch(w.outbox, now, batch) && |batch| <= |replies| && handled <= Attempted(w, batch, replies) {
        LostPassKeepsIds(w, now, batch, replies, handled);
      }
    case _ => OthersKeepIds(w, op);
  }

  lemma {:induction false} RunKeepsIds(w0: World, ops: seq<Op>)
    requires Initial(w0)
    ensures IdsOk(Run(w0, ops))
  {
    if ops != [] {
      RunKeepsIds(w0, ops[..|ops| - 1]);
      StepKeepsIds(Run(w0, ops[..|ops| - 1]), ops[|ops| - 1]);
    }
  }

  // Over every run, with passes cut short or lost, and whatever the remote answers: an event is SENT
  // if and only if the log has a confirming post for it, which is then the only one, and its invoice
  // id is that of the document this post brought, empty if the body was empty, and none if the body
  // was no object.  An event that is not SENT has no invoice id.
  lemma {:induction false} InvoiceIdIsThatOfTheSale(w0: World, ops: seq<Op>, e: nat)
    requires Initial(w0) && e < |Run(w0, ops).outbox|
    ensures var ev, posts := Run(w0, ops).outbox[e], Run(w0, ops).posts;
            && (ev.status == EventSent <==> exists j: nat :: Settles(posts, e, j))
            && (forall i: nat, j: nat :: Settles(posts, e, i) && Settles(posts, e, j) ==> i == j)
            && (forall j: nat :: Settles(posts, e, j) ==>
                  match posts[j].reply.body
                  case Document(id) => ev.invoiceId == Some(id)
                  case EmptyBody => ev.invoiceId == Some("")
                  case NonObject => ev.invoiceId.None?
                  case Undecodable => false)
            && (ev.status != EventSent ==> ev.invoiceId.None?)
  {
    RunKeepsIds(w0, ops);
    assert IdOk(Run(w0, ops).posts, e, Run(w0, ops).outbox[e]);
  }
}
