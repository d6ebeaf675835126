// What concurrent order transactions do get done: whose locks are held, when a step waits, goes on or
// gives up, and that an order left to itself goes through whenever it should.
module OrderProgress {
  import opened Common
  import opened ShopModel
  import opened StockRefinement
  import opened ConcurrentOrders

  // ----- locks -----

  // A row is locked only for a transaction that is running and has written the row.
  ghost predicate LocksAreHeld(s: System) {
    forall p :: p in s.locks ==>
      s.locks[p] < |s.txs| && s.txs[s.locks[p]].status == Running && p in s.txs[s.locks[p]].written
  }

  lemma StepKeepsLocks(cat: Catalog, s: System, step: Step)
    requires LocksAreHeld(s)
    ensures LocksAreHeld(Next(cat, s, step))
  {
  }

  // In every schedule, whoever has committed or given up holds no row any more.
  lemma {:induction false} FinishedHoldNothing(cat: Catalog, s: System, steps: seq<Step>)
    requires Fresh(s)
    ensures LocksAreHeld(Schedule(cat, s, steps))
  {
    if steps != [] {
      FinishedHoldNothing(cat, s, steps[..|steps| - 1]);
      StepKeepsLocks(cat, Schedule(cat, s, steps[..|steps| - 1]), steps[|steps| - 1]);
    }
  }

  // ----- one step -----

  // Somebody else holds the row of the next line, and nothing is wrong with the line that shows
  // before the row is read.
  predicate Waits(cat: Catalog, s: System, t: nat)
    requires t < |s.txs| && s.txs[t].next < |s.txs[t].req.lines|
  {
    var tx := s.txs[t];
    var v := LineVerdict(cat, s.stock, tx.ctx, tx.req, tx.next);
    var p := tx.req.lines[tx.next].product;
    && p in s.locks && s.locks[p] != t
    && (v.None? || v.value == BadQuantity || v.value == OutOfStock)
  }

  ghost predicate OnlyTxChanges(s: System, s': System, t: nat) {
    && s'.stock == s.stock && |s'.txs| == |s.txs|
    && forall u :: 0 <= u < |s.txs| && u != t ==> s'.txs[u] == s.txs[u]
  }

  // A line that waits changes nothing; any other goes on exactly if it passes against the committed
  // stock, and then its row is locked; if it does not pass the transaction gives up.
  lemma LineStepIsExact(cat: Catalog, s: System, t: nat)
    requires SystemOk(cat, s) && t < |s.txs| && s.txs[t].status == Running && s.txs[t].next < |s.txs[t].req.lines|
    ensures var s' := Next(cat, s, StepLine(t));
            var tx := s.txs[t];
            var p := tx.req.lines[tx.next].product;
            var passes := LineVerdict(cat, s.stock, tx.ctx, tx.req, tx.next).None?;
            && OnlyTxChanges(s, s', t) && s'.commits == s.commits
            && (Waits(cat, s, t) ==> s' == s)
            && (!Waits(cat, s, t) && !passes ==> s'.txs[t].status == Aborted)
            && (!Waits(cat, s, t) && passes ==>
                  && s'.txs[t].status == Running && s'.txs[t].next == tx.next + 1 && s'.txs[t].req == tx.req
                  && s'.txs[t].ctx == tx.ctx && s'.locks == s.locks[p := t])
  {
    assert TxOk(cat, s, t);
    var tx := s.txs[t];
    var p := tx.req.lines[tx.next].product;
    if p !in tx.written {
      NoDemand(tx.req.lines, tx.next, p);
    }
  }

  // Once its lines are taken a transaction commits exactly if the store accepts the order.
  lemma FinishIsExact(cat: Catalog, s: System, t: nat)
    requires t < |s.txs| && s.txs[t].status == Running && s.txs[t].next == |s.txs[t].req.lines|
    ensures var s' := Next(cat, s, StepFinish(t));
            if StoreVerdict(cat, s.txs[t].req).None? then s'.txs[t].status == Committed && s'.commits == s.commits + [t]
            else s'.txs[t].status == Aborted && s'.commits == s.commits && s'.stock == s.stock
  {
  }

  // ----- an order left to itself -----

  function Lines(t: nat, n: nat): seq<Step> {
    seq(n, i => StepLine(t))
  }

  // Nobody else is under way.
  ghost predicate AloneIn(s: System, t: nat) {
    t < |s.txs| && forall u :: 0 <= u < |s.txs| && u != t ==> s.txs[u].status != Running
  }

  // After n lines: still running with all of them passed, or given up because one of them does not.
  ghost predicate AfterLines(cat: Catalog, s: System, s': System, t: nat, n: nat)
    requires t < |s.txs| && n <= |s.txs[t].req.lines|
  {
    var tx := s.txs[t];
    && SystemOk(cat, s') && LocksAreHeld(s') && OnlyTxChanges(s, s', t) && s'.commits == s.commits
    && (s'.txs[t].status == Running ==>
          && s'.txs[t].next == n && s'.txs[t].req == tx.req && s'.txs[t].ctx == tx.ctx
          && forall k :: 0 <= k < n ==> LineVerdict(cat, s.stock, tx.ctx, tx.req, k).None?)
    && (s'.txs[t].status != Running ==>
          s'.txs[t].status == Aborted && exists k :: 0 <= k < n && LineVerdict(cat, s.stock, tx.ctx, tx.req, k).Some?)
  }

  lemma OneLineMore(cat: Catalog, s: System, s': System, t: nat, n: nat, m: nat)
    requires AloneIn(s, t) && n < m == n + 1 <= |s.txs[t].req.lines| && AfterLines(cat, s, s', t, n)
    ensures AfterLines(cat, s, Next(cat, s', StepLine(t)), t, m)
  {
    StepKeepsSystem(cat, s', StepLine(t));
    StepKeepsLocks(cat, s', StepLine(t));
    if s'.txs[t].status == Running {
      assert !Waits(cat, s', t);
      LineStepIsExact(cat, s', t);
    }
  }

  lemma {:induction false} TakesItsLines(cat: Catalog, s: System, t: nat, n: nat)
    requires SystemOk(cat, s) && LocksAreHeld(s) && AloneIn(s, t)
    requires s.txs[t].status == Running && s.txs[t].next == 0 && n <= |s.txs[t].req.lines|
    ensures AfterLines(cat, s, Schedule(cat, s, Lines(t, n)), t, n)
  {
    if n > 0 {
      var m := n - 1;
      assert Lines(t, n)[..m] == Lines(t, m);
      TakesItsLines(cat, s, t, m);
      OneLineMore(cat, s, Schedule(cat, s, Lines(t, m)), t, m, n);
    }
  }

  lemma {:induction false} PassesAll(cat: Catalog, inv: map<int, Stock>, ctx: int, req: OrderRequest, k: nat)
    requires k <= |req.lines|
    ensures FirstLineError(cat, inv, ctx, req, k).None?
            <==> forall j :: k <= j < |req.lines| ==> LineVerdict(cat, inv, ctx, req, j).None?
    decreases |req.lines| - k
  {
    if k < |req.lines| {
      PassesAll(cat, inv, ctx, req, k + 1);
    }
  }

  // Whatever the schedule was so far: once nobody else is under way, an order that has not begun
  // commits exactly if it is accepted against the committed stock, and gives up otherwise.
  lemma {:induction false} AloneGoesThrough(cat: Catalog, s0: System, steps: seq<Step>, t: nat)
    requires Fresh(s0) && AloneIn(Schedule(cat, s0, steps), t)
    requires var tx := Schedule(cat, s0, steps).txs[t]; tx.status == Running && tx.next == 0
    ensures var s := Schedule(cat, s0, steps);
            var end := Schedule(cat, s, Lines(t, |s.txs[t].req.lines|) + [StepFinish(t)]);
            var accepted := Verdict(cat, s.stock, s.txs[t].ctx, s.txs[t].req).None?;
            && |end.txs| == |s.txs|
            && end.txs[t].status == (if accepted then Committed else Aborted)
            && end.commits == (if accepted then s.commits + [t] else s.commits)
  {
    var s := Schedule(cat, s0, steps);
    AlwaysOk(cat, s0, steps);
    FinishedHoldNothing(cat, s0, steps);
    var lines, tx := Lines(t, |s.txs[t].req.lines|), s.txs[t];
    TakesItsLines(cat, s, t, |tx.req.lines|);
    assert (lines + [StepFinish(t)])[..|lines|] == lines;
    PassesAll(cat, s.stock, tx.ctx, tx.req, 0);
    if Schedule(cat, s, lines).txs[t].status == Running {
      FinishIsExact(cat, Schedule(cat, s, lines), t);
    }
  }

  lemma {:induction false} AlwaysOk(cat: Catalog, s: System, steps: seq<Step>)
    requires Fresh(s)
    ensures SystemOk(cat, Schedule(cat, s, steps))
  {
    if steps != [] {
      AlwaysOk(cat, s, steps[..|steps| - 1]);
      StepKeepsSystem(cat, Schedule(cat, s, steps[..|steps| - 1]), steps[|steps| - 1]);
    }
  }
}
