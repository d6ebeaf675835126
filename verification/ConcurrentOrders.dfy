// Orders created at the same time.  Each transaction takes its lines one by one; a line locks the
// inventory row it reads and the lock is held until the transaction commits or aborts.  The
// catalogue stays fixed while they run.
module ConcurrentOrders {
  import opened ShopModel
  import opened ShopRuns
  import opened StockRefinement

  datatype Status = Running | Committed | Aborted

  // A transaction: its request, the next line, and the quantities it has written but not committed.
  datatype Tx = Tx(ctx: int, customer: int, req: OrderRequest, next: nat, written: map<int, int>, status: Status)

  // The committed rows, who holds which row's lock, and who committed in which order.
  datatype System = System(stock: map<int, Stock>, locks: map<int, nat>, txs: seq<Tx>, commits: seq<nat>)

  datatype Step = StepLine(t: nat) | StepFinish(t: nat) | StepAbort(t: nat)

  function Release(locks: map<int, nat>, t: nat): map<int, nat> {
    locks - (set p | p in locks && locks[p] == t)
  }

  function Abort(s: System, t: nat): System
    requires t < |s.txs|
  {
    s.(txs := s.txs[t := s.txs[t].(status := Aborted, written := map[])], locks := Release(s.locks, t))
  }

  function Commit(s: System, t: nat): System
    requires t < |s.txs|
  {
    var tx := s.txs[t];
    s.(stock := map p | p in s.stock :: if p in tx.written then s.stock[p].(quantity := tx.written[p]) else s.stock[p],
       txs := s.txs[t := tx.(status := Committed)],
       locks := Release(s.locks, t),
       commits := s.commits + [t])
  }

  // One line: checks that need no row, then the row's lock (waiting changes nothing), then the
  // quantity as this transaction sees it.
  function TakeNextLine(cat: Catalog, s: System, t: nat): System
    requires t < |s.txs| && s.txs[t].next < |s.txs[t].req.lines|
  {
    var tx := s.txs[t];
    var Line(p, quantity) := tx.req.lines[tx.next];
    var v := StaticVerdict(cat, s.stock, tx.ctx, tx.req, tx.next);
    if v.Some? && v.value != BadQuantity then Abort(s, t)
    else if p in s.locks && s.locks[p] != t then s
    else if v.Some? then Abort(s, t)
    else
      var available := if p in tx.written then tx.written[p] else s.stock[p].quantity;
      if available < quantity then Abort(s, t)
      else
        s.(locks := s.locks[p := t],
           txs := s.txs[t := tx.(next := tx.next + 1, written := tx.written[p := available - quantity])])
  }

  function Next(cat: Catalog, s: System, step: Step): System {
    if step.t >= |s.txs| || s.txs[step.t].status != Running then s
    else
      var tx := s.txs[step.t];
      match step
      case StepAbort(t) => Abort(s, t)
      case StepLine(t) => if tx.next < |tx.req.lines| then TakeNextLine(cat, s, t) else s
      case StepFinish(t) =>
        if tx.next < |tx.req.lines| then s
        else if StoreVerdict(cat, tx.req).Some? then Abort(s, t)
        else Commit(s, t)
  }

  function Schedule(cat: Catalog, s: System, steps: seq<Step>): System {
    if steps == [] then s else Next(cat, Schedule(cat, s, steps[..|steps| - 1]), steps[|steps| - 1])
  }

  ghost predicate Fresh(s: System) {
    && s.locks == map[] && s.commits == []
    && forall t :: 0 <= t < |s.txs| ==>
         s.txs[t].next == 0 && s.txs[t].written == map[] && s.txs[t].status == Running
  }

  // ----- the invariant -----

  // A running transaction holds the row of every line it has taken; against the committed stock,
  // which nobody else can change there, its lines still pass and its writes are what they leave.
  ghost predicate TxOk(cat: Catalog, s: System, t: nat)
    requires t < |s.txs|
  {
    var tx := s.txs[t];
    tx.status == Running ==>
      && tx.next <= |tx.req.lines|
      && (forall k :: 0 <= k < tx.next ==>
            tx.req.lines[k].product in tx.written && LineVerdict(cat, s.stock, tx.ctx, tx.req, k).None?)
      && (forall p :: p in tx.written ==> p in s.stock && p in s.locks && s.locks[p] == t)
      && (forall p :: p in tx.written ==> tx.written[p] == s.stock[p].quantity - Demand(tx.req.lines, tx.next, p))
  }

  ghost predicate SystemOk(cat: Catalog, s: System) {
    && (forall t :: 0 <= t < |s.txs| ==> TxOk(cat, s, t))
    && (forall i :: 0 <= i < |s.commits| ==> s.commits[i] < |s.txs| && s.txs[s.commits[i]].status == Committed)
    && (forall i, j :: 0 <= i < j < |s.commits| ==> s.commits[i] != s.commits[j])
    && (forall t :: 0 <= t < |s.txs| && s.txs[t].status == Committed ==> t in s.commits)
  }

  // ----- the serial execution -----

  function OpOf(tx: Tx): Op {
    OpCreateOrder(tx.ctx, tx.customer, tx.req)
  }

  function SerialOps(txs: seq<Tx>, commits: seq<nat>): seq<Op>
    requires forall i :: 0 <= i < |commits| ==> commits[i] < |txs|
  {
    seq(|commits|, i requires 0 <= i < |commits| => OpOf(txs[commits[i]]))
  }

  // The committed rows are those of the serial run, in which every one of these orders went through.
  ghost predicate Matches(w0: World, s: System)
    requires forall i :: 0 <= i < |s.commits| ==> s.commits[i] < |s.txs|
  {
    var w := Run(w0, SerialOps(s.txs, s.commits));
    && w.inventory == s.stock
    && w.catalog == w0.catalog
    && |w.orders| == |w0.orders| + |s.commits|
  }

  // ----- steps keep the invariant -----

  // What a transaction knows depends only on the rows it has taken.
  lemma VerdictFrame(cat: Catalog, a: map<int, Stock>, b: map<int, Stock>, ctx: int, req: OrderRequest, k: nat)
    requires k < |req.lines| && a.Keys == b.Keys
    requires forall p :: p in a ==> a[p].store == b[p].store
    requires req.lines[k].product in a ==> a[req.lines[k].product] == b[req.lines[k].product]
    ensures LineVerdict(cat, a, ctx, req, k) == LineVerdict(cat, b, ctx, req, k)
  {
  }

  lemma AbortKeeps(cat: Catalog, s: System, t: nat)
    requires SystemOk(cat, s) && t < |s.txs| && s.txs[t].status == Running
    ensures SystemOk(cat, Abort(s, t))
  {
    var s' := Abort(s, t);
    forall u | 0 <= u < |s'.txs|
      ensures TxOk(cat, s', u)
    {
      assert TxOk(cat, s, u);
    }
  }

  // The state after a line that went through.
  function LineTaken(s: System, t: nat, p: int, left: int): System
    requires t < |s.txs|
  {
    var tx := s.txs[t];
    s.(locks := s.locks[p := t],
       txs := s.txs[t := tx.(next := tx.next + 1, written := tx.written[p := left])])
  }

  lemma LineTakenOwn(cat: Catalog, s: System, t: nat, p: int, left: int)
    requires t < |s.txs| && s.txs[t].status == Running && TxOk(cat, s, t)
    requires s.txs[t].next < |s.txs[t].req.lines| && s.txs[t].req.lines[s.txs[t].next].product == p && p in s.stock
    requires LineVerdict(cat, s.stock, s.txs[t].ctx, s.txs[t].req, s.txs[t].next).None?
    requires left == s.stock[p].quantity - Demand(s.txs[t].req.lines, s.txs[t].next + 1, p)
    ensures TxOk(cat, LineTaken(s, t, p, left), t)
  {
    var s', tx := LineTaken(s, t, p, left), s.txs[t];
    forall k | 0 <= k < tx.next + 1
      ensures tx.req.lines[k].product in s'.txs[t].written && LineVerdict(cat, s'.stock, tx.ctx, tx.req, k).None?
    {
      assert k < tx.next ==> tx.req.lines[k].product in tx.written;
    }
  }

  lemma LineTakenOthers(cat: Catalog, s: System, t: nat, p: int, left: int, u: nat)
    requires t < |s.txs| && u < |s.txs| && u != t && TxOk(cat, s, u)
    requires p in s.locks ==> s.locks[p] == t
    ensures TxOk(cat, LineTaken(s, t, p, left), u)
  {
  }

  lemma LineKeeps(cat: Catalog, s: System, t: nat)
    requires SystemOk(cat, s) && t < |s.txs| && s.txs[t].status == Running
    requires s.txs[t].next < |s.txs[t].req.lines|
    ensures SystemOk(cat, TakeNextLine(cat, s, t))
  {
    if TakeNextLine(cat, s, t) == Abort(s, t) {
      AbortKeeps(cat, s, t);
    } else if TakeNextLine(cat, s, t) != s {
      var p, left := LineGoesThrough(cat, s, t);
      LineTakenKeeps(cat, s, t, p, left);
    }
  }

  // What it takes for a line to go through, and what it leaves.
  lemma LineGoesThrough(cat: Catalog, s: System, t: nat) returns (p: int, left: int)
    requires t < |s.txs| && s.txs[t].status == Running && TxOk(cat, s, t) && s.txs[t].next < |s.txs[t].req.lines|
    requires TakeNextLine(cat, s, t) != Abort(s, t) && TakeNextLine(cat, s, t) != s
    ensures p == s.txs[t].req.lines[s.txs[t].next].product && p in s.stock && (p in s.locks ==> s.locks[p] == t)
    ensures LineVerdict(cat, s.stock, s.txs[t].ctx, s.txs[t].req, s.txs[t].next).None?
    ensures left == s.stock[p].quantity - Demand(s.txs[t].req.lines, s.txs[t].next + 1, p)
    ensures TakeNextLine(cat, s, t) == LineTaken(s, t, p, left)
  {
    var tx := s.txs[t];
    p := tx.req.lines[tx.next].product;
    left := (if p in tx.written then tx.written[p] else s.stock[p].quantity) - tx.req.lines[tx.next].quantity;
    if p !in tx.written {
      NoDemand(tx.req.lines, tx.next, p);
    }
  }

  lemma LineTakenKeeps(cat: Catalog, s: System, t: nat, p: int, left: int)
    requires SystemOk(cat, s) && t < |s.txs| && s.txs[t].status == Running && s.txs[t].next < |s.txs[t].req.lines|
    requires p == s.txs[t].req.lines[s.txs[t].next].product && p in s.stock && (p in s.locks ==> s.locks[p] == t)
    requires LineVerdict(cat, s.stock, s.txs[t].ctx, s.txs[t].req, s.txs[t].next).None?
    requires left == s.stock[p].quantity - Demand(s.txs[t].req.lines, s.txs[t].next + 1, p)
    ensures SystemOk(cat, LineTaken(s, t, p, left))
  {
    forall u | 0 <= u < |s.txs|
      ensures TxOk(cat, LineTaken(s, t, p, left), u)
    {
      assert TxOk(cat, s, u);
      if u == t {
        LineTakenOwn(cat, s, t, p, left);
      } else {
        LineTakenOthers(cat, s, t, p, left, u);
      }
    }
  }

  lemma CommitTakes(cat: Catalog, s: System, t: nat)
    requires SystemOk(cat, s) && t < |s.txs| && s.txs[t].status == Running
    requires s.txs[t].next == |s.txs[t].req.lines| && StoreVerdict(cat, s.txs[t].req).None?
    ensures Verdict(cat, s.stock, s.txs[t].ctx, s.txs[t].req).None?
    ensures Commit(s, t).stock == Taken(s.stock, s.txs[t].req.lines, |s.txs[t].req.lines|)
  {
    var tx := s.txs[t];
    assert TxOk(cat, s, t);
    AllPass(cat, s.stock, tx.ctx, tx.req, 0);
    forall p | p in s.stock && p !in tx.written
      ensures TotalDemand(tx.req.lines, p) == 0
    {
      NoDemand(tx.req.lines, |tx.req.lines|, p);
    }
  }

  lemma {:induction false} AllPass(cat: Catalog, inv: map<int, Stock>, ctx: int, req: OrderRequest, k: nat)
    requires k <= |req.lines|
    requires forall j :: k <= j < |req.lines| ==> LineVerdict(cat, inv, ctx, req, j).None?
    ensures FirstLineError(cat, inv, ctx, req, k).None?
    decreases |req.lines| - k
  {
    if k < |req.lines| {
      AllPass(cat, inv, ctx, req, k + 1);
    }
  }

  lemma CommitKeeps(cat: Catalog, s: System, t: nat)
    requires SystemOk(cat, s) && t < |s.txs| && s.txs[t].status == Running
    requires s.txs[t].next == |s.txs[t].req.lines| && StoreVerdict(cat, s.txs[t].req).None?
    ensures SystemOk(cat, Commit(s, t))
  {
    var s' := Commit(s, t);
    assert TxOk(cat, s, t);
    forall u | 0 <= u < |s'.txs|
      ensures TxOk(cat, s', u)
    {
      assert TxOk(cat, s, u);
      var tx := s.txs[u];
      if u != t && tx.status == Running {
        forall k | 0 <= k < tx.next
          ensures LineVerdict(cat, s'.stock, tx.ctx, tx.req, k).None?
        {
          VerdictFrame(cat, s.stock, s'.stock, tx.ctx, tx.req, k);
        }
      }
    }
    forall x | 0 <= x < |s'.txs| && s'.txs[x].status == Committed
      ensures x in s'.commits
    {
      assert x == t ==> s'.commits[|s.commits|] == t;
    }
  }

  lemma CommitMatches(cat: Catalog, w0: World, s: System, t: nat)
    requires SystemOk(cat, s) && Matches(w0, s) && w0.catalog == cat
    requires t < |s.txs| && s.txs[t].status == Running
    requires s.txs[t].next == |s.txs[t].req.lines| && StoreVerdict(cat, s.txs[t].req).None?
    ensures s.commits + [t] == Commit(s, t).commits && Matches(w0, Commit(s, t))
  {
    var s' := Commit(s, t);
    CommitTakes(cat, s, t);
    var before, after := SerialOps(s.txs, s.commits), SerialOps(s'.txs, s'.commits);
    assert after == before + [OpOf(s.txs[t])];
    assert after[..|after| - 1] == before;
    assert Run(w0, after) == Apply(Run(w0, before), OpOf(s.txs[t]));
  }

  lemma LineKeepsRequests(cat: Catalog, s: System, t: nat)
    requires t < |s.txs| && s.txs[t].next < |s.txs[t].req.lines|
    ensures var s' := TakeNextLine(cat, s, t);
            && |s'.txs| == |s.txs| && s'.commits == s.commits && s'.stock == s.stock
            && forall u :: 0 <= u < |s.txs| ==> OpOf(s'.txs[u]) == OpOf(s.txs[u])
  {
  }

  lemma StepKeepsSystem(cat: Catalog, s: System, step: Step)
    requires SystemOk(cat, s)
    ensures SystemOk(cat, Next(cat, s, step))
  {
    var s', t := Next(cat, s, step), step.t;
    if t < |s.txs| && s.txs[t].status == Running {
      assert TxOk(cat, s, t);
      if s' == Abort(s, t) {
        AbortKeeps(cat, s, t);
      } else if step.StepLine? {
        if s.txs[t].next < |s.txs[t].req.lines| {
          LineKeeps(cat, s, t);
        }
      } else if step.StepFinish? && s.txs[t].next == |s.txs[t].req.lines| {
        CommitKeeps(cat, s, t);
      }
    }
  }

  lemma StepKeepsMatch(cat: Catalog, w0: World, s: System, step: Step)
    requires SystemOk(cat, s) && SystemOk(cat, Next(cat, s, step)) && Matches(w0, s) && w0.catalog == cat
    ensures Matches(w0, Next(cat, s, step))
  {
    var s', t := Next(cat, s, step), step.t;
    if t < |s.txs| && s.txs[t].status == Running {
      assert TxOk(cat, s, t);
      if s' == Abort(s, t) {
        SameRequests(s, s');
      } else if step.StepLine? {
        if s.txs[t].next < |s.txs[t].req.lines| {
          LineKeepsRequests(cat, s, t);
          SameRequests(s, s');
        }
      } else if step.StepFinish? && s.txs[t].next == |s.txs[t].req.lines| {
        CommitMatches(cat, w0, s, t);
      }
    }
  }

  lemma StepKeeps(cat: Catalog, w0: World, s: System, step: Step)
    requires SystemOk(cat, s) && Matches(w0, s) && w0.catalog == cat
    ensures SystemOk(cat, Next(cat, s, step)) && Matches(w0, Next(cat, s, step))
  {
    StepKeepsSystem(cat, s, step);
    StepKeepsMatch(cat, w0, s, step);
  }

  // Requests never change, so unless somebody commits the serial run stays the same.
  lemma SameRequests(s: System, s': System)
    requires forall i :: 0 <= i < |s.commits| ==> s.commits[i] < |s.txs|
    requires |s'.txs| == |s.txs| && s'.commits == s.commits
    requires forall t :: 0 <= t < |s.txs| ==> OpOf(s'.txs[t]) == OpOf(s.txs[t])
    ensures SerialOps(s'.txs, s'.commits) == SerialOps(s.txs, s.commits)
  {
  }

  // Every interleaving of any number of order transactions, with aborts wherever they like, leaves
  // the stock of running the committed ones one after the other in commit order, all of them
  // accepted; nobody commits twice, and no stock falls below zero.
  lemma {:induction false} InterleavingsAreSerial(w0: World, s: System, steps: seq<Step>)
    requires Fresh(s) && s.stock == w0.inventory
    ensures SystemOk(w0.catalog, Schedule(w0.catalog, s, steps))
    ensures Matches(w0, Schedule(w0.catalog, s, steps))
    ensures NonNegative(w0.inventory) ==> NonNegative(Schedule(w0.catalog, s, steps).stock)
  {
    if steps == [] {
      assert SerialOps(s.txs, s.commits) == [];
    } else {
      var front := steps[..|steps| - 1];
      InterleavingsAreSerial(w0, s, front);
      var s1, step := Schedule(w0.catalog, s, front), steps[|steps| - 1];
      StepKeeps(w0.catalog, w0, s1, step);
      if NonNegative(s1.stock) && Next(w0.catalog, s1, step).stock != s1.stock {
        var tx := s1.txs[step.t];
        assert TxOk(w0.catalog, s1, step.t);
        CommitTakes(w0.catalog, s1, step.t);
        TakenNonNegative(w0.catalog, s1.stock, tx.ctx, tx.req);
      }
    }
  }
}
