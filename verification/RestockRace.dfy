// Putting goods back while orders are being created.  The approval of a return reads an inventory
// row without taking its lock and writes the sum back when it commits; the write waits until nobody
// holds the row, but whatever happened to it since the read is forgotten.  A cancellation takes the
// lock before it reads.
module RestockRace {
  import opened Common
  import opened ShopModel
  import opened StockRefinement
  import opened ConcurrentOrders

  // What one row goes through in one approval.  `since` counts the changes before the read.
  datatype Read = Read(seen: int, since: nat)
  datatype Approval = Approval(product: int, quantity: int, read: Option<Read>, done: bool)

  // A committed change: an order took its lines, a cancellation put units back, or an approval wrote
  // what it had read after the first `since` changes, plus its units.
  datatype Change = Took(lines: seq<Line>) | PutBack(product: int, quantity: int) | Wrote(product: int, quantity: int, since: nat)

  datatype Race = Race(system: System, approvals: seq<Approval>, log: seq<Change>)

  datatype Move = OrderStep(step: Step) | ReadRow(a: nat) | WriteRow(a: nat) | CancelRow(product: int, quantity: int)

  function WithRow(s: System, p: int, quantity: int): System
    requires p in s.stock
  {
    s.(stock := s.stock[p := s.stock[p].(quantity := quantity)])
  }

  // A write to a row whose lock somebody holds waits, which changes nothing.
  function Advance(cat: Catalog, r: Race, move: Move): Race {
    var s := r.system;
    match move
    case OrderStep(step) =>
      var s' := Next(cat, s, step);
      if step.t < |s.txs| && s'.commits != s.commits then r.(system := s', log := r.log + [Took(s.txs[step.t].req.lines)])
      else r.(system := s')
    case ReadRow(a) =>
      if a < |r.approvals| && r.approvals[a].read.None? && r.approvals[a].product in s.stock then
        r.(approvals := r.approvals[a := r.approvals[a].(read := Some(Read(s.stock[r.approvals[a].product].quantity, |r.log|)))])
      else r
    case WriteRow(a) =>
      if a < |r.approvals| && r.approvals[a].read.Some? && !r.approvals[a].done
         && r.approvals[a].product in s.stock && r.approvals[a].product !in s.locks then
        var Approval(p, quantity, read, _) := r.approvals[a];
        Race(WithRow(s, p, read.value.seen + quantity), r.approvals[a := r.approvals[a].(done := true)],
             r.log + [Wrote(p, quantity, read.value.since)])
      else r
    case CancelRow(p, quantity) =>
      if p in s.stock && p !in s.locks then
        r.(system := WithRow(s, p, s.stock[p].quantity + quantity), log := r.log + [PutBack(p, quantity)])
      else r
  }

  function Play(cat: Catalog, r: Race, moves: seq<Move>): Race {
    if moves == [] then r else Advance(cat, Play(cat, r, moves[..|moves| - 1]), moves[|moves| - 1])
  }

  // Orders that have not begun and approvals that have not read.
  ghost predicate AtStart(r: Race) {
    Fresh(r.system) && r.log == [] && forall a :: 0 <= a < |r.approvals| ==> r.approvals[a].read.None?
  }

  // ----- what the changes amount to -----

  // What change i did to the row of p.  A write also undoes everything since its read.
  function Effect(log: seq<Change>, i: nat, p: int): int
    requires i < |log|
    decreases i, 1
  {
    match log[i]
    case Took(lines) => -TotalDemand(lines, p)
    case PutBack(x, quantity) => if x == p then quantity else 0
    case Wrote(x, quantity, since) => if x == p && since <= i then quantity - Sum(log, since, i, p) else 0
  }

  function Sum(log: seq<Change>, lo: nat, hi: nat, p: int): int
    requires lo <= hi <= |log|
    decreases hi, 0
  {
    if lo == hi then 0 else Sum(log, lo, hi - 1, p) + Effect(log, hi - 1, p)
  }

  // What it was meant to do, and does when the changes happen one after the other.
  function Meant(change: Change, p: int): int {
    match change
    case Took(lines) => -TotalDemand(lines, p)
    case PutBack(x, quantity) => if x == p then quantity else 0
    case Wrote(x, quantity, _) => if x == p then quantity else 0
  }

  function Serial(log: seq<Change>, lo: nat, hi: nat, p: int): int
    requires lo <= hi <= |log|
  {
    if lo == hi then 0 else Serial(log, lo, hi - 1, p) + Meant(log[hi - 1], p)
  }

  // What the writes among the first n changes undid.
  function Undone(log: seq<Change>, n: nat, p: int): int
    requires n <= |log|
  {
    if n == 0 then 0
    else
      var last := log[n - 1];
      Undone(log, n - 1, p)
      + if last.Wrote? && last.product == p && last.since < n then Sum(log, last.since, n - 1, p) else 0
  }

  ghost predicate LinesPositive(lines: seq<Line>) {
    forall k :: 0 <= k < |lines| ==> lines[k].quantity > 0
  }

  ghost predicate LogOk(log: seq<Change>) {
    && (forall i :: 0 <= i < |log| && log[i].Took? ==> LinesPositive(log[i].lines))
    && (forall i :: 0 <= i < |log| && log[i].Wrote? ==> log[i].since <= i)
  }

  lemma {:induction false} EffectSame(log: seq<Change>, more: Change, i: nat, p: int)
    requires i < |log|
    ensures Effect(log + [more], i, p) == Effect(log, i, p)
    decreases i, 1
  {
    assert (log + [more])[i] == log[i];
    if log[i].Wrote? && log[i].since <= i {
      SumSame(log, more, log[i].since, i, p);
    }
  }

  lemma {:induction false} SumSame(log: seq<Change>, more: Change, lo: nat, hi: nat, p: int)
    requires lo <= hi <= |log|
    ensures Sum(log + [more], lo, hi, p) == Sum(log, lo, hi, p)
    decreases hi, 0
  {
    if lo < hi {
      SumSame(log, more, lo, hi - 1, p);
      EffectSame(log, more, hi - 1, p);
    }
  }

  lemma {:induction false} SumSplits(log: seq<Change>, lo: nat, mid: nat, hi: nat, p: int)
    requires lo <= mid <= hi <= |log|
    ensures Sum(log, lo, hi, p) == Sum(log, lo, mid, p) + Sum(log, mid, hi, p)
  {
    if mid < hi {
      SumSplits(log, lo, mid, hi - 1, p);
    }
  }

  // All changes together are what they were meant to be less what the writes undid.
  lemma {:induction false} SumIsSerial(log: seq<Change>, n: nat, p: int)
    requires n <= |log| && LogOk(log)
    ensures Sum(log, 0, n, p) == Serial(log, 0, n, p) - Undone(log, n, p)
  {
    if n > 0 {
      SumIsSerial(log, n - 1, p);
    }
  }

  // ----- every schedule -----

  ghost predicate RowIsLog(start: map<int, Stock>, r: Race, p: int) {
    p in start && p in r.system.stock
    && r.system.stock[p].quantity == start[p].quantity + Sum(r.log, 0, |r.log|, p)
  }

  ghost predicate ReadIsLog(start: map<int, Stock>, log: seq<Change>, a: Approval) {
    a.read.Some? ==>
      && a.read.value.since <= |log| && a.product in start
      && a.read.value.seen == start[a.product].quantity + Sum(log, 0, a.read.value.since, a.product)
  }

  ghost predicate RaceOk(cat: Catalog, start: map<int, Stock>, r: Race) {
    && SystemOk(cat, r.system) && r.system.stock.Keys == start.Keys && LogOk(r.log)
    && (forall p :: p in start ==> RowIsLog(start, r, p))
    && (forall a :: 0 <= a < |r.approvals| ==> ReadIsLog(start, r.log, r.approvals[a]))
  }

  // A step that commits nothing leaves stock and requests alone.
  lemma QuietStep(cat: Catalog, s: System, step: Step)
    requires Next(cat, s, step).commits == s.commits
    ensures var s' := Next(cat, s, step);
            s'.stock == s.stock && |s'.txs| == |s.txs| && forall t :: 0 <= t < |s.txs| ==> s'.txs[t].req == s.txs[t].req
  {
  }

  // A step that commits takes the demand of its order, which is positive line by line.
  lemma CommitStep(cat: Catalog, s: System, step: Step, p: int)
    requires SystemOk(cat, s) && p in s.stock && Next(cat, s, step).commits != s.commits
    ensures var s' := Next(cat, s, step);
            && step.t < |s.txs| && s' == Commit(s, step.t)
            && p in s'.stock && s'.stock[p].quantity == s.stock[p].quantity - TotalDemand(s.txs[step.t].req.lines, p)
            && LinesPositive(s.txs[step.t].req.lines)
  {
    var tx := s.txs[step.t];
    assert TxOk(cat, s, step.t);
    CommitTakes(cat, s, step.t);
    AcceptsIffTotalsFit(cat, s.stock, tx.ctx, tx.req);
    StaticFacts(cat, s.stock, tx.ctx, tx.req);
  }

  // The write waits for the row's lock, so it never disturbs an order that is under way.
  lemma WriteKeepsOrders(cat: Catalog, s: System, p: int, quantity: int)
    requires SystemOk(cat, s) && p in s.stock && p !in s.locks
    ensures SystemOk(cat, WithRow(s, p, quantity))
  {
    var s' := WithRow(s, p, quantity);
    forall t | 0 <= t < |s'.txs|
      ensures TxOk(cat, s', t)
    {
      assert TxOk(cat, s, t);
      var tx := s.txs[t];
      if tx.status == Running {
        forall k | 0 <= k < tx.next
          ensures LineVerdict(cat, s'.stock, tx.ctx, tx.req, k).None?
        {
          VerdictFrame(cat, s.stock, s'.stock, tx.ctx, tx.req, k);
        }
      }
    }
  }

  // A write waits for nothing else: with the row free, an approval that has read writes what it read
  // plus its units, and a cancellation adds its units to what is there.
  lemma FreeRowsAreWritten(cat: Catalog, r: Race, a: nat, p: int, quantity: int)
    requires p in r.system.stock && p !in r.system.locks
    requires a < |r.approvals| && r.approvals[a].product == p && r.approvals[a].read.Some? && !r.approvals[a].done
    ensures var written := Advance(cat, r, WriteRow(a));
            && p in written.system.stock && |written.approvals| == |r.approvals| && written.approvals[a].done
            && written.system.stock[p].quantity == r.approvals[a].read.value.seen + r.approvals[a].quantity
            && written.system == r.system.(stock := written.system.stock)
    ensures var put := Advance(cat, r, CancelRow(p, quantity));
            && p in put.system.stock && put.system.stock[p].quantity == r.system.stock[p].quantity + quantity
            && put.approvals == r.approvals && put.system == r.system.(stock := put.system.stock)
  {
  }

  // One more change: every row moves by its effect, and what was read is still what was there.
  lemma OneMoreChange(cat: Catalog, start: map<int, Stock>, r: Race, s': System, approvals: seq<Approval>, change: Change)
    requires RaceOk(cat, start, r) && SystemOk(cat, s') && s'.stock.Keys == start.Keys && LogOk(r.log + [change])
    requires forall p :: p in start ==>
               s'.stock[p].quantity == r.system.stock[p].quantity + Effect(r.log + [change], |r.log|, p)
    requires |approvals| == |r.approvals|
    requires forall a :: 0 <= a < |approvals| ==> approvals[a].product == r.approvals[a].product && approvals[a].read == r.approvals[a].read
    ensures RaceOk(cat, start, Race(s', approvals, r.log + [change]))
  {
    var log := r.log + [change];
    forall p | p in start
      ensures RowIsLog(start, Race(s', approvals, log), p)
    {
      assert RowIsLog(start, r, p);
      SumSame(r.log, change, 0, |r.log|, p);
    }
    forall a | 0 <= a < |approvals|
      ensures ReadIsLog(start, log, approvals[a])
    {
      assert ReadIsLog(start, r.log, r.approvals[a]);
      if approvals[a].read.Some? {
        SumSame(r.log, change, 0, approvals[a].read.value.since, approvals[a].product);
      }
    }
  }

  lemma CommitIsPositive(cat: Catalog, s: System, step: Step)
    requires SystemOk(cat, s) && Next(cat, s, step).commits != s.commits
    ensures step.t < |s.txs| && LinesPositive(s.txs[step.t].req.lines)
    ensures Next(cat, s, step).stock.Keys == s.stock.Keys
  {
    var tx := s.txs[step.t];
    assert TxOk(cat, s, step.t);
    CommitTakes(cat, s, step.t);
    AcceptsIffTotalsFit(cat, s.stock, tx.ctx, tx.req);
    StaticFacts(cat, s.stock, tx.ctx, tx.req);
  }

  lemma OrderStepKeeps(cat: Catalog, start: map<int, Stock>, r: Race, step: Step)
    requires RaceOk(cat, start, r)
    ensures RaceOk(cat, start, Advance(cat, r, OrderStep(step)))
  {
    var s' := Next(cat, r.system, step);
    StepKeepsSystem(cat, r.system, step);
    if s'.commits == r.system.commits {
      QuietStep(cat, r.system, step);
      forall p | p in start
        ensures RowIsLog(start, r.(system := s'), p)
      {
        assert RowIsLog(start, r, p);
      }
    } else {
      forall p | p in start
        ensures p in s'.stock
        ensures s'.stock[p].quantity == r.system.stock[p].quantity - TotalDemand(r.system.txs[step.t].req.lines, p)
      {
        CommitStep(cat, r.system, step, p);
      }
      CommitIsPositive(cat, r.system, step);
      OneMoreChange(cat, start, r, s', r.approvals, Took(r.system.txs[step.t].req.lines));
    }
  }

  lemma ReadKeeps(cat: Catalog, start: map<int, Stock>, r: Race, a: nat)
    requires RaceOk(cat, start, r)
    ensures RaceOk(cat, start, Advance(cat, r, ReadRow(a)))
  {
    var r' := Advance(cat, r, ReadRow(a));
    if r' != r {
      assert RowIsLog(start, r, r.approvals[a].product);
      forall p | p in start
        ensures RowIsLog(start, r', p)
      {
        assert RowIsLog(start, r, p);
      }
    }
  }

  lemma WriteKeeps(cat: Catalog, start: map<int, Stock>, r: Race, a: nat)
    requires RaceOk(cat, start, r)
    ensures RaceOk(cat, start, Advance(cat, r, WriteRow(a)))
  {
    var r' := Advance(cat, r, WriteRow(a));
    if r' != r {
      var Approval(p, quantity, read, _) := r.approvals[a];
      var change := Wrote(p, quantity, read.value.since);
      assert ReadIsLog(start, r.log, r.approvals[a]) && RowIsLog(start, r, p);
      WriteKeepsOrders(cat, r.system, p, read.value.seen + quantity);
      SumSplits(r.log, 0, read.value.since, |r.log|, p);
      SumSame(r.log, change, read.value.since, |r.log|, p);
      OneMoreChange(cat, start, r, r'.system, r'.approvals, change);
    }
  }

  lemma CancelKeeps(cat: Catalog, start: map<int, Stock>, r: Race, p: int, quantity: int)
    requires RaceOk(cat, start, r)
    ensures RaceOk(cat, start, Advance(cat, r, CancelRow(p, quantity)))
  {
    var r' := Advance(cat, r, CancelRow(p, quantity));
    if p in r.system.stock && p !in r.system.locks {
      WriteKeepsOrders(cat, r.system, p, r.system.stock[p].quantity + quantity);
      OneMoreChange(cat, start, r, r'.system, r.approvals, PutBack(p, quantity));
    }
  }

  lemma MoveKeeps(cat: Catalog, start: map<int, Stock>, r: Race, move: Move)
    requires RaceOk(cat, start, r)
    ensures RaceOk(cat, start, Advance(cat, r, move))
  {
    match move
    case OrderStep(step) => OrderStepKeeps(cat, start, r, step);
    case ReadRow(a) => ReadKeeps(cat, start, r, a);
    case WriteRow(a) => WriteKeeps(cat, start, r, a);
    case CancelRow(p, quantity) => CancelKeeps(cat, start, r, p, quantity);
  }

  lemma {:induction false} PlayKeeps(cat: Catalog, r: Race, moves: seq<Move>)
    requires AtStart(r)
    ensures RaceOk(cat, r.system.stock, Play(cat, r, moves))
  {
    if moves != [] {
      PlayKeeps(cat, r, moves[..|moves| - 1]);
      MoveKeeps(cat, r.system.stock, Play(cat, r, moves[..|moves| - 1]), moves[|moves| - 1]);
    }
  }

  lemma {:induction false} SomeDemand(lines: seq<Line>, n: nat, p: int)
    requires n <= |lines| && LinesPositive(lines)
    ensures Demand(lines, n, p) >= 0
    ensures Demand(lines, n, p) == 0 <==> forall i :: 0 <= i < n ==> lines[i].product != p
  {
    if n > 0 {
      SomeDemand(lines, n - 1, p);
    }
  }

  // ----- how many units too many -----

  // In any interleaving of orders, cancellations and approvals, and at any moment of it, every row is
  // what the committed changes would leave one after the other, less what the approvals undid.
  lemma {:induction false} RowsInARace(cat: Catalog, r: Race, moves: seq<Move>, p: int)
    requires AtStart(r) && p in r.system.stock
    ensures var now := Play(cat, r, moves);
            && p in now.system.stock && SystemOk(cat, now.system)
            && now.system.stock[p].quantity
               == r.system.stock[p].quantity + Serial(now.log, 0, |now.log|, p) - Undone(now.log, |now.log|, p)
  {
    PlayKeeps(cat, r, moves);
    var now := Play(cat, r, moves);
    assert RowIsLog(r.system.stock, now, p);
    SumIsSerial(now.log, |now.log|, p);
  }

  // Change i is the only approval that wrote the row of p.
  ghost predicate OnlyWrite(log: seq<Change>, i: nat, p: int) {
    && i < |log| && log[i].Wrote? && log[i].product == p && log[i].since <= i
    && forall j :: 0 <= j < |log| && j != i && log[j].Wrote? ==> log[j].product != p
  }

  lemma {:induction false} SumBeforeWrite(log: seq<Change>, lo: nat, hi: nat, i: nat, p: int)
    requires OnlyWrite(log, i, p) && lo <= hi <= i
    ensures Sum(log, lo, hi, p) == Serial(log, lo, hi, p)
  {
    if lo < hi {
      SumBeforeWrite(log, lo, hi - 1, i, p);
    }
  }

  lemma {:induction false} UndoneByOne(log: seq<Change>, n: nat, i: nat, p: int)
    requires OnlyWrite(log, i, p) && n <= |log|
    ensures Undone(log, n, p) == if i < n then Serial(log, log[i].since, i, p) else 0
  {
    if n > 0 {
      UndoneByOne(log, n - 1, i, p);
      SumBeforeWrite(log, log[i].since, i, i, p);
    }
  }

  // Without cancellations in between, an approval undoes orders only.
  lemma {:induction false} OrdersOnly(log: seq<Change>, lo: nat, hi: nat, i: nat, p: int)
    requires LogOk(log) && OnlyWrite(log, i, p) && lo <= hi <= i
    requires forall j :: lo <= j < hi && log[j].PutBack? ==> log[j].product != p
    ensures Serial(log, lo, hi, p) <= 0
    ensures Serial(log, lo, hi, p) == 0 <==> forall j :: lo <= j < hi && log[j].Took? ==> p !in Products(log[j].lines)
  {
    if lo < hi {
      OrdersOnly(log, lo, hi - 1, i, p);
      if log[hi - 1].Took? {
        SomeDemand(log[hi - 1].lines, |log[hi - 1].lines|, p);
      }
    }
  }

  // One approval, whatever else goes on before, between and after its read and its write: from then
  // on the row is off by what was meant to happen to it in between.  If only orders happened in
  // between there are as many units too many as they took, and the row is right if and only if none
  // of them has a line for the product.
  lemma {:induction false} UnlockedRestock(cat: Catalog, r: Race, moves: seq<Move>, i: nat, p: int)
    requires AtStart(r) && p in r.system.stock && OnlyWrite(Play(cat, r, moves).log, i, p)
    ensures var now := Play(cat, r, moves);
            var since := now.log[i].since;
            var serial := r.system.stock[p].quantity + Serial(now.log, 0, |now.log|, p);
            && p in now.system.stock
            && now.system.stock[p].quantity == serial - Serial(now.log, since, i, p)
            && ((forall j :: since <= j < i && now.log[j].PutBack? ==> now.log[j].product != p) ==>
                  && now.system.stock[p].quantity >= serial
                  && (now.system.stock[p].quantity == serial <==>
                        forall j :: since <= j < i && now.log[j].Took? ==> p !in Products(now.log[j].lines)))
  {
    var log := Play(cat, r, moves).log;
    PlayKeeps(cat, r, moves);
    RowsInARace(cat, r, moves, p);
    UndoneByOne(log, |log|, i, p);
    if forall j :: log[i].since <= j < i && log[j].PutBack? ==> log[j].product != p {
      OrdersOnly(log, log[i].since, i, i, p);
    }
  }

  // ----- examples -----

  function OneProduct(): Catalog {
    Catalog(map[7 := Product(1, true, 10.0, true, 0.0, None)], map[1 := Store(None, None)])
  }

  function Asking(quantity: int): Tx {
    Tx(0, 2, OrderRequest(1, [Line(7, quantity)]), 0, map[], Running)
  }

  function FiveInStock(txs: seq<Tx>, approvals: seq<Approval>): Race {
    Race(System(map[7 := Stock(1, 5)], map[], txs, []), approvals, [])
  }

  lemma PlayMore(cat: Catalog, r: Race, moves: seq<Move>, move: Move)
    ensures Play(cat, r, moves + [move]) == Advance(cat, Play(cat, r, moves), move)
  {
    assert (moves + [move])[..|moves|] == moves;
  }

  // An order that fits takes its units in two steps.
  lemma OrderGoesThrough(s: System, t: nat, quantity: int)
    requires 7 in s.stock && s.stock == map[7 := s.stock[7]] && s.stock[7].store == 1 && s.locks == map[]
    requires t < |s.txs| && s.txs[t] == Asking(quantity) && 0 < quantity <= s.stock[7].quantity
    ensures var s1 := Next(OneProduct(), s, StepLine(t));
            var s2 := Next(OneProduct(), s1, StepFinish(t));
            && s1.commits == s.commits && s1.stock == s.stock
            && s2.stock == map[7 := Stock(1, s.stock[7].quantity - quantity)] && s2.locks == map[] && s2.commits == s.commits + [t]
            && |s2.txs| == |s.txs| && s1.txs[t].req == s.txs[t].req
            && forall u :: 0 <= u < |s.txs| && u != t ==> s2.txs[u] == s.txs[u]
  {
    var cat := OneProduct();
    var left := s.stock[7].quantity - quantity;
    assert StaticVerdict(cat, s.stock, 0, s.txs[t].req, 0).None?;
    var s1 := Next(cat, s, StepLine(t));
    assert s1.txs[t] == s.txs[t].(next := 1, written := map[7 := left]) && s1.locks == map[7 := t];
    assert StoreVerdict(cat, s1.txs[t].req).None?;
    assert Next(cat, s1, StepFinish(t)) == Commit(s1, t);
  }

  // The whole order as moves of a race.
  lemma OrderMoves(r: Race, t: nat, quantity: int)
    requires 7 in r.system.stock && r.system.stock == map[7 := r.system.stock[7]] && r.system.stock[7].store == 1
    requires r.system.locks == map[] && t < |r.system.txs| && r.system.txs[t] == Asking(quantity)
    requires 0 < quantity <= r.system.stock[7].quantity
    ensures var cat := OneProduct();
            var r' := Advance(cat, Advance(cat, r, OrderStep(StepLine(t))), OrderStep(StepFinish(t)));
            && r'.system.stock == map[7 := Stock(1, r.system.stock[7].quantity - quantity)] && r'.system.locks == map[]
            && r'.system.commits == r.system.commits + [t] && r'.approvals == r.approvals
            && |r'.system.txs| == |r.system.txs|
            && forall u :: 0 <= u < |r.system.txs| && u != t ==> r'.system.txs[u] == r.system.txs[u]
  {
    OrderGoesThrough(r.system, t, quantity);
  }

  function TwoOrdersOneReturn(): Race {
    FiveInStock([Asking(2), Asking(6)], [Approval(7, 1, None, false)])
  }

  function ReadSellWrite(): seq<Move> {
    [ReadRow(0), OrderStep(StepLine(0)), OrderStep(StepFinish(0)), WriteRow(0)]
  }

  lemma ReadMoves(cat: Catalog, r: Race)
    requires |r.approvals| > 0 && r.approvals[0] == Approval(7, 1, None, false) && 7 in r.system.stock
    ensures var r' := Advance(cat, r, ReadRow(0));
            && r'.system == r.system && r'.log == r.log && |r'.approvals| == |r.approvals|
            && r'.approvals[0] == Approval(7, 1, Some(Read(r.system.stock[7].quantity, |r.log|)), false)
  {
  }

  lemma WriteMoves(cat: Catalog, r: Race, seen: int, since: nat)
    requires |r.approvals| > 0 && r.approvals[0] == Approval(7, 1, Some(Read(seen, since)), false)
    requires 7 in r.system.stock && r.system.stock == map[7 := r.system.stock[7]] && r.system.locks == map[]
    ensures var r' := Advance(cat, r, WriteRow(0));
            && r'.system.stock == map[7 := Stock(r.system.stock[7].store, seen + 1)]
            && r'.system.locks == map[] && r'.system.commits == r.system.commits && r'.system.txs == r.system.txs
  {
  }

  // Any shop with five in stock: one unit is read, two are sold, and the unit is written.
  lemma SoldInBetween(r: Race)
    requires r.system.stock == map[7 := Stock(1, 5)] && r.system.locks == map[] && r.system.commits == []
    requires |r.system.txs| == 2 && r.system.txs[0] == Asking(2) && r.system.txs[1] == Asking(6)
    requires |r.approvals| > 0 && r.approvals[0] == Approval(7, 1, None, false)
    ensures var cat := OneProduct();
            var read := Advance(cat, r, ReadRow(0));
            var sold := Advance(cat, Advance(cat, read, OrderStep(StepLine(0))), OrderStep(StepFinish(0)));
            var now := Advance(cat, sold, WriteRow(0)).system;
            && now.stock == map[7 := Stock(1, 6)] && now.locks == map[] && now.commits == [0]
            && |now.txs| == 2 && now.txs[1] == Asking(6)
  {
    var cat := OneProduct();
    ReadMoves(cat, r);
    var read := Advance(cat, r, ReadRow(0));
    OrderMoves(read, 0, 2);
    WriteMoves(cat, Advance(cat, Advance(cat, read, OrderStep(StepLine(0))), OrderStep(StepFinish(0))), 5, |r.log|);
  }

  lemma LostUpdate(r: Race)
    requires r.system.stock == map[7 := Stock(1, 5)] && r.system.locks == map[] && r.system.commits == []
    requires |r.system.txs| == 2 && r.system.txs[0] == Asking(2) && r.system.txs[1] == Asking(6)
    requires |r.approvals| > 0 && r.approvals[0] == Approval(7, 1, None, false)
    ensures var now := Play(OneProduct(), r, ReadSellWrite()).system;
            && now.stock == map[7 := Stock(1, 6)] && now.locks == map[] && now.commits == [0]
            && |now.txs| == 2 && now.txs[1] == Asking(6)
  {
    SoldInBetween(r);
    FourMoves(OneProduct(), r, ReadRow(0), OrderStep(StepLine(0)), OrderStep(StepFinish(0)), WriteRow(0));
  }

  // Five in stock and one returned.  Two are sold between the read and the write, which leaves six
  // where four should be.
  lemma LostUpdateExample()
    ensures AtStart(TwoOrdersOneReturn())
    ensures var now := Play(OneProduct(), TwoOrdersOneReturn(), ReadSellWrite()).system;
            && now.stock == map[7 := Stock(1, 6)] && now.locks == map[] && now.commits == [0]
            && |now.txs| == 2 && now.txs[1] == Asking(6)
  {
    LostUpdate(TwoOrdersOneReturn());
  }

  lemma TwoMoreMoves(cat: Catalog, r: Race, moves: seq<Move>, a: Move, b: Move)
    ensures Play(cat, r, moves + [a] + [b]) == Advance(cat, Advance(cat, Play(cat, r, moves), a), b)
  {
    PlayMore(cat, r, moves, a);
    PlayMore(cat, r, moves + [a], b);
  }

  lemma SixAreSold(r: Race)
    requires r.system.stock == map[7 := Stock(1, 6)] && r.system.locks == map[] && r.system.commits == [0]
    requires |r.system.txs| == 2 && r.system.txs[1] == Asking(6)
    ensures var now := Advance(OneProduct(), Advance(OneProduct(), r, OrderStep(StepLine(1))), OrderStep(StepFinish(1))).system;
            now.stock == map[7 := Stock(1, 0)] && now.commits == [0, 1]
  {
    OrderMoves(r, 1, 6);
  }

  // An order for all six is then let in, so that eight were sold of the five and the one returned.
  lemma OversoldExample()
    ensures var moves := ReadSellWrite() + [OrderStep(StepLine(1))] + [OrderStep(StepFinish(1))];
            var now := Play(OneProduct(), TwoOrdersOneReturn(), moves).system;
            now.stock == map[7 := Stock(1, 0)] && now.commits == [0, 1]
  {
    LostUpdateExample();
    SixAreSold(Play(OneProduct(), TwoOrdersOneReturn(), ReadSellWrite()));
    TwoMoreMoves(OneProduct(), TwoOrdersOneReturn(), ReadSellWrite(), OrderStep(StepLine(1)), OrderStep(StepFinish(1)));
  }

  lemma FourMoves(cat: Catalog, r: Race, a: Move, b: Move, c: Move, d: Move)
    ensures Play(cat, r, [a, b, c, d]) == Advance(cat, Advance(cat, Advance(cat, Advance(cat, r, a), b), c), d)
  {
    PlayMore(cat, r, [], a);
    PlayMore(cat, r, [a], b);
    PlayMore(cat, r, [a, b], c);
    PlayMore(cat, r, [a, b, c], d);
    assert [] + [a] == [a] && [a] + [b] == [a, b] && [a, b] + [c] == [a, b, c] && [a, b, c] + [d] == [a, b, c, d];
  }

  // Two approvals of one unit each that both read before either writes put one unit back, not two.
  lemma TwoApprovalsExample()
    ensures var r := FiveInStock([], [Approval(7, 1, None, false), Approval(7, 1, None, false)]);
            && AtStart(r)
            && Play(OneProduct(), r, [ReadRow(0), ReadRow(1), WriteRow(0), WriteRow(1)]).system.stock == map[7 := Stock(1, 6)]
  {
    var cat, r0 := OneProduct(), FiveInStock([], [Approval(7, 1, None, false), Approval(7, 1, None, false)]);
    FourMoves(cat, r0, ReadRow(0), ReadRow(1), WriteRow(0), WriteRow(1));
    var read := Approval(7, 1, Some(Read(5, 0)), false);
    var r2 := Advance(cat, Advance(cat, r0, ReadRow(0)), ReadRow(1));
    assert r2 == r0.(approvals := [read, read]);
    var r3 := Advance(cat, r2, WriteRow(0));
    assert r3.system.stock == map[7 := Stock(1, 6)] && r3.approvals == [read.(done := true), read];
    assert Advance(cat, r3, WriteRow(1)).system.stock == map[7 := Stock(1, 6)];
  }
}
