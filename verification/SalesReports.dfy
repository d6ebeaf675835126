// The daily sales series and the four-bucket report of a store.  Days are numbered.
module SalesReports {
  import opened Common

  // An order as the reports see it.
  datatype Sale = Sale(store: int, day: int, amount: real)

  datatype DayRow = DayRow(day: int, sales: real)

  datatype Bucket = Bucket(sales: real, orders: nat)

  datatype Error = BadWindow

  predicate InRange(s: Sale, store: int, first: int, last: int) {
    s.store == store && first <= s.day <= last
  }

  // The plain total of the order amounts between two days, both included.
  function Total(sales: seq<Sale>, store: int, first: int, last: int): real {
    if sales == [] then 0.0
    else
      var s := sales[|sales| - 1];
      Total(sales[..|sales| - 1], store, first, last) + if InRange(s, store, first, last) then s.amount else 0.0
  }

  function Count(sales: seq<Sale>, store: int, first: int, last: int): nat {
    if sales == [] then 0
    else
      Count(sales[..|sales| - 1], store, first, last)
      + if InRange(sales[|sales| - 1], store, first, last) then 1 else 0
  }

  lemma {:induction false} TotalAppends(sales: seq<Sale>, more: seq<Sale>, store: int, first: int, last: int)
    ensures Total(sales + more, store, first, last) == Total(sales, store, first, last) + Total(more, store, first, last)
    ensures Count(sales + more, store, first, last) == Count(sales, store, first, last) + Count(more, store, first, last)
  {
    if more == [] {
      assert sales + more == sales;
    } else {
      TotalAppends(sales, more[..|more| - 1], store, first, last);
      assert (sales + more)[..|sales + more| - 1] == sales + more[..|more| - 1];
    }
  }

  lemma TotalOfOne(s: Sale, store: int, first: int, last: int)
    ensures Total([s], store, first, last) == if s.store == store && first <= s.day <= last then s.amount else 0.0
    ensures Count([s], store, first, last) == if s.store == store && first <= s.day <= last then 1 else 0
  {
    assert [s][..0] == [];
  }

  // An order of the store within the days counts once, with its amount; an order of another store or
  // of another day makes no difference.
  lemma EachOrderCountsOnce(sales: seq<Sale>, store: int, first: int, last: int, i: nat)
    requires i < |sales|
    ensures var (s, others) := (sales[i], sales[..i] + sales[i + 1..]);
            if s.store == store && first <= s.day && s.day <= last then
              && Total(sales, store, first, last) == Total(others, store, first, last) + s.amount
              && Count(sales, store, first, last) == Count(others, store, first, last) + 1
            else
              && Total(sales, store, first, last) == Total(others, store, first, last)
              && Count(sales, store, first, last) == Count(others, store, first, last)
  {
    var before, s, after := sales[..i], sales[i], sales[i + 1..];
    assert sales == before + ([s] + after);
    TotalAppends(before, [s] + after, store, first, last);
    TotalAppends([s], after, store, first, last);
    TotalAppends(before, after, store, first, last);
    TotalOfOne(s, store, first, last);
  }

  // ----- the daily series -----

  // `days` days ending today.
  function MakeSeries(today: int, days: nat): seq<int> {
    seq(days, i => today - (days - 1) + i)
  }

  // The rows of the grouped query: one per day that has an order, in day order.
  function GroupByDay(sales: seq<Sale>, store: int, first: int, n: nat): (rows: seq<DayRow>)
    ensures forall k :: 0 <= k < |rows| ==> rows[k] == DayRow(rows[k].day, Total(sales, store, rows[k].day, rows[k].day))
  {
    if n == 0 then []
    else
      var d := first + n - 1;
      GroupByDay(sales, store, first, n - 1)
      + if Count(sales, store, d, d) > 0 then [DayRow(d, Total(sales, store, d, d))] else []
  }

  ghost predicate HasRow(rows: seq<DayRow>, n: nat, day: int)
    requires n <= |rows|
  {
    exists k :: 0 <= k < n && rows[k].day == day
  }

  lemma {:induction false} EveryDayIsCovered(sales: seq<Sale>, store: int, first: int, n: nat, day: int)
    requires first <= day < first + n
    ensures var rows := GroupByDay(sales, store, first, n);
            HasRow(rows, |rows|, day) || Total(sales, store, day, day) == 0.0
  {
    var rows := GroupByDay(sales, store, first, n);
    if Count(sales, store, day, day) == 0 {
      NoOrderNoSales(sales, store, day, day);
    } else if day == first + n - 1 {
      assert rows[|rows| - 1].day == day;
    } else {
      EveryDayIsCovered(sales, store, first, n - 1, day);
      var earlier := GroupByDay(sales, store, first, n - 1);
      if HasRow(earlier, |earlier|, day) {
        var k :| 0 <= k < |earlier| && earlier[k].day == day;
        assert rows[k] == earlier[k];
      }
    }
  }

  lemma {:induction false} NoOrderNoSales(sales: seq<Sale>, store: int, first: int, last: int)
    requires Count(sales, store, first, last) == 0
    ensures Total(sales, store, first, last) == 0.0
  {
    if sales != [] {
      NoOrderNoSales(sales[..|sales| - 1], store, first, last);
    }
  }

  // A dictionary of zeros, filled from the rows.
  method FillDays(series: seq<int>, rows: seq<DayRow>, sales: seq<Sale>, store: int) returns (salesByDay: map<int, real>)
    requires forall k :: 0 <= k < |rows| ==> rows[k] == DayRow(rows[k].day, Total(sales, store, rows[k].day, rows[k].day))
    ensures forall i :: 0 <= i < |series| ==> series[i] in salesByDay
    ensures forall d :: d in salesByDay ==>
              salesByDay[d] == if HasRow(rows, |rows|, d) then Total(sales, store, d, d) else 0.0
  {
    salesByDay := map d | d in series :: 0.0;
    for k := 0 to |rows|
      invariant forall i :: 0 <= i < |series| ==> series[i] in salesByDay
      invariant forall d :: d in salesByDay ==>
                  salesByDay[d] == if HasRow(rows, k, d) then Total(sales, store, d, d) else 0.0
    {
      if rows[k].day in salesByDay {
        salesByDay := salesByDay[rows[k].day := rows[k].sales];
      }
    }
  }

  // The dictionary read off day by day.
  method DashboardSales(sales: seq<Sale>, store: int, today: int, days: int) returns (data: Result<seq<DayRow>, Error>)
    ensures data.Success? <==> 1 <= days <= 90
    ensures data.Success? ==>
              && |data.value| == days
              && var first := today - (days - 1);
                 forall i :: 0 <= i < days ==> data.value[i] == DayRow(first + i, Total(sales, store, first + i, first + i))
    ensures data.Success? ==> SumOfRows(data.value, days) == Total(sales, store, today - (days - 1), today)
  {
    if days < 1 || days > 90 {
      return Failure(BadWindow);
    }
    var series := MakeSeries(today, days);
    var rows := GroupByDay(sales, store, series[0], days);
    var salesByDay := FillDays(series, rows, sales, store);
    forall i | 0 <= i < days
      ensures salesByDay[series[i]] == Total(sales, store, series[i], series[i])
    {
      EveryDayIsCovered(sales, store, series[0], days, series[i]);
    }
    var shown := seq(days, i requires 0 <= i < days => DayRow(series[i], salesByDay[series[i]]));
    DashboardAddsUp(sales, store, series[0], shown, days);
    return Success(shown);
  }

  // Cutting a range in two loses and doubles nothing.
  lemma {:induction false} TotalSplits(sales: seq<Sale>, store: int, first: int, middle: int, last: int)
    requires first <= middle + 1 && middle <= last
    ensures Total(sales, store, first, last) == Total(sales, store, first, middle) + Total(sales, store, middle + 1, last)
    ensures Count(sales, store, first, last) == Count(sales, store, first, middle) + Count(sales, store, middle + 1, last)
  {
    if sales != [] {
      TotalSplits(sales[..|sales| - 1], store, first, middle, last);
    }
  }

  lemma {:induction false} EmptyRange(sales: seq<Sale>, store: int, first: int, last: int)
    requires last < first
    ensures Total(sales, store, first, last) == 0.0 && Count(sales, store, first, last) == 0
  {
    if sales != [] {
      EmptyRange(sales[..|sales| - 1], store, first, last);
    }
  }

  function SumOfRows(rows: seq<DayRow>, n: nat): real
    requires n <= |rows|
  {
    if n == 0 then 0.0 else SumOfRows(rows, n - 1) + rows[n - 1].sales
  }

  // Entries for consecutive days, each with its own day's total, add up to the plain total of the
  // window, however long it is.
  lemma {:induction false} DashboardAddsUp(sales: seq<Sale>, store: int, first: int, rows: seq<DayRow>, n: nat)
    requires n <= |rows|
    requires forall i :: 0 <= i < |rows| ==> rows[i] == DayRow(first + i, Total(sales, store, first + i, first + i))
    ensures SumOfRows(rows, n) == Total(sales, store, first, first + n - 1)
  {
    if n == 0 {
      EmptyRange(sales, store, first, first - 1);
    } else {
      DashboardAddsUp(sales, store, first, rows, n - 1);
      TotalSplits(sales, store, first, first + n - 2, first + n - 1);
    }
  }

  // ----- the four buckets -----

  function BucketDays(days: int): int
    requires days >= 1
  {
    Max(1, days / 4)
  }

  function BucketStart(start: int, days: int, i: int): int
    requires days >= 1
  {
    start + i * BucketDays(days)
  }

  function BucketEnd(start: int, days: int, i: int): int
    requires days >= 1
  {
    start + Min(days - 1, (i + 1) * BucketDays(days) - 1)
  }

  method WeeklySales(sales: seq<Sale>, store: int, today: int, days: int) returns (weekly: Result<seq<Bucket>, Error>)
    ensures weekly.Success? <==> 1 <= days <= 365
    ensures weekly.Success? ==>
              && |weekly.value| == 4
              && var start := today - (days - 1);
                 forall i :: 0 <= i < 4 ==>
                   weekly.value[i] == Bucket(BucketTotal(sales, store, start, days, i), BucketCount(sales, store, start, days, i))
  {
    if days < 1 || days > 365 {
      return Failure(BadWindow);
    }
    var start := today - (days - 1);
    var bucketDays := Max(1, days / 4);
    var buckets: seq<Bucket> := [];
    for i := 0 to 4
      invariant |buckets| == i
      invariant forall j :: 0 <= j < i ==>
                  buckets[j] == Bucket(BucketTotal(sales, store, start, days, j), BucketCount(sales, store, start, days, j))
    {
      var first := start + i * bucketDays;
      var last := start + Min(days - 1, (i + 1) * bucketDays - 1);
      buckets := buckets + [Bucket(Total(sales, store, first, last), Count(sales, store, first, last))];
    }
    return Success(buckets);
  }

  predicate InBucket(start: int, days: int, i: int, day: int)
    requires days >= 1
  {
    BucketStart(start, days, i) <= day <= BucketEnd(start, days, i)
  }

  // How many days of the window the buckets cover.
  function Covered(days: int): int
    requires days >= 1
  {
    Min(days, 4 * Max(1, days / 4))
  }

  lemma BucketsApart(start: int, days: int, i: int, j: int)
    requires days >= 1 && 0 <= i < j
    ensures BucketEnd(start, days, i) < BucketStart(start, days, j)
  {
    assert (i + 1) * BucketDays(days) <= j * BucketDays(days);
  }

  // No day is in two buckets, and the days in some bucket are exactly the first Covered(days) of
  // the window, all but at most three.
  lemma BucketsPartition(start: int, days: int, day: int)
    requires days >= 1
    ensures forall i, j :: 0 <= i < j < 4 ==> !(InBucket(start, days, i, day) && InBucket(start, days, j, day))
    ensures (exists i :: 0 <= i < 4 && InBucket(start, days, i, day)) <==> start <= day < start + Covered(days)
    ensures days - 3 <= Covered(days) <= days
  {
    var n := BucketDays(days);
    forall i, j | 0 <= i < j < 4
      ensures !(InBucket(start, days, i, day) && InBucket(start, days, j, day))
    {
      BucketsApart(start, days, i, j);
    }
    if start <= day < start + Covered(days) {
      if day < start + n {
        assert InBucket(start, days, 0, day);
      } else if day < start + 2 * n {
        assert InBucket(start, days, 1, day);
      } else if day < start + 3 * n {
        assert InBucket(start, days, 2, day);
      } else {
        assert InBucket(start, days, 3, day);
      }
    }
    if i :| 0 <= i < 4 && InBucket(start, days, i, day) {
      assert 0 <= i * n && (i + 1) * n <= 4 * n;
    }
  }

  // The last day before bucket i, or the last day of the window if that comes first.
  function Before(start: int, days: int, i: int): int
    requires days >= 1
  {
    start + Min(days, i * BucketDays(days)) - 1
  }

  lemma BucketRange(sales: seq<Sale>, store: int, start: int, days: int, i: int)
    requires days >= 1 && 0 <= i < 4
    ensures Total(sales, store, start, Before(start, days, i + 1))
            == Total(sales, store, start, Before(start, days, i)) + BucketTotal(sales, store, start, days, i)
    ensures Count(sales, store, start, Before(start, days, i + 1))
            == Count(sales, store, start, Before(start, days, i)) + BucketCount(sales, store, start, days, i)
  {
    var n := BucketDays(days);
    assert (i + 1) * n == i * n + n;
    if i * n <= days {
      TotalSplits(sales, store, start, start + i * n - 1, start + Min(days, (i + 1) * n) - 1);
    } else {
      EmptyRange(sales, store, BucketStart(start, days, i), BucketEnd(start, days, i));
    }
  }

  function BucketTotal(sales: seq<Sale>, store: int, start: int, days: int, i: int): real
    requires days >= 1
  {
    Total(sales, store, BucketStart(start, days, i), BucketEnd(start, days, i))
  }

  function BucketCount(sales: seq<Sale>, store: int, start: int, days: int, i: int): nat
    requires days >= 1
  {
    Count(sales, store, BucketStart(start, days, i), BucketEnd(start, days, i))
  }

  // Sales and order counts of the buckets are those of the window minus those of its last days,
  // of which there are at most three.
  lemma BucketsAddUp(sales: seq<Sale>, store: int, today: int, days: int)
    requires days >= 1
    ensures var start := today - (days - 1);
            && BucketTotal(sales, store, start, days, 0) + BucketTotal(sales, store, start, days, 1)
               + BucketTotal(sales, store, start, days, 2) + BucketTotal(sales, store, start, days, 3)
               == Total(sales, store, start, today) - Total(sales, store, start + Covered(days), today)
            && BucketCount(sales, store, start, days, 0) + BucketCount(sales, store, start, days, 1)
               + BucketCount(sales, store, start, days, 2) + BucketCount(sales, store, start, days, 3)
               == Count(sales, store, start, today) - Count(sales, store, start + Covered(days), today)
            && today - (start + Covered(days) - 1) <= 3
  {
    var start := today - (days - 1);
    EmptyRange(sales, store, start, start - 1);
    BucketRange(sales, store, start, days, 0);
    BucketRange(sales, store, start, days, 1);
    BucketRange(sales, store, start, days, 2);
    BucketRange(sales, store, start, days, 3);
    assert Before(start, days, 0) == start - 1 && Before(start, days, 4) == start + Covered(days) - 1;
    BucketsPartition(start, days, start);
    TotalSplits(sales, store, start, start + Covered(days) - 1, today);
  }
}
