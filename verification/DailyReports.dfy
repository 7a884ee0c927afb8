/**
  The daily report: a paging loop that collects orders up to a limit, and three aggregations.
  The order table is taken to be read in one fixed order while the report is collected; the
  query itself does not ask for an order.
 */
module DailyReports {
  import opened Results
  import opened MoneyModel
  import opened Orders
  import opened Stores

  /** Page number and size as the repository reads them. */
  function NormalizePage(number: int, size: int): (int, int)
  {
    (if number <= 0 then 1 else number, if size <= 0 then 20 else size)
  }

  function Min(a: int, b: int): int
  {
    if a < b then a else b
  }

  /** The smallest multiple of size that is at least n, for n >= 0. */
  function RoundUp(n: int, size: int): int
    requires size > 0
  {
    ((n + size - 1) / size) * size
  }

  lemma TimesMonotone(a: int, b: int, size: int)
    requires size > 0
    ensures a <= b <==> a * size <= b * size
    ensures a >= 0 ==> a * size >= 0
    ensures (a + 1) * size == a * size + size
  {
  }

  lemma RoundUpExact(n: int, size: int, pages: nat)
    requires size > 0 && n >= 0
    requires (pages - 1) * size < n <= pages * size || (n == 0 && pages == 0)
    ensures RoundUp(n, size) == pages * size
  {
    var q := (n + size - 1) / size;
    assert n + size - 1 == q * size + (n + size - 1) % size;
    TimesMonotone(q, pages, size);
    TimesMonotone(pages, q, size);
    TimesMonotone(pages - 1, q, size);
    TimesMonotone(q + 1, pages, size);
    TimesMonotone(pages + 1, q, size);
    TimesMonotone(q, 0, size);
  }

  /** The pages fetched before the limit is reached end at or below the rounded limit. */
  lemma PagesBelowLimit(pages: nat, size: int, limit: int)
    requires size > 0 && limit >= 0 && pages > 0 && (pages - 1) * size < limit
    ensures pages * size <= RoundUp(limit, size)
  {
    var q := (limit + size - 1) / size;
    assert limit + size - 1 == q * size + (limit + size - 1) % size;
    TimesMonotone(pages - 1, q, size);
    TimesMonotone(q, pages - 1, size);
    TimesMonotone(pages, q, size);
  }

  lemma RoundUpNonNegative(n: int, size: int)
    requires size > 0 && n >= 0
    ensures RoundUp(n, size) >= 0
  {
    TimesMonotone((n + size - 1) / size, 0, size);
  }

  /** The number of orders in a status. */
  function StatusCount(orders: seq<OrderData>, status: Status): nat
  {
    if orders == [] then 0
    else StatusCount(orders[..|orders| - 1], status) + (if orders[|orders| - 1].status == status then 1 else 0)
  }

  function Revenue(orders: seq<OrderData>): int
  {
    if orders == [] then 0 else Revenue(orders[..|orders| - 1]) + orders[|orders| - 1].total.amount
  }

  /** Every order counts once, with its own total and in its own status. */
  lemma {:induction false} ReportAddsUp(a: seq<OrderData>, b: seq<OrderData>, status: Status)
    ensures Revenue(a + b) == Revenue(a) + Revenue(b)
    ensures StatusCount(a + b, status) == StatusCount(a, status) + StatusCount(b, status)
    decreases |b|
  {
    if b == [] {
      assert a + b == a;
    } else {
      assert (a + b)[..|a + b| - 1] == a + b[..|b| - 1];
      ReportAddsUp(a, b[..|b| - 1], status);
    }
  }

  lemma ReportOfOne(o: OrderData, status: Status)
    ensures Revenue([o]) == o.total.amount
    ensures StatusCount([o], status) == if o.status == status then 1 else 0
  {
    assert [o][..0] == [];
  }

  /** The sum of the values of a report's status counts. */
  function CountsTotal(counts: map<Status, nat>): nat
  {
    Of(counts, Pending) + Of(counts, Reserved) + Of(counts, Paid)
      + Of(counts, Fulfilled) + Of(counts, Cancelled) + Of(counts, Failed)
  }

  function Of(counts: map<Status, nat>, status: Status): nat
  {
    if status in counts then counts[status] else 0
  }

  /** Every order is in exactly one status, so the counts add up to the number of orders. */
  lemma {:induction false} StatusCountsAddUp(orders: seq<OrderData>)
    ensures StatusCount(orders, Pending) + StatusCount(orders, Reserved) + StatusCount(orders, Paid)
            + StatusCount(orders, Fulfilled) + StatusCount(orders, Cancelled) + StatusCount(orders, Failed) == |orders|
  {
    if orders != [] {
      StatusCountsAddUp(orders[..|orders| - 1]);
    }
  }

  predicate AllReadable(orders: seq<OrderData>)
  {
    forall i :: 0 <= i < |orders| ==> Readable(orders[i])
  }

  /** The error of the first row that cannot be rebuilt. */
  function FirstFault(orders: seq<OrderData>): Option<ErrorKind>
  {
    if orders == [] then None
    else if Fault(orders[0]).Some? then Fault(orders[0])
    else FirstFault(orders[1..])
  }

  /** All rows can be rebuilt, or the fault is that of the first one that cannot. */
  lemma {:induction false} FirstFaultExact(orders: seq<OrderData>)
    ensures FirstFault(orders).None? <==> AllReadable(orders)
    ensures FirstFault(orders).Some? ==>
              exists i :: 0 <= i < |orders| && !Readable(orders[i]) && AllReadable(orders[..i])
                && FirstFault(orders) == Fault(orders[i])
  {
    if orders != [] {
      FirstFaultExact(orders[1..]);
      assert forall i :: 1 <= i < |orders| ==> orders[i] == orders[1..][i - 1];
      if Readable(orders[0]) && FirstFault(orders[1..]).Some? {
        var i :| 0 <= i < |orders[1..]| && !Readable(orders[1..][i]) && AllReadable(orders[1..][..i])
          && FirstFault(orders[1..]) == Fault(orders[1..][i]);
        assert orders[..i + 1] == [orders[0]] + orders[1..][..i];
        assert !Readable(orders[i + 1]) && AllReadable(orders[..i + 1]);
      } else if !Readable(orders[0]) {
        assert AllReadable(orders[..0]);
      }
    }
  }

  /** The rows from the given offset, at most k of them, and the number of rows in the table. */
  function Page(table: seq<OrderData>, offset: int, k: int): Result<(seq<OrderData>, nat)>
    requires offset >= 0 && k >= 0
  {
    var from := Min(offset, |table|);
    var batch := table[from..Min(from + k, |table|)];
    match FirstFault(batch)
    case None => Ok((batch, |table|))
    case Some(e) => Err(e)
  }

  /** A page that starts where a prefix ends extends the prefix. */
  lemma PageExtends(table: seq<OrderData>, from: nat, k: int)
    requires from <= |table| && k >= 0
    ensures Page(table, from, k).Ok? <==> AllReadable(table[from..Min(from + k, |table|)])
    ensures Page(table, from, k).Ok? ==>
              var (batch, total) := Page(table, from, k).value;
              && total == |table| && |batch| == Min(k, |table| - from)
              && table[..from] + batch == table[..from + |batch|]
  {
    FirstFaultExact(table[from..Min(from + k, |table|)]);
  }

  /** The number of rows on the given number of full pages. */
  function Filled(pages: nat, size: int): int
  {
    if pages == 0 then 0 else Filled(pages - 1, size) + size
  }

  lemma {:induction false} FilledIsProduct(pages: nat, size: int)
    ensures Filled(pages, size) == pages * size
  {
    if pages > 0 {
      FilledIsProduct(pages - 1, size);
    }
  }

  /**
    The paging loop before the given page: all pages so far were full,
    and the limit was not reached before the last.
   */
  ghost predicate Collecting(table: seq<OrderData>, page: nat, size: int, limit: int, collected: seq<OrderData>)
  {
    && page >= 1 && |collected| == Filled(page - 1, size) <= |table|
    && collected == table[..|collected|] && AllReadable(collected)
    && (page > 1 ==> Filled(page - 2, size) < limit && |collected| < |table|)
  }

  /** The part of the table that the report is about: up to the limit, rounded up to whole pages. */
  function Reported(table: seq<OrderData>, size: int, limit: int): seq<OrderData>
    requires size > 0 && limit >= 0
  {
    RoundUpNonNegative(limit, size);
    table[..Min(|table|, RoundUp(limit, size))]
  }

  /** What the paging loop returns. */
  ghost predicate UpToLimit(table: seq<OrderData>, size: int, limit: int, collected: seq<OrderData>)
    requires size > 0 && limit >= 0
  {
    collected == Reported(table, size, limit) && AllReadable(collected)
  }

  /** One round of the loop: the table is exhausted at or below the rounded limit, or one more page is full. */
  lemma RoundEnds(table: seq<OrderData>, page: nat, size: int, limit: int, collected: seq<OrderData>)
    requires size > 0 && limit >= 0 && Collecting(table, page, size, limit, collected) && |collected| < limit
    ensures (page - 1) * size == |collected|
    ensures Page(table, |collected|, size).Err? ==> !AllReadable(Reported(table, size, limit))
    ensures Page(table, |collected|, size).Ok? ==>
              var (batch, total) := Page(table, |collected|, size).value;
              var longer := collected + batch;
              if |batch| < size || |longer| >= total then UpToLimit(table, size, limit, longer)
              else Collecting(table, page + 1, size, limit, longer) && |longer| > |collected|
  {
    PageBelowLimit(page, size, limit);
    PageGrows(table, |collected|, size);
    PageInReport(table, |collected|, size, limit);
  }

  lemma PageBelowLimit(page: nat, size: int, limit: int)
    requires size > 0 && limit >= 0 && page >= 1 && Filled(page - 1, size) < limit
    ensures (page - 1) * size == Filled(page - 1, size) >= 0 && Filled(page - 1, size) + size <= RoundUp(limit, size)
  {
    FilledIsProduct(page - 1, size);
    TimesMonotone(page - 1, 0, size);
    TimesMonotone(page - 1, page, size);
    PagesBelowLimit(page, size, limit);
  }

  /** A readable prefix and the readable page after it make a longer readable prefix. */
  lemma PageGrows(table: seq<OrderData>, from: nat, size: int)
    requires size > 0 && from <= |table| && AllReadable(table[..from])
    ensures Page(table, from, size).Ok? <==> AllReadable(table[from..Min(from + size, |table|)])
    ensures Page(table, from, size).Ok? ==>
              var (batch, total) := Page(table, from, size).value;
              var longer := table[..from] + batch;
              && longer == table[..|longer|] && AllReadable(longer)
              && total == |table| && |longer| == Min(from + size, |table|)
  {
    PageExtends(table, from, size);
  }

  lemma PageInReport(table: seq<OrderData>, from: nat, size: int, limit: int)
    requires size > 0 && limit >= 0 && from <= |table| && from + size <= RoundUp(limit, size)
    ensures !AllReadable(table[from..Min(from + size, |table|)]) ==> !AllReadable(Reported(table, size, limit))
  {
    var batch, all := table[from..Min(from + size, |table|)], Reported(table, size, limit);
    assert forall i :: 0 <= i < |batch| ==> batch[i] == all[from + i];
  }

  lemma LimitReached(table: seq<OrderData>, page: nat, size: int, limit: int, collected: seq<OrderData>)
    requires size > 0 && limit >= 0 && Collecting(table, page, size, limit, collected) && |collected| >= limit
    ensures UpToLimit(table, size, limit, collected)
  {
    FilledIsProduct(page - 1, size);
    if page > 1 {
      FilledIsProduct(page - 2, size);
    }
    RoundUpExact(limit, size, page - 1);
  }

  datatype Report = Report(totalOrders: nat, totalRevenue: int, currency: string, byStatus: map<Status, nat>)

  class DailyReport {
    const pageSize: int
    const maxOrders: int
    var table: seq<OrderData>

    constructor (table: seq<OrderData>)
      ensures this.table == table && pageSize == 200 && maxOrders == 2000
    {
      this.table, pageSize, maxOrders := table, 200, 2000;
    }

    /** A constructor for other limits. */
    constructor WithLimits(table: seq<OrderData>, pageSize: int, maxOrders: int)
      ensures this.table == table && this.pageSize == pageSize && this.maxOrders == maxOrders
    {
      this.table, this.pageSize, this.maxOrders := table, pageSize, maxOrders;
    }

    /** OFFSET and LIMIT over the table; a row that cannot be rebuilt fails the page. */
    method ListAll(number: int, size: int) returns (r: Result<(seq<OrderData>, nat)>)
      ensures var (n, k) := NormalizePage(number, size);
              n >= 1 && k >= 1 && r == Page(table, (n - 1) * k, k)
      ensures number >= 1 && size >= 1 && (number - 1) * size >= 0 ==> r == Page(table, (number - 1) * size, size)
      ensures number <= 1 && size <= 0 ==> r == Page(table, 0, 20)
    {
      var (n, k) := NormalizePage(number, size);
      var offset := (n - 1) * k;
      TimesMonotone(n - 1, 0, k);
      var from := Min(offset, |table|);
      var batch := table[from..Min(from + k, |table|)];
      var orders := ToDomain(batch);
      r := if orders.Ok? then Ok((orders.value, |table|)) else Err(orders.error);
    }

    /** Rows to orders, up to the first that cannot be rebuilt. */
    method ToDomain(rows: seq<OrderData>) returns (r: Result<seq<OrderData>>)
      ensures match FirstFault(rows)
              case None => r == Ok(rows)
              case Some(e) => r == Err(e)
    {
      var out: seq<OrderData> := [];
      assert rows[0..] == rows;
      for i := 0 to |rows|
        invariant out == rows[..i] && FirstFault(rows) == FirstFault(rows[i..])
      {
        assert rows[i..][0] == rows[i] && rows[i..][1..] == rows[i + 1..];
        var fault := Fault(rows[i]);
        if fault.Some? {
          return Err(fault.value);
        }
        out := out + [rows[i]];
      }
      assert out == rows;
      r := Ok(out);
    }

    /** The paging loop returns a prefix of the table without gaps or repeats, of exactly this length. */
    method Collect() returns (r: Result<seq<OrderData>>)
      requires pageSize > 0 && maxOrders >= 0
      ensures r.Ok? <==> AllReadable(Reported(table, pageSize, maxOrders))
      ensures r.Ok? ==> UpToLimit(table, pageSize, maxOrders, r.value)
    {
      var collected: seq<OrderData> := [];
      var page: nat := 1;
      while |collected| < maxOrders
        invariant Collecting(table, page, pageSize, maxOrders, collected)
        decreases |table| - |collected|
      {
        RoundEnds(table, page, pageSize, maxOrders, collected);
        var listed := ListAll(page, pageSize);
        if listed.Err? {
          return Err(listed.error);
        }
        var (batch, total) := listed.value;
        collected := collected + batch;
        if |batch| < pageSize || |collected| >= total {
          return Ok(collected);
        }
        page := page + 1;
      }
      LimitReached(table, page, pageSize, maxOrders, collected);
      r := Ok(collected);
    }

    /** The report: the number of collected orders, their summed totals, and how many are in each status. */
    method Handle() returns (r: Result<Report>)
      requires pageSize > 0 && maxOrders >= 0
      ensures r.Ok? <==> AllReadable(Reported(table, pageSize, maxOrders))
      ensures r.Ok? ==>
                var orders := Reported(table, pageSize, maxOrders);
                && r.value.totalOrders == |orders| == CountsTotal(r.value.byStatus)
                && r.value.totalRevenue == Wrap(Revenue(orders))
                && (forall s: Status :: Of(r.value.byStatus, s) == StatusCount(orders, s))
                && r.value.currency == if orders == [] then DEFAULT_CURRENCY else orders[0].total.currency
    {
      var collected := Collect();
      if collected.Err? {
        return Err(collected.error);
      }
      var orders := collected.value;
      var sum := 0;
      var counts: map<Status, nat> := map[];
      for i := 0 to |orders|
        invariant sum == Wrap(Revenue(orders[..i]))
        invariant forall s: Status :: Of(counts, s) == StatusCount(orders[..i], s)
      {
        assert orders[..i + 1][..i] == orders[..i];
        AddWrapped(Revenue(orders[..i]), orders[i].total.amount);
        sum := Wrap(sum + orders[i].total.amount);
        counts := counts[orders[i].status := Of(counts, orders[i].status) + 1];
      }
      assert orders[..|orders|] == orders;
      StatusCountsAddUp(orders);
      var currency := if |orders| > 0 then orders[0].total.currency else DEFAULT_CURRENCY;
      r := Ok(Report(|orders|, sum, currency, counts));
    }
  }

  lemma AddWrapped(x: int, y: int)
    ensures Wrap(Wrap(x) + y) == Wrap(x + y)
  {
    var p := (x + TWO_63) / TWO_64;
    assert Wrap(x) == x - p * TWO_64;
    assert Wrap(x) + y == (x + y) + (-p) * TWO_64;
    WrapIsResidue(x + y, -p);
  }
}
