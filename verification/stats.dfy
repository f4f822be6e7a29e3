/**
 * GET /admin-stat (Admin): collection sizes, one `$group` over all orders,
 * and the chart: orders grouped by creation day, one bucket per day,
 * sorted by date descending.
 */
module Stats {
  import opened Wrappers
  import opened Collection
  import opened Records
  import opened Api
  import opened Access

  /** `$sum: "$price"`: never negative when no price is. */
  function Revenue(orders: seq<Order>): (total: int)
    ensures (forall i :: 0 <= i < |orders| ==> orders[i].price >= 0) ==> total >= 0
  {
    if |orders| == 0 then 0 else orders[0].price + Revenue(orders[1..])
  }

  /** `$sum: "$quantity"`: never negative when no quantity is. */
  function Quantity(orders: seq<Order>): (total: int)
    ensures (forall i :: 0 <= i < |orders| ==> orders[i].quantity >= 0) ==> total >= 0
  {
    if |orders| == 0 then 0 else orders[0].quantity + Quantity(orders[1..])
  }

  /** `$sum` does not depend on how the orders are split: it adds over concatenation. */
  lemma {:induction false} SumsAppend(a: seq<Order>, b: seq<Order>)
    ensures Revenue(a + b) == Revenue(a) + Revenue(b)
    ensures Quantity(a + b) == Quantity(a) + Quantity(b)
  {
    if |a| > 0 {
      assert (a + b)[1..] == a[1..] + b;
      SumsAppend(a[1..], b);
    } else {
      assert a + b == b;
    }
  }

  function CreatedOn(d: Day): Order -> bool { (o: Order) => o.day == d }

  /** The bucket the `$group` stage makes of the orders created on `d`. */
  function GroupOf(orders: seq<Order>, d: Day): Bucket {
    var same := Filter(orders, CreatedOn(d));
    Bucket(d, |same|, Revenue(same), Quantity(same))
  }

  /** The days on which some order was created. */
  function Days(orders: seq<Order>): set<Day> {
    if |orders| == 0 then {} else {orders[0].day} + Days(orders[1..])
  }

  /** The dates the chart has a bucket for. */
  function Dates(chart: seq<Bucket>): set<Day> {
    if |chart| == 0 then {} else {chart[0].date} + Dates(chart[1..])
  }

  /** Strictly descending dates: sorted newest first, and no date twice. */
  predicate Descending(chart: seq<Bucket>) {
    forall i, j :: 0 <= i < j < |chart| ==> chart[i].date > chart[j].date
  }

  /** The bucket for `d`, or an empty bucket when the chart has none. */
  function BucketAt(chart: seq<Bucket>, d: Day): (b: Bucket)
    ensures b.date == d
  {
    if |chart| == 0 then Bucket(d, 0, 0, 0)
    else if chart[0].date == d then chart[0]
    else BucketAt(chart[1..], d)
  }

  function ChartOrders(chart: seq<Bucket>): int {
    if |chart| == 0 then 0 else chart[0].totalOrders + ChartOrders(chart[1..])
  }

  function ChartRevenue(chart: seq<Bucket>): int {
    if |chart| == 0 then 0 else chart[0].totalRevenue + ChartRevenue(chart[1..])
  }

  function ChartQuantity(chart: seq<Bucket>): int {
    if |chart| == 0 then 0 else chart[0].totalQuantity + ChartQuantity(chart[1..])
  }

  /** Count one more order into a bucket. */
  function Tally(b: Bucket, o: Order): Bucket {
    Bucket(b.date, b.totalOrders + 1, b.totalRevenue + o.price, b.totalQuantity + o.quantity)
  }

  /**
   * Group one more order into a descending chart: into its day's bucket if
   * there is one, else into a new bucket at the place its date sorts to.
   */
  function Insert(chart: seq<Bucket>, o: Order): (r: seq<Bucket>)
    ensures |r| > 0
    ensures r[0].date == (if |chart| == 0 || chart[0].date < o.day then o.day else chart[0].date)
    ensures Descending(chart) ==> Descending(r)
    ensures ChartOrders(r) == ChartOrders(chart) + 1
    ensures ChartRevenue(r) == ChartRevenue(chart) + o.price
    ensures ChartQuantity(r) == ChartQuantity(chart) + o.quantity
  {
    if |chart| == 0 then [Tally(Bucket(o.day, 0, 0, 0), o)]
    else if chart[0].date == o.day then [Tally(chart[0], o)] + chart[1..]
    else if chart[0].date < o.day then [Tally(Bucket(o.day, 0, 0, 0), o)] + chart
    else [chart[0]] + Insert(chart[1..], o)
  }

  /** Inserting an order adds its day to the chart's dates and nothing else. */
  lemma {:induction false} InsertDates(chart: seq<Bucket>, o: Order)
    ensures Dates(Insert(chart, o)) == Dates(chart) + {o.day}
  {
    var r := Insert(chart, o);
    if |chart| == 0 {
    } else if chart[0].date == o.day {
      assert r[1..] == chart[1..];
    } else if chart[0].date < o.day {
      assert r[1..] == chart;
    } else {
      assert r[1..] == Insert(chart[1..], o);
      InsertDates(chart[1..], o);
    }
  }

  /** A chart with no bucket for `d` reports an empty bucket for it. */
  lemma {:induction false} BucketAtAbsent(chart: seq<Bucket>, d: Day)
    requires forall i :: 0 <= i < |chart| ==> chart[i].date != d
    ensures BucketAt(chart, d) == Bucket(d, 0, 0, 0)
  {
    if |chart| > 0 {
      BucketAtAbsent(chart[1..], d);
    }
  }

  /** Inserting an order tallies it into its day's bucket and leaves the other days alone. */
  lemma {:induction false} InsertBuckets(chart: seq<Bucket>, o: Order, d: Day)
    requires Descending(chart)
    ensures BucketAt(Insert(chart, o), d) ==
      if d == o.day then Tally(BucketAt(chart, d), o) else BucketAt(chart, d)
  {
    var r := Insert(chart, o);
    if |chart| == 0 {
    } else if chart[0].date == o.day {
      assert r[1..] == chart[1..];
    } else if chart[0].date < o.day {
      assert r[1..] == chart;
      if d == o.day {
        BucketAtAbsent(chart, d);
      }
    } else {
      assert r[1..] == Insert(chart[1..], o);
      InsertBuckets(chart[1..], o, d);
    }
  }

  /** The chart the aggregation returns: every order grouped into its day. */
  function Chart(orders: seq<Order>): (chart: seq<Bucket>)
    ensures Descending(chart)
    ensures |chart| == 0 <==> |orders| == 0
  {
    if |orders| == 0 then [] else Insert(Chart(orders[1..]), orders[0])
  }

  /** The chart is exactly the grouping of the orders by day. */
  predicate IsGrouping(orders: seq<Order>, chart: seq<Bucket>) {
    && Descending(chart)
    && Dates(chart) == Days(orders)
    && forall i :: 0 <= i < |chart| ==> chart[i] == GroupOf(orders, chart[i].date)
  }

  lemma BucketAtIndex(chart: seq<Bucket>, i: nat)
    requires Descending(chart) && i < |chart|
    ensures BucketAt(chart, chart[i].date) == chart[i]
  {
    if i > 0 {
      assert chart[0].date > chart[i].date;
      assert chart[1..][i - 1] == chart[i];
      BucketAtIndex(chart[1..], i - 1);
    }
  }

  /** How the group of a day changes when one order is added in front. */
  lemma GroupOfCons(o: Order, rest: seq<Order>, d: Day)
    ensures GroupOf([o] + rest, d) == if d == o.day then Tally(GroupOf(rest, d), o) else GroupOf(rest, d)
  {
    var all := [o] + rest;
    assert all[0] == o && all[1..] == rest;
    if d == o.day {
      var same := Filter(rest, CreatedOn(d));
      assert Filter(all, CreatedOn(d)) == [o] + same;
      assert ([o] + same)[1..] == same;
    }
  }

  /** For every day, the chart's bucket is the group of that day's orders. */
  lemma {:induction false} ChartBucketsAreGroups(orders: seq<Order>)
    ensures Descending(Chart(orders))
    ensures Dates(Chart(orders)) == Days(orders)
    ensures forall d :: BucketAt(Chart(orders), d) == GroupOf(orders, d)
  {
    if |orders| == 0 {
    } else {
      var o := orders[0];
      var rest := orders[1..];
      assert orders == [o] + rest;
      ChartBucketsAreGroups(rest);
      InsertDates(Chart(rest), o);
      forall d
        ensures BucketAt(Chart(orders), d) == GroupOf(orders, d)
      {
        InsertBuckets(Chart(rest), o, d);
        GroupOfCons(o, rest, d);
      }
    }
  }

  /** The chart groups the orders by day, newest first. */
  lemma ChartIsGrouping(orders: seq<Order>)
    ensures IsGrouping(orders, Chart(orders))
  {
    ChartBucketsAreGroups(orders);
    var chart := Chart(orders);
    forall i | 0 <= i < |chart|
      ensures chart[i] == GroupOf(orders, chart[i].date)
    {
      BucketAtIndex(chart, i);
    }
  }

  /** The buckets add up to the totals: every order is counted in exactly one bucket. */
  lemma {:induction false} ChartAddsUp(orders: seq<Order>)
    ensures ChartOrders(Chart(orders)) == |orders|
    ensures ChartRevenue(Chart(orders)) == Revenue(orders)
    ensures ChartQuantity(Chart(orders)) == Quantity(orders)
  {
    if |orders| > 0 {
      ChartAddsUp(orders[1..]);
    }
  }

  /** The `$group` document, absent when there is no order to group. */
  function TotalsOf(orders: seq<Order>): (r: Option<Totals>)
    ensures r.None? <==> |orders| == 0
    ensures r.Some? ==> r.value.totalOrders == |orders| && r.value.totalRevenue == Revenue(orders)
  {
    if |orders| == 0 then None else Some(Totals(Revenue(orders), |orders|))
  }

  /**
   * GET /admin-stat. Counts users and plants, totals the orders, and charts
   * them by day; the totals are left out when there are no orders.
   */
  function AdminStat(s: Store, cred: Credential): (r: Step)
    ensures r.next == s && r.effects == []
    ensures Gate(s.users, cred, RoleIs(ADMIN)).Failure? ==>
      r.response == Gate(s.users, cred, RoleIs(ADMIN)).error
    ensures Gate(s.users, cred, RoleIs(ADMIN)).Success? ==>
      r.response.Reply? && r.response.status == Ok && r.response.body.Stats? &&
      r.response.body.summary.totalUsers == |s.users| &&
      r.response.body.summary.totalPlants == |s.plants| &&
      (r.response.body.summary.totals.None? <==> |s.orders| == 0) &&
      (r.response.body.summary.totals.Some? ==>
        r.response.body.summary.totals.value.totalOrders == |s.orders| &&
        r.response.body.summary.totals.value.totalRevenue == Revenue(s.orders)) &&
      ChartOrders(r.response.body.summary.chartData) == |s.orders| &&
      ChartRevenue(r.response.body.summary.chartData) == Revenue(s.orders) &&
      ChartQuantity(r.response.body.summary.chartData) == Quantity(s.orders) &&
      IsGrouping(s.orders, r.response.body.summary.chartData)
  {
    match Gate(s.users, cred, RoleIs(ADMIN))
    case Failure(denied) => Step(denied, s, [])
    case Success(_) =>
      ChartIsGrouping(s.orders);
      ChartAddsUp(s.orders);
      Step(Reply(Ok, Stats(Summary(|s.users|, |s.plants|, TotalsOf(s.orders), Chart(s.orders)))), s, [])
  }

  /** Three orders of one day with prices 10, 20 and 30 make one bucket of 3 orders and 60. */
  lemma ExampleSameDay()
    ensures var c := Customer("a@x.com", "A", "");
            var orders := [Order(1, 7, c, "s@x.com", 1, 10, "Pending", 20000),
                           Order(2, 7, c, "s@x.com", 2, 20, "Pending", 20000),
                           Order(3, 7, c, "s@x.com", 3, 30, "Pending", 20000)];
            Chart(orders) == [Bucket(20000, 3, 60, 6)]
  {
    var c := Customer("a@x.com", "A", "");
    var o1 := Order(1, 7, c, "s@x.com", 1, 10, "Pending", 20000);
    var o2 := Order(2, 7, c, "s@x.com", 2, 20, "Pending", 20000);
    var o3 := Order(3, 7, c, "s@x.com", 3, 30, "Pending", 20000);
    assert [o1, o2, o3][1..] == [o2, o3];
    assert [o2, o3][1..] == [o3];
    assert Chart([o3]) == [Bucket(20000, 1, 30, 3)];
    assert Chart([o2, o3]) == [Bucket(20000, 2, 50, 5)];
  }
}
