/**
 * The read-only side of the order controller: the filtered, newest-first, limited
 * order listing; the lookup by order number; and the sales statistics, which count
 * and sum only orders that are not cancelled.
 */
module OrderQueries {
  import opened Common
  import opened OrderSchema
  import OrderNumber
  import opened OrderController

  // ------------------------------------------------------- lookup by number

  /** The first stored order with this number (the store keeps numbers unique). */
  function FindByNumber(orders: seq<Order>, number: string): (r: Option<Order>)
    ensures r.Some? ==> r.value in orders && r.value.orderNumber == number
    ensures r.None? <==> forall i | 0 <= i < |orders| :: orders[i].orderNumber != number
  {
    if orders == [] then None
    else if orders[0].orderNumber == number then Some(orders[0])
    else FindByNumber(orders[1..], number)
  }

  /** An unknown number is a 404. */
  function GetOrderByNumber(orders: seq<Order>, number: string): (r: Response<Order>)
    ensures r.Success? <==> exists i | 0 <= i < |orders| :: orders[i].orderNumber == number
    ensures r.Failure? ==> r == Failure(404, OrderNotFoundMessage)
    ensures r.Success? ==> r.status == 200 && r.data in orders && r.data.orderNumber == number
  {
    match FindByNumber(orders, number)
    case None => Failure(404, OrderNotFoundMessage)
    case Some(o) => Success(200, None, o)
  }

  /** In a store kept by the controller, number "RFL" + k finds the k-th created order, and only it. */
  lemma {:induction false} LookupFindsCreated(orders: seq<Order>, k: nat)
    requires forall i | 0 <= i < |orders| :: StoredAt(orders[i], i)
    ensures 1 <= k <= |orders| ==> GetOrderByNumber(orders, OrderNumber.Format(k)) == Success(200, None, orders[k - 1])
    ensures k == 0 || k > |orders| ==> GetOrderByNumber(orders, OrderNumber.Format(k)) == Failure(404, OrderNotFoundMessage)
  {
    var number := OrderNumber.Format(k);
    forall i | 0 <= i < |orders| && orders[i].orderNumber == number
      ensures i == k - 1
    {
      OrderNumber.FormatInjective(i + 1, k);
    }
    if 1 <= k <= |orders| {
      FirstWithNumber(orders, number, k - 1);
    }
  }

  lemma {:induction false} FirstWithNumber(orders: seq<Order>, number: string, j: nat)
    requires j < |orders| && orders[j].orderNumber == number
    requires forall i | 0 <= i < j :: orders[i].orderNumber != number
    ensures FindByNumber(orders, number) == Some(orders[j])
    decreases j
  {
    if j > 0 {
      FirstWithNumber(orders[1..], number, j - 1);
    }
  }

  // ------------------------------------------------------------ the listing

  datatype DateRange = DateRange(gte: Option<int>, lte: Option<int>)

  /** The filter handed to the order collection: an optional status and creation-time range. */
  datatype Query = Query(orderStatus: Option<string>, createdAt: Option<DateRange>)

  predicate InRange(range: DateRange, t: int)
  {
    (range.gte.Some? ==> t >= range.gte.value) && (range.lte.Some? ==> t <= range.lte.value)
  }

  /** How the collection applies a query to one order. */
  predicate Matches(q: Query, o: Order)
  {
    && (q.orderStatus.Some? ==> StatusName(o.orderStatus) == q.orderStatus.value)
    && (q.createdAt.Some? ==> InRange(q.createdAt.value, o.createdAt))
  }

  /**
   * The orders the listing's parameters ask for: an empty status string asks for
   * any status, an absent date bound leaves that side open.
   */
  predicate Requested(status: string, startDate: Option<int>, endDate: Option<int>, o: Order)
  {
    && (status != "" ==> StatusName(o.orderStatus) == status)
    && (startDate.Some? ==> o.createdAt >= startDate.value)
    && (endDate.Some? ==> o.createdAt <= endDate.value)
  }

  /** Builds the query field by field from the listing's parameters. */
  method BuildQuery(status: string, startDate: Option<int>, endDate: Option<int>) returns (q: Query)
    ensures forall o: Order :: Matches(q, o) <==> Requested(status, startDate, endDate, o)
    ensures q.orderStatus.Some? <==> status != ""
    ensures q.createdAt.Some? <==> startDate.Some? || endDate.Some?
  {
    q := Query(None, None);
    if status != "" {
      q := q.(orderStatus := Some(status));
    }
    if startDate.Some? || endDate.Some? {
      var range := DateRange(None, None);
      if startDate.Some? {
        range := range.(gte := startDate);
      }
      if endDate.Some? {
        range := range.(lte := endDate);
      }
      q := q.(createdAt := Some(range));
    }
  }

  /** The orders a query selects, in stored order, each as often as it is stored. */
  function Select(orders: seq<Order>, q: Query): (r: seq<Order>)
    ensures forall o :: multiset(r)[o] == if Matches(q, o) then multiset(orders)[o] else 0
  {
    if orders == [] then []
    else
      assert orders == [orders[0]] + orders[1..];
      if Matches(q, orders[0]) then [orders[0]] + Select(orders[1..], q) else Select(orders[1..], q)
  }

  /** Sorted by creation time, newest first. */
  predicate NewestFirst(s: seq<Order>)
  {
    forall i, j | 0 <= i < j < |s| :: s[i].createdAt >= s[j].createdAt
  }

  lemma PrependNewest(x: Order, s: seq<Order>)
    requires NewestFirst(s)
    requires s == [] || x.createdAt >= s[0].createdAt
    ensures NewestFirst([x] + s)
  {
  }

  /** Places o before the first order that is older than it. */
  function Insert(o: Order, s: seq<Order>): (r: seq<Order>)
    ensures multiset(r) == multiset(s) + multiset{o}
    ensures |r| == |s| + 1
    ensures r[0] == o || (s != [] && r[0] == s[0])
  {
    if s == [] || o.createdAt >= s[0].createdAt then
      [o] + s
    else
      var rest := Insert(o, s[1..]);
      assert s == [s[0]] + s[1..];
      assert multiset([s[0]] + rest) == multiset{s[0]} + multiset(rest);
      [s[0]] + rest
  }

  lemma {:induction false} InsertNewest(o: Order, s: seq<Order>)
    requires NewestFirst(s)
    ensures NewestFirst(Insert(o, s))
    decreases |s|
  {
    if s == [] || o.createdAt >= s[0].createdAt {
      PrependNewest(o, s);
    } else {
      var rest := Insert(o, s[1..]);
      InsertNewest(o, s[1..]);
      assert rest[0] == o || rest[0] == s[1];
      PrependNewest(s[0], rest);
    }
  }

  /** Insertion sort by creation time, newest first. */
  function SortNewestFirst(s: seq<Order>): (r: seq<Order>)
    ensures NewestFirst(r)
    ensures multiset(r) == multiset(s)
  {
    if s == [] then []
    else
      assert s == [s[0]] + s[1..];
      InsertNewest(s[0], SortNewestFirst(s[1..]));
      Insert(s[0], SortNewestFirst(s[1..]))
  }

  const DefaultLimit: int := 50

  function Abs(n: int): nat { if n < 0 then -n else n }

  /** At most |limit| entries; a limit of 0 means no limit. */
  function Take(s: seq<Order>, limit: int): seq<Order>
  {
    if limit == 0 || Abs(limit) >= |s| then s else s[..Abs(limit)]
  }

  /** Cutting a newest-first sequence keeps it newest first, and whatever is cut off is no newer. */
  lemma TakeNewest(s: seq<Order>, limit: int)
    requires NewestFirst(s)
    ensures var r := Take(s, limit);
      && NewestFirst(r)
      && multiset(r) <= multiset(s)
      && (limit != 0 ==> |r| <= Abs(limit))
      && forall o | o in s && o !in r ::
           limit != 0 && |r| == Abs(limit) && forall i | 0 <= i < |r| :: o.createdAt <= r[i].createdAt
  {
    var r := Take(s, limit);
    assert s == r + s[|r|..];
    assert multiset(s) == multiset(r) + multiset(s[|r|..]);
    forall o | o in s && o !in r
      ensures limit != 0 && |r| == Abs(limit) && forall i | 0 <= i < |r| :: o.createdAt <= r[i].createdAt
    {
      var j :| 0 <= j < |s| && s[j] == o;
      assert j >= |r|;
    }
  }

  /**
   * The listing: the matching orders, newest first, cut to the limit (50 when absent).
   * An order that matches but is left out means the limit was reached, and that order
   * is no newer than any listed one.
   */
  function ListOrders(orders: seq<Order>, q: Query, limit: Option<int>): (r: seq<Order>)
    ensures forall i | 0 <= i < |r| :: r[i] in orders && Matches(q, r[i])
    ensures multiset(r) <= multiset(orders)
    ensures NewestFirst(r)
    ensures var n := if limit.None? then DefaultLimit else limit.value;
      n != 0 ==> |r| <= Abs(n)
    ensures var n := if limit.None? then DefaultLimit else limit.value;
      forall o | o in orders && Matches(q, o) && o !in r ::
        n != 0 && |r| == Abs(n) && forall i | 0 <= i < |r| :: o.createdAt <= r[i].createdAt
  {
    var n := if limit.None? then DefaultLimit else limit.value;
    var selected := Select(orders, q);
    var sorted := SortNewestFirst(selected);
    TakeNewest(sorted, n);
    var r := Take(sorted, n);
    SelectedMembers(orders, q, selected, r);
    r
  }

  lemma SelectedMembers(orders: seq<Order>, q: Query, selected: seq<Order>, r: seq<Order>)
    requires forall o :: multiset(selected)[o] == if Matches(q, o) then multiset(orders)[o] else 0
    requires multiset(r) <= multiset(selected)
    ensures forall i | 0 <= i < |r| :: r[i] in orders && Matches(q, r[i])
    ensures multiset(r) <= multiset(orders)
    ensures forall o | o in orders && Matches(q, o) :: o in multiset(selected)
  {
    forall i | 0 <= i < |r| ensures r[i] in orders && Matches(q, r[i]) {
      assert r[i] in multiset(r);
    }
    forall o ensures multiset(r)[o] <= multiset(orders)[o] {
    }
  }

  /** `getAllOrders`: the listing for the request's status, date bounds and limit. */
  method GetAllOrders(orders: seq<Order>, status: string, startDate: Option<int>, endDate: Option<int>, limit: Option<int>)
    returns (r: seq<Order>)
    ensures forall i | 0 <= i < |r| :: r[i] in orders && Requested(status, startDate, endDate, r[i])
    ensures multiset(r) <= multiset(orders)
    ensures NewestFirst(r)
    ensures var n := if limit.None? then DefaultLimit else limit.value;
      n != 0 ==> |r| <= Abs(n)
    ensures var n := if limit.None? then DefaultLimit else limit.value;
      forall o | o in orders && Requested(status, startDate, endDate, o) && o !in r ::
        n != 0 && |r| == Abs(n) && forall i | 0 <= i < |r| :: o.createdAt <= r[i].createdAt
  {
    var q := BuildQuery(status, startDate, endDate);
    r := ListOrders(orders, q, limit);
  }

  // ------------------------------------------------------------ statistics

  /** Every statistic leaves cancelled orders out. */
  predicate Counted(o: Order) { o.orderStatus != Cancelled }

  /** Non-cancelled orders created at or after `since`. */
  function CountSince(orders: seq<Order>, since: int): nat
  {
    if orders == [] then 0
    else
      var o := orders[|orders| - 1];
      CountSince(orders[..|orders| - 1], since) + if Counted(o) && o.createdAt >= since then 1 else 0
  }

  /** Sum of the totals of non-cancelled orders created at or after `since`. */
  function RevenueSince(orders: seq<Order>, since: int): int
  {
    if orders == [] then 0
    else
      var o := orders[|orders| - 1];
      RevenueSince(orders[..|orders| - 1], since) + if Counted(o) && o.createdAt >= since then o.total else 0
  }

  /** Non-cancelled orders, whenever created. */
  function CountActive(orders: seq<Order>): nat
  {
    if orders == [] then 0
    else CountActive(orders[..|orders| - 1]) + if Counted(orders[|orders| - 1]) then 1 else 0
  }

  function CountWithStatus(orders: seq<Order>, s: OrderStatus): nat
  {
    if orders == [] then 0
    else CountWithStatus(orders[..|orders| - 1], s) + if orders[|orders| - 1].orderStatus == s then 1 else 0
  }

  datatype StatusCount = StatusCount(status: OrderStatus, count: nat)

  /** The statuses the per-status grouping can report (cancelled orders are filtered out first). */
  const ActiveStatuses: seq<OrderStatus> := [Pending, Confirmed, Preparing, Ready, Delivering, Delivered]

  /** One group per listed status that occurs. */
  function Groups(statuses: seq<OrderStatus>, orders: seq<Order>): seq<StatusCount>
  {
    if statuses == [] then []
    else
      var n := CountWithStatus(orders, statuses[0]);
      (if n > 0 then [StatusCount(statuses[0], n)] else []) + Groups(statuses[1..], orders)
  }

  function GroupTotal(groups: seq<StatusCount>): nat
  {
    if groups == [] then 0 else groups[0].count + GroupTotal(groups[1..])
  }

  datatype Window = Window(orders: nat, revenue: int)

  datatype SalesStats = SalesStats(today: Window, month: Window, totalOrders: nat, byStatus: seq<StatusCount>)

  /**
   * `getSalesStats` for the given local midnight and first instant of the month.
   * The grouping's order is not fixed by the collection; it is given here in status order.
   */
  function SalesStatsOf(orders: seq<Order>, todayStart: int, monthStart: int): (st: SalesStats)
    ensures st.today.orders <= st.totalOrders && st.month.orders <= st.totalOrders
    ensures st.totalOrders <= |orders|
  {
    CountBounds(orders, todayStart);
    CountBounds(orders, monthStart);
    SalesStats(
      Window(CountSince(orders, todayStart), RevenueSince(orders, todayStart)),
      Window(CountSince(orders, monthStart), RevenueSince(orders, monthStart)),
      CountActive(orders),
      Groups(ActiveStatuses, orders))
  }

  /** The non-cancelled orders, in order. */
  function ActiveOnly(orders: seq<Order>): (r: seq<Order>)
    ensures forall i | 0 <= i < |r| :: Counted(r[i])
  {
    if orders == [] then []
    else
      var init := ActiveOnly(orders[..|orders| - 1]);
      if Counted(orders[|orders| - 1]) then init + [orders[|orders| - 1]] else init
  }

  lemma {:induction false} CountSinceIgnoresCancelled(orders: seq<Order>, since: int)
    ensures CountSince(orders, since) == CountSince(ActiveOnly(orders), since)
    decreases |orders|
  {
    if orders != [] {
      var init := orders[..|orders| - 1];
      var last := orders[|orders| - 1];
      assert orders == init + [last];
      CountSinceIgnoresCancelled(init, since);
      CountSinceSnoc(init, last, since);
      if Counted(last) {
        CountSinceSnoc(ActiveOnly(init), last, since);
      }
    }
  }

  /** Appending one order adds its own contribution to `CountSince`. */
  lemma CountSinceSnoc(s: seq<Order>, x: Order, since: int)
    ensures CountSince(s + [x], since) == CountSince(s, since) + if Counted(x) && x.createdAt >= since then 1 else 0
  {
    assert (s + [x])[..|s|] == s;
  }

  lemma {:induction false} RevenueSinceIgnoresCancelled(orders: seq<Order>, since: int)
    ensures RevenueSince(orders, since) == RevenueSince(ActiveOnly(orders), since)
    decreases |orders|
  {
    if orders != [] {
      var init := orders[..|orders| - 1];
      var last := orders[|orders| - 1];
      RevenueSinceIgnoresCancelled(init, since);
      var a := ActiveOnly(init);
      var step := if Counted(last) && last.createdAt >= since then last.total else 0;
      assert RevenueSince(orders, since) == RevenueSince(init, since) + step;
      if Counted(last) {
        assert ActiveOnly(orders) == a + [last];
        assert (a + [last])[..|a|] == a;
        assert RevenueSince(a + [last], since) == RevenueSince(a, since) + step;
      } else {
        assert ActiveOnly(orders) == a;
      }
    }
  }

  lemma {:induction false} ActiveCountIgnoresCancelled(orders: seq<Order>)
    ensures CountActive(orders) == CountActive(ActiveOnly(orders))
    decreases |orders|
  {
    if orders != [] {
      var init := orders[..|orders| - 1];
      var last := orders[|orders| - 1];
      ActiveCountIgnoresCancelled(init);
      var a := ActiveOnly(init);
      if Counted(last) {
        assert (a + [last])[..|a|] == a;
      }
    }
  }

  lemma {:induction false} StatusCountIgnoresCancelled(orders: seq<Order>, s: OrderStatus)
    requires s != Cancelled
    ensures CountWithStatus(orders, s) == CountWithStatus(ActiveOnly(orders), s)
    decreases |orders|
  {
    if orders != [] {
      var init := orders[..|orders| - 1];
      var last := orders[|orders| - 1];
      StatusCountIgnoresCancelled(init, s);
      var a := ActiveOnly(init);
      var step := if last.orderStatus == s then 1 else 0;
      assert CountWithStatus(orders, s) == CountWithStatus(init, s) + step;
      if Counted(last) {
        assert ActiveOnly(orders) == a + [last];
        assert (a + [last])[..|a|] == a;
        assert CountWithStatus(a + [last], s) == CountWithStatus(a, s) + step;
      } else {
        assert ActiveOnly(orders) == a;
        assert step == 0;
      }
    }
  }

  lemma {:induction false} GroupsIgnoreCancelled(statuses: seq<OrderStatus>, orders: seq<Order>)
    requires forall i | 0 <= i < |statuses| :: statuses[i] != Cancelled
    ensures Groups(statuses, orders) == Groups(statuses, ActiveOnly(orders))
    decreases |statuses|
  {
    if statuses != [] {
      StatusCountIgnoresCancelled(orders, statuses[0]);
      GroupsIgnoreCancelled(statuses[1..], orders);
    }
  }

  /** The statistics depend on the non-cancelled orders only. */
  lemma StatsIgnoreCancelled(orders: seq<Order>, todayStart: int, monthStart: int)
    ensures SalesStatsOf(orders, todayStart, monthStart) == SalesStatsOf(ActiveOnly(orders), todayStart, monthStart)
  {
    CountSinceIgnoresCancelled(orders, todayStart);
    CountSinceIgnoresCancelled(orders, monthStart);
    RevenueSinceIgnoresCancelled(orders, todayStart);
    RevenueSinceIgnoresCancelled(orders, monthStart);
    ActiveCountIgnoresCancelled(orders);
    GroupsIgnoreCancelled(ActiveStatuses, orders);
  }

  /** Adding a cancelled order changes no statistic. */
  lemma CancelledOrderAddsNothing(orders: seq<Order>, o: Order, todayStart: int, monthStart: int)
    requires o.orderStatus == Cancelled
    ensures SalesStatsOf(orders + [o], todayStart, monthStart) == SalesStatsOf(orders, todayStart, monthStart)
  {
    StatsIgnoreCancelled(orders + [o], todayStart, monthStart);
    StatsIgnoreCancelled(orders, todayStart, monthStart);
    assert (orders + [o])[..|orders|] == orders;
  }

  /** No orders: zero counts, zero revenue, no groups. */
  lemma StatsOfEmptyStore(todayStart: int, monthStart: int)
    ensures SalesStatsOf([], todayStart, monthStart) == SalesStats(Window(0, 0), Window(0, 0), 0, [])
  {
  }

  lemma {:induction false} WindowMonotone(orders: seq<Order>, later: int, earlier: int)
    requires earlier <= later
    ensures CountSince(orders, later) <= CountSince(orders, earlier)
    ensures (forall i | 0 <= i < |orders| :: orders[i].total >= 0) ==>
      RevenueSince(orders, later) <= RevenueSince(orders, earlier)
    decreases |orders|
  {
    if orders != [] {
      WindowMonotone(orders[..|orders| - 1], later, earlier);
    }
  }

  /**
   * Today's window lies inside the month's: today's count is at most the month's,
   * and so is today's revenue when totals are non-negative, as the schema requires.
   */
  lemma TodayWithinMonth(orders: seq<Order>, todayStart: int, monthStart: int)
    requires monthStart <= todayStart
    ensures var st := SalesStatsOf(orders, todayStart, monthStart);
      st.today.orders <= st.month.orders
    ensures (forall i | 0 <= i < |orders| :: SchemaValid(orders[i])) ==>
      var st := SalesStatsOf(orders, todayStart, monthStart);
      st.today.revenue <= st.month.revenue
  {
    WindowMonotone(orders, todayStart, monthStart);
  }

  function Occurrences(statuses: seq<OrderStatus>, s: OrderStatus): nat
  {
    if statuses == [] then 0 else (if statuses[0] == s then 1 else 0) + Occurrences(statuses[1..], s)
  }

  function StatusCounts(statuses: seq<OrderStatus>, orders: seq<Order>): nat
  {
    if statuses == [] then 0 else CountWithStatus(orders, statuses[0]) + StatusCounts(statuses[1..], orders)
  }

  lemma {:induction false} GroupTotalIsStatusCounts(statuses: seq<OrderStatus>, orders: seq<Order>)
    ensures GroupTotal(Groups(statuses, orders)) == StatusCounts(statuses, orders)
    ensures forall i | 0 <= i < |Groups(statuses, orders)| ::
      Groups(statuses, orders)[i].status in statuses && Groups(statuses, orders)[i].count > 0
    decreases |statuses|
  {
    if statuses != [] {
      GroupTotalIsStatusCounts(statuses[1..], orders);
      var n := CountWithStatus(orders, statuses[0]);
      var rest := Groups(statuses[1..], orders);
      if n > 0 {
        assert ([StatusCount(statuses[0], n)] + rest)[1..] == rest;
      } else {
        assert [] + rest == rest;
      }
    }
  }

  lemma {:induction false} StatusCountsAppend(statuses: seq<OrderStatus>, orders: seq<Order>, o: Order)
    ensures StatusCounts(statuses, orders + [o]) == StatusCounts(statuses, orders) + Occurrences(statuses, o.orderStatus)
    decreases |statuses|
  {
    if statuses != [] {
      assert (orders + [o])[..|orders|] == orders;
      StatusCountsAppend(statuses[1..], orders, o);
    }
  }

  /** Each status that is not cancelled is listed exactly once among the groupable statuses. */
  lemma ActiveStatusesOnce(s: OrderStatus)
    ensures Occurrences(ActiveStatuses, s) == if s == Cancelled then 0 else 1
  {
    var a := ActiveStatuses;
    assert a[1..][1..][1..][1..][1..][1..] == [];
  }

  lemma {:induction false} StatusCountsOfNone(statuses: seq<OrderStatus>)
    ensures StatusCounts(statuses, []) == 0
    decreases |statuses|
  {
    if statuses != [] {
      StatusCountsOfNone(statuses[1..]);
    }
  }

  lemma {:induction false} ActiveCountIsStatusCounts(orders: seq<Order>)
    ensures StatusCounts(ActiveStatuses, orders) == CountActive(orders)
    decreases |orders|
  {
    if orders == [] {
      StatusCountsOfNone(ActiveStatuses);
    } else {
      var init := orders[..|orders| - 1];
      var o := orders[|orders| - 1];
      assert orders == init + [o];
      ActiveCountIsStatusCounts(init);
      StatusCountsAppend(ActiveStatuses, init, o);
      ActiveStatusesOnce(o.orderStatus);
    }
  }

  /**
   * The per-status grouping never reports cancelled orders, reports only statuses that
   * occur, and its counts add up to the total number of non-cancelled orders.
   */
  lemma ByStatusAddsUp(orders: seq<Order>, todayStart: int, monthStart: int)
    ensures var st := SalesStatsOf(orders, todayStart, monthStart);
      && GroupTotal(st.byStatus) == st.totalOrders
      && forall i | 0 <= i < |st.byStatus| :: st.byStatus[i].status != Cancelled && st.byStatus[i].count > 0
  {
    GroupTotalIsStatusCounts(ActiveStatuses, orders);
    ActiveCountIsStatusCounts(orders);
  }

  /** `getSalesStats` as a reply. */
  function GetSalesStats(orders: seq<Order>, todayStart: int, monthStart: int): (r: Response<SalesStats>)
    ensures r.Success? && r.status == 200
    ensures r.data.totalOrders <= |orders|
  {
    Success(200, None, SalesStatsOf(orders, todayStart, monthStart))
  }

  /** A window counts only non-cancelled orders, and there are no more of those than orders. */
  lemma {:induction false} CountBounds(orders: seq<Order>, since: int)
    ensures CountSince(orders, since) <= CountActive(orders) <= |orders|
    decreases |orders|
  {
    if orders != [] {
      CountBounds(orders[..|orders| - 1], since);
    }
  }
}
