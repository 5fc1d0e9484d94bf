/** The report queries (`useReports`): after the backend has returned the
    non-cancelled, paid orders of the chosen range (or their items), each
    report folds the rows into a `Map`, then lists, sorts and cuts the
    entries. A fetch that fails is None and yields an empty report. Amounts
    are cents, so `Math.round(x * 100) / 100` leaves a sum unchanged. */
module Reports {
  import opened Wrappers
  import opened Text
  import opened Money
  import opened Store
  import opened Ledger
  import opened Aggregate
  import opened Sorting

  datatype DailySales = DailySales(date: string, total: int, orderCount: int)
  datatype ProductSales = ProductSales(name: string, totalQty: int, totalRevenue: int)
  datatype PaymentMethodSales = PaymentMethodSales(methodName: string, total: int, count: int)
  datatype HourlySales = HourlySales(hour: int, total: int, count: int)

  /** An order as the period, payment and hour queries return it; `hour`
      is `new Date(created_at).getHours()`, read in the terminal's time
      zone. */
  datatype ReportOrder = ReportOrder(total: int, createdAt: string, paymentMethod: Option<string>, hour: int)

  /** An order item with the name of its product, None when the product is
      missing. */
  datatype SoldItem = SoldItem(quantity: int, subtotal: int, productName: Option<string>)

  /** `product?.name ?? 'Desconocido'` */
  function ProductName(name: Option<string>): string {
    name.GetOr("Desconocido")
  }

  /** `created_at.slice(0, 10)`: the date part of the timestamp. */
  function Day(o: ReportOrder): string {
    SliceTo(o.createdAt, 10)
  }

  // Sales by period

  function DayTallies(orders: seq<ReportOrder>): (r: seq<Tally<string>>)
    ensures |r| == |orders|
    ensures forall j | 0 <= j < |orders| :: r[j] == Tally(Day(orders[j]), orders[j].total, 0)
  {
    if |orders| == 0 then [] else DayTallies(orders[..|orders| - 1]) + [Tally(Day(orders[|orders| - 1]), orders[|orders| - 1].total, 0)]
  }

  function Daily(gs: seq<Group<string>>): (r: seq<DailySales>)
    ensures |r| == |gs|
    ensures forall i | 0 <= i < |gs| :: r[i] == DailySales(gs[i].key, gs[i].x, gs[i].count)
  {
    if |gs| == 0 then [] else Daily(gs[..|gs| - 1]) + [DailySales(gs[|gs| - 1].key, gs[|gs| - 1].x, gs[|gs| - 1].count)]
  }

  function OrderCountSum(days: seq<DailySales>): int {
    if |days| == 0 then 0 else OrderCountSum(days[..|days| - 1]) + days[|days| - 1].orderCount
  }

  /** `getSalesByPeriod`: one entry per date, in the order the dates first
      appear. */
  method SalesByPeriod(data: Option<seq<ReportOrder>>) returns (r: seq<DailySales>)
    ensures data.None? ==> r == []
    ensures data.Some? ==> r == Daily(GroupAll(DayTallies(data.value)))
  {
    if data.None? {
      return [];
    }
    var dayMap := Accumulate(DayTallies(data.value));
    r := Daily(dayMap);
  }

  lemma {:induction false} OrderCountSumIsTotalCount(gs: seq<Group<string>>)
    ensures OrderCountSum(Daily(gs)) == TotalCount(gs)
  {
    if |gs| > 0 {
      OrderCountSumIsTotalCount(gs[..|gs| - 1]);
    }
  }

  /** Each date is listed once, with the number and the total of the
      orders of that date. */
  lemma SalesByPeriodEntries(orders: seq<ReportOrder>)
    ensures var r := Daily(GroupAll(DayTallies(orders)));
      && (forall i, j | 0 <= i < j < |r| :: r[i].date != r[j].date)
      && (forall i | 0 <= i < |r| ::
            r[i].orderCount == Count(DayTallies(orders), r[i].date) >= 1
            && r[i].total == SumX(DayTallies(orders), r[i].date))
  {
    var rows := DayTallies(orders);
    var gs := GroupAll(rows);
    var r := Daily(gs);
    GroupAllDistinct(rows);
    GroupAllSums(rows);
    forall i, j | 0 <= i < j < |r|
      ensures r[i].date != r[j].date
    {
      assert r[i].date == gs[i].key && r[j].date == gs[j].key;
    }
    forall i | 0 <= i < |r|
      ensures r[i].orderCount == Count(rows, r[i].date) >= 1 && r[i].total == SumX(rows, r[i].date)
    {
      assert r[i] == DailySales(gs[i].key, gs[i].x, gs[i].count);
    }
  }

  /** Every order's date is listed, and the counts add up to the number
      of orders. */
  lemma SalesByPeriodCovers(orders: seq<ReportOrder>)
    ensures forall j | 0 <= j < |orders| :: IndexOf(GroupAll(DayTallies(orders)), Day(orders[j])).Some?
    ensures OrderCountSum(Daily(GroupAll(DayTallies(orders)))) == |orders|
  {
    var rows := DayTallies(orders);
    GroupAllCovers(rows);
    GroupAllTotals(rows);
    OrderCountSumIsTotalCount(GroupAll(rows));
    assert forall j | 0 <= j < |orders| :: rows[j].key == Day(orders[j]);
  }

  // Top products

  function ItemTallies(items: seq<SoldItem>): (r: seq<Tally<string>>)
    ensures |r| == |items|
    ensures forall j | 0 <= j < |items| ::
      r[j] == Tally(ProductName(items[j].productName), items[j].quantity, items[j].subtotal)
  {
    if |items| == 0 then []
    else
      var last := items[|items| - 1];
      ItemTallies(items[..|items| - 1]) + [Tally(ProductName(last.productName), last.quantity, last.subtotal)]
  }

  function ProductsOf(gs: seq<Group<string>>): (r: seq<ProductSales>)
    ensures |r| == |gs|
    ensures forall i | 0 <= i < |gs| :: r[i] == ProductSales(gs[i].key, gs[i].x, gs[i].y)
  {
    if |gs| == 0 then [] else ProductsOf(gs[..|gs| - 1]) + [ProductSales(gs[|gs| - 1].key, gs[|gs| - 1].x, gs[|gs| - 1].y)]
  }

  /** `(a, b) => b.totalQty - a.totalQty` orders by descending quantity. */
  function ByQtyDesc(p: ProductSales): int {
    -p.totalQty
  }

  function TopProductsOf(items: seq<SoldItem>): seq<ProductSales> {
    Take(SortBy(ProductsOf(GroupAll(ItemTallies(items))), ByQtyDesc), 20)
  }

  /** `getTopProducts`: nothing without orders in range or when the items
      cannot be fetched. */
  method TopProducts(orderIds: Option<seq<string>>, items: Option<seq<SoldItem>>) returns (r: seq<ProductSales>)
    ensures orderIds.None? || |orderIds.value| == 0 || items.None? ==> r == []
    ensures orderIds.Some? && |orderIds.value| > 0 && items.Some? ==> r == TopProductsOf(items.value)
  {
    if orderIds.None? || |orderIds.value| == 0 {
      return [];
    }
    if items.None? {
      return [];
    }
    var productMap := Accumulate(ItemTallies(items.value));
    r := Take(SortBy(ProductsOf(productMap), ByQtyDesc), 20);
  }

  /** Exactly 20 products are shown, or all of them when there are no
      more. */
  lemma TopProductsCount(items: seq<SoldItem>)
    ensures var all := ProductsOf(GroupAll(ItemTallies(items)));
      && |TopProductsOf(items)| == (if |all| <= 20 then |all| else 20)
      && (|all| <= 20 ==> multiset(TopProductsOf(items)) == multiset(all))
  {
    TopOf(ProductsOf(GroupAll(ItemTallies(items))), 20, ByQtyDesc);
  }

  /** At most 20 products, by descending quantity, taken from the front
      of the sorted list: no product left out sold more than one kept
      (how many are kept is TopProductsCount). */
  lemma TopProductsRanked(items: seq<SoldItem>)
    ensures var all := ProductsOf(GroupAll(ItemTallies(items)));
      var sorted := SortBy(all, ByQtyDesc);
      var r := TopProductsOf(items);
      && |r| <= 20
      && (forall i, j | 0 <= i < j < |r| :: r[i].totalQty >= r[j].totalQty)
      && multiset(r) <= multiset(all)
      && (forall i, j | 0 <= i < |r| <= j < |sorted| :: r[i].totalQty >= sorted[j].totalQty)
  {
    var all := ProductsOf(GroupAll(ItemTallies(items)));
    var sorted := SortBy(all, ByQtyDesc);
    TakeSorted(sorted, 20, ByQtyDesc);
    var r := Take(sorted, 20);
    forall i, j | 0 <= i < j < |r|
      ensures r[i].totalQty >= r[j].totalQty
    {
      assert ByQtyDesc(r[i]) <= ByQtyDesc(r[j]);
    }
    forall i, j | 0 <= i < |r| <= j < |sorted|
      ensures r[i].totalQty >= sorted[j].totalQty
    {
      assert r[i] == sorted[i];
      assert ByQtyDesc(sorted[i]) <= ByQtyDesc(sorted[j]);
    }
  }

  /** Each product carries the quantity and the revenue of all the items
      of its name, a missing product counting as "Desconocido"; no name
      appears twice. */
  lemma ProductTotals(items: seq<SoldItem>)
    ensures var all := ProductsOf(GroupAll(ItemTallies(items)));
      && (forall i, j | 0 <= i < j < |all| :: all[i].name != all[j].name)
      && (forall i | 0 <= i < |all| ::
            all[i].totalQty == SumX(ItemTallies(items), all[i].name)
            && all[i].totalRevenue == SumY(ItemTallies(items), all[i].name))
  {
    GroupAllSums(ItemTallies(items));
    GroupAllDistinct(ItemTallies(items));
  }

  // Average ticket

  function SumTotals(totals: seq<int>): int {
    if |totals| == 0 then 0 else SumTotals(totals[..|totals| - 1]) + totals[|totals| - 1]
  }

  /** `getAverageTicket`: 0 without orders, else the mean total rounded to
      the cent, halves up. */
  function AverageTicket(totals: Option<seq<int>>): (r: int)
    ensures totals.None? || |totals.value| == 0 ==> r == 0
    ensures totals.Some? && |totals.value| > 0 ==>
      var n := |totals.value|;
      2 * n * r <= 2 * SumTotals(totals.value) + n < 2 * n * r + 2 * n
  {
    if totals.None? || |totals.value| == 0 then 0
    else RoundDiv(SumTotals(totals.value), |totals.value|)
  }

  lemma {:induction false} SumTotalsBounds(totals: seq<int>, lo: int, hi: int)
    requires forall j | 0 <= j < |totals| :: lo <= totals[j] <= hi
    ensures |totals| * lo <= SumTotals(totals) <= |totals| * hi
  {
    if |totals| > 0 {
      var n := |totals| - 1;
      SumTotalsBounds(totals[..n], lo, hi);
      assert SumTotals(totals) == SumTotals(totals[..n]) + totals[n];
      assert (n + 1) * lo == n * lo + lo && (n + 1) * hi == n * hi + hi;
    }
  }

  /** The average lies between the smallest and the largest total. */
  lemma AverageWithinRange(totals: seq<int>, lo: int, hi: int)
    requires |totals| > 0
    requires forall j | 0 <= j < |totals| :: lo <= totals[j] <= hi
    ensures lo <= AverageTicket(Some(totals)) <= hi
  {
    SumTotalsBounds(totals, lo, hi);
    RoundedMeanBetween(|totals|, SumTotals(totals), AverageTicket(Some(totals)), lo, hi);
  }

  /** A sum between n·lo and n·hi, divided by n and rounded, stays between
      lo and hi. */
  lemma RoundedMeanBetween(n: int, s: int, r: int, lo: int, hi: int)
    requires n > 0
    requires 2 * n * r <= 2 * s + n < 2 * n * r + 2 * n
    requires n * lo <= s <= n * hi
    ensures lo <= r <= hi
  {
    assert 2 * n * r == 2 * (n * r);
    if r > hi {
      MulMono(n, hi + 1, r);
      assert false;
    }
    if r < lo {
      MulMono(n, r + 1, lo);
      assert false;
    }
  }

  lemma MulMono(n: int, a: int, b: int)
    requires n > 0 && a <= b
    ensures n * a <= n * b
  {
  }

  // Sales by payment method

  /** `order.payment_method ?? 'unknown'` */
  function MethodKey(o: ReportOrder): string {
    o.paymentMethod.GetOr("unknown")
  }

  function MethodTallies(orders: seq<ReportOrder>): (r: seq<Tally<string>>)
    ensures |r| == |orders|
    ensures forall j | 0 <= j < |orders| :: r[j] == Tally(MethodKey(orders[j]), orders[j].total, 0)
  {
    if |orders| == 0 then [] else MethodTallies(orders[..|orders| - 1]) + [Tally(MethodKey(orders[|orders| - 1]), orders[|orders| - 1].total, 0)]
  }

  /** The label shown for a stored payment method. */
  function MethodLabel(stored: string): (r: string)
    ensures stored == "cash" ==> r == "Efectivo"
    ensures stored == "card" ==> r == "Tarjeta"
    ensures stored != "cash" && stored != "card" ==> r == stored
  {
    if stored == "cash" then "Efectivo" else if stored == "card" then "Tarjeta" else stored
  }

  function ByMethod(gs: seq<Group<string>>): (r: seq<PaymentMethodSales>)
    ensures |r| == |gs|
    ensures forall i | 0 <= i < |gs| :: r[i] == PaymentMethodSales(MethodLabel(gs[i].key), gs[i].x, gs[i].count)
  {
    if |gs| == 0 then []
    else ByMethod(gs[..|gs| - 1]) + [PaymentMethodSales(MethodLabel(gs[|gs| - 1].key), gs[|gs| - 1].x, gs[|gs| - 1].count)]
  }

  function MethodCountSum(ms: seq<PaymentMethodSales>): int {
    if |ms| == 0 then 0 else MethodCountSum(ms[..|ms| - 1]) + ms[|ms| - 1].count
  }

  /** `getSalesByPaymentMethod` */
  method SalesByPaymentMethod(data: Option<seq<ReportOrder>>) returns (r: seq<PaymentMethodSales>)
    ensures data.None? ==> r == []
    ensures data.Some? ==> r == ByMethod(GroupAll(MethodTallies(data.value)))
  {
    if data.None? {
      return [];
    }
    var methodMap := Accumulate(MethodTallies(data.value));
    r := ByMethod(methodMap);
  }

  lemma {:induction false} MethodCountSumIsTotalCount(gs: seq<Group<string>>)
    ensures MethodCountSum(ByMethod(gs)) == TotalCount(gs)
  {
    if |gs| > 0 {
      MethodCountSumIsTotalCount(gs[..|gs| - 1]);
    }
  }

  /** Every order is counted under exactly one method: no method has two
      entries, the counts add up to the number of orders and the totals to
      their sum, and each entry counts the orders stored with its method. */
  lemma SalesByPaymentMethodFacts(orders: seq<ReportOrder>)
    ensures var gs := GroupAll(MethodTallies(orders));
      && MethodCountSum(ByMethod(gs)) == |orders|
      && TotalX(gs) == RowsX(MethodTallies(orders))
      && (forall i | 0 <= i < |gs| :: ByMethod(gs)[i].count == Count(MethodTallies(orders), gs[i].key))
      && DistinctKeys(gs)
  {
    var rows := MethodTallies(orders);
    GroupAllDistinct(rows);
    GroupAllTotals(rows);
    GroupAllSums(rows);
    MethodCountSumIsTotalCount(GroupAll(rows));
  }

  // Sales by hour

  function HourTallies(orders: seq<ReportOrder>): (r: seq<Tally<int>>)
    ensures |r| == |orders|
    ensures forall j | 0 <= j < |orders| :: r[j] == Tally(orders[j].hour, orders[j].total, 0)
  {
    if |orders| == 0 then [] else HourTallies(orders[..|orders| - 1]) + [Tally(orders[|orders| - 1].hour, orders[|orders| - 1].total, 0)]
  }

  function Hourly(gs: seq<Group<int>>): (r: seq<HourlySales>)
    ensures |r| == |gs|
    ensures forall i | 0 <= i < |gs| :: r[i] == HourlySales(gs[i].key, gs[i].x, gs[i].count)
  {
    if |gs| == 0 then [] else Hourly(gs[..|gs| - 1]) + [HourlySales(gs[|gs| - 1].key, gs[|gs| - 1].x, gs[|gs| - 1].count)]
  }

  /** `(a, b) => a.hour - b.hour` */
  function ByHour(h: HourlySales): int {
    h.hour
  }

  /** `getSalesByHour` */
  method SalesByHour(data: Option<seq<ReportOrder>>) returns (r: seq<HourlySales>)
    ensures data.None? ==> r == []
    ensures data.Some? ==> r == SortBy(Hourly(GroupAll(HourTallies(data.value))), ByHour)
  {
    if data.None? {
      return [];
    }
    var hourMap := Accumulate(HourTallies(data.value));
    r := SortBy(Hourly(hourMap), ByHour);
  }

  /** The hours come out in ascending order, and they are the map's
      entries, none lost and none added. */
  lemma SalesByHourOrder(orders: seq<ReportOrder>)
    ensures var r := SortBy(Hourly(GroupAll(HourTallies(orders))), ByHour);
      && (forall i, j | 0 <= i < j < |r| :: r[i].hour <= r[j].hour)
      && multiset(r) == multiset(Hourly(GroupAll(HourTallies(orders))))
  {
    var r := SortBy(Hourly(GroupAll(HourTallies(orders))), ByHour);
    forall i, j | 0 <= i < j < |r|
      ensures r[i].hour <= r[j].hour
    {
      assert ByHour(r[i]) <= ByHour(r[j]);
    }
  }

  /** Each listed hour carries the number and the total of the orders of
      that hour. */
  lemma SalesByHourEntries(orders: seq<ReportOrder>)
    ensures var r := SortBy(Hourly(GroupAll(HourTallies(orders))), ByHour);
      forall i | 0 <= i < |r| ::
        r[i].count == Count(HourTallies(orders), r[i].hour) && r[i].total == SumX(HourTallies(orders), r[i].hour)
  {
    var rows := HourTallies(orders);
    var gs := GroupAll(rows);
    var hs := Hourly(gs);
    var r := SortBy(hs, ByHour);
    GroupAllSums(rows);
    forall k | 0 <= k < |hs|
      ensures hs[k].count == Count(rows, hs[k].hour) && hs[k].total == SumX(rows, hs[k].hour)
    {
      assert hs[k] == HourlySales(gs[k].key, gs[k].x, gs[k].count);
    }
    forall i | 0 <= i < |r|
      ensures r[i].count == Count(rows, r[i].hour) && r[i].total == SumX(rows, r[i].hour)
    {
      assert r[i] in multiset(hs);
      var k :| 0 <= k < |hs| && hs[k] == r[i];
    }
  }

  // Cash cut history

  /** A closed session with the name of the user who opened it. */
  datatype CutRow = CutRow(session: SessionRow, openerName: Option<string>)

  datatype CashCutSummary = CashCutSummary(id: string, openedAt: int, closedAt: Option<int>, openingAmount: int,
                                           closingAmount: int, expected: int, difference: int, openerName: string)

  function CutSummary(c: CutRow): (r: CashCutSummary)
    ensures r.closingAmount == c.session.closingAmount.GetOr(0)
    ensures r.expected == c.session.expectedAmount.GetOr(0)
    ensures r.difference == c.session.difference.GetOr(0)
    ensures r.openerName == c.openerName.GetOr("")
  {
    var s := c.session;
    CashCutSummary(s.id, s.openedAt, s.closedAt, s.openingAmount, s.closingAmount.GetOr(0),
                   s.expectedAmount.GetOr(0), s.difference.GetOr(0), c.openerName.GetOr(""))
  }

  /** `getCashCutHistory`: one summary per fetched session, in the order
      fetched. */
  function CashCutHistory(data: Option<seq<CutRow>>): (r: seq<CashCutSummary>)
    ensures data.None? ==> r == []
    ensures data.Some? ==> |r| == |data.value| && forall i | 0 <= i < |r| :: r[i] == CutSummary(data.value[i])
  {
    if data.None? then [] else seq(|data.value|, i requires 0 <= i < |data.value| => CutSummary(data.value[i]))
  }

  /** A session closed by the register shows the counted and expected
      cash it was closed with, and a difference that is exactly their gap. */
  lemma ClosedSessionCut(s: SessionRow, user: string, closing: int, expected: int, notes: Option<string>, now: int,
                         opener: Option<string>)
    ensures var c := CutSummary(CutRow(ClosedRow(s, user, closing, expected, notes, now), opener));
      c.closingAmount == closing && c.expected == expected && c.difference == c.closingAmount - c.expected
      && c.closedAt == Some(now)
  {
  }
}
