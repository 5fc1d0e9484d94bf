/** The dashboard figures (`useDashboardStats`): the number of non-cancelled
    orders since the period start, their revenue, and the five most sold
    products. The period start comes from the clock and is left to the
    backend query; the fetched rows are inputs, None when a fetch fails. */
module Dashboard {
  import opened Wrappers
  import opened Aggregate
  import opened Sorting
  import opened Reports

  /** An order as the dashboard fetches it: `total` is None when the column
      does not hold a number. */
  datatype DashOrder = DashOrder(id: string, total: Option<int>)

  /** An order item with the name of its product. */
  datatype DashItem = DashItem(quantity: int, productName: Option<string>)

  datatype PopularProduct = PopularProduct(name: string, totalQty: int)

  /** `orders.reduce((sum, o) => sum + (typeof o.total === 'number' ? o.total : 0), 0)` */
  function Revenue(orders: seq<DashOrder>): int {
    if |orders| == 0 then 0 else Revenue(orders[..|orders| - 1]) + orders[|orders| - 1].total.GetOr(0)
  }

  /** The revenue of two batches of orders is the sum of theirs. */
  lemma {:induction false} RevenueAppend(a: seq<DashOrder>, b: seq<DashOrder>)
    ensures Revenue(a + b) == Revenue(a) + Revenue(b)
    decreases |b|
  {
    if |b| == 0 {
      assert a + b == a;
    } else {
      assert (a + b)[..|a + b| - 1] == a + b[..|b| - 1];
      RevenueAppend(a, b[..|b| - 1]);
    }
  }

  /** Orders whose total is not a number add nothing. */
  lemma {:induction false} RevenueIgnoresMissing(orders: seq<DashOrder>)
    requires forall j | 0 <= j < |orders| :: orders[j].total.None?
    ensures Revenue(orders) == 0
  {
    if |orders| > 0 {
      RevenueIgnoresMissing(orders[..|orders| - 1]);
    }
  }

  /** With every total a non-negative number, the revenue is at least any
      one order's total. */
  lemma {:induction false} RevenueCoversEachOrder(orders: seq<DashOrder>, k: nat)
    requires k < |orders|
    requires forall j | 0 <= j < |orders| :: orders[j].total.Some? && orders[j].total.value >= 0
    ensures Revenue(orders) >= orders[k].total.value
  {
    var init := orders[..|orders| - 1];
    if k < |orders| - 1 {
      RevenueCoversEachOrder(init, k);
    } else if |init| > 0 {
      RevenueCoversEachOrder(init, |init| - 1);
    }
  }

  function PopularTallies(items: seq<DashItem>): (r: seq<Tally<string>>)
    ensures |r| == |items|
    ensures forall j | 0 <= j < |items| :: r[j] == Tally(ProductName(items[j].productName), items[j].quantity, 0)
  {
    if |items| == 0 then []
    else
      var last := items[|items| - 1];
      PopularTallies(items[..|items| - 1]) + [Tally(ProductName(last.productName), last.quantity, 0)]
  }

  function PopularOf(gs: seq<Group<string>>): (r: seq<PopularProduct>)
    ensures |r| == |gs|
    ensures forall i | 0 <= i < |gs| :: r[i] == PopularProduct(gs[i].key, gs[i].x)
  {
    if |gs| == 0 then [] else PopularOf(gs[..|gs| - 1]) + [PopularProduct(gs[|gs| - 1].key, gs[|gs| - 1].x)]
  }

  /** `(a, b) => b.totalQty - a.totalQty` */
  function ByQty(p: PopularProduct): int {
    -p.totalQty
  }

  function Popular(items: seq<DashItem>): seq<PopularProduct> {
    Take(SortBy(PopularOf(GroupAll(PopularTallies(items))), ByQty), 5)
  }

  /** Exactly 5 products are shown, or all of them when there are no
      more. */
  lemma PopularCount(items: seq<DashItem>)
    ensures var all := PopularOf(GroupAll(PopularTallies(items)));
      && |Popular(items)| == (if |all| <= 5 then |all| else 5)
      && (|all| <= 5 ==> multiset(Popular(items)) == multiset(all))
  {
    TopOf(PopularOf(GroupAll(PopularTallies(items))), 5, ByQty);
  }

  /** At most five products, by descending quantity, taken from the front
      of the sorted list: none left out sold more than one kept (how many
      are kept is PopularCount). */
  lemma PopularRanked(items: seq<DashItem>)
    ensures var all := PopularOf(GroupAll(PopularTallies(items)));
      var sorted := SortBy(all, ByQty);
      var r := Popular(items);
      && |r| <= 5
      && (forall i, j | 0 <= i < j < |r| :: r[i].totalQty >= r[j].totalQty)
      && multiset(r) <= multiset(all)
      && (forall i, j | 0 <= i < |r| <= j < |sorted| :: r[i].totalQty >= sorted[j].totalQty)
  {
    var all := PopularOf(GroupAll(PopularTallies(items)));
    var sorted := SortBy(all, ByQty);
    TakeSorted(sorted, 5, ByQty);
    var r := Take(sorted, 5);
    forall i, j | 0 <= i < j < |r|
      ensures r[i].totalQty >= r[j].totalQty
    {
      assert ByQty(r[i]) <= ByQty(r[j]);
    }
    forall i, j | 0 <= i < |r| <= j < |sorted|
      ensures r[i].totalQty >= sorted[j].totalQty
    {
      assert r[i] == sorted[i];
      assert ByQty(sorted[i]) <= ByQty(sorted[j]);
    }
  }

  /** Each product carries the total quantity of the items of its name, a
      missing product counting as "Desconocido"; no name appears twice. */
  lemma PopularTotals(items: seq<DashItem>)
    ensures var all := PopularOf(GroupAll(PopularTallies(items)));
      && (forall i, j | 0 <= i < j < |all| :: all[i].name != all[j].name)
      && (forall i | 0 <= i < |all| :: all[i].totalQty == SumX(PopularTallies(items), all[i].name))
  {
    GroupAllSums(PopularTallies(items));
    GroupAllDistinct(PopularTallies(items));
  }

  /** The hook's state. */
  class DashboardStats {
    var ordersCount: int
    var revenue: int
    var popularProducts: seq<PopularProduct>
    var loading: bool

    constructor ()
      ensures ordersCount == 0 && revenue == 0 && popularProducts == [] && loading
    {
      ordersCount, revenue, popularProducts, loading := 0, 0, [], true;
    }

    /** `fetchStats`: a failed order fetch only ends the loading; otherwise
        the count and revenue are set, and the popular products are
        emptied when there are no orders, kept when the items cannot be
        fetched, and recomputed from the items otherwise. */
    method FetchStats(orders: Option<seq<DashOrder>>, items: Option<seq<DashItem>>)
      modifies this
      ensures !loading
      ensures orders.None? ==>
        ordersCount == old(ordersCount) && revenue == old(revenue) && popularProducts == old(popularProducts)
      ensures orders.Some? ==> ordersCount == |orders.value| && revenue == Revenue(orders.value)
      ensures orders.Some? && |orders.value| == 0 ==> popularProducts == []
      ensures orders.Some? && |orders.value| > 0 && items.None? ==> popularProducts == old(popularProducts)
      ensures orders.Some? && |orders.value| > 0 && items.Some? ==> popularProducts == Popular(items.value)
    {
      loading := true;
      if orders.None? {
        loading := false;
        return;
      }
      ordersCount := |orders.value|;
      revenue := Revenue(orders.value);
      if |orders.value| > 0 {
        if items.Some? {
          var productMap := Accumulate(PopularTallies(items.value));
          popularProducts := Take(SortBy(PopularOf(productMap), ByQty), 5);
        }
      } else {
        popularProducts := [];
      }
      loading := false;
    }
  }
}
