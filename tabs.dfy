/** Open tabs (`useOpenTabs`): the unpaid, non-cancelled orders grouped into
    bills, one per table for dine-in orders and one per order otherwise, with
    their item lines merged on (product name, unit price); and the settlement
    of a tab, which marks its orders paid, frees its table and records the
    tip and sale movements of the cash register. */
module Tabs {
  import opened Wrappers
  import opened Text
  import opened Store
  import Ledger
  import opened Seqs

  /** An item of the tabs query, with the joined product name. */
  datatype TabItemRow = TabItemRow(
    quantity: int,
    unitPrice: int,
    subtotal: int,
    status: ItemStatus,
    productName: Option<string>)

  /** An order of the tabs query (unpaid, not cancelled, ascending by
      creation), with the joined table name and its items. */
  datatype TabOrderRow = TabOrderRow(
    id: string,
    tableId: Option<string>,
    orderType: Option<OrderType>,
    notes: Option<string>,
    subtotal: int,
    tax: int,
    total: int,
    createdAt: int,
    tableName: Option<string>,
    items: seq<TabItemRow>)

  /** A merged item line of a tab. */
  datatype TabLine = TabLine(productName: string, quantity: int, unitPrice: int, subtotal: int)

  datatype Tab = Tab(
    mesa: string,
    tableId: Option<string>,
    orderType: OrderType,
    orderIds: seq<string>,
    items: seq<TabLine>,
    subtotal: int,
    tax: int,
    total: int,
    oldestOrder: int)

  /** `order_type ?? 'dine_in'` */
  function OrderTypeOf(o: TabOrderRow): OrderType {
    o.orderType.GetOr(DineIn)
  }

  /** A takeout order, or one without a table, is a tab of its own. */
  predicate OwnTab(o: TabOrderRow) {
    OrderTypeOf(o) == Takeout || !Truthy(o.tableId)
  }

  const TakeoutPrefix: string := "takeout-"

  /** The grouping key: `takeout-<id>` for an order of its own, the table
      id otherwise. */
  function Key(o: TabOrderRow): string {
    if OwnTab(o) then TakeoutPrefix + o.id else o.tableId.value
  }

  /** The display name: for an order of its own its notes, else
      "Para Llevar #" and the short id; for a table its name, else the
      notes, else "Mesa". */
  function Label(o: TabOrderRow): (r: string)
    ensures r != ""
    ensures OwnTab(o) && Truthy(o.notes) ==> r == o.notes.value
    ensures OwnTab(o) && !Truthy(o.notes) ==> r == "Para Llevar #" + ShortId(o.id)
    ensures !OwnTab(o) && Truthy(o.tableName) ==> r == o.tableName.value
    ensures !OwnTab(o) && !Truthy(o.tableName) && Truthy(o.notes) ==> r == o.notes.value
    ensures !OwnTab(o) && !Truthy(o.tableName) && !Truthy(o.notes) ==> r == "Mesa"
  {
    if OwnTab(o) then
      (if Truthy(o.notes) then o.notes.value else "Para Llevar #" + ShortId(o.id))
    else if Truthy(o.tableName) then o.tableName.value
    else if Truthy(o.notes) then o.notes.value
    else "Mesa"
  }

  /** `product?.name ?? 'Producto'` */
  function ItemName(i: TabItemRow): string {
    i.productName.GetOr("Producto")
  }

  predicate LineMatches(l: TabLine, name: string, unitPrice: int) {
    l.productName == name && l.unitPrice == unitPrice
  }

  /** `items.find(...)`: the first line with this name and unit price. */
  function FindLine(lines: seq<TabLine>, name: string, unitPrice: int): (r: Option<nat>)
    ensures r.None? <==> forall j | 0 <= j < |lines| :: !LineMatches(lines[j], name, unitPrice)
    ensures r.Some? ==> r.value < |lines| && LineMatches(lines[r.value], name, unitPrice)
    ensures r.Some? ==> forall j | 0 <= j < r.value :: !LineMatches(lines[j], name, unitPrice)
  {
    if |lines| == 0 then None
    else if LineMatches(lines[0], name, unitPrice) then Some(0)
    else
      var r := FindLine(lines[1..], name, unitPrice);
      if r.Some? then Some(r.value + 1) else None
  }

  /** One item folded into a tab's lines: a cancelled item is skipped, a
      matching line grows by the item's quantity and subtotal, and otherwise
      a new line is appended. */
  function MergeItem(lines: seq<TabLine>, item: TabItemRow): seq<TabLine>
  {
    if item.status == ItemCancelled then lines
    else
      var name := ItemName(item);
      match FindLine(lines, name, item.unitPrice)
      case Some(j) =>
        lines[j := lines[j].(quantity := lines[j].quantity + item.quantity, subtotal := lines[j].subtotal + item.subtotal)]
      case None => lines + [TabLine(name, item.quantity, item.unitPrice, item.subtotal)]
  }

  function MergeItems(lines: seq<TabLine>, items: seq<TabItemRow>): seq<TabLine>
  {
    if |items| == 0 then lines else MergeItem(MergeItems(lines, items[..|items| - 1]), items[|items| - 1])
  }

  /** The tab a group's first order opens, before that order is added. */
  function NewTab(o: TabOrderRow): Tab {
    Tab(Label(o), o.tableId, OrderTypeOf(o), [], [], 0, 0, 0, o.createdAt)
  }

  /** One order added to a tab: its id, its stored amounts and its items. */
  function AddOrder(t: Tab, o: TabOrderRow): Tab {
    t.(orderIds := t.orderIds + [o.id],
       subtotal := t.subtotal + o.subtotal,
       tax := t.tax + o.tax,
       total := t.total + o.total,
       items := MergeItems(t.items, o.items))
  }

  /** The `Map` the loop builds: its keys in first-insertion order, and the
      tab of each key. */
  datatype Grouping = Grouping(keys: seq<string>, tabs: map<string, Tab>)

  predicate Distinct(xs: seq<string>) {
    forall i, j | 0 <= i < j < |xs| :: xs[i] != xs[j]
  }

  /** One pass of the loop: the order joins the tab of its key, which it
      opens when the key is new. */
  function Step(g: Grouping, o: TabOrderRow): Grouping
  {
    var k := Key(o);
    var base := if k in g.tabs then g.tabs[k] else NewTab(o);
    Grouping(if k in g.tabs then g.keys else g.keys + [k], g.tabs[k := AddOrder(base, o)])
  }

  function Group(orders: seq<TabOrderRow>): (g: Grouping)
    ensures Distinct(g.keys)
    ensures forall k :: k in g.tabs <==> k in g.keys
    ensures forall i | 0 <= i < |orders| :: Key(orders[i]) in g.tabs
  {
    if |orders| == 0 then Grouping([], map[])
    else
      var n := |orders| - 1;
      assert forall i | 0 <= i < n :: orders[..n][i] == orders[i];
      Step(Group(orders[..n]), orders[n])
  }

  /** The keys are in first-seen order: the keys met in the first m orders
      come first, in the same order, after all the orders. */
  lemma {:induction false} GroupKeysFirstSeen(orders: seq<TabOrderRow>, m: nat)
    requires m <= |orders|
    ensures |Group(orders[..m]).keys| <= |Group(orders).keys|
    ensures Group(orders).keys[..|Group(orders[..m]).keys|] == Group(orders[..m]).keys
  {
    if m < |orders| {
      var n := |orders| - 1;
      assert orders[..n][..m] == orders[..m];
      GroupKeysFirstSeen(orders[..n], m);
      GroupSnocKeys(orders);
      PrefixOfPrefix(Group(orders[..m]).keys, Group(orders[..n]).keys, Group(orders).keys);
    } else {
      assert orders[..m] == orders;
    }
  }

  /** One more order keeps the keys seen so far at the front. */
  lemma GroupSnocKeys(orders: seq<TabOrderRow>)
    requires |orders| > 0
    ensures var prev := Group(orders[..|orders| - 1]).keys;
      |prev| <= |Group(orders).keys| && Group(orders).keys[..|prev|] == prev
  {
  }

  lemma PrefixOfPrefix<T>(a: seq<T>, b: seq<T>, c: seq<T>)
    requires |a| <= |b| && b[..|a|] == a
    requires |b| <= |c| && c[..|b|] == b
    ensures |a| <= |c| && c[..|a|] == a
  {
    assert c[..|a|] == c[..|b|][..|a|];
  }

  /** The tabs in the order their keys were first seen (`Array.from(tabMap.values())`). */
  function TabsOf(orders: seq<TabOrderRow>): (tabs: seq<Tab>)
    ensures |tabs| == |Group(orders).keys|
  {
    var g := Group(orders);
    seq(|g.keys|, i requires 0 <= i < |g.keys| => g.tabs[g.keys[i]])
  }

  /** The inner loop of `fetchTabs`: one order's items folded into its
      tab's lines. */
  method MergeOrderItems(lines0: seq<TabLine>, items: seq<TabItemRow>) returns (lines: seq<TabLine>)
    ensures lines == MergeItems(lines0, items)
  {
    lines := lines0;
    for j := 0 to |items|
      invariant lines == MergeItems(lines0, items[..j])
    {
      assert items[..j + 1][..j] == items[..j];
      var item := items[j];
      if item.status != ItemCancelled {
        var name := ItemName(item);
        var found := FindLine(lines, name, item.unitPrice);
        if found.Some? {
          var l := lines[found.value];
          lines := lines[found.value := l.(quantity := l.quantity + item.quantity, subtotal := l.subtotal + item.subtotal)];
        } else {
          lines := lines + [TabLine(name, item.quantity, item.unitPrice, item.subtotal)];
        }
      }
    }
    assert items[..|items|] == items;
  }

  /** The body of the loop of `fetchTabs` for one order. */
  method AddToTabMap(keys0: seq<string>, tabMap0: map<string, Tab>, order: TabOrderRow)
    returns (keys: seq<string>, tabMap: map<string, Tab>)
    ensures Grouping(keys, tabMap) == Step(Grouping(keys0, tabMap0), order)
  {
    var orderType := order.orderType.GetOr(DineIn);
    var key: string;
    var mesa: string;
    if orderType == Takeout || !Truthy(order.tableId) {
      key := TakeoutPrefix + order.id;
      var shortId := ShortId(order.id);
      mesa := if Truthy(order.notes) then order.notes.value else "Para Llevar #" + shortId;
    } else {
      key := order.tableId.value;
      mesa := if Truthy(order.tableName) then order.tableName.value
              else if Truthy(order.notes) then order.notes.value else "Mesa";
    }
    assert key == Key(order) && mesa == Label(order);
    var existing := if key in tabMap0 then tabMap0[key]
                    else Tab(mesa, order.tableId, orderType, [], [], 0, 0, 0, order.createdAt);
    ghost var base := existing;
    existing := existing.(orderIds := existing.orderIds + [order.id],
                          subtotal := existing.subtotal + order.subtotal,
                          tax := existing.tax + order.tax,
                          total := existing.total + order.total);
    var lines := MergeOrderItems(existing.items, order.items);
    existing := existing.(items := lines);
    assert existing == AddOrder(base, order);
    keys := if key in tabMap0 then keys0 else keys0 + [key];
    tabMap := tabMap0[key := existing];
  }

  /** `fetchTabs`, from the fetched rows to the tabs. */
  method BuildTabs(orders: seq<TabOrderRow>) returns (tabs: seq<Tab>)
    ensures tabs == TabsOf(orders)
  {
    var keys: seq<string> := [];
    var tabMap: map<string, Tab> := map[];
    for i := 0 to |orders|
      invariant Grouping(keys, tabMap) == Group(orders[..i])
    {
      assert orders[..i + 1][..i] == orders[..i];
      keys, tabMap := AddToTabMap(keys, tabMap, orders[i]);
    }
    assert orders[..|orders|] == orders;
    tabs := seq(|keys|, i requires 0 <= i < |keys| => tabMap[keys[i]]);
  }

  // ---------------------------------------------------------------------
  // The tab of one key, in closed form

  /** The orders of one key, in input order. */
  function OrdersWithKey(orders: seq<TabOrderRow>, k: string): (r: seq<TabOrderRow>)
    ensures |r| <= |orders|
    ensures forall j | 0 <= j < |r| :: Key(r[j]) == k
    ensures forall i | 0 <= i < |orders| && Key(orders[i]) == k :: orders[i] in r
  {
    if |orders| == 0 then []
    else
      var n := |orders| - 1;
      var prev := OrdersWithKey(orders[..n], k);
      assert forall i | 0 <= i < n :: orders[..n][i] == orders[i];
      if Key(orders[n]) == k then prev + [orders[n]] else prev
  }

  /** The indices of the orders of one key, ascending. */
  function KeyPositions(orders: seq<TabOrderRow>, k: string): (pos: seq<nat>)
    ensures forall t | 0 <= t < |pos| :: pos[t] < |orders| && Key(orders[pos[t]]) == k
    ensures forall s, t | 0 <= s < t < |pos| :: pos[s] < pos[t]
    ensures forall i | 0 <= i < |orders| :: Key(orders[i]) == k <==> i in pos
  {
    if |orders| == 0 then []
    else
      var n := |orders| - 1;
      var prev := KeyPositions(orders[..n], k);
      assert forall i | 0 <= i < n :: orders[..n][i] == orders[i];
      if Key(orders[n]) == k then prev + [n] else prev
  }

  /** The orders of one key are exactly the orders at the key's indices,
      in input order. */
  lemma {:induction false} OrdersWithKeyInOrder(orders: seq<TabOrderRow>, k: string)
    ensures PicksAt(OrdersWithKey(orders, k), orders, KeyPositions(orders, k))
  {
    if |orders| > 0 {
      var n := |orders| - 1;
      OrdersWithKeyInOrder(orders[..n], k);
      assert forall i | 0 <= i < n :: orders[..n][i] == orders[i];
    }
  }

  function Ids(os: seq<TabOrderRow>): (ids: seq<string>)
    ensures |ids| == |os| && forall j | 0 <= j < |os| :: ids[j] == os[j].id
  {
    seq(|os|, j requires 0 <= j < |os| => os[j].id)
  }

  function Sum(os: seq<TabOrderRow>, f: TabOrderRow -> int): int
  {
    if |os| == 0 then 0 else Sum(os[..|os| - 1], f) + f(os[|os| - 1])
  }

  /** All the items of the orders, merged in order from no lines. */
  function MergeAll(os: seq<TabOrderRow>): seq<TabLine>
  {
    if |os| == 0 then [] else MergeItems(MergeAll(os[..|os| - 1]), os[|os| - 1].items)
  }

  /** The tab of a non-empty group of orders: the label, table, type and
      oldest time come from the first order; the ids are all the orders' in
      order; the amounts are the sums of the stored amounts. */
  function TabOf(os: seq<TabOrderRow>): (t: Tab)
    requires |os| > 0
    ensures t.mesa == Label(os[0]) && t.tableId == os[0].tableId && t.orderType == OrderTypeOf(os[0])
    ensures t.oldestOrder == os[0].createdAt
    ensures t.orderIds == Ids(os)
    ensures t.subtotal == Sum(os, (o: TabOrderRow) => o.subtotal)
    ensures t.tax == Sum(os, (o: TabOrderRow) => o.tax)
    ensures t.total == Sum(os, (o: TabOrderRow) => o.total)
    ensures t.items == MergeAll(os)
  {
    var n := |os| - 1;
    if n == 0 then
      assert os[..0] == [];
      AddOrder(NewTab(os[0]), os[0])
    else
      var prev := TabOf(os[..n]);
      assert os[..n][0] == os[0];
      AddOrder(prev, os[n])
  }

  /** One more order adds its amounts and items to the tab of the orders
      before it, or starts a tab of its own. */
  lemma TabOfSnoc(os: seq<TabOrderRow>, o: TabOrderRow)
    ensures TabOf(os + [o]) == AddOrder(if |os| == 0 then NewTab(o) else TabOf(os), o)
  {
    assert (os + [o])[..|os|] == os;
  }

  /** No order has the key: no orders are grouped under it. */
  lemma {:induction false} NoKeyNoOrders(orders: seq<TabOrderRow>, k: string)
    requires forall i | 0 <= i < |orders| :: Key(orders[i]) != k
    ensures OrdersWithKey(orders, k) == []
  {
    if |orders| > 0 {
      var n := |orders| - 1;
      assert forall i | 0 <= i < n :: orders[..n][i] == orders[i];
      NoKeyNoOrders(orders[..n], k);
    }
  }

  /** Every tab the loop builds is the closed-form tab of the orders
      sharing its key. */
  lemma {:induction false} GroupIsTabOf(orders: seq<TabOrderRow>, k: string)
    requires k in Group(orders).tabs
    ensures |OrdersWithKey(orders, k)| > 0
    ensures Group(orders).tabs[k] == TabOf(OrdersWithKey(orders, k))
  {
    var n := |orders| - 1;
    var prev := Group(orders[..n]);
    var o := orders[n];
    var os := OrdersWithKey(orders[..n], k);
    if Key(o) == k {
      if k in prev.tabs {
        GroupIsTabOf(orders[..n], k);
        TabOfSnoc(os, o);
      } else {
        assert forall i | 0 <= i < n :: orders[..n][i] == orders[i];
        NoKeyNoOrders(orders[..n], k);
        TabOfSnoc([], o);
      }
    } else {
      GroupIsTabOf(orders[..n], k);
    }
  }

  /** The i-th tab built is the closed-form tab of its key's orders. */
  lemma TabsOfIsTabOf(orders: seq<TabOrderRow>, i: nat)
    requires i < |TabsOf(orders)|
    ensures var k := Group(orders).keys[i];
      |OrdersWithKey(orders, k)| > 0 && TabsOf(orders)[i] == TabOf(OrdersWithKey(orders, k))
  {
    GroupIsTabOf(orders, Group(orders).keys[i]);
  }

  /** Every order's id is among the ids of the tab of its key. */
  lemma {:induction false} IdInTab(orders: seq<TabOrderRow>, i: nat)
    requires i < |orders|
    ensures Key(orders[i]) in Group(orders).tabs
    ensures orders[i].id in Group(orders).tabs[Key(orders[i])].orderIds
  {
    var n := |orders| - 1;
    assert Group(orders) == Step(Group(orders[..n]), orders[n]);
    if i < n {
      assert orders[..n][i] == orders[i];
      IdInTab(orders[..n], i);
    }
  }

  /** Dine-in orders at the same table share one tab, and both ids are in it. */
  lemma SameTableSameTab(orders: seq<TabOrderRow>, a: nat, b: nat)
    requires a < |orders| && b < |orders|
    requires !OwnTab(orders[a]) && !OwnTab(orders[b]) && orders[a].tableId == orders[b].tableId
    ensures Key(orders[a]) == Key(orders[b]) && Key(orders[a]) in Group(orders).tabs
    ensures var t := Group(orders).tabs[Key(orders[a])];
      orders[a].id in t.orderIds && orders[b].id in t.orderIds
  {
    IdInTab(orders, a);
    IdInTab(orders, b);
  }

  predicate NoTakeoutLikeTable(orders: seq<TabOrderRow>) {
    forall i | 0 <= i < |orders| && !OwnTab(orders[i]) ::
      |orders[i].tableId.value| < |TakeoutPrefix| || orders[i].tableId.value[..|TakeoutPrefix|] != TakeoutPrefix
  }

  lemma TakeoutKeyInjective(x: string, y: string)
    requires TakeoutPrefix + x == TakeoutPrefix + y
    ensures x == y
  {
    assert (TakeoutPrefix + x)[|TakeoutPrefix|..] == x;
    assert (TakeoutPrefix + y)[|TakeoutPrefix|..] == y;
  }

  /** Two different orders, the first of them of its own, have different
      keys when no table id looks like a takeout key. */
  lemma OwnKeyDiffers(x: TabOrderRow, y: TabOrderRow)
    requires OwnTab(x) && x.id != y.id
    requires !OwnTab(y) ==> |y.tableId.value| < |TakeoutPrefix| || y.tableId.value[..|TakeoutPrefix|] != TakeoutPrefix
    ensures Key(x) != Key(y)
  {
    if OwnTab(y) {
      if Key(x) == Key(y) {
        TakeoutKeyInjective(x.id, y.id);
      }
    } else {
      assert Key(x)[..|TakeoutPrefix|] == TakeoutPrefix;
    }
  }

  /** An order of its own (takeout or without a table) is alone in its tab,
      given distinct order ids and no table id that looks like a takeout key. */
  lemma OwnTabIsAlone(orders: seq<TabOrderRow>, i: nat)
    requires i < |orders| && OwnTab(orders[i])
    requires forall a, b | 0 <= a < b < |orders| :: orders[a].id != orders[b].id
    requires NoTakeoutLikeTable(orders)
    ensures OrdersWithKey(orders, Key(orders[i])) == [orders[i]]
  {
    forall a | 0 <= a < |orders| && a != i
      ensures Key(orders[a]) != Key(orders[i])
    {
      assert orders[a].id != orders[i].id;
      OwnKeyDiffers(orders[i], orders[a]);
    }
    OnlyOneWithKey(orders, i, Key(orders[i]));
  }

  lemma {:induction false} OnlyOneWithKey(orders: seq<TabOrderRow>, i: nat, k: string)
    requires i < |orders| && Key(orders[i]) == k
    requires forall a | 0 <= a < |orders| && a != i :: Key(orders[a]) != k
    ensures OrdersWithKey(orders, k) == [orders[i]]
  {
    var n := |orders| - 1;
    assert forall j | 0 <= j < n :: orders[..n][j] == orders[j];
    if i == n {
      NoKeyNoOrders(orders[..n], k);
    } else {
      OnlyOneWithKey(orders[..n], i, k);
    }
  }

  predicate SortedByCreation(os: seq<TabOrderRow>) {
    forall i, j | 0 <= i < j < |os| :: os[i].createdAt <= os[j].createdAt
  }

  /** The first order grouped under a key is the first order of the input
      with that key. */
  lemma {:induction false} FirstWithKey(orders: seq<TabOrderRow>, k: string) returns (i0: nat)
    requires |OrdersWithKey(orders, k)| > 0
    ensures i0 < |orders| && orders[i0] == OrdersWithKey(orders, k)[0]
    ensures forall i | 0 <= i < i0 :: Key(orders[i]) != k
  {
    var n := |orders| - 1;
    var prev := OrdersWithKey(orders[..n], k);
    assert forall j | 0 <= j < n :: orders[..n][j] == orders[j];
    if |prev| > 0 {
      i0 := FirstWithKey(orders[..n], k);
    } else {
      i0 := n;
      assert prev == [];
    }
  }

  /** With the rows ascending by creation, a tab's `oldestOrder` is the
      earliest creation time among its orders. */
  lemma OldestIsEarliest(orders: seq<TabOrderRow>, k: string)
    requires SortedByCreation(orders) && k in Group(orders).tabs
    ensures forall i | 0 <= i < |orders| && Key(orders[i]) == k ::
      Group(orders).tabs[k].oldestOrder <= orders[i].createdAt
  {
    GroupIsTabOf(orders, k);
    var i0 := FirstWithKey(orders, k);
    assert Group(orders).tabs[k].oldestOrder == orders[i0].createdAt;
  }

  // ---------------------------------------------------------------------
  // Item lines

  /** No two lines share a (product name, unit price) pair. */
  predicate NoDupLines(lines: seq<TabLine>) {
    forall i, j | 0 <= i < j < |lines| ::
      !LineMatches(lines[j], lines[i].productName, lines[i].unitPrice)
  }

  function LinesQuantity(lines: seq<TabLine>): int
  {
    if |lines| == 0 then 0 else LinesQuantity(lines[..|lines| - 1]) + lines[|lines| - 1].quantity
  }

  function LinesSubtotal(lines: seq<TabLine>): int
  {
    if |lines| == 0 then 0 else LinesSubtotal(lines[..|lines| - 1]) + lines[|lines| - 1].subtotal
  }

  /** The quantity of the non-cancelled items. */
  function ActiveQuantity(items: seq<TabItemRow>): int
  {
    if |items| == 0 then 0
    else
      var last := items[|items| - 1];
      ActiveQuantity(items[..|items| - 1]) + (if last.status == ItemCancelled then 0 else last.quantity)
  }

  function ActiveSubtotal(items: seq<TabItemRow>): int
  {
    if |items| == 0 then 0
    else
      var last := items[|items| - 1];
      ActiveSubtotal(items[..|items| - 1]) + (if last.status == ItemCancelled then 0 else last.subtotal)
  }

  lemma {:induction false} LinesUpdate(lines: seq<TabLine>, j: nat, l: TabLine)
    requires j < |lines|
    ensures LinesQuantity(lines[j := l]) == LinesQuantity(lines) - lines[j].quantity + l.quantity
    ensures LinesSubtotal(lines[j := l]) == LinesSubtotal(lines) - lines[j].subtotal + l.subtotal
  {
    var n := |lines| - 1;
    if j < n {
      assert lines[j := l][..n] == lines[..n][j := l];
      LinesUpdate(lines[..n], j, l);
    } else {
      assert lines[j := l][..n] == lines[..n];
    }
  }

  lemma LinesAppend(lines: seq<TabLine>, l: TabLine)
    ensures LinesQuantity(lines + [l]) == LinesQuantity(lines) + l.quantity
    ensures LinesSubtotal(lines + [l]) == LinesSubtotal(lines) + l.subtotal
  {
    assert (lines + [l])[..|lines|] == lines;
  }

  /** Merging one item keeps the lines free of duplicates and adds the
      item's quantity and subtotal when it is not cancelled. */
  lemma MergeItemFacts(lines: seq<TabLine>, item: TabItemRow)
    requires NoDupLines(lines)
    ensures NoDupLines(MergeItem(lines, item))
    ensures LinesQuantity(MergeItem(lines, item))
      == LinesQuantity(lines) + (if item.status == ItemCancelled then 0 else item.quantity)
    ensures LinesSubtotal(MergeItem(lines, item))
      == LinesSubtotal(lines) + (if item.status == ItemCancelled then 0 else item.subtotal)
  {
    if item.status != ItemCancelled {
      var name := ItemName(item);
      var f := FindLine(lines, name, item.unitPrice);
      if f.Some? {
        var j := f.value;
        var l := lines[j].(quantity := lines[j].quantity + item.quantity, subtotal := lines[j].subtotal + item.subtotal);
        assert MergeItem(lines, item) == lines[j := l];
        LinesUpdate(lines, j, l);
      } else {
        var l := TabLine(name, item.quantity, item.unitPrice, item.subtotal);
        assert MergeItem(lines, item) == lines + [l];
        LinesAppend(lines, l);
      }
    }
  }

  /** Merging a whole order's items: no duplicate lines, and quantity and
      subtotal are conserved, cancelled items contributing nothing. */
  lemma {:induction false} MergeItemsFacts(lines: seq<TabLine>, items: seq<TabItemRow>)
    requires NoDupLines(lines)
    ensures NoDupLines(MergeItems(lines, items))
    ensures LinesQuantity(MergeItems(lines, items)) == LinesQuantity(lines) + ActiveQuantity(items)
    ensures LinesSubtotal(MergeItems(lines, items)) == LinesSubtotal(lines) + ActiveSubtotal(items)
  {
    if |items| > 0 {
      var n := |items| - 1;
      MergeItemsFacts(lines, items[..n]);
      MergeItemFacts(MergeItems(lines, items[..n]), items[n]);
    }
  }

  /** The active quantity of all the orders' items. */
  function OrdersActiveQuantity(os: seq<TabOrderRow>): int
  {
    if |os| == 0 then 0 else OrdersActiveQuantity(os[..|os| - 1]) + ActiveQuantity(os[|os| - 1].items)
  }

  /** The active subtotal of all the orders' items. */
  function OrdersActiveSubtotal(os: seq<TabOrderRow>): int
  {
    if |os| == 0 then 0 else OrdersActiveSubtotal(os[..|os| - 1]) + ActiveSubtotal(os[|os| - 1].items)
  }

  /** The lines of a tab hold no duplicate (name, price) pair and carry
      exactly the quantity and the subtotal of its orders' non-cancelled
      items. */
  lemma {:induction false} MergeAllFacts(os: seq<TabOrderRow>)
    ensures NoDupLines(MergeAll(os))
    ensures LinesQuantity(MergeAll(os)) == OrdersActiveQuantity(os)
    ensures LinesSubtotal(MergeAll(os)) == OrdersActiveSubtotal(os)
  {
    if |os| > 0 {
      MergeAllFacts(os[..|os| - 1]);
      MergeItemsFacts(MergeAll(os[..|os| - 1]), os[|os| - 1].items);
    }
  }

  // ---------------------------------------------------------------------
  // One line per (product name, unit price) pair

  /** The item counts towards the line of this pair: it is not cancelled
      and carries that product name and unit price. */
  predicate Hits(i: TabItemRow, name: string, price: int) {
    i.status != ItemCancelled && ItemName(i) == name && i.unitPrice == price
  }

  predicate HitsAny(items: seq<TabItemRow>, name: string, price: int) {
    exists k | 0 <= k < |items| :: Hits(items[k], name, price)
  }

  /** Some item of some order counts towards the pair. */
  predicate OrdersHit(os: seq<TabOrderRow>, name: string, price: int) {
    exists i | 0 <= i < |os| :: HitsAny(os[i].items, name, price)
  }

  /** The quantity of the items that count towards a pair. */
  function PairQuantity(items: seq<TabItemRow>, name: string, price: int): int
  {
    if |items| == 0 then 0
    else
      var last := items[|items| - 1];
      PairQuantity(items[..|items| - 1], name, price) + (if Hits(last, name, price) then last.quantity else 0)
  }

  /** The subtotal of the items that count towards a pair. */
  function PairSubtotal(items: seq<TabItemRow>, name: string, price: int): int
  {
    if |items| == 0 then 0
    else
      var last := items[|items| - 1];
      PairSubtotal(items[..|items| - 1], name, price) + (if Hits(last, name, price) then last.subtotal else 0)
  }

  function OrdersPairQuantity(os: seq<TabOrderRow>, name: string, price: int): int
  {
    if |os| == 0 then 0
    else OrdersPairQuantity(os[..|os| - 1], name, price) + PairQuantity(os[|os| - 1].items, name, price)
  }

  function OrdersPairSubtotal(os: seq<TabOrderRow>, name: string, price: int): int
  {
    if |os| == 0 then 0
    else OrdersPairSubtotal(os[..|os| - 1], name, price) + PairSubtotal(os[|os| - 1].items, name, price)
  }

  /** The quantity on the line of a pair, 0 when there is no such line. */
  function LineQuantity(lines: seq<TabLine>, name: string, price: int): int
  {
    match FindLine(lines, name, price)
    case Some(j) => lines[j].quantity
    case None => 0
  }

  /** The subtotal on the line of a pair, 0 when there is no such line. */
  function LineSubtotal(lines: seq<TabLine>, name: string, price: int): int
  {
    match FindLine(lines, name, price)
    case Some(j) => lines[j].subtotal
    case None => 0
  }

  /** The first matching line is the one `find` returns. */
  lemma FindLineFirst(lines: seq<TabLine>, j: nat, name: string, price: int)
    requires j < |lines| && LineMatches(lines[j], name, price)
    requires forall k | 0 <= k < j :: !LineMatches(lines[k], name, price)
    ensures FindLine(lines, name, price) == Some(j)
  {
  }

  /** `find` only looks at which lines match. */
  lemma FindLineAlike(a: seq<TabLine>, b: seq<TabLine>, name: string, price: int)
    requires |a| == |b|
    requires forall k | 0 <= k < |a| :: LineMatches(a[k], name, price) <==> LineMatches(b[k], name, price)
    ensures FindLine(a, name, price) == FindLine(b, name, price)
  {
  }

  /** A pushed line of another pair does not change what `find` returns. */
  lemma FindLinePush(lines: seq<TabLine>, l: TabLine, name: string, price: int)
    requires !LineMatches(l, name, price)
    ensures FindLine(lines + [l], name, price) == FindLine(lines, name, price)
  {
    var r := lines + [l];
    assert forall k | 0 <= k < |lines| :: r[k] == lines[k];
  }

  /** Merging one item adds its quantity and subtotal to the line of its
      own pair, which then exists, and changes the line of no other pair. */
  lemma MergeItemPair(lines: seq<TabLine>, item: TabItemRow, name: string, price: int)
    ensures LineQuantity(MergeItem(lines, item), name, price)
      == LineQuantity(lines, name, price) + (if Hits(item, name, price) then item.quantity else 0)
    ensures LineSubtotal(MergeItem(lines, item), name, price)
      == LineSubtotal(lines, name, price) + (if Hits(item, name, price) then item.subtotal else 0)
    ensures FindLine(MergeItem(lines, item), name, price).Some?
      <==> FindLine(lines, name, price).Some? || Hits(item, name, price)
  {
    if item.status != ItemCancelled {
      var same := ItemName(item) == name && item.unitPrice == price;
      var r := MergeItem(lines, item);
      match FindLine(lines, ItemName(item), item.unitPrice)
      case Some(j) =>
        var l := lines[j].(quantity := lines[j].quantity + item.quantity, subtotal := lines[j].subtotal + item.subtotal);
        assert r == lines[j := l];
        if same {
          FindLineFirst(r, j, name, price);
        } else {
          FindLineAlike(r, lines, name, price);
        }
      case None =>
        var l := TabLine(ItemName(item), item.quantity, item.unitPrice, item.subtotal);
        assert r == lines + [l];
        if same {
          assert forall k | 0 <= k < |lines| :: r[k] == lines[k];
          FindLineFirst(r, |lines|, name, price);
        } else {
          FindLinePush(lines, l, name, price);
        }
    }
  }

  /** Merging an order's items: the line of each pair grows by the
      quantity and the subtotal of exactly the items of that pair, and a
      pair has a line afterwards exactly when it had one or one of the
      items counts towards it. */
  lemma {:induction false} MergeItemsPair(lines: seq<TabLine>, items: seq<TabItemRow>, name: string, price: int)
    ensures LineQuantity(MergeItems(lines, items), name, price)
      == LineQuantity(lines, name, price) + PairQuantity(items, name, price)
    ensures LineSubtotal(MergeItems(lines, items), name, price)
      == LineSubtotal(lines, name, price) + PairSubtotal(items, name, price)
    ensures FindLine(MergeItems(lines, items), name, price).Some?
      <==> FindLine(lines, name, price).Some? || HitsAny(items, name, price)
  {
    if |items| > 0 {
      var n := |items| - 1;
      MergeItemsPair(lines, items[..n], name, price);
      MergeItemPair(MergeItems(lines, items[..n]), items[n], name, price);
      assert forall k | 0 <= k < n :: items[..n][k] == items[k];
      assert HitsAny(items, name, price) <==> HitsAny(items[..n], name, price) || Hits(items[n], name, price);
    }
  }

  /** The merged lines of a tab's orders: the line of each pair holds the
      quantity and the subtotal of all its orders' items of that pair, and
      exists exactly when some such item is not cancelled. */
  lemma {:induction false} MergeAllPair(os: seq<TabOrderRow>, name: string, price: int)
    ensures LineQuantity(MergeAll(os), name, price) == OrdersPairQuantity(os, name, price)
    ensures LineSubtotal(MergeAll(os), name, price) == OrdersPairSubtotal(os, name, price)
    ensures FindLine(MergeAll(os), name, price).Some? <==> OrdersHit(os, name, price)
  {
    if |os| > 0 {
      var n := |os| - 1;
      MergeAllPair(os[..n], name, price);
      MergeItemsPair(MergeAll(os[..n]), os[n].items, name, price);
      assert forall i | 0 <= i < n :: os[..n][i] == os[i];
      assert OrdersHit(os, name, price) <==> OrdersHit(os[..n], name, price) || HitsAny(os[n].items, name, price);
    }
  }

  /** A tab's lines are one per (product name, unit price) pair of its
      orders' non-cancelled items: every line belongs to such a pair and
      holds that pair's total quantity and subtotal, and every such pair
      has a line. The same product at two prices has two lines. */
  lemma TabLinesArePairs(os: seq<TabOrderRow>)
    ensures forall i | 0 <= i < |MergeAll(os)| ::
      && OrdersHit(os, MergeAll(os)[i].productName, MergeAll(os)[i].unitPrice)
      && MergeAll(os)[i].quantity == OrdersPairQuantity(os, MergeAll(os)[i].productName, MergeAll(os)[i].unitPrice)
      && MergeAll(os)[i].subtotal == OrdersPairSubtotal(os, MergeAll(os)[i].productName, MergeAll(os)[i].unitPrice)
    ensures forall name, price | OrdersHit(os, name, price) ::
      exists i | 0 <= i < |MergeAll(os)| :: LineMatches(MergeAll(os)[i], name, price)
  {
    var lines := MergeAll(os);
    MergeAllFacts(os);
    forall i | 0 <= i < |lines|
      ensures OrdersHit(os, lines[i].productName, lines[i].unitPrice)
      ensures lines[i].quantity == OrdersPairQuantity(os, lines[i].productName, lines[i].unitPrice)
      ensures lines[i].subtotal == OrdersPairSubtotal(os, lines[i].productName, lines[i].unitPrice)
    {
      FindLineFirst(lines, i, lines[i].productName, lines[i].unitPrice);
      MergeAllPair(os, lines[i].productName, lines[i].unitPrice);
    }
    forall name, price | OrdersHit(os, name, price)
      ensures exists i | 0 <= i < |lines| :: LineMatches(lines[i], name, price)
    {
      MergeAllPair(os, name, price);
    }
  }

  /** A cancelled item leaves the lines as they were. */
  lemma CancelledItemIgnored(lines: seq<TabLine>, item: TabItemRow)
    requires item.status == ItemCancelled
    ensures MergeItem(lines, item) == lines
  {
  }

  // ---------------------------------------------------------------------
  // Settlement

  /** `.update({ payment_method, discount, tip }).in('id', orderIds)` */
  function SetPayment(rows: seq<OrderRow>, ids: seq<string>, m: PaymentMethod, discount: int, tip: int): (r: seq<OrderRow>)
    ensures |r| == |rows|
    ensures forall k | 0 <= k < |rows| ::
      r[k] == if rows[k].id in ids then rows[k].(paymentMethod := Some(m), discount := Some(discount), tip := Some(tip))
              else rows[k]
  {
    seq(|rows|, k requires 0 <= k < |rows| =>
      if rows[k].id in ids then rows[k].(paymentMethod := Some(m), discount := Some(discount), tip := Some(tip))
      else rows[k])
  }

  /** The tip movement `closeTab` records: only for a positive tip, with an
      open session and a signed-in user; the tip amount, tied to the active
      session. */
  function TipMovement(sessions: seq<SessionRow>, tab: Tab, tip: int, user: Option<string>, id: string, now: int)
    : (r: Option<MovementRow>)
    ensures r.Some? <==> tip > 0 && ActiveSession(sessions).Some? && user.Some?
    ensures r.Some? ==> (r.value.kind == Tip && r.value.amount == tip && r.value.orderId.None?
      && r.value.sessionId == sessions[ActiveSession(sessions).value].id)
    ensures r.Some? ==> (r.value.description == Some("Propina - " + tab.mesa)
      && r.value.createdBy == user.value && r.value.id == id && r.value.createdAt == now)
  {
    var s := ActiveSession(sessions);
    if tip > 0 && s.Some? && user.Some? then
      Some(MovementRow(id, sessions[s.value].id, Tip, tip, Some("Propina - " + tab.mesa), None, user.value, now))
    else None
  }

  /** The sale movement `closeTab` records: only for cash, with an open
      session, a signed-in user and a positive amount; the amount is the
      tab's total less the discount plus the tip, linked to the tab's first
      order. */
  function SaleMovement(sessions: seq<SessionRow>, tab: Tab, m: PaymentMethod, discount: int, tip: int,
                        user: Option<string>, id: string, now: int)
    : (r: Option<MovementRow>)
    ensures r.Some? <==> m == Cash && ActiveSession(sessions).Some? && user.Some? && tab.total - discount + tip > 0
    ensures r.Some? ==> (r.value.kind == Sale && r.value.amount == tab.total - discount + tip
      && r.value.sessionId == sessions[ActiveSession(sessions).value].id
      && r.value.orderId == (if |tab.orderIds| > 0 then Some(tab.orderIds[0]) else None))
    ensures r.Some? ==> (r.value.description == Some("Venta - " + tab.mesa)
      && r.value.createdBy == user.value && r.value.id == id && r.value.createdAt == now)
  {
    var s := ActiveSession(sessions);
    var amount := tab.total - discount + tip;
    if m == Cash && s.Some? && user.Some? && amount > 0 then
      Some(MovementRow(id, sessions[s.value].id, Sale, amount, Some("Venta - " + tab.mesa),
                       if |tab.orderIds| > 0 then Some(tab.orderIds[0]) else None, user.value, now))
    else None
  }

  function ToSeq(m: Option<MovementRow>): seq<MovementRow> {
    if m.Some? then [m.value] else []
  }

  /** `closeTab`: the tab's orders are marked paid with the discount and tip
      (both 0 when absent), its table, when it has one, becomes available,
      and the tip and sale movements are appended, tip first. */
  method CloseTab(db: Db, tab: Tab, m: PaymentMethod, discountOpt: Option<int>, tipOpt: Option<int>,
                  user: Option<string>, tipId: string, saleId: string, now: int)
    modifies db`orders, db`tableStatus, db`movements
    ensures var discount := discountOpt.GetOr(0);
      var tip := tipOpt.GetOr(0);
      db.orders == SetPayment(old(db.orders), tab.orderIds, m, discount, tip)
      && db.movements == old(db.movements)
           + ToSeq(TipMovement(old(db.sessions), tab, tip, user, tipId, now))
           + ToSeq(SaleMovement(old(db.sessions), tab, m, discount, tip, user, saleId, now))
    ensures db.tableStatus == if Truthy(tab.tableId) && tab.tableId.value in old(db.tableStatus)
                              then old(db.tableStatus)[tab.tableId.value := Available]
                              else old(db.tableStatus)
  {
    var discount := discountOpt.GetOr(0);
    var tip := tipOpt.GetOr(0);
    db.orders := SetPayment(db.orders, tab.orderIds, m, discount, tip);
    if Truthy(tab.tableId) && tab.tableId.value in db.tableStatus {
      db.tableStatus := db.tableStatus[tab.tableId.value := Available];
    }
    db.movements := db.movements + ToSeq(TipMovement(db.sessions, tab, tip, user, tipId, now));
    db.movements := db.movements + ToSeq(SaleMovement(db.sessions, tab, m, discount, tip, user, saleId, now));
  }

  /** Settling a tab in cash with a tip records the tip twice in the
      drawer's expected cash: once as the tip movement and once inside the
      sale movement's amount. */
  lemma CashTipCountedTwice(sessions: seq<SessionRow>, movs: seq<MovementRow>, opening: int, tab: Tab,
                            discount: int, tip: int, user: string, tipId: string, saleId: string, now: int)
    requires ActiveSession(sessions).Some? && tip > 0 && tab.total - discount + tip > 0
    ensures var added := ToSeq(TipMovement(sessions, tab, tip, Some(user), tipId, now))
                       + ToSeq(SaleMovement(sessions, tab, Cash, discount, tip, Some(user), saleId, now));
      Ledger.Expected(opening, movs + added) == Ledger.Expected(opening, movs) + (tab.total - discount) + 2 * tip
  {
    var t := TipMovement(sessions, tab, tip, Some(user), tipId, now).value;
    var v := SaleMovement(sessions, tab, Cash, discount, tip, Some(user), saleId, now).value;
    Ledger.ExpectedAfterMovement(opening, movs, t);
    Ledger.ExpectedAfterMovement(opening, movs + [t], v);
    assert movs + ([t] + [v]) == movs + [t] + [v];
  }
}
