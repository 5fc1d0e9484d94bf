/** Order creation from the point-of-sale cart (`useOrders`): a cart either
    becomes a new order or, when an open order with the same notes exists,
    is appended to the most recent such order, whose totals are then
    recomputed. */
module Orders {
  import opened Wrappers
  import opened Text
  import opened Money
  import opened Store

  /** A cart line: product, display name, unit price in cents and quantity. */
  datatype CartItem = CartItem(productId: string, name: string, price: int, quantity: int)

  /** `appended` is true when the items went to an existing order. */
  datatype CreateOrderResult = CreateOrderResult(orderId: string, appended: bool)

  datatype OrderError = EmptyOrder

  function LineSubtotal(i: CartItem): int {
    i.price * i.quantity
  }

  /** `items.reduce((sum, item) => sum + item.price * item.quantity, 0)` */
  function CartSubtotal(items: seq<CartItem>): int
  {
    if |items| == 0 then 0 else CartSubtotal(items[..|items| - 1]) + LineSubtotal(items[|items| - 1])
  }

  lemma {:induction false} CartSubtotalAppend(xs: seq<CartItem>, ys: seq<CartItem>)
    ensures CartSubtotal(xs + ys) == CartSubtotal(xs) + CartSubtotal(ys)
  {
    if |ys| > 0 {
      var n := |ys| - 1;
      assert (xs + ys)[..|xs + ys| - 1] == xs + ys[..n];
      CartSubtotalAppend(xs, ys[..n]);
    } else {
      assert xs + ys == xs;
    }
  }

  /** A cart of non-negative prices and quantities has a non-negative subtotal. */
  lemma {:induction false} CartSubtotalNonNegative(items: seq<CartItem>)
    requires forall k | 0 <= k < |items| :: items[k].price >= 0 && items[k].quantity >= 0
    ensures CartSubtotal(items) >= 0
  {
    if |items| > 0 {
      CartSubtotalNonNegative(items[..|items| - 1]);
    }
  }

  /** The `order_items` rows written for a cart: one per cart line, in cart
      order, tied to `orderId`, pending, with the line's price times quantity. */
  function NewItemRows(items: seq<CartItem>, orderId: string, ids: seq<string>, now: int): (rows: seq<ItemRow>)
    requires |ids| == |items|
    ensures |rows| == |items|
    ensures forall k | 0 <= k < |items| ::
      rows[k] == ItemRow(ids[k], orderId, items[k].productId, items[k].quantity, items[k].price,
                         LineSubtotal(items[k]), Pending, now)
  {
    seq(|items|, k requires 0 <= k < |items| =>
      ItemRow(ids[k], orderId, items[k].productId, items[k].quantity, items[k].price, LineSubtotal(items[k]), Pending, now))
  }

  /** The sum of the stored subtotals of the item rows of one order. */
  function ItemsTotal(rows: seq<ItemRow>, orderId: string): int
  {
    if |rows| == 0 then 0
    else
      var last := rows[|rows| - 1];
      ItemsTotal(rows[..|rows| - 1], orderId) + (if last.orderId == orderId then last.subtotal else 0)
  }

  lemma {:induction false} ItemsTotalAppend(a: seq<ItemRow>, b: seq<ItemRow>, orderId: string)
    ensures ItemsTotal(a + b, orderId) == ItemsTotal(a, orderId) + ItemsTotal(b, orderId)
  {
    if |b| > 0 {
      var n := |b| - 1;
      assert (a + b)[..|a + b| - 1] == a + b[..n];
      ItemsTotalAppend(a, b[..n], orderId);
    } else {
      assert a + b == a;
    }
  }

  lemma {:induction false} ItemsTotalOfOther(rows: seq<ItemRow>, orderId: string)
    requires forall k | 0 <= k < |rows| :: rows[k].orderId != orderId
    ensures ItemsTotal(rows, orderId) == 0
  {
    if |rows| > 0 {
      ItemsTotalOfOther(rows[..|rows| - 1], orderId);
    }
  }

  /** The rows written for a cart carry, for their order, exactly the cart's
      subtotal, and nothing for any other order. */
  lemma {:induction false} NewRowsTotal(items: seq<CartItem>, orderId: string, ids: seq<string>, now: int, other: string)
    requires |ids| == |items|
    ensures ItemsTotal(NewItemRows(items, orderId, ids, now), other) == if other == orderId then CartSubtotal(items) else 0
  {
    if |items| > 0 {
      var n := |items| - 1;
      var rows := NewItemRows(items, orderId, ids, now);
      assert rows[..n] == NewItemRows(items[..n], orderId, ids[..n], now);
      NewRowsTotal(items[..n], orderId, ids[..n], now, other);
    }
  }

  /** The `orders` row inserted for a new order. The order type is not sent
      by the program; `orderType` is the column's default. */
  function NewOrderRow(id: string, createdBy: string, items: seq<CartItem>, notes: Option<string>,
                       orderType: OrderType, now: int): OrderRow
  {
    var subtotal := CartSubtotal(items);
    OrderRow(id, None, createdBy, Open, orderType, subtotal, Tax(subtotal), subtotal + Tax(subtotal),
             None, None, None, NullIfEmpty(notes), now)
  }

  /** `.update({ subtotal, tax, total }).eq('id', id)` with the tax and total
      recomputed from the new subtotal. */
  function UpdateTotals(rows: seq<OrderRow>, id: string, subtotal: int): (r: seq<OrderRow>)
    ensures |r| == |rows|
    ensures forall k | 0 <= k < |rows| ::
      r[k] == if rows[k].id == id then rows[k].(subtotal := subtotal, tax := Tax(subtotal), total := subtotal + Tax(subtotal))
              else rows[k]
  {
    seq(|rows|, k requires 0 <= k < |rows| =>
      if rows[k].id == id then rows[k].(subtotal := subtotal, tax := Tax(subtotal), total := subtotal + Tax(subtotal))
      else rows[k])
  }

  predicate IsAppendTarget(o: OrderRow, notes: string) {
    o.notes == Some(notes) && (o.status == Open || o.status == InProgress)
  }

  /** The existing order a cart is appended to: with truthy notes, the most
      recently created open or in-progress order whose notes are identical;
      the payment method plays no part. */
  function AppendTarget(orders: seq<OrderRow>, notes: Option<string>): (r: Option<nat>)
    ensures !Truthy(notes) ==> r.None?
    ensures Truthy(notes) ==> (r.None? <==> forall i | 0 <= i < |orders| :: !IsAppendTarget(orders[i], notes.value))
    ensures r.Some? ==> r.value < |orders| && IsAppendTarget(orders[r.value], notes.value)
    ensures r.Some? ==> forall i | 0 <= i < |orders| && IsAppendTarget(orders[i], notes.value) ::
      orders[i].createdAt <= orders[r.value].createdAt
  {
    if Truthy(notes) then
      Latest(orders, (o: OrderRow) => IsAppendTarget(o, notes.value), (o: OrderRow) => o.createdAt)
    else None
  }

  /** The order rows once an order is created: the cart is added to the
      append target, whose totals are recomputed, or else a new row is
      appended. */
  function OrdersAfter(before: seq<OrderRow>, items: seq<CartItem>, createdBy: string, notes: Option<string>,
                       orderType: OrderType, newOrderId: string, now: int): seq<OrderRow>
  {
    match AppendTarget(before, notes)
    case Some(t) => UpdateTotals(before, before[t].id, before[t].subtotal + CartSubtotal(items))
    case None => before + [NewOrderRow(newOrderId, createdBy, items, notes, orderType, now)]
  }

  /** The order the cart's item rows go to: the append target, or else the
      new order. */
  function TargetId(before: seq<OrderRow>, notes: Option<string>, newOrderId: string): string
  {
    match AppendTarget(before, notes)
    case Some(t) => before[t].id
    case None => newOrderId
  }

  /** `insertNewOrder`: one order row, then one item row per cart line. */
  method InsertNewOrder(db: Db, items: seq<CartItem>, createdBy: string, notes: Option<string>,
                        orderType: OrderType, newOrderId: string, itemIds: seq<string>, now: int)
    returns (r: CreateOrderResult)
    requires |itemIds| == |items|
    modifies db`orders, db`items
    ensures r == CreateOrderResult(newOrderId, false)
    ensures db.orders == old(db.orders) + [NewOrderRow(newOrderId, createdBy, items, notes, orderType, now)]
    ensures db.items == old(db.items) + NewItemRows(items, newOrderId, itemIds, now)
  {
    var subtotal := 0;
    var k := 0;
    while k < |items|
      invariant 0 <= k <= |items|
      invariant subtotal == CartSubtotal(items[..k])
    {
      assert items[..k + 1][..k] == items[..k];
      subtotal := subtotal + items[k].price * items[k].quantity;
      k := k + 1;
    }
    assert items[..k] == items;
    var tax := Tax(subtotal);
    var total := subtotal + tax;
    db.orders := db.orders + [OrderRow(newOrderId, None, createdBy, Open, orderType, subtotal, tax, total,
                                       None, None, None, NullIfEmpty(notes), now)];
    db.items := db.items + NewItemRows(items, newOrderId, itemIds, now);
    r := CreateOrderResult(newOrderId, false);
  }

  /** `appendToOrder`: the cart's item rows go to the existing order, whose
      subtotal becomes the stored subtotal plus the cart's, with the tax
      recomputed on the new subtotal rather than added. */
  method AppendToOrder(db: Db, existingId: string, existingSubtotal: int, items: seq<CartItem>,
                       itemIds: seq<string>, now: int)
    returns (r: CreateOrderResult)
    requires |itemIds| == |items|
    modifies db`orders, db`items
    ensures r == CreateOrderResult(existingId, true)
    ensures db.items == old(db.items) + NewItemRows(items, existingId, itemIds, now)
    ensures db.orders == UpdateTotals(old(db.orders), existingId, existingSubtotal + CartSubtotal(items))
  {
    db.items := db.items + NewItemRows(items, existingId, itemIds, now);
    var added := 0;
    var k := 0;
    while k < |items|
      invariant 0 <= k <= |items|
      invariant added == CartSubtotal(items[..k])
    {
      assert items[..k + 1][..k] == items[..k];
      added := added + items[k].price * items[k].quantity;
      k := k + 1;
    }
    assert items[..k] == items;
    db.orders := UpdateTotals(db.orders, existingId, existingSubtotal + added);
    r := CreateOrderResult(existingId, true);
  }

  /** `createOrder`: an empty cart is refused before any write; otherwise
      the cart is appended to the append target when there is one and
      becomes a new order when there is none. */
  method CreateOrder(db: Db, items: seq<CartItem>, createdBy: string, notes: Option<string>,
                     orderType: OrderType, newOrderId: string, itemIds: seq<string>, now: int)
    returns (r: Result<CreateOrderResult, OrderError>)
    requires |itemIds| == |items|
    modifies db`orders, db`items
    ensures |items| == 0 ==> r == Failure(EmptyOrder) && db.orders == old(db.orders) && db.items == old(db.items)
    ensures |items| > 0 ==> db.orders == OrdersAfter(old(db.orders), items, createdBy, notes, orderType, newOrderId, now)
    ensures |items| > 0 ==> db.items == old(db.items) + NewItemRows(items, TargetId(old(db.orders), notes, newOrderId), itemIds, now)
    ensures |items| > 0 ==>
      r == Success(CreateOrderResult(TargetId(old(db.orders), notes, newOrderId), AppendTarget(old(db.orders), notes).Some?))
  {
    if |items| == 0 {
      return Failure(EmptyOrder);
    }
    var target := AppendTarget(db.orders, notes);
    ghost var id := TargetId(db.orders, notes, newOrderId);  // the order the item rows go to
    var created;
    if target.Some? {
      var existing := db.orders[target.value];
      created := AppendToOrder(db, existing.id, existing.subtotal, items, itemIds, now);
    } else {
      created := InsertNewOrder(db, items, createdBy, notes, orderType, newOrderId, itemIds, now);
    }
    r := Success(created);
  }

  /** `updateOrderStatus`: only the named order's status changes. */
  method UpdateOrderStatus(db: Db, orderId: string, status: OrderStatus)
    modifies db`orders
    ensures db.orders == SetOrderStatus(old(db.orders), orderId, status)
  {
    db.orders := SetOrderStatus(db.orders, orderId, status);
  }

  /** The totals of an order row agree with its item rows: the subtotal is
      the sum of their subtotals, the tax is the rounded 16% of it and the
      total is their sum. */
  predicate OrderConsistent(o: OrderRow, items: seq<ItemRow>) {
    o.subtotal == ItemsTotal(items, o.id) && o.tax == Tax(o.subtotal) && o.total == o.subtotal + o.tax
  }

  predicate Consistent(orders: seq<OrderRow>, items: seq<ItemRow>) {
    forall k | 0 <= k < |orders| :: OrderConsistent(orders[k], items)
  }

  /** Inserting a new order under a fresh id keeps every order's totals in
      agreement with its items. */
  lemma InsertKeepsConsistent(orders: seq<OrderRow>, items: seq<ItemRow>, cart: seq<CartItem>, createdBy: string,
                              notes: Option<string>, orderType: OrderType, newOrderId: string,
                              itemIds: seq<string>, now: int)
    requires |itemIds| == |cart|
    requires Consistent(orders, items)
    requires forall k | 0 <= k < |orders| :: orders[k].id != newOrderId
    requires forall k | 0 <= k < |items| :: items[k].orderId != newOrderId
    ensures Consistent(orders + [NewOrderRow(newOrderId, createdBy, cart, notes, orderType, now)],
                       items + NewItemRows(cart, newOrderId, itemIds, now))
  {
    var rows := NewItemRows(cart, newOrderId, itemIds, now);
    var orders' := orders + [NewOrderRow(newOrderId, createdBy, cart, notes, orderType, now)];
    forall k | 0 <= k < |orders'|
      ensures OrderConsistent(orders'[k], items + rows)
    {
      ItemsTotalAppend(items, rows, orders'[k].id);
      NewRowsTotal(cart, newOrderId, itemIds, now, orders'[k].id);
      if k == |orders| {
        ItemsTotalOfOther(items, newOrderId);
      }
    }
  }

  /** Appending to an existing order keeps every order's totals in agreement
      with its items: the stored subtotal grows by exactly the cart's. */
  lemma AppendKeepsConsistent(orders: seq<OrderRow>, items: seq<ItemRow>, j: nat, cart: seq<CartItem>,
                              itemIds: seq<string>, now: int)
    requires |itemIds| == |cart| && j < |orders|
    requires Consistent(orders, items)
    ensures Consistent(UpdateTotals(orders, orders[j].id, orders[j].subtotal + CartSubtotal(cart)),
                       items + NewItemRows(cart, orders[j].id, itemIds, now))
  {
    var id := orders[j].id;
    var rows := NewItemRows(cart, id, itemIds, now);
    var orders' := UpdateTotals(orders, id, orders[j].subtotal + CartSubtotal(cart));
    forall k | 0 <= k < |orders'|
      ensures OrderConsistent(orders'[k], items + rows)
    {
      ItemsTotalAppend(items, rows, orders[k].id);
      NewRowsTotal(cart, id, itemIds, now, orders[k].id);
    }
  }

  /** A new order of 14.00 takes 2.24 tax; appending 5.00 to it gives
      19.00 / 3.04 / 22.04. */
  lemma AppendExample()
    ensures Tax(1400) == 224 && 1400 + Tax(1400) == 1624
    ensures Tax(1400 + 500) == 304 && 1900 + Tax(1900) == 2204
  {
  }

  /** Recomputing the tax on the new subtotal is not the same as adding the
      tax of the appended items: two appends of 0.03 give 0.01 of tax, while
      each alone gives none. */
  lemma TaxIsRecomputedNotAdded()
    ensures Tax(3) + Tax(3) == 0 && Tax(3 + 3) == 1
  {
  }
}
