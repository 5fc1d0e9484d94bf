/** The hosted backend, reduced to in-memory tables. Each table is a sequence
    of rows in insertion order; every insert or update the program issues is
    one atomic assignment to one of these fields. Enumerations are the closed
    value sets of the schema's status, type and payment columns. */
module Store {
  import opened Wrappers

  datatype OrderStatus = Open | InProgress | Completed | OrderCancelled
  datatype ItemStatus = Pending | Preparing | Ready | Delivered | ItemCancelled
  datatype PaymentMethod = Cash | Card
  datatype OrderType = DineIn | Takeout
  datatype MovementType = Sale | Withdrawal | Deposit | Tip
  datatype TableStatus = Available | Occupied | Reserved

  /** A row of `orders`. Amounts are in cents, times are instants. */
  datatype OrderRow = OrderRow(
    id: string,
    tableId: Option<string>,
    createdBy: string,
    status: OrderStatus,
    orderType: OrderType,
    subtotal: int,
    tax: int,
    total: int,
    paymentMethod: Option<PaymentMethod>,
    discount: Option<int>,
    tip: Option<int>,
    notes: Option<string>,
    createdAt: int)

  /** A row of `order_items`. */
  datatype ItemRow = ItemRow(
    id: string,
    orderId: string,
    productId: string,
    quantity: int,
    unitPrice: int,
    subtotal: int,
    status: ItemStatus,
    sentToKitchenAt: int)

  /** A row of `cash_register_sessions`. */
  datatype SessionRow = SessionRow(
    id: string,
    openedBy: string,
    closedBy: Option<string>,
    openingAmount: int,
    closingAmount: Option<int>,
    expectedAmount: Option<int>,
    difference: Option<int>,
    openedAt: int,
    closedAt: Option<int>,
    notes: Option<string>)

  /** A row of `cash_register_movements`. */
  datatype MovementRow = MovementRow(
    id: string,
    sessionId: string,
    kind: MovementType,
    amount: int,
    description: Option<string>,
    orderId: Option<string>,
    createdBy: string,
    createdAt: int)

  /** The tables the core reads and writes. */
  class Db {
    var orders: seq<OrderRow>
    var items: seq<ItemRow>
    var sessions: seq<SessionRow>
    var movements: seq<MovementRow>
    var tableStatus: map<string, TableStatus>

    constructor ()
      ensures orders == [] && items == [] && sessions == [] && movements == []
      ensures tableStatus == map[]
    {
      orders, items, sessions, movements := [], [], [], [];
      tableStatus := map[];
    }
  }

  /** The query shape `.filter(matches).order(time, desc).limit(1).maybeSingle()`:
      the index of a matching row whose time is greatest, or None when no row
      matches. Among rows with equal times the later one is taken. */
  function Latest<T>(rows: seq<T>, matches: T -> bool, time: T -> int): (r: Option<nat>)
    ensures r.None? <==> forall i | 0 <= i < |rows| :: !matches(rows[i])
    ensures r.Some? ==> r.value < |rows| && matches(rows[r.value])
    ensures r.Some? ==> forall i | 0 <= i < |rows| && matches(rows[i]) :: time(rows[i]) <= time(rows[r.value])
  {
    if |rows| == 0 then None
    else
      var last := |rows| - 1;
      var prev := Latest(rows[..last], matches, time);
      if matches(rows[last]) && (prev.None? || time(rows[prev.value]) <= time(rows[last])) then Some(last)
      else prev
  }

  /** The active cash session: the most recently opened one whose `closed_at`
      is unset. */
  function ActiveSession(sessions: seq<SessionRow>): Option<nat>
  {
    Latest(sessions, (s: SessionRow) => s.closedAt.None?, (s: SessionRow) => s.openedAt)
  }

  lemma ActiveSessionIsLatestOpen(sessions: seq<SessionRow>)
    ensures ActiveSession(sessions).None? <==> forall i | 0 <= i < |sessions| :: sessions[i].closedAt.Some?
    ensures var a := ActiveSession(sessions);
      a.Some? ==> (a.value < |sessions| && sessions[a.value].closedAt.None?
        && forall i | 0 <= i < |sessions| && sessions[i].closedAt.None? :: sessions[i].openedAt <= sessions[a.value].openedAt)
  {
  }

  /** `.update({ status }).eq('id', id)` on `orders`. */
  function SetOrderStatus(rows: seq<OrderRow>, id: string, status: OrderStatus): (r: seq<OrderRow>)
    ensures |r| == |rows|
    ensures forall k | 0 <= k < |rows| :: r[k] == if rows[k].id == id then rows[k].(status := status) else rows[k]
  {
    seq(|rows|, k requires 0 <= k < |rows| => if rows[k].id == id then rows[k].(status := status) else rows[k])
  }

  /** `.update({ status }).in('id', ids)` on `order_items`. */
  function SetItemStatusIn(rows: seq<ItemRow>, ids: seq<string>, status: ItemStatus): (r: seq<ItemRow>)
    ensures |r| == |rows|
    ensures forall k | 0 <= k < |rows| :: r[k] == if rows[k].id in ids then rows[k].(status := status) else rows[k]
  {
    seq(|rows|, k requires 0 <= k < |rows| => if rows[k].id in ids then rows[k].(status := status) else rows[k])
  }
}
