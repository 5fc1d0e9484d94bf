/** The kitchen phase engine of `useKitchenOrders`: an order's phase is set
    by its least advanced non-cancelled item, and one "advance" moves every
    item at that phase one status further in a single batch. The kitchen feed
    re-fetches the open orders and decides whether to play the new-order
    sound. */
module Kitchen {
  import opened Wrappers
  import opened Store

  /** An item of the kitchen query (`order_items` joined with the product name). */
  datatype KitchenItem = KitchenItem(
    id: string,
    quantity: int,
    status: ItemStatus,
    notes: Option<string>,
    productName: string)

  /** An order of the kitchen query, with its items. */
  datatype KitchenOrder = KitchenOrder(
    id: string,
    status: OrderStatus,
    notes: Option<string>,
    createdAt: int,
    items: seq<KitchenItem>)

  datatype Phase = PhasePending | PhasePreparing | PhaseReady | PhaseDone

  /** `statusRank[status] ?? 0`: cancelled has no entry and reads as 0. */
  function Rank(s: ItemStatus): (r: nat)
    ensures r <= 3
    ensures r == 0 <==> s == Pending || s == ItemCancelled
    ensures r == 3 <==> s == Delivered
    ensures s == Preparing ==> r == 1
    ensures s == Ready ==> r == 2
  {
    match s
    case Pending => 0
    case Preparing => 1
    case Ready => 2
    case Delivered => 3
    case ItemCancelled => 0
  }

  /** The rank a phase stands for; `done` stands for 3. */
  function PhaseRank(p: Phase): nat
  {
    match p
    case PhasePending => 0
    case PhasePreparing => 1
    case PhaseReady => 2
    case PhaseDone => 3
  }

  predicate IsActive(i: KitchenItem) {
    i.status != ItemCancelled
  }

  /** `Math.min` of the ranks of the non-cancelled items, None when there are none. */
  function MinActiveRank(items: seq<KitchenItem>): (r: Option<nat>)
    ensures r.None? <==> forall k | 0 <= k < |items| :: !IsActive(items[k])
    ensures r.Some? ==> forall k | 0 <= k < |items| && IsActive(items[k]) :: r.value <= Rank(items[k].status)
    ensures r.Some? ==> exists k | 0 <= k < |items| :: IsActive(items[k]) && Rank(items[k].status) == r.value
  {
    if |items| == 0 then None
    else
      var last := |items| - 1;
      var prev := MinActiveRank(items[..last]);
      if !IsActive(items[last]) then prev
      else if prev.None? || Rank(items[last].status) < prev.value then Some(Rank(items[last].status))
      else prev
  }

  /** `getOrderPhase`: `done` when no item is active, otherwise the phase of
      the smallest active rank. The phase's rank is a lower bound of every
      active item's rank and is reached by one of them unless the phase is
      `done`; `done` means every active item is delivered. */
  function GetOrderPhase(items: seq<KitchenItem>): (p: Phase)
    ensures forall k | 0 <= k < |items| && IsActive(items[k]) :: PhaseRank(p) <= Rank(items[k].status)
    ensures p != PhaseDone ==> exists k | 0 <= k < |items| :: IsActive(items[k]) && Rank(items[k].status) == PhaseRank(p)
    ensures p == PhaseDone <==> forall k | 0 <= k < |items| && IsActive(items[k]) :: items[k].status == Delivered
  {
    match MinActiveRank(items)
    case None => PhaseDone
    case Some(r) =>
      if r == 0 then PhasePending
      else if r == 1 then PhasePreparing
      else if r == 2 then PhaseReady
      else PhaseDone
  }

  lemma AllCancelledIsDone(items: seq<KitchenItem>)
    requires forall k | 0 <= k < |items| :: items[k].status == ItemCancelled
    ensures GetOrderPhase(items) == PhaseDone
  {
  }

  /** The least advanced item wins: {preparing, ready} is `preparing`. */
  lemma PreparingAndReadyIsPreparing(a: KitchenItem, b: KitchenItem)
    requires a.status == Preparing && b.status == Ready
    ensures GetOrderPhase([a, b]) == PhasePreparing
  {
    assert [a, b][..1] == [a];
    assert [a][..0] == [];
    assert MinActiveRank([a]) == Some(1);
    assert MinActiveRank([a, b]) == Some(1);
  }

  /** Of two active items, the less advanced one sets the phase, whatever
      their statuses; two delivered items give `done`. */
  lemma PhaseOfTwo(a: KitchenItem, b: KitchenItem)
    requires IsActive(a) && IsActive(b)
    ensures PhaseRank(GetOrderPhase([a, b])) == if Rank(a.status) <= Rank(b.status) then Rank(a.status) else Rank(b.status)
  {
    assert [a, b][..1] == [a];
    assert [a][..0] == [];
    assert MinActiveRank([a]) == Some(Rank(a.status));
  }

  /** The status the batch moves from, and to, in each phase but `done`. */
  function FromStatus(p: Phase): ItemStatus
  {
    match p
    case PhasePending => Pending
    case PhasePreparing => Preparing
    case PhaseReady => Ready
    case PhaseDone => Delivered
  }

  function ToStatus(p: Phase): ItemStatus
  {
    match p
    case PhasePending => Preparing
    case PhasePreparing => Ready
    case PhaseReady => Delivered
    case PhaseDone => Delivered
  }

  /** `active.filter((i) => i.status === s).map((i) => i.id)` */
  function IdsWithStatus(items: seq<KitchenItem>, s: ItemStatus): (ids: seq<string>)
    requires s != ItemCancelled
    ensures forall id :: id in ids <==> exists k | 0 <= k < |items| :: items[k].id == id && items[k].status == s
  {
    if |items| == 0 then []
    else
      var last := |items| - 1;
      var prev := IdsWithStatus(items[..last], s);
      assert forall k | 0 <= k < last :: items[..last][k] == items[k];
      if items[last].status == s then prev + [items[last].id] else prev
  }

  /** What one advance does to an order, seen on the order itself when the
      snapshot it was computed from is current: in phase `done` nothing; in
      any other phase the items at the phase's status move to the next
      status, and from phase `ready` the order becomes `completed`. */
  function Advance(o: KitchenOrder): KitchenOrder
  {
    var p := GetOrderPhase(o.items);
    if p == PhaseDone then o
    else
      o.(items := seq(|o.items|, k requires 0 <= k < |o.items| =>
                      if o.items[k].status == FromStatus(p) then o.items[k].(status := ToStatus(p)) else o.items[k]),
         status := if p == PhaseReady then Completed else o.status)
  }

  /** Phase `done` is a fixed point of advancing. */
  lemma DoneIsFixedPoint(o: KitchenOrder)
    requires GetOrderPhase(o.items) == PhaseDone
    ensures Advance(o) == o
  {
  }

  /** Per phase, exactly the items at the phase's status change, to the next
      status; only the `ready` phase writes the order's status. */
  lemma AdvanceChangesExactlyThePhaseItems(o: KitchenOrder)
    ensures var p := GetOrderPhase(o.items);
      var a := Advance(o);
      |a.items| == |o.items|
      && (forall k | 0 <= k < |o.items| ::
            a.items[k] == if p != PhaseDone && o.items[k].status == FromStatus(p)
                          then o.items[k].(status := ToStatus(p)) else o.items[k])
      && (a.status != o.status ==> p == PhaseReady && a.status == Completed)
      && (p == PhaseReady ==> a.status == Completed)
  {
  }

  /** Advancing never lowers an item's rank and never touches a cancelled item. */
  lemma AdvanceIsMonotone(o: KitchenOrder)
    ensures |Advance(o).items| == |o.items|
    ensures forall k | 0 <= k < |o.items| ::
      Rank(o.items[k].status) <= Rank(Advance(o).items[k].status)
      && (o.items[k].status == ItemCancelled <==> Advance(o).items[k].status == ItemCancelled)
  {
  }

  /** Outside phase `done`, advancing strictly raises the order's phase. */
  lemma {:induction false} AdvanceRaisesPhase(o: KitchenOrder)
    requires GetOrderPhase(o.items) != PhaseDone
    ensures PhaseRank(GetOrderPhase(o.items)) < PhaseRank(GetOrderPhase(Advance(o).items))
  {
    var p := GetOrderPhase(o.items);
    var a := Advance(o).items;
    assert |a| == |o.items|;
    forall k | 0 <= k < |a| && IsActive(a[k])
      ensures PhaseRank(p) < Rank(a[k].status)
    {
      assert IsActive(o.items[k]);
      assert PhaseRank(p) <= Rank(o.items[k].status);
    }
    var q := GetOrderPhase(a);
    if q != PhaseDone {
      var k :| 0 <= k < |a| && IsActive(a[k]) && Rank(a[k].status) == PhaseRank(q);
    }
  }

  /** Item ids are distinct within one fetched order (they are primary keys). */
  predicate DistinctIds(items: seq<KitchenItem>) {
    forall j, k | 0 <= j < k < |items| :: items[j].id != items[k].id
  }

  /** `advanceOrder`: the batch update of the item rows at the phase's
      status, then, in phase `ready`, the update of the order row. In phase
      `done` nothing is written. */
  method AdvanceOrder(db: Db, order: KitchenOrder)
    modifies db`items, db`orders
    ensures var p := GetOrderPhase(order.items);
      db.items == (if p == PhaseDone then old(db.items)
                   else SetItemStatusIn(old(db.items), IdsWithStatus(order.items, FromStatus(p)), ToStatus(p)))
      && db.orders == (if p == PhaseReady then SetOrderStatus(old(db.orders), order.id, Completed) else old(db.orders))
  {
    var phase := GetOrderPhase(order.items);
    if phase != PhaseDone {
      var ids := IdsWithStatus(order.items, FromStatus(phase));
      if |ids| > 0 {
        db.items := SetItemStatusIn(db.items, ids, ToStatus(phase));
      } else {
        assert SetItemStatusIn(db.items, ids, ToStatus(phase)) == db.items;
      }
      if phase == PhaseReady {
        db.orders := SetOrderStatus(db.orders, order.id, Completed);
      }
    }
  }

  /** When the snapshot is current, the row written for a snapshot item ends
      with the status `Advance` gives that item. */
  lemma {:induction false} AdvanceWriteAgreesWithSnapshot(rows: seq<ItemRow>, order: KitchenOrder, j: nat, k: nat)
    requires j < |rows| && k < |order.items| && DistinctIds(order.items)
    requires rows[j].id == order.items[k].id && rows[j].status == order.items[k].status
    requires GetOrderPhase(order.items) != PhaseDone
    ensures var p := GetOrderPhase(order.items);
      SetItemStatusIn(rows, IdsWithStatus(order.items, FromStatus(p)), ToStatus(p))[j].status
        == Advance(order).items[k].status
  {
    var p := GetOrderPhase(order.items);
    var ids := IdsWithStatus(order.items, FromStatus(p));
    if rows[j].id in ids {
      var m :| 0 <= m < |order.items| && order.items[m].id == rows[j].id && order.items[m].status == FromStatus(p);
      assert m == k;
    }
  }

  function OrderIds(orders: seq<KitchenOrder>): (ids: seq<string>)
    ensures |ids| == |orders| && forall k | 0 <= k < |orders| :: ids[k] == orders[k].id
  {
    seq(|orders|, k requires 0 <= k < |orders| => orders[k].id)
  }

  /** The loop over the current ids that stops at the first one missing
      from the previous snapshot. */
  method HasNewId(current: seq<string>, previous: set<string>) returns (found: bool)
    ensures found <==> exists k | 0 <= k < |current| :: current[k] !in previous
  {
    found := false;
    var k := 0;
    while k < |current|
      invariant 0 <= k <= |current|
      invariant !found && forall j | 0 <= j < k :: current[j] in previous
    {
      if current[k] !in previous {
        found := true;
        return;
      }
      k := k + 1;
    }
  }

  /** The hook's state: the fetched orders, the ids of the previous fetch and
      whether the first load has happened. */
  class KitchenFeed {
    var orders: seq<KitchenOrder>
    var prevOrderIds: set<string>
    var initialLoadDone: bool

    constructor ()
      ensures orders == [] && prevOrderIds == {} && !initialLoadDone
    {
      orders, prevOrderIds, initialLoadDone := [], {}, false;
    }

    /** `fetchOrders` given the query result (None when the query failed):
        the sound plays at most once, never on the first load, and only when
        some fetched id was not in the previous snapshot, which is then
        replaced by the fetched ids. */
    method Refresh(fetched: Option<seq<KitchenOrder>>) returns (playSound: bool)
      modifies this
      ensures fetched.None? ==> !playSound && unchanged(this)
      ensures fetched.Some? ==>
        && (playSound <==> old(initialLoadDone) && exists k | 0 <= k < |fetched.value| :: fetched.value[k].id !in old(prevOrderIds))
        && prevOrderIds == (set k | 0 <= k < |fetched.value| :: fetched.value[k].id)
        && initialLoadDone
        && orders == fetched.value
    {
      playSound := false;
      if fetched.None? {
        return;
      }
      var current := fetched.value;
      var ids := OrderIds(current);
      if initialLoadDone {
        playSound := HasNewId(ids, prevOrderIds);
      }
      prevOrderIds := set k | 0 <= k < |ids| :: ids[k];
      initialLoadDone := true;
      orders := current;
    }
  }
}
