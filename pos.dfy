/** The point-of-sale screen (`POS`): the cart's list transforms, and the
    submit handler that turns the cart and the typed table into an order. */
module Pos {
  import opened Wrappers
  import opened Text
  import opened Money
  import opened Store
  import opened Orders

  /** The product fields the cart copies. */
  datatype Product = Product(id: string, name: string, price: int)

  predicate HasProduct(cart: seq<CartItem>, productId: string) {
    exists k | 0 <= k < |cart| :: cart[k].productId == productId
  }

  /** A cart as the screen keeps it: one line per product, every quantity
      at least 1. */
  predicate WellFormedCart(cart: seq<CartItem>) {
    DistinctProducts(cart) && forall k | 0 <= k < |cart| :: cart[k].quantity >= 1
  }

  predicate DistinctProducts(cart: seq<CartItem>) {
    forall j, k | 0 <= j < k < |cart| :: cart[j].productId != cart[k].productId
  }

  /** The quantity of every line with this product raised by `delta`. */
  function Bump(cart: seq<CartItem>, productId: string, delta: int): (r: seq<CartItem>)
    ensures |r| == |cart|
    ensures forall k | 0 <= k < |cart| ::
      r[k] == if cart[k].productId == productId then cart[k].(quantity := cart[k].quantity + delta) else cart[k]
  {
    seq(|cart|, k requires 0 <= k < |cart| =>
      if cart[k].productId == productId then cart[k].(quantity := cart[k].quantity + delta) else cart[k])
  }

  /** `addToCart`: a product already in the cart gets one more unit on its
      line, every other line unchanged; a new product is appended as one
      unit at the product's price. */
  function AddToCart(cart: seq<CartItem>, p: Product): (r: seq<CartItem>)
    ensures HasProduct(cart, p.id) ==> r == Bump(cart, p.id, 1)
    ensures !HasProduct(cart, p.id) ==> r == cart + [CartItem(p.id, p.name, p.price, 1)]
  {
    if HasProduct(cart, p.id) then Bump(cart, p.id, 1) else cart + [CartItem(p.id, p.name, p.price, 1)]
  }

  /** `increment` */
  function Increment(cart: seq<CartItem>, productId: string): seq<CartItem>
  {
    Bump(cart, productId, 1)
  }

  /** The lines whose quantity is still positive, in order. */
  function KeepPositive(cart: seq<CartItem>): (r: seq<CartItem>)
    ensures |r| <= |cart|
    ensures forall k | 0 <= k < |r| :: r[k].quantity > 0
    ensures (forall k | 0 <= k < |cart| :: cart[k].quantity > 0) ==> r == cart
  {
    if |cart| == 0 then []
    else
      var n := |cart| - 1;
      var prev := KeepPositive(cart[..n]);
      assert forall j | 0 <= j < n :: cart[..n][j] == cart[j];
      if cart[n].quantity > 0 then prev + [cart[n]] else prev
  }

  /** Every line with a positive quantity is kept. */
  lemma {:induction false} KeepPositiveKeeps(cart: seq<CartItem>)
    ensures forall k | 0 <= k < |cart| && cart[k].quantity > 0 :: cart[k] in KeepPositive(cart)
  {
    if |cart| > 0 {
      var n := |cart| - 1;
      var prev := KeepPositive(cart[..n]);
      KeepPositiveKeeps(cart[..n]);
      assert KeepPositive(cart) == if cart[n].quantity > 0 then prev + [cart[n]] else prev;
      forall k | 0 <= k < n && cart[k].quantity > 0
        ensures cart[k] in KeepPositive(cart)
      {
        assert cart[..n][k] == cart[k];
      }
    }
  }

  /** `decrement`: one unit less on the product's line, and a line that
      reaches 0 is removed. */
  function Decrement(cart: seq<CartItem>, productId: string): (r: seq<CartItem>)
    ensures WellFormedCart(cart) ==> forall k | 0 <= k < |r| :: r[k].quantity >= 1
  {
    KeepPositive(Bump(cart, productId, -1))
  }

  function TotalQuantity(cart: seq<CartItem>): int
  {
    if |cart| == 0 then 0 else TotalQuantity(cart[..|cart| - 1]) + cart[|cart| - 1].quantity
  }

  lemma {:induction false} BumpTotal(cart: seq<CartItem>, productId: string, delta: int)
    requires DistinctProducts(cart)
    ensures TotalQuantity(Bump(cart, productId, delta))
      == TotalQuantity(cart) + (if HasProduct(cart, productId) then delta else 0)
  {
    if |cart| > 0 {
      var n := |cart| - 1;
      assert Bump(cart, productId, delta)[..n] == Bump(cart[..n], productId, delta);
      BumpTotal(cart[..n], productId, delta);
      if HasProduct(cart[..n], productId) {
        var j :| 0 <= j < n && cart[..n][j].productId == productId;
        assert cart[j].productId == productId;
      }
      if cart[n].productId != productId && HasProduct(cart, productId) {
        var j :| 0 <= j < |cart| && cart[j].productId == productId;
        assert cart[..n][j].productId == productId;
      }
    }
  }

  lemma AppendTotal(cart: seq<CartItem>, c: CartItem)
    ensures TotalQuantity(cart + [c]) == TotalQuantity(cart) + c.quantity
  {
    assert (cart + [c])[..|cart|] == cart;
  }

  /** Adding a product keeps the cart well formed and adds one unit to it. */
  lemma AddToCartFacts(cart: seq<CartItem>, p: Product)
    requires WellFormedCart(cart)
    ensures WellFormedCart(AddToCart(cart, p))
    ensures TotalQuantity(AddToCart(cart, p)) == TotalQuantity(cart) + 1
    ensures HasProduct(AddToCart(cart, p), p.id)
  {
    if HasProduct(cart, p.id) {
      BumpTotal(cart, p.id, 1);
      var j :| 0 <= j < |cart| && cart[j].productId == p.id;
      assert AddToCart(cart, p)[j].productId == p.id;
    } else {
      AppendTotal(cart, CartItem(p.id, p.name, p.price, 1));
      assert AddToCart(cart, p)[|cart|].productId == p.id;
    }
  }

  /** Incrementing keeps the cart well formed and adds a unit exactly when
      the product is in the cart. */
  lemma IncrementFacts(cart: seq<CartItem>, productId: string)
    requires WellFormedCart(cart)
    ensures WellFormedCart(Increment(cart, productId))
    ensures TotalQuantity(Increment(cart, productId)) == TotalQuantity(cart) + (if HasProduct(cart, productId) then 1 else 0)
  {
    BumpTotal(cart, productId, 1);
  }

  /** A product no input line has is on no kept line. */
  lemma {:induction false} KeepPositiveAvoids(cart: seq<CartItem>, productId: string)
    requires forall j | 0 <= j < |cart| :: cart[j].productId != productId
    ensures forall k | 0 <= k < |KeepPositive(cart)| :: KeepPositive(cart)[k].productId != productId
  {
    if |cart| > 0 {
      var n := |cart| - 1;
      assert forall j | 0 <= j < n :: cart[..n][j] == cart[j];
      KeepPositiveAvoids(cart[..n], productId);
    }
  }

  /** Keeping lines keeps products distinct. */
  lemma {:induction false} KeepPositiveDistinct(cart: seq<CartItem>)
    requires DistinctProducts(cart)
    ensures DistinctProducts(KeepPositive(cart))
  {
    if |cart| > 0 {
      var n := |cart| - 1;
      assert forall j | 0 <= j < n :: cart[..n][j] == cart[j];
      KeepPositiveDistinct(cart[..n]);
      KeepPositiveAvoids(cart[..n], cart[n].productId);
      var prev := KeepPositive(cart[..n]);
      var r := KeepPositive(cart);
      if cart[n].quantity > 0 {
        assert r == prev + [cart[n]];
        forall j, k | 0 <= j < k < |r|
          ensures r[j].productId != r[k].productId
        {
          assert r[j] == prev[j];
          if k == |prev| {
            assert r[k] == cart[n];
            assert prev[j].productId != cart[n].productId;
          } else {
            assert r[k] == prev[k];
            assert prev[j].productId != prev[k].productId;
          }
        }
      }
    }
  }

  /** Decrementing keeps the cart well formed. */
  lemma DecrementWellFormed(cart: seq<CartItem>, productId: string)
    requires WellFormedCart(cart)
    ensures WellFormedCart(Decrement(cart, productId))
  {
    KeepPositiveDistinct(Bump(cart, productId, -1));
  }

  /** On a well-formed cart, decrementing undoes incrementing. */
  lemma DecrementUndoesIncrement(cart: seq<CartItem>, productId: string)
    requires WellFormedCart(cart)
    ensures Decrement(Increment(cart, productId), productId) == cart
  {
    var b := Bump(Increment(cart, productId), productId, -1);
    assert b == cart;
  }

  /** Decrementing a line of one unit removes the line and nothing else. */
  lemma DecrementLastUnitRemovesLine(cart: seq<CartItem>, i: nat)
    requires WellFormedCart(cart) && i < |cart| && cart[i].quantity == 1
    ensures Decrement(cart, cart[i].productId) == cart[..i] + cart[i + 1..]
  {
    var id := cart[i].productId;
    var b := Bump(cart, id, -1);
    assert b == cart[..i] + [cart[i].(quantity := 0)] + cart[i + 1..];
    KeepPositiveSplit(cart[..i], cart[i].(quantity := 0), cart[i + 1..]);
  }

  lemma {:induction false} KeepPositiveAppend(a: seq<CartItem>, b: seq<CartItem>)
    ensures KeepPositive(a + b) == KeepPositive(a) + KeepPositive(b)
  {
    if |b| == 0 {
      assert a + b == a;
    } else {
      var n := |b| - 1;
      assert (a + b)[..|a + b| - 1] == a + b[..n];
      KeepPositiveAppend(a, b[..n]);
    }
  }

  lemma KeepPositiveSplit(a: seq<CartItem>, c: CartItem, d: seq<CartItem>)
    requires c.quantity <= 0
    requires forall k | 0 <= k < |a| :: a[k].quantity > 0
    requires forall k | 0 <= k < |d| :: d[k].quantity > 0
    ensures KeepPositive(a + [c] + d) == a + d
  {
    KeepPositiveAppend(a + [c], d);
    KeepPositiveAppend(a, [c]);
    assert [c][..0] == [];
  }

  /** The notes an order is submitted with: "Mesa " and the trimmed table
      text, or none when the text is blank. */
  function SubmitNotes(mesa: string): (r: Option<string>)
    ensures r.None? <==> forall i | 0 <= i < |mesa| :: IsJsSpace(mesa[i])
    ensures r.Some? ==> r.value == "Mesa " + Trim(mesa) && Trim(mesa) != ""
  {
    TrimEmptyIffBlank(mesa);
    var t := Trim(mesa);
    if t != "" then Some("Mesa " + t) else None
  }

  const EmDash: string := " \U{2014} "
  const NoUserMessage: string := "No se pudo identificar al usuario"
  const SubmitFailedMessage: string := "Error al registrar el pedido"

  /** `notes || fallback` */
  function NotesOr(notes: Option<string>, fallback: string): string {
    if Truthy(notes) then notes.value else fallback
  }

  /** The success message: the appended amount for an append, the order's
      total for a new order. */
  function SubmitToast(appended: bool, notes: Option<string>, total: int): (r: Toast)
    ensures r.ToastSuccess?
    ensures var amount := Fixed2(total);
      |r.message| > |amount| && r.message[|r.message| - |amount|..] == amount
    ensures appended && Truthy(notes) ==>
      r.message == "Items agregados a " + notes.value + EmDash + "+$" + Fixed2(total)
    ensures appended && !Truthy(notes) ==>
      r.message == "Items agregados a " + "orden existente" + EmDash + "+$" + Fixed2(total)
    ensures !appended && Truthy(notes) ==>
      r.message == "Pedido registrado" + EmDash + notes.value + EmDash + "Total: $" + Fixed2(total)
    ensures !appended && !Truthy(notes) ==>
      r.message == "Pedido registrado" + EmDash + "Sin mesa" + EmDash + "Total: $" + Fixed2(total)
  {
    if appended then ToastSuccess("Items agregados a " + NotesOr(notes, "orden existente") + EmDash + "+$" + Fixed2(total))
    else ToastSuccess("Pedido registrado" + EmDash + NotesOr(notes, "Sin mesa") + EmDash + "Total: $" + Fixed2(total))
  }

  /** The orders after a successful submit, and its message: the cart is
      appended to the newest open order with the same table notes, whose
      totals are recomputed, or else it becomes a new order row; its item
      rows go to that order. */
  predicate Placed(before: seq<OrderRow>, after: seq<OrderRow>, itemsBefore: seq<ItemRow>, itemsAfter: seq<ItemRow>,
                   cart: seq<CartItem>, notes: Option<string>, userId: string, orderType: OrderType,
                   newOrderId: string, itemIds: seq<string>, now: int, toast: Toast)
  {
    && toast == SubmitToast(AppendTarget(before, notes).Some?, notes, CartSubtotal(cart))
    && after == OrdersAfter(before, cart, userId, notes, orderType, newOrderId, now)
    && |itemIds| == |cart|
    && itemsAfter == itemsBefore + NewItemRows(cart, TargetId(before, notes, newOrderId), itemIds, now)
  }

  /** The screen's state: the cart, the typed table and the busy flag. */
  class PosScreen {
    var cart: seq<CartItem>
    var mesa: string
    var submitting: bool

    constructor ()
      ensures cart == [] && mesa == "" && !submitting
    {
      cart, mesa, submitting := [], "", false;
    }

    /** `clearCart` empties the cart and the table field. */
    method ClearCart()
      modifies this
      ensures cart == [] && mesa == "" && submitting == old(submitting)
    {
      cart := [];
      mesa := "";
    }

    /** `handleSubmit`: without a user nothing is written; otherwise the
        order is placed while the screen is busy. */
    method HandleSubmit(db: Db, user: Option<string>, orderType: OrderType, newOrderId: string,
                        itemIds: seq<string>, now: int)
      returns (toast: Toast)
      requires |itemIds| == |cart|
      modifies this, db`orders, db`items
      ensures user.None? ==>
        toast == ToastError(NoUserMessage)
        && db.orders == old(db.orders) && db.items == old(db.items) && unchanged(this)
      ensures user.Some? && |old(cart)| == 0 ==>
        toast == ToastError(SubmitFailedMessage)
        && db.orders == old(db.orders) && db.items == old(db.items)
        && cart == old(cart) && mesa == old(mesa) && !submitting
      ensures user.Some? && |old(cart)| > 0 ==>
        cart == [] && mesa == "" && !submitting
        && Placed(old(db.orders), db.orders, old(db.items), db.items, old(cart), SubmitNotes(old(mesa)), user.value,
                  orderType, newOrderId, itemIds, now, toast)
    {
      if user.None? {
        return ToastError(NoUserMessage);
      }
      submitting := true;
      toast := PlaceOrder(db, user.value, SubmitNotes(mesa), orderType, newOrderId, itemIds, now);
      submitting := false;
    }

    /** The `try` block of `handleSubmit`, given the notes made from the
        table field: the order is created from the cart and the notes, and
        only when that succeeds are the cart and the table field cleared.
        An empty cart is refused by the order creation, which shows as the
        error message. */
    method PlaceOrder(db: Db, userId: string, notes: Option<string>, orderType: OrderType, newOrderId: string,
                      itemIds: seq<string>, now: int)
      returns (toast: Toast)
      requires |itemIds| == |cart|
      modifies this`cart, this`mesa, db`orders, db`items
      ensures |old(cart)| == 0 ==>
        toast == ToastError(SubmitFailedMessage)
        && db.orders == old(db.orders) && db.items == old(db.items)
        && cart == old(cart) && mesa == old(mesa)
      ensures |old(cart)| > 0 ==>
        cart == [] && mesa == ""
        && Placed(old(db.orders), db.orders, old(db.items), db.items, old(cart), notes, userId, orderType,
                  newOrderId, itemIds, now, toast)
    {
      var items := cart;
      var result := CreateOrder(db, items, userId, notes, orderType, newOrderId, itemIds, now);
      if result.Success? {
        toast := SubmitToast(result.value.appended, notes, CartSubtotal(items));
        cart := [];
        mesa := "";
      } else {
        toast := ToastError(SubmitFailedMessage);
      }
    }
  }
}
