/** The cash register screen (`CashRegisterPage`): the guards on the typed
    amounts before the ledger is called, the form state the handlers reset,
    and the way differences and movements are shown. An amount field is
    read with `parseFloat`; here the handlers receive its reading in cents,
    None standing for NaN. */
module CashPage {
  import opened Wrappers
  import opened Text
  import opened Money
  import opened Store
  import opened Ledger

  /** Opening accepts any number that is not negative, 0 included. */
  predicate OpeningAmountOk(parsed: Option<int>) {
    parsed.Some? && parsed.value >= 0
  }

  /** Closing accepts the same amounts as opening. */
  predicate ClosingAmountOk(parsed: Option<int>) {
    parsed.Some? && parsed.value >= 0
  }

  /** A movement needs a positive amount: 0 is refused. */
  predicate MovementAmountOk(parsed: Option<int>) {
    parsed.Some? && parsed.value > 0
  }

  /** The guards differ only at zero, which opens a session but is no movement. */
  lemma GuardsAtZero()
    ensures OpeningAmountOk(Some(0)) && ClosingAmountOk(Some(0)) && !MovementAmountOk(Some(0))
    ensures forall p: Option<int> :: MovementAmountOk(p) ==> OpeningAmountOk(p)
  {
  }

  class Page {
    var openingAmount: string
    var closingAmount: string
    var closingNotes: string
    var movAmount: string
    var movDesc: string
    var busy: bool
    var showCloseForm: bool
    const register: CashRegister

    constructor (register: CashRegister)
      ensures this.register == register
      ensures openingAmount == "" && closingAmount == "" && closingNotes == ""
      ensures movAmount == "" && movDesc == "" && !busy && !showCloseForm
    {
      this.register := register;
      openingAmount, closingAmount, closingNotes, movAmount, movDesc := "", "", "", "", "";
      busy, showCloseForm := false, false;
    }

    /** `handleOpenSession`: a bad amount is refused with a message and
        nothing else happens; otherwise the session is opened and, when that
        succeeds, the field is cleared. */
    method HandleOpenSession(db: Db, parsed: Option<int>, user: Option<string>, newId: string, now: int)
      returns (toast: Toast)
      modifies this, register, db`sessions
      ensures !OpeningAmountOk(parsed) ==>
        toast == ToastError("Ingresa un monto inicial valido")
        && db.sessions == old(db.sessions) && unchanged(this) && unchanged(register)
      ensures OpeningAmountOk(parsed) && user.None? ==>
        toast == ToastError("Error al abrir turno") && db.sessions == old(db.sessions)
        && openingAmount == old(openingAmount) && !busy && unchanged(register)
      ensures OpeningAmountOk(parsed) && user.Some? ==>
        toast == ToastSuccess("Turno abierto con $" + Fixed2(parsed.value))
        && db.sessions == old(db.sessions)
             + [SessionRow(newId, user.value, None, parsed.value, None, None, None, now, None, None)]
        && openingAmount == "" && !busy && register.Shows(db) && ActiveSession(db.sessions).Some?
      ensures OpeningAmountOk(parsed) ==>
        closingAmount == old(closingAmount) && closingNotes == old(closingNotes) && movAmount == old(movAmount)
        && movDesc == old(movDesc) && showCloseForm == old(showCloseForm)
    {
      if !OpeningAmountOk(parsed) {
        return ToastError("Ingresa un monto inicial valido");
      }
      var amount := parsed.value;
      busy := true;
      var r := register.OpenSession(db, user, amount, newId, now);
      if r.Success? {
        openingAmount := "";
        toast := ToastSuccess("Turno abierto con $" + Fixed2(amount));
      } else {
        toast := ToastError("Error al abrir turno");
      }
      busy := false;
    }

    /** `handleCloseSession`: a bad amount is refused with a message and
        nothing else happens; otherwise the session is closed with the
        form's notes and, when that succeeds, the form is cleared and
        hidden. */
    method HandleCloseSession(db: Db, parsed: Option<int>, user: Option<string>, now: int)
      returns (toast: Toast)
      modifies this, register, db`sessions
      ensures !ClosingAmountOk(parsed) ==>
        toast == ToastError("Ingresa el monto real en caja")
        && db.sessions == old(db.sessions) && unchanged(this) && unchanged(register)
      ensures ClosingAmountOk(parsed) && (old(register.active).None? || user.None?) ==>
        toast == ToastError("Error al cerrar turno") && db.sessions == old(db.sessions)
        && closingAmount == old(closingAmount) && closingNotes == old(closingNotes) && !busy
        && showCloseForm == old(showCloseForm) && unchanged(register)
      ensures ClosingAmountOk(parsed) && old(register.active).Some? && user.Some? ==>
        toast == ToastSuccess("Turno cerrado")
        && db.sessions == CloseRows(old(db.sessions), old(register.active).value.id, user.value, parsed.value,
                                    SummaryOf(old(register.active), old(register.movements)).expected,
                                    Some(old(closingNotes)), now)
        && closingAmount == "" && closingNotes == "" && !showCloseForm && !busy && register.Shows(db)
      ensures ClosingAmountOk(parsed) ==>
        openingAmount == old(openingAmount) && movAmount == old(movAmount) && movDesc == old(movDesc)
    {
      if !ClosingAmountOk(parsed) {
        return ToastError("Ingresa el monto real en caja");
      }
      var amount := parsed.value;
      busy := true;
      var r := register.CloseSession(db, amount, Some(closingNotes), user, now);
      if r.Success? {
        closingAmount := "";
        closingNotes := "";
        showCloseForm := false;
        toast := ToastSuccess("Turno cerrado");
      } else {
        toast := ToastError("Error al cerrar turno");
      }
      busy := false;
    }

    /** `handleAddMovement`: a missing, zero or negative amount is refused
        with a message and nothing else happens; otherwise the deposit or
        withdrawal is recorded with the form's description and, when that
        succeeds, the fields are cleared. */
    method HandleAddMovement(db: Db, kind: MovementType, parsed: Option<int>, user: Option<string>,
                             newId: string, now: int)
      returns (toast: Toast)
      requires kind == Deposit || kind == Withdrawal
      modifies this, register, db`movements
      ensures !MovementAmountOk(parsed) ==>
        toast == ToastError("Ingresa un monto valido")
        && db.movements == old(db.movements) && unchanged(this) && unchanged(register)
      ensures MovementAmountOk(parsed) && (old(register.active).None? || user.None?) ==>
        toast == ToastError("Error al registrar movimiento") && db.movements == old(db.movements)
        && movAmount == old(movAmount) && movDesc == old(movDesc) && !busy && unchanged(register)
      ensures MovementAmountOk(parsed) && old(register.active).Some? && user.Some? ==>
        toast == ToastSuccess((if kind == Deposit then "Deposito" else "Retiro") + " registrado")
        && db.movements == old(db.movements)
             + [MovementRow(newId, old(register.active).value.id, kind, parsed.value,
                            NullIfEmpty(Some(old(movDesc))), None, user.value, now)]
        && movAmount == "" && movDesc == "" && !busy && register.Shows(db)
      ensures MovementAmountOk(parsed) ==>
        openingAmount == old(openingAmount) && closingAmount == old(closingAmount)
        && closingNotes == old(closingNotes) && showCloseForm == old(showCloseForm)
    {
      if !MovementAmountOk(parsed) {
        return ToastError("Ingresa un monto valido");
      }
      var amount := parsed.value;
      busy := true;
      var r := register.AddMovement(db, kind, amount, Some(movDesc), user, newId, now);
      if r.Success? {
        movAmount := "";
        movDesc := "";
        toast := ToastSuccess((if kind == Deposit then "Deposito" else "Retiro") + " registrado");
      } else {
        toast := ToastError("Error al registrar movimiento");
      }
      busy := false;
    }
  }

  /** The badge of a closed session's difference: none without a
      difference, "Cuadra" at exactly 0, otherwise the amount with a '+'
      for a surplus and its own minus sign for a shortfall; the amount
      reads back as the difference. */
  function DifferenceBadge(difference: Option<int>): (r: Option<string>)
    ensures r.None? <==> difference.None?
    ensures difference == Some(0) ==> r == Some("Cuadra")
    ensures difference.Some? && difference.value > 0 ==>
      |r.value| > 2 && r.value[..2] == "+$" && ParseFixed2(r.value[2..]) == difference.value
    ensures difference.Some? && difference.value < 0 ==>
      |r.value| > 2 && r.value[..2] == "$-" && ParseFixed2(r.value[1..]) == difference.value
  {
    match difference
    case None => None
    case Some(d) =>
      if d == 0 then Some("Cuadra")
      else
        var amount := Fixed2(d);
        Fixed2RoundTrip(d);
        assert ("+$" + amount)[2..] == amount && ("$" + amount)[1..] == amount;
        Some((if d > 0 then "+" else "") + "$" + amount)
  }

  /** The amount column of a movement: '-' for a withdrawal and '+' for
      every other type, then the amount, which reads back. */
  function MovementAmountText(m: MovementRow): (r: string)
    ensures |r| > 2 && r[1] == '$'
    ensures r[0] == '-' <==> m.kind == Withdrawal
    ensures r[0] == '+' <==> m.kind != Withdrawal
    ensures ParseFixed2(r[2..]) == m.amount
  {
    var amount := Fixed2(m.amount);
    Fixed2RoundTrip(m.amount);
    var r := (if m.kind == Withdrawal then "-" else "+") + "$" + amount;
    assert r[2..] == amount;
    r
  }

  /** The stored text of a movement type. */
  function TypeName(kind: MovementType): string {
    match kind
    case Sale => "sale"
    case Deposit => "deposit"
    case Tip => "tip"
    case Withdrawal => "withdrawal"
  }

  /** `movementLabels[type] ?? { label: type }`: the known types get their
      Spanish label; any other type string is shown as it is. */
  function MovementLabel(raw: string): (r: string)
    ensures raw !in {"sale", "deposit", "tip", "withdrawal"} ==> r == raw
    ensures raw == "sale" ==> r == "Venta"
    ensures raw == "deposit" ==> r == "Deposito"
    ensures raw == "tip" ==> r == "Propina"
    ensures raw == "withdrawal" ==> r == "Retiro"
  {
    if raw == "sale" then "Venta"
    else if raw == "deposit" then "Deposito"
    else if raw == "tip" then "Propina"
    else if raw == "withdrawal" then "Retiro"
    else raw
  }

  /** Every type the ledger stores has a label of its own, different for
      each type. */
  lemma LabelsAreDistinct(a: MovementType, b: MovementType)
    ensures MovementLabel(TypeName(a)) != TypeName(a)
    ensures a != b ==> MovementLabel(TypeName(a)) != MovementLabel(TypeName(b))
  {
  }
}
