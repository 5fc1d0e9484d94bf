/** The cash register ledger (`useCashRegister`): a session is opened with
    an opening amount, collects movements (sales, deposits, tips and
    withdrawals) and is closed with a counted amount, against which the
    expected cash and the difference are stored. The hook keeps a snapshot
    of the active session and its movements, refreshed after every write. */
module Ledger {
  import opened Wrappers
  import opened Text
  import opened Store
  import opened Seqs

  datatype CashError = NoActiveSession | NotAuthenticated

  /** `movements.filter((m) => m.type === kind).reduce((s, m) => s + m.amount, 0)` */
  function SumOfType(movs: seq<MovementRow>, kind: MovementType): int
  {
    if |movs| == 0 then 0
    else
      var last := movs[|movs| - 1];
      SumOfType(movs[..|movs| - 1], kind) + (if last.kind == kind then last.amount else 0)
  }

  /** opening + sales + deposits + tips − withdrawals */
  function Expected(opening: int, movs: seq<MovementRow>): int
  {
    opening + SumOfType(movs, Sale) + SumOfType(movs, Deposit) + SumOfType(movs, Tip) - SumOfType(movs, Withdrawal)
  }

  datatype Summary = Summary(sales: int, deposits: int, tips: int, withdrawals: int, expected: int)

  /** The hook's `summary`: the per-type sums of the snapshot's movements
      and the expected cash, from an opening amount of 0 when there is no
      active session. */
  function SummaryOf(active: Option<SessionRow>, movs: seq<MovementRow>): (s: Summary)
    ensures s.sales == SumOfType(movs, Sale) && s.deposits == SumOfType(movs, Deposit)
    ensures s.tips == SumOfType(movs, Tip) && s.withdrawals == SumOfType(movs, Withdrawal)
    ensures s.expected == (if active.Some? then active.value.openingAmount else 0) + SignedSum(movs)
  {
    ExpectedIsSignedSum(if active.Some? then active.value.openingAmount else 0, movs);
    Summary(SumOfType(movs, Sale), SumOfType(movs, Deposit), SumOfType(movs, Tip), SumOfType(movs, Withdrawal),
            Expected(if active.Some? then active.value.openingAmount else 0, movs))
  }

  /** What a movement does to the cash in the drawer: withdrawals take out,
      every other type puts in. */
  function Signed(m: MovementRow): int {
    if m.kind == Withdrawal then -m.amount else m.amount
  }

  function SignedSum(movs: seq<MovementRow>): int
  {
    if |movs| == 0 then 0 else SignedSum(movs[..|movs| - 1]) + Signed(movs[|movs| - 1])
  }

  /** The per-type formula agrees with walking the movements one by one. */
  lemma {:induction false} ExpectedIsSignedSum(opening: int, movs: seq<MovementRow>)
    ensures Expected(opening, movs) == opening + SignedSum(movs)
  {
    if |movs| > 0 {
      ExpectedIsSignedSum(opening, movs[..|movs| - 1]);
    }
  }

  function TotalAmount(movs: seq<MovementRow>): int
  {
    if |movs| == 0 then 0 else TotalAmount(movs[..|movs| - 1]) + movs[|movs| - 1].amount
  }

  /** The four per-type sums partition the movements: each movement is
      counted in exactly one of them. */
  lemma {:induction false} TypesPartition(movs: seq<MovementRow>)
    ensures SumOfType(movs, Sale) + SumOfType(movs, Deposit) + SumOfType(movs, Tip) + SumOfType(movs, Withdrawal)
      == TotalAmount(movs)
  {
    if |movs| > 0 {
      TypesPartition(movs[..|movs| - 1]);
    }
  }

  /** One more movement moves the expected cash by its signed amount. */
  lemma ExpectedAfterMovement(opening: int, movs: seq<MovementRow>, m: MovementRow)
    ensures Expected(opening, movs + [m]) == Expected(opening, movs) + Signed(m)
  {
    assert (movs + [m])[..|movs|] == movs;
  }

  /** The movements of one session, in table order. */
  function MovementsOf(movs: seq<MovementRow>, sessionId: string): (r: seq<MovementRow>)
    ensures |r| <= |movs|
    ensures forall j | 0 <= j < |r| :: r[j].sessionId == sessionId
    ensures forall i | 0 <= i < |movs| && movs[i].sessionId == sessionId :: movs[i] in r
  {
    if |movs| == 0 then []
    else
      var n := |movs| - 1;
      var prev := MovementsOf(movs[..n], sessionId);
      assert forall i | 0 <= i < n :: movs[..n][i] == movs[i];
      if movs[n].sessionId == sessionId then prev + [movs[n]] else prev
  }

  /** The indices of the movements of one session, ascending. */
  function SessionPositions(movs: seq<MovementRow>, sessionId: string): (pos: seq<nat>)
    ensures forall t | 0 <= t < |pos| :: pos[t] < |movs| && movs[pos[t]].sessionId == sessionId
    ensures forall s, t | 0 <= s < t < |pos| :: pos[s] < pos[t]
    ensures forall i | 0 <= i < |movs| :: movs[i].sessionId == sessionId <==> i in pos
  {
    if |movs| == 0 then []
    else
      var n := |movs| - 1;
      var prev := SessionPositions(movs[..n], sessionId);
      assert forall i | 0 <= i < n :: movs[..n][i] == movs[i];
      if movs[n].sessionId == sessionId then prev + [n] else prev
  }

  /** A session's movements are exactly the movements at the session's
      indices, in table order. */
  lemma {:induction false} MovementsOfInOrder(movs: seq<MovementRow>, sessionId: string)
    ensures PicksAt(MovementsOf(movs, sessionId), movs, SessionPositions(movs, sessionId))
  {
    if |movs| > 0 {
      var n := |movs| - 1;
      MovementsOfInOrder(movs[..n], sessionId);
      assert forall i | 0 <= i < n :: movs[..n][i] == movs[i];
    }
  }

  /** Appending a movement of the session extends the session's list by it;
      appending one of another session leaves the list as it was. */
  lemma MovementsOfAppend(movs: seq<MovementRow>, m: MovementRow, sessionId: string)
    ensures MovementsOf(movs + [m], sessionId)
      == if m.sessionId == sessionId then MovementsOf(movs, sessionId) + [m] else MovementsOf(movs, sessionId)
  {
    assert (movs + [m])[..|movs|] == movs;
  }

  /** The row a close writes over the session: who closed it, the counted
      and expected amounts, their difference, the time and the notes. */
  function ClosedRow(s: SessionRow, user: string, closing: int, expected: int, notes: Option<string>, now: int)
    : (r: SessionRow)
    ensures r.id == s.id && r.openedBy == s.openedBy && r.openingAmount == s.openingAmount && r.openedAt == s.openedAt
    ensures r.closedAt == Some(now) && r.closedBy == Some(user)
    ensures r.closingAmount == Some(closing) && r.expectedAmount == Some(expected)
    ensures r.difference == Some(closing - expected)
    ensures r.notes == NullIfEmpty(notes)
  {
    s.(closedBy := Some(user), closingAmount := Some(closing), expectedAmount := Some(expected),
       difference := Some(closing - expected), closedAt := Some(now), notes := NullIfEmpty(notes))
  }

  /** `.update(...).eq('id', id)` on the sessions table. */
  function CloseRows(rows: seq<SessionRow>, id: string, user: string, closing: int, expected: int,
                     notes: Option<string>, now: int): (r: seq<SessionRow>)
    ensures |r| == |rows|
    ensures forall k | 0 <= k < |rows| ::
      r[k] == if rows[k].id == id then ClosedRow(rows[k], user, closing, expected, notes, now) else rows[k]
  {
    seq(|rows|, k requires 0 <= k < |rows| =>
      if rows[k].id == id then ClosedRow(rows[k], user, closing, expected, notes, now) else rows[k])
  }

  /** The hook's view of the register. */
  class CashRegister {
    var active: Option<SessionRow>
    var movements: seq<MovementRow>

    constructor ()
      ensures active.None? && movements == []
    {
      active, movements := None, [];
    }

    /** The view shows what `fetchActiveSession` reads from the tables:
        the most recently opened session without a close time, with its
        movements; with none, no movements. */
    predicate Shows(db: Db)
      reads this, db
    {
      var a := ActiveSession(db.sessions);
      && (a.None? ==> active.None? && movements == [])
      && (a.Some? ==> active == Some(db.sessions[a.value])
                      && movements == MovementsOf(db.movements, db.sessions[a.value].id))
    }

    /** `fetchActiveSession`: refreshes the view from the tables. */
    method FetchActiveSession(db: Db)
      modifies this
      ensures Shows(db)
    {
      var a := ActiveSession(db.sessions);
      if a.None? {
        active, movements := None, [];
        return;
      }
      var session := db.sessions[a.value];
      active := Some(session);
      movements := MovementsOf(db.movements, session.id);
    }

    /** `openSession`: a signed-in user opens a session with the given
        amount; the view is then refreshed. */
    method OpenSession(db: Db, user: Option<string>, openingAmount: int, newId: string, now: int)
      returns (r: Result<(), CashError>)
      modifies this, db`sessions
      ensures user.None? ==> r == Failure(NotAuthenticated) && db.sessions == old(db.sessions) && unchanged(this)
      ensures user.Some? ==> (r.Success?
        && db.sessions == old(db.sessions) + [SessionRow(newId, user.value, None, openingAmount, None, None, None, now, None, None)])
      ensures user.Some? ==> Shows(db) && ActiveSession(db.sessions).Some?
    {
      if user.None? {
        return Failure(NotAuthenticated);
      }
      db.sessions := db.sessions + [SessionRow(newId, user.value, None, openingAmount, None, None, None, now, None, None)];
      FetchActiveSession(db);
      r := Success(());
    }

    /** `closeSession`: refused without an active session or a signed-in
        user, writing nothing; otherwise the active session, and no other,
        is closed with the expected cash of the view's movements and the
        difference to the counted amount. */
    method CloseSession(db: Db, closingAmount: int, notes: Option<string>, user: Option<string>, now: int)
      returns (r: Result<(), CashError>)
      modifies this, db`sessions
      ensures old(active).None? ==> r == Failure(NoActiveSession) && db.sessions == old(db.sessions) && unchanged(this)
      ensures old(active).Some? && user.None? ==>
        r == Failure(NotAuthenticated) && db.sessions == old(db.sessions) && unchanged(this)
      ensures old(active).Some? && user.Some? ==> (r.Success?
        && db.sessions == CloseRows(old(db.sessions), old(active).value.id, user.value, closingAmount,
                                    SummaryOf(old(active), old(movements)).expected, notes, now))
      ensures old(active).Some? && user.Some? ==> Shows(db)
    {
      if active.None? {
        return Failure(NoActiveSession);
      }
      if user.None? {
        return Failure(NotAuthenticated);
      }
      var sales := SumOfType(movements, Sale);
      var deposits := SumOfType(movements, Deposit);
      var tips := SumOfType(movements, Tip);
      var withdrawals := SumOfType(movements, Withdrawal);
      var expected := active.value.openingAmount + sales + deposits + tips - withdrawals;
      db.sessions := CloseRows(db.sessions, active.value.id, user.value, closingAmount, expected, notes, now);
      FetchActiveSession(db);
      r := Success(());
    }

    /** `addMovement`: a deposit or withdrawal, refused without an active
        session or a signed-in user; otherwise one row tied to the active
        session is appended. */
    method AddMovement(db: Db, kind: MovementType, amount: int, description: Option<string>,
                       user: Option<string>, newId: string, now: int)
      returns (r: Result<(), CashError>)
      requires kind == Deposit || kind == Withdrawal
      modifies this, db`movements
      ensures old(active).None? ==> r == Failure(NoActiveSession) && db.movements == old(db.movements) && unchanged(this)
      ensures old(active).Some? && user.None? ==>
        r == Failure(NotAuthenticated) && db.movements == old(db.movements) && unchanged(this)
      ensures old(active).Some? && user.Some? ==> (r.Success?
        && db.movements == old(db.movements)
             + [MovementRow(newId, old(active).value.id, kind, amount, NullIfEmpty(description), None, user.value, now)])
      ensures old(active).Some? && user.Some? ==> Shows(db)
    {
      if active.None? {
        return Failure(NoActiveSession);
      }
      if user.None? {
        return Failure(NotAuthenticated);
      }
      db.movements := db.movements + [MovementRow(newId, active.value.id, kind, amount, NullIfEmpty(description), None, user.value, now)];
      FetchActiveSession(db);
      r := Success(());
    }
  }

  /** The closed row stores the summary's expected cash and the difference
      between the counted amount and that expected cash. */
  lemma ClosedRowMatchesSummary(rows: seq<SessionRow>, active: SessionRow, movs: seq<MovementRow>, user: string,
                                closing: int, notes: Option<string>, now: int, k: nat)
    requires k < |rows| && rows[k].id == active.id
    ensures var e := SummaryOf(Some(active), movs).expected;
      var r := CloseRows(rows, active.id, user, closing, e, notes, now)[k];
      r.expectedAmount == Some(active.openingAmount + SignedSum(movs))
      && r.difference == Some(closing - (active.openingAmount + SignedSum(movs)))
      && r.closedAt.Some?
  {
  }

  /** After a deposit or withdrawal is recorded, refreshing the view moves
      the expected cash by exactly that movement. */
  lemma {:induction false} AddMovementMovesExpected(movs: seq<MovementRow>, active: SessionRow, m: MovementRow)
    requires m.sessionId == active.id
    ensures SummaryOf(Some(active), MovementsOf(movs + [m], active.id)).expected
         == SummaryOf(Some(active), MovementsOf(movs, active.id)).expected + Signed(m)
  {
    MovementsOfAppend(movs, m, active.id);
    var before := MovementsOf(movs, active.id);
    assert (before + [m])[..|before|] == before;
  }
}
