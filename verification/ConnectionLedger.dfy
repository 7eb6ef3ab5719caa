/** Sums over the values of a finite map, independent of any order. */
module MapSums {

  ghost function Sum<K(!new)>(m: map<K, int>): int {
    if m == map[] then 0 else
      var k :| k in m;
      m[k] + Sum(m - {k})
  }

  lemma {:induction false} SumRemove<K(!new)>(m: map<K, int>, k: K)
    requires k in m
    ensures Sum(m) == m[k] + Sum(m - {k})
    decreases |m|
  {
    var j :| j in m && Sum(m) == m[j] + Sum(m - {j});
    if j != k {
      SumRemove(m - {j}, k);
      SumRemove(m - {k}, j);
      assert m - {j} - {k} == m - {k} - {j};
    }
  }

  lemma SumAdd<K(!new)>(m: map<K, int>, k: K, v: int)
    requires k !in m
    ensures Sum(m[k := v]) == Sum(m) + v
  {
    SumRemove(m[k := v], k);
    assert m[k := v] - {k} == m;
  }

  lemma {:induction false} SumNonNegative<K(!new)>(m: map<K, int>)
    requires forall k :: k in m ==> m[k] >= 0
    ensures Sum(m) >= 0
    decreases |m|
  {
    if m != map[] {
      var k :| k in m && Sum(m) == m[k] + Sum(m - {k});
      SumNonNegative(m - {k});
    }
  }
}

/**
 * The lifetime budget of a connection: reserve, settle and release on one shared ledger.
 *
 * Money is counted in units of 1e-10 USD, the store's own rounding, so it is exact here.
 */
module ConnectionLedger {
  import opened Wrappers
  import opened MapSums

  datatype Status = Held | Settled | Released

  datatype Budget = Budget(budget: int, spent: int, reserved: int)

  datatype Hold = Hold(keyId: string, amount: int, status: Status)

  datatype Row = Row(idempotencyKey: string, requestId: string, keyId: string, cost: int)

  datatype Ledger = Ledger(budgets: map<string, Budget>, holds: map<string, Hold>, rows: seq<Row>)

  const EMPTY := Ledger(map[], map[], [])

  datatype Reply = Reply(allowed: bool, spent: int, budget: int)

  datatype Drift = Drift(keyId: string, spent: int, ledgerSum: int, drift: int, reserved: int)

  datatype SettleError = WriteFailed | NoHold | HoldReleased

  datatype Settlement = SettleOk(spent: int, budget: int) | SettleFailed(error: SettleError)

  function NonNegative(x: int): int {
    if x < 0 then 0 else x
  }

  function BudgetOf(l: Ledger, keyId: string, budget: int): Budget {
    if keyId in l.budgets then l.budgets[keyId] else Budget(budget, 0, 0)
  }

  function Opened(l: Ledger, keyId: string, budget: int): Ledger {
    l.(budgets := l.budgets[keyId := BudgetOf(l, keyId, budget)])
  }

  function Holding(l: Ledger, keyId: string, key: string, amount: int): Ledger
    requires keyId in l.budgets
  {
    var b := l.budgets[keyId];
    l.(budgets := l.budgets[keyId := b.(reserved := b.reserved + amount)],
       holds := l.holds[key := Hold(keyId, amount, Held)])
  }

  /** Check and hold; a known idempotency key is allowed without holding again. */
  function AfterReserve(l: Ledger, keyId: string, key: string, amount: int, budget: int): (Ledger, Reply) {
    var b := BudgetOf(l, keyId, budget);
    var l1 := Opened(l, keyId, budget);
    if key in l.holds then (l1, Reply(true, b.spent, b.budget))
    else if b.spent + b.reserved + amount > b.budget then (l1, Reply(false, b.spent, b.budget))
    else (Holding(l1, keyId, key, amount), Reply(true, b.spent, b.budget))
  }

  /** Frees what a hold reserved, never below zero. */
  function Freed(b: Budget, amount: int): Budget {
    b.(reserved := NonNegative(b.reserved - amount))
  }

  /** Every hold belongs to a known connection: the store only creates holds next to their budget. */
  ghost predicate Owned(l: Ledger) {
    forall key :: key in l.holds ==> l.holds[key].keyId in l.budgets
  }

  /** Turns a hold into spend and one ledger row. */
  function Settling(l: Ledger, key: string, cost: int, requestId: string): Ledger
    requires Owned(l) && key in l.holds
  {
    var h := l.holds[key];
    var b := l.budgets[h.keyId];
    Ledger(l.budgets[h.keyId := Freed(b, h.amount).(spent := b.spent + cost)],
           l.holds[key := h.(status := Settled)],
           l.rows + [Row(key, requestId, h.keyId, cost)])
  }

  function Releasing(l: Ledger, key: string): Ledger
    requires Owned(l) && key in l.holds
  {
    var h := l.holds[key];
    Ledger(l.budgets[h.keyId := Freed(l.budgets[h.keyId], h.amount)],
           l.holds[key := h.(status := Released)],
           l.rows)
  }

  function AfterSettle(l: Ledger, key: string, cost: int, requestId: string): (Ledger, Settlement)
    requires Owned(l)
  {
    if key !in l.holds then (l, SettleFailed(NoHold))
    else
      var b := l.budgets[l.holds[key].keyId];
      match l.holds[key].status
      case Released => (l, SettleFailed(HoldReleased))
      case Settled => (l, SettleOk(b.spent, b.budget))
      case Held => (Settling(l, key, cost, requestId), SettleOk(b.spent + cost, b.budget))
  }

  function AfterRelease(l: Ledger, key: string): Ledger
    requires Owned(l)
  {
    if key in l.holds && l.holds[key].status == Held then Releasing(l, key) else l
  }

  function RowSum(rows: seq<Row>, keyId: string): int {
    if rows == [] then 0
    else RowSum(rows[..|rows| - 1], keyId) + (if rows[|rows| - 1].keyId == keyId then rows[|rows| - 1].cost else 0)
  }

  /** How many ledger rows carry an idempotency key. */
  function RowCount(rows: seq<Row>, key: string): nat {
    if rows == [] then 0
    else RowCount(rows[..|rows| - 1], key) + (if rows[|rows| - 1].idempotencyKey == key then 1 else 0)
  }

  /** The memory store, method by method as the source writes it. */
  class MemoryConnectionLedgerStore {
    var budgets: map<string, Budget>
    var holds: map<string, Hold>
    var ledger: seq<Row>
    /** Test hook: how many of the next settles throw. */
    var failSettles: int

    ghost function View(): Ledger
      reads this
    {
      Ledger(budgets, holds, ledger)
    }

    constructor ()
      ensures View() == EMPTY && failSettles == 0
    {
      budgets, holds, ledger, failSettles := map[], map[], [], 0;
    }

    method Reserve(keyId: string, key: string, amount: int, budget: int) returns (reply: Reply)
      modifies this
      ensures (View(), reply) == AfterReserve(old(View()), keyId, key, amount, budget)
      ensures failSettles == old(failSettles)
    {
      var b := if keyId in budgets then budgets[keyId] else Budget(budget, 0, 0);
      budgets := budgets[keyId := b];
      if key in holds {
        return Reply(true, b.spent, b.budget);
      }
      if b.spent + b.reserved + amount > b.budget {
        return Reply(false, b.spent, b.budget);
      }
      b := b.(reserved := b.reserved + amount);
      budgets := budgets[keyId := b];
      holds := holds[key := Hold(keyId, amount, Held)];
      reply := Reply(true, b.spent, b.budget);
    }

    method Settle(key: string, cost: int, requestId: string) returns (out: Settlement)
      requires Owned(View())
      modifies this
      ensures old(failSettles) > 0 ==>
                View() == old(View()) && out == SettleFailed(WriteFailed) && failSettles == old(failSettles) - 1
      ensures old(failSettles) <= 0 ==>
                (View(), out) == AfterSettle(old(View()), key, cost, requestId) && failSettles == old(failSettles)
    {
      if failSettles > 0 {
        failSettles := failSettles - 1;
        return SettleFailed(WriteFailed);
      }
      if key !in holds {
        return SettleFailed(NoHold);
      }
      var h := holds[key];
      var b := budgets[h.keyId];
      if h.status == Released {
        return SettleFailed(HoldReleased);
      }
      if h.status == Held {
        b := b.(reserved := NonNegative(b.reserved - h.amount));
        b := b.(spent := b.spent + cost);
        budgets := budgets[h.keyId := b];
        ledger := ledger + [Row(key, requestId, h.keyId, cost)];
        holds := holds[key := h.(status := Settled)];
      }
      out := SettleOk(b.spent, b.budget);
    }

    method Release(key: string)
      requires Owned(View())
      modifies this
      ensures View() == AfterRelease(old(View()), key)
      ensures failSettles == old(failSettles)
    {
      if key !in holds || holds[key].status != Held {
        return;
      }
      var h := holds[key];
      var b := budgets[h.keyId];
      budgets := budgets[h.keyId := b.(reserved := NonNegative(b.reserved - h.amount))];
      holds := holds[key := h.(status := Released)];
    }

    method FindDrift(keyId: string) returns (d: Option<Drift>)
      ensures d == if keyId !in budgets then None
                   else Some(Drift(keyId, budgets[keyId].spent, RowSum(ledger, keyId),
                                   budgets[keyId].spent - RowSum(ledger, keyId), budgets[keyId].reserved))
      ensures Conserved(View()) && keyId in budgets ==> d.value.drift == 0
    {
      if keyId !in budgets {
        return None;
      }
      var b := budgets[keyId];
      var ledgerSum := RowSum(ledger, keyId);
      d := Some(Drift(keyId, b.spent, ledgerSum, b.spent - ledgerSum, b.reserved));
    }
  }

  // ----- conservation ---------------------------------------------------------------------

  function HeldAmounts(holds: map<string, Hold>, keyId: string): map<string, int> {
    map key | key in holds && holds[key].keyId == keyId && holds[key].status == Held :: holds[key].amount
  }

  ghost predicate ReservedIsHeld(budgets: map<string, Budget>, holds: map<string, Hold>) {
    forall id :: id in budgets ==> budgets[id].reserved == Sum(HeldAmounts(holds, id))
  }

  ghost predicate SpentIsInLedger(budgets: map<string, Budget>, rows: seq<Row>) {
    forall id :: id in budgets ==> budgets[id].spent == RowSum(rows, id)
  }

  predicate IsSettled(holds: map<string, Hold>, key: string) {
    key in holds && holds[key].status == Settled
  }

  ghost predicate RowsAreSettledHolds(holds: map<string, Hold>, rows: seq<Row>) {
    && (forall key :: RowCount(rows, key) == if IsSettled(holds, key) then 1 else 0)
    && (forall i :: 0 <= i < |rows| ==>
          rows[i].idempotencyKey in holds && holds[rows[i].idempotencyKey].keyId == rows[i].keyId)
  }

  /**
   * The books balance: what is reserved is what is held, what is spent is what is in the
   * ledger, and ledger rows are the settled holds, one to one.
   */
  ghost predicate Conserved(l: Ledger) {
    && Owned(l)
    && ReservedIsHeld(l.budgets, l.holds)
    && SpentIsInLedger(l.budgets, l.rows)
    && RowsAreSettledHolds(l.holds, l.rows)
  }

  ghost predicate NonNegativeHolds(l: Ledger) {
    forall key :: key in l.holds ==> l.holds[key].amount >= 0
  }

  lemma HeldAdded(holds: map<string, Hold>, key: string, h: Hold, id: string)
    requires key !in holds && h.status == Held
    ensures Sum(HeldAmounts(holds[key := h], id)) == Sum(HeldAmounts(holds, id)) + (if h.keyId == id then h.amount else 0)
  {
    var was, now := HeldAmounts(holds, id), HeldAmounts(holds[key := h], id);
    if h.keyId == id {
      assert now == was[key := h.amount];
      SumAdd(was, key, h.amount);
    } else {
      assert now == was;
    }
  }

  lemma HeldRemoved(holds: map<string, Hold>, key: string, status: Status, id: string)
    requires key in holds && holds[key].status == Held && status != Held
    ensures Sum(HeldAmounts(holds[key := holds[key].(status := status)], id))
         == Sum(HeldAmounts(holds, id)) - (if holds[key].keyId == id then holds[key].amount else 0)
  {
    var was, now := HeldAmounts(holds, id), HeldAmounts(holds[key := holds[key].(status := status)], id);
    if holds[key].keyId == id {
      assert now == was - {key};
      SumRemove(was, key);
    } else {
      assert now == was;
    }
  }

  /** What one hold reserves is covered by what its connection has reserved, so freeing it is exact. */
  lemma HoldIsCovered(l: Ledger, key: string)
    requires Conserved(l) && NonNegativeHolds(l)
    requires key in l.holds && l.holds[key].status == Held
    ensures l.budgets[l.holds[key].keyId].reserved >= l.holds[key].amount
  {
    var held := HeldAmounts(l.holds, l.holds[key].keyId);
    SumRemove(held, key);
    SumNonNegative(held - {key});
  }

  /** Changing the status of a hold, or adding one, that is not settled before or after leaves the rows as they are. */
  lemma UnsettledHoldKeepsRows(holds: map<string, Hold>, key: string, h: Hold, rows: seq<Row>)
    requires RowsAreSettledHolds(holds, rows)
    requires h.status != Settled && (key in holds ==> holds[key].status != Settled && holds[key].keyId == h.keyId)
    ensures RowsAreSettledHolds(holds[key := h], rows)
  {
    forall k ensures RowCount(rows, k) == if IsSettled(holds[key := h], k) then 1 else 0 {
      assert IsSettled(holds[key := h], k) == IsSettled(holds, k);
    }
  }

  lemma HoldIsReserved(budgets: map<string, Budget>, holds: map<string, Hold>, keyId: string, key: string, amount: int)
    requires ReservedIsHeld(budgets, holds) && keyId in budgets && key !in holds
    ensures ReservedIsHeld(budgets[keyId := budgets[keyId].(reserved := budgets[keyId].reserved + amount)],
                           holds[key := Hold(keyId, amount, Held)])
  {
    forall id | id in budgets
      ensures Sum(HeldAmounts(holds[key := Hold(keyId, amount, Held)], id)) == Sum(HeldAmounts(holds, id)) + (if keyId == id then amount else 0)
    {
      HeldAdded(holds, key, Hold(keyId, amount, Held), id);
    }
  }

  lemma HoldIsFreed(budgets: map<string, Budget>, holds: map<string, Hold>, key: string, status: Status, b: Budget)
    requires ReservedIsHeld(budgets, holds) && status != Held
    requires key in holds && holds[key].status == Held && holds[key].keyId in budgets
    requires b.reserved == budgets[holds[key].keyId].reserved - holds[key].amount
    ensures ReservedIsHeld(budgets[holds[key].keyId := b], holds[key := holds[key].(status := status)])
  {
    forall id | id in budgets
      ensures Sum(HeldAmounts(holds[key := holds[key].(status := status)], id))
           == Sum(HeldAmounts(holds, id)) - (if holds[key].keyId == id then holds[key].amount else 0)
    {
      HeldRemoved(holds, key, status, id);
    }
  }

  lemma SpendingIsRecorded(budgets: map<string, Budget>, rows: seq<Row>, row: Row, b: Budget)
    requires SpentIsInLedger(budgets, rows) && row.keyId in budgets
    requires b.spent == budgets[row.keyId].spent + row.cost
    ensures SpentIsInLedger(budgets[row.keyId := b], rows + [row])
  {
    assert (rows + [row])[..|rows + [row]| - 1] == rows;
  }

  lemma OpeningConserves(l: Ledger, keyId: string, budget: int)
    requires Conserved(l)
    ensures Conserved(Opened(l, keyId, budget))
  {
    if keyId !in l.budgets {
      NothingYet(l, keyId);
    }
  }

  lemma ReservingKeepsSpent(budgets: map<string, Budget>, rows: seq<Row>, keyId: string, reserved: int)
    requires SpentIsInLedger(budgets, rows) && keyId in budgets
    ensures SpentIsInLedger(budgets[keyId := budgets[keyId].(reserved := reserved)], rows)
  {
  }

  lemma HoldingConserves(l: Ledger, keyId: string, key: string, amount: int)
    requires Conserved(l) && keyId in l.budgets && key !in l.holds
    ensures Conserved(Holding(l, keyId, key, amount))
  {
    HoldIsReserved(l.budgets, l.holds, keyId, key, amount);
    ReservingKeepsSpent(l.budgets, l.rows, keyId, l.budgets[keyId].reserved + amount);
    UnsettledHoldKeepsRows(l.holds, key, Hold(keyId, amount, Held), l.rows);
  }

  lemma ReserveConserves(l: Ledger, keyId: string, key: string, amount: int, budget: int)
    requires Conserved(l)
    ensures Conserved(AfterReserve(l, keyId, key, amount, budget).0)
  {
    OpeningConserves(l, keyId, budget);
    if AfterReserve(l, keyId, key, amount, budget).0 != Opened(l, keyId, budget) {
      HoldingConserves(Opened(l, keyId, budget), keyId, key, amount);
    }
  }

  /** A connection without a budget record has no holds and no rows. */
  lemma NothingYet(l: Ledger, keyId: string)
    requires Conserved(l) && keyId !in l.budgets
    ensures Sum(HeldAmounts(l.holds, keyId)) == 0 && RowSum(l.rows, keyId) == 0
  {
    assert HeldAmounts(l.holds, keyId) == map[];
    NoRows(l.rows, keyId);
  }

  lemma {:induction false} NoRows(rows: seq<Row>, keyId: string)
    requires forall i :: 0 <= i < |rows| ==> rows[i].keyId != keyId
    ensures RowSum(rows, keyId) == 0
  {
    if rows != [] {
      NoRows(rows[..|rows| - 1], keyId);
    }
  }

  lemma SettlingConserves(l: Ledger, key: string, cost: int, requestId: string)
    requires Conserved(l) && key in l.holds && l.holds[key].status == Held
    requires l.budgets[l.holds[key].keyId].reserved >= l.holds[key].amount
    ensures Conserved(Settling(l, key, cost, requestId))
  {
    var id := l.holds[key].keyId;
    var row, b := Row(key, requestId, id, cost), Freed(l.budgets[id], l.holds[key].amount).(spent := l.budgets[id].spent + cost);
    HoldIsFreed(l.budgets, l.holds, key, Settled, b);
    SpendingIsRecorded(l.budgets, l.rows, row, b);
    SettledHoldAddsRow(l.holds, key, l.rows, row);
  }

  lemma SettleConserves(l: Ledger, key: string, cost: int, requestId: string)
    requires Conserved(l) && NonNegativeHolds(l)
    ensures Conserved(AfterSettle(l, key, cost, requestId).0)
  {
    if key in l.holds && l.holds[key].status == Held {
      HoldIsCovered(l, key);
      SettlingConserves(l, key, cost, requestId);
    }
  }

  lemma SettledHoldAddsRow(holds: map<string, Hold>, key: string, rows: seq<Row>, row: Row)
    requires RowsAreSettledHolds(holds, rows)
    requires key in holds && holds[key].status == Held
    requires row.idempotencyKey == key && row.keyId == holds[key].keyId
    ensures RowsAreSettledHolds(holds[key := holds[key].(status := Settled)], rows + [row])
  {
    var holds', rows' := holds[key := holds[key].(status := Settled)], rows + [row];
    assert rows'[..|rows'| - 1] == rows;
    forall k ensures RowCount(rows', k) == if IsSettled(holds', k) then 1 else 0 {
      assert RowCount(rows, k) == if IsSettled(holds, k) then 1 else 0;
    }
  }

  lemma ReleasingConserves(l: Ledger, key: string)
    requires Conserved(l) && key in l.holds && l.holds[key].status == Held
    requires l.budgets[l.holds[key].keyId].reserved >= l.holds[key].amount
    ensures Conserved(Releasing(l, key))
  {
    var b := l.budgets[l.holds[key].keyId];
    HoldIsFreed(l.budgets, l.holds, key, Released, Freed(b, l.holds[key].amount));
    ReservingKeepsSpent(l.budgets, l.rows, l.holds[key].keyId, b.reserved - l.holds[key].amount);
    UnsettledHoldKeepsRows(l.holds, key, l.holds[key].(status := Released), l.rows);
  }

  lemma ReleaseConserves(l: Ledger, key: string)
    requires Conserved(l) && NonNegativeHolds(l)
    ensures Conserved(AfterRelease(l, key))
  {
    if key in l.holds && l.holds[key].status == Held {
      HoldIsCovered(l, key);
      ReleasingConserves(l, key);
    }
  }

  // ----- runs -----------------------------------------------------------------------------

  datatype Op =
    | ReserveOp(keyId: string, key: string, amount: int, budget: int)
    | SettleOp(key: string, cost: int, requestId: string)
    | ReleaseOp(key: string)

  function Apply(l: Ledger, op: Op): (l': Ledger)
    requires Owned(l)
    ensures Owned(l')
  {
    match op
    case ReserveOp(keyId, key, amount, budget) => AfterReserve(l, keyId, key, amount, budget).0
    case SettleOp(key, cost, requestId) => AfterSettle(l, key, cost, requestId).0
    case ReleaseOp(key) => AfterRelease(l, key)
  }

  function Run(l: Ledger, ops: seq<Op>): (l': Ledger)
    requires Owned(l)
    ensures Owned(l')
    decreases |ops|
  {
    if ops == [] then l else Run(Apply(l, ops[0]), ops[1..])
  }

  lemma ApplyConserves(l: Ledger, op: Op)
    requires Conserved(l) && NonNegativeHolds(l)
    ensures Conserved(Apply(l, op))
  {
    match op {
      case ReserveOp(keyId, key, amount, budget) => ReserveConserves(l, keyId, key, amount, budget);
      case SettleOp(key, cost, requestId) => SettleConserves(l, key, cost, requestId);
      case ReleaseOp(key) => ReleaseConserves(l, key);
    }
  }

  lemma ApplyKeepsHoldsNonNegative(l: Ledger, op: Op)
    requires Owned(l) && NonNegativeHolds(l)
    requires op.ReserveOp? ==> op.amount >= 0
    ensures NonNegativeHolds(Apply(l, op))
  {
  }

  /** Every run keeps the books balanced: duplicates, repeated settles and late releases included. */
  lemma {:induction false} RunConserves(l: Ledger, ops: seq<Op>)
    requires Conserved(l) && NonNegativeHolds(l)
    requires forall op :: op in ops && op.ReserveOp? ==> op.amount >= 0
    ensures Conserved(Run(l, ops)) && NonNegativeHolds(Run(l, ops))
    decreases |ops|
  {
    if ops != [] {
      ApplyConserves(l, ops[0]);
      ApplyKeepsHoldsNonNegative(l, ops[0]);
      RunConserves(Apply(l, ops[0]), ops[1..]);
    }
  }

  // ----- what the replies say ------------------------------------------------------------------

  /** The limit that a connection was opened with, or is opened with now. */
  function LimitOf(l: Ledger, keyId: string, budget: int): int {
    if keyId in l.budgets then l.budgets[keyId].budget else budget
  }

  /**
   * While the books balance, a new hold is refused exactly when the connection's ledger rows
   * and outstanding holds leave no room for it under its first limit; a hold that is known is
   * allowed whatever the room, and nothing else about the ledger changes.
   */
  lemma RefusedExactlyWithoutRoom(l: Ledger, keyId: string, key: string, amount: int, budget: int)
    requires Conserved(l)
    ensures var (l', reply) := AfterReserve(l, keyId, key, amount, budget);
            var used := if keyId in l.budgets then RowSum(l.rows, keyId) + Sum(HeldAmounts(l.holds, keyId)) else 0;
            && (reply.allowed <==> key in l.holds || used + amount <= LimitOf(l, keyId, budget))
            && reply.budget == LimitOf(l, keyId, budget)
            && reply.spent == (if keyId in l.budgets then RowSum(l.rows, keyId) else 0)
            && l'.rows == l.rows
            && l'.holds == (if reply.allowed && key !in l.holds then l.holds[key := Hold(keyId, amount, Held)] else l.holds)
            && l'.budgets.Keys == l.budgets.Keys + {keyId} && l'.budgets[keyId].budget == reply.budget
            && forall k :: k in l.budgets && k != keyId ==> l'.budgets[k] == l.budgets[k]
  {
  }

  /**
   * A settle fails exactly when there is no hold or it was released, and then changes nothing;
   * otherwise it replies with what the connection's rows sum to now and with its limit.
   */
  lemma SettlesExactlyHeldOrSettled(l: Ledger, key: string, cost: int, requestId: string)
    requires Conserved(l) && NonNegativeHolds(l)
    ensures var (l', out) := AfterSettle(l, key, cost, requestId);
            && (key !in l.holds ==> out == SettleFailed(NoHold) && l' == l)
            && (key in l.holds && l.holds[key].status == Released ==> out == SettleFailed(HoldReleased) && l' == l)
            && (key in l.holds && l.holds[key].status == Settled ==> l' == l)
            && (key in l.holds && l.holds[key].status == Held ==> l'.rows == l.rows + [Row(key, requestId, l.holds[key].keyId, cost)])
            && (key in l.holds && l.holds[key].status != Released ==>
                  && IsSettled(l'.holds, key)
                  && out == SettleOk(RowSum(l'.rows, l.holds[key].keyId), l.budgets[l.holds[key].keyId].budget))
  {
    SettleConserves(l, key, cost, requestId);
  }

  /** The limit of a connection is that of its first reserve, in every run. */
  lemma {:induction false} LimitNeverChanges(l: Ledger, ops: seq<Op>, keyId: string)
    requires Owned(l) && keyId in l.budgets
    ensures keyId in Run(l, ops).budgets && Run(l, ops).budgets[keyId].budget == l.budgets[keyId].budget
    decreases |ops|
  {
    if ops != [] {
      LimitNeverChanges(Apply(l, ops[0]), ops[1..], keyId);
    }
  }

  // ----- negative holds ------------------------------------------------------------------------

  /** A ledger that keeps its books from the start, whatever is called. */
  ghost predicate BalancedAt(ops: seq<Op>) {
    Conserved(Run(EMPTY, ops))
  }

  /** Every reserve holds the same amount, as a gateway's configuration has it. */
  predicate Reserving(amount: int, op: Op) {
    op.ReserveOp? ==> op.amount == amount
  }

  function Losing(amount: int): seq<Op> {
    [ReserveOp("c", "a", amount, 10), ReserveOp("c", "b", amount, 10), ReleaseOp("b")]
  }

  /** With a negative hold outstanding, freeing another clamps at zero and the books no longer balance. */
  lemma NegativeHoldLosesReservation(amount: int)
    requires amount < 0
    ensures !BalancedAt(Losing(amount))
  {
    var a, b, r := ReserveOp("c", "a", amount, 10), ReserveOp("c", "b", amount, 10), ReleaseOp("b");
    var l1 := Apply(EMPTY, a);
    var l2 := Apply(l1, b);
    var l3 := Apply(l2, r);
    assert [a, b, r][1..] == [b, r] && [b, r][1..] == [r] && [r][1..] == [];
    assert Run(l2, [r]) == Run(l3, []) == l3;
    assert Run(l1, [b, r]) == Run(l2, [r]);
    assert Run(EMPTY, [a, b, r]) == Run(l1, [b, r]);
    assert l3.budgets["c"].reserved == 0;
    assert HeldAmounts(l3.holds, "c") == map["a" := amount];
    SumAdd(map[], "a", amount);
    assert map[]["a" := amount] == map["a" := amount];
  }

  /** The condition is exact: a hold amount keeps every run balanced if and only if it is not negative. */
  lemma BalancedExactlyWhenHoldNotNegative(amount: int)
    ensures (forall ops: seq<Op> :: (forall op :: op in ops ==> Reserving(amount, op)) ==> BalancedAt(ops)) <==> amount >= 0
  {
    if amount >= 0 {
      forall ops: seq<Op> | forall op :: op in ops ==> Reserving(amount, op) ensures BalancedAt(ops) {
        RunConserves(EMPTY, ops);
      }
    } else {
      NegativeHoldLosesReservation(amount);
      assert forall op :: op in Losing(amount) ==> Reserving(amount, op);
    }
  }
}
