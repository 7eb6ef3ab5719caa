/**
 * How far a connection can overspend. A call is admitted on a fixed hold, but settled at
 * its actual cost, so `spent` may pass the budget. The bound is closed-form and holds for
 * runs of any length; it is also reached, so no smaller bound is right.
 */
module Overspend {
  import opened ConnectionLedger

  /** Budget and hold are the same on every call of the connection; a settled cost lies between 0 and `max`. */
  datatype Terms = Terms(keyId: string, budget: int, hold: int, max: int)

  predicate Sensible(t: Terms) {
    0 < t.hold <= t.max && 0 <= t.budget
  }

  predicate Obeys(t: Terms, op: Op) {
    match op
    case ReserveOp(keyId, _, amount, budget) => amount >= 0 && (keyId == t.keyId ==> amount == t.hold && budget == t.budget)
    case SettleOp(_, cost, _) => 0 <= cost <= t.max
    case ReleaseOp(_) => true
  }

  /** budget + floor(budget / hold) * (max - hold), unless not even one hold fits. */
  function MaxSpend(t: Terms): int
    requires Sensible(t)
  {
    if t.budget < t.hold then 0 else t.budget + (t.budget / t.hold) * (t.max - t.hold)
  }

  function SpentBy(l: Ledger, keyId: string): int {
    if keyId in l.budgets then l.budgets[keyId].spent else 0
  }

  // ----- the upper bound --------------------------------------------------------------------

  /** Even if every hold taken so far settles at the maximum, the bound is kept. */
  ghost predicate Bounded(t: Terms, b: Budget)
    requires Sensible(t)
  {
    && b.budget == t.budget && b.spent >= 0
    && exists n: nat :: HoldsOutstanding(t, b, n)
  }

  predicate HoldsOutstanding(t: Terms, b: Budget, n: nat)
    requires Sensible(t)
  {
    b.reserved == n * t.hold && b.spent + n * t.max <= MaxSpend(t)
  }

  ghost predicate BudgetBounded(t: Terms, l: Ledger)
    requires Sensible(t)
  {
    t.keyId in l.budgets ==> Bounded(t, l.budgets[t.keyId])
  }

  ghost predicate UniformHolds(t: Terms, l: Ledger) {
    forall key :: key in l.holds && l.holds[key].keyId == t.keyId ==> l.holds[key].amount == t.hold
  }

  ghost predicate Safe(t: Terms, l: Ledger)
    requires Sensible(t)
  {
    Conserved(l) && NonNegativeHolds(l) && UniformHolds(t, l) && BudgetBounded(t, l)
  }

  lemma MulMonotone(a: int, b: int, c: int)
    requires a <= b && 0 <= c
    ensures a * c <= b * c
  {}

  lemma QuotientIsLargest(m: int, h: int, b: int)
    requires h > 0 && m * h <= b
    ensures m <= b / h
  {
    if m > b / h {
      MulMonotone(b / h + 1, m, h);
    }
  }

  lemma AtLeastOne(n: nat, h: int)
    requires h > 0 && n * h >= h
    ensures n >= 1
  {}

  lemma OneMore(n: int, h: int)
    ensures (n + 1) * h == n * h + h
  {}

  lemma SplitMaximum(m: int, h: int, c: int)
    ensures m * c == m * h + m * (c - h)
  {}

  lemma RoomForOneMore(t: Terms, spent: int, m: nat)
    requires Sensible(t) && spent >= 0 && m >= 1
    requires spent + m * t.hold <= t.budget
    ensures spent + m * t.max <= MaxSpend(t)
  {
    QuotientIsLargest(m, t.hold, t.budget);
    MulMonotone(1, m, t.hold);
    MulMonotone(m, t.budget / t.hold, t.max - t.hold);
    SplitMaximum(m, t.hold, t.max);
  }

  lemma MaxSpendNonNegative(t: Terms)
    requires Sensible(t)
    ensures MaxSpend(t) >= 0
  {
    assert (t.budget / t.hold) * (t.max - t.hold) >= 0;
  }

  lemma ReserveStaysBounded(t: Terms, b: Budget)
    requires Sensible(t) && Bounded(t, b)
    requires b.spent + b.reserved + t.hold <= b.budget
    ensures Bounded(t, b.(reserved := b.reserved + t.hold))
  {
    var n: nat :| HoldsOutstanding(t, b, n);
    OneMore(n, t.hold);
    RoomForOneMore(t, b.spent, n + 1);
    assert HoldsOutstanding(t, b.(reserved := b.reserved + t.hold), n + 1);
  }

  lemma FreeStaysBounded(t: Terms, b: Budget, cost: int)
    requires Sensible(t) && Bounded(t, b) && 0 <= cost <= t.max
    requires b.reserved >= t.hold
    ensures Bounded(t, Freed(b, t.hold).(spent := b.spent + cost))
  {
    var n: nat :| HoldsOutstanding(t, b, n);
    AtLeastOne(n, t.hold);
    OneMore(n - 1, t.hold);
    OneMore(n - 1, t.max);
    assert HoldsOutstanding(t, Freed(b, t.hold).(spent := b.spent + cost), n - 1);
  }

  lemma ReserveOpBounded(t: Terms, l: Ledger, key: string)
    requires Sensible(t) && BudgetBounded(t, l)
    ensures BudgetBounded(t, AfterReserve(l, t.keyId, key, t.hold, t.budget).0)
  {
    var b := BudgetOf(l, t.keyId, t.budget);
    MaxSpendNonNegative(t);
    if t.keyId !in l.budgets {
      assert HoldsOutstanding(t, b, 0);
    }
    if key !in l.holds && b.spent + b.reserved + t.hold <= b.budget {
      ReserveStaysBounded(t, b);
    }
  }

  lemma SettleOpBounded(t: Terms, l: Ledger, key: string, cost: int, requestId: string)
    requires Sensible(t) && Safe(t, l) && 0 <= cost <= t.max
    ensures BudgetBounded(t, AfterSettle(l, key, cost, requestId).0)
  {
    if key in l.holds && l.holds[key].status == Held && l.holds[key].keyId == t.keyId {
      HoldIsCovered(l, key);
      FreeStaysBounded(t, l.budgets[t.keyId], cost);
    }
  }

  lemma ReleaseOpBounded(t: Terms, l: Ledger, key: string)
    requires Sensible(t) && Safe(t, l)
    ensures BudgetBounded(t, AfterRelease(l, key))
  {
    if key in l.holds && l.holds[key].status == Held && l.holds[key].keyId == t.keyId {
      var b := l.budgets[t.keyId];
      HoldIsCovered(l, key);
      FreeStaysBounded(t, b, 0);
      assert Freed(b, t.hold).(spent := b.spent + 0) == Freed(b, t.hold);
    }
  }

  lemma HoldsStayUniform(t: Terms, l: Ledger, op: Op)
    requires Owned(l) && UniformHolds(t, l) && Obeys(t, op)
    ensures UniformHolds(t, Apply(l, op))
  {
  }

  lemma StepIsSafe(t: Terms, l: Ledger, op: Op)
    requires Sensible(t) && Safe(t, l) && Obeys(t, op)
    ensures Safe(t, Apply(l, op))
  {
    ApplyConserves(l, op);
    ApplyKeepsHoldsNonNegative(l, op);
    HoldsStayUniform(t, l, op);
    match op {
      case ReserveOp(keyId, key, _, _) =>
        if keyId == t.keyId {
          ReserveOpBounded(t, l, key);
        }
      case SettleOp(key, cost, requestId) => SettleOpBounded(t, l, key, cost, requestId);
      case ReleaseOp(key) => ReleaseOpBounded(t, l, key);
    }
  }

  lemma {:induction false} RunIsSafe(t: Terms, l: Ledger, ops: seq<Op>)
    requires Sensible(t) && Safe(t, l)
    requires forall op :: op in ops ==> Obeys(t, op)
    ensures Safe(t, Run(l, ops))
    decreases |ops|
  {
    if ops != [] {
      StepIsSafe(t, l, ops[0]);
      RunIsSafe(t, Apply(l, ops[0]), ops[1..]);
    }
  }

  /** No run, however long and however interleaved with other connections, spends more than `MaxSpend`. */
  lemma NeverAboveMaxSpend(t: Terms, ops: seq<Op>)
    requires Sensible(t)
    requires forall op :: op in ops ==> Obeys(t, op)
    ensures SpentBy(Run(EMPTY, ops), t.keyId) <= MaxSpend(t)
  {
    RunIsSafe(t, EMPTY, ops);
    MaxSpendNonNegative(t);
    var l := Run(EMPTY, ops);
    if t.keyId in l.budgets {
      var b := l.budgets[t.keyId];
      var n: nat :| HoldsOutstanding(t, b, n);
      assert n * t.max >= 0;
    }
  }

  // ----- the bound is reached ---------------------------------------------------------------

  function Key(i: nat): string {
    seq(i, _ => 'k')
  }

  lemma KeysDiffer(i: nat, j: nat)
    ensures Key(i) == Key(j) <==> i == j
  {
    assert |Key(i)| == i && |Key(j)| == j;
  }

  function Reserves(t: Terms, from: nat, count: nat): seq<Op>
    decreases count
  {
    if count == 0 then [] else [ReserveOp(t.keyId, Key(from), t.hold, t.budget)] + Reserves(t, from + 1, count - 1)
  }

  function Settles(t: Terms, from: nat, count: nat): seq<Op>
    decreases count
  {
    if count == 0 then [] else [SettleOp(Key(from), t.max, "r")] + Settles(t, from + 1, count - 1)
  }

  predicate IsHeld(t: Terms, l: Ledger, i: nat) {
    Key(i) in l.holds && l.holds[Key(i)] == Hold(t.keyId, t.hold, Held)
  }

  lemma {:induction false} ReserveMany(t: Terms, l: Ledger, from: nat, count: nat)
    requires Sensible(t) && Owned(l) && t.keyId in l.budgets
    requires l.budgets[t.keyId].budget == t.budget
    requires l.budgets[t.keyId].spent + l.budgets[t.keyId].reserved + count * t.hold <= t.budget
    requires forall i: nat :: i >= from ==> Key(i) !in l.holds
    ensures var l' := Run(l, Reserves(t, from, count));
            && t.keyId in l'.budgets
            && l'.budgets[t.keyId] == l.budgets[t.keyId].(reserved := l.budgets[t.keyId].reserved + count * t.hold)
            && (forall i: nat :: from <= i < from + count ==> IsHeld(t, l', i))
            && (forall k :: k in l.holds ==> k in l'.holds && l'.holds[k] == l.holds[k])
    decreases count
  {
    if count > 0 {
      var op := ReserveOp(t.keyId, Key(from), t.hold, t.budget);
      var l1 := Apply(l, op);
      assert count * t.hold == t.hold + (count - 1) * t.hold;
      assert (count - 1) * t.hold >= 0;
      assert l1 == Holding(Opened(l, t.keyId, t.budget), t.keyId, Key(from), t.hold);
      forall i: nat | i >= from + 1 ensures Key(i) !in l1.holds {
        KeysDiffer(i, from);
      }
      ReserveMany(t, l1, from + 1, count - 1);
      var ops := Reserves(t, from, count);
      assert ops[0] == op && ops[1..] == Reserves(t, from + 1, count - 1);
      assert IsHeld(t, l1, from);
    }
  }

  lemma {:induction false} SettleMany(t: Terms, l: Ledger, from: nat, count: nat)
    requires Sensible(t) && Owned(l) && t.keyId in l.budgets
    requires l.budgets[t.keyId].reserved >= count * t.hold
    requires forall i: nat :: from <= i < from + count ==> IsHeld(t, l, i)
    ensures SpentBy(Run(l, Settles(t, from, count)), t.keyId) == l.budgets[t.keyId].spent + count * t.max
    decreases count
  {
    if count > 0 {
      assert IsHeld(t, l, from);
      var op := SettleOp(Key(from), t.max, "r");
      var l1 := Apply(l, op);
      assert count * t.hold == t.hold + (count - 1) * t.hold;
      assert count * t.max == t.max + (count - 1) * t.max;
      assert (count - 1) * t.hold >= 0;
      forall i: nat | from + 1 <= i < from + count ensures IsHeld(t, l1, i) {
        assert IsHeld(t, l, i);
        KeysDiffer(i, from);
      }
      SettleMany(t, l1, from + 1, count - 1);
      var ops := Settles(t, from, count);
      assert ops[0] == op && ops[1..] == Settles(t, from + 1, count - 1);
    }
  }

  lemma {:induction false} RunConcat(l: Ledger, a: seq<Op>, b: seq<Op>)
    requires Owned(l)
    ensures Run(l, a + b) == Run(Run(l, a), b)
    decreases |a|
  {
    if a == [] {
      assert a + b == b;
    } else {
      RunConcat(Apply(l, a[0]), a[1..], b);
      assert (a + b)[0] == a[0] && (a + b)[1..] == a[1..] + b;
    }
  }

  lemma {:induction false} BatchObeys(t: Terms, from: nat, count: nat)
    requires Sensible(t)
    ensures forall op :: op in Reserves(t, from, count) ==> Obeys(t, op)
    ensures forall op :: op in Settles(t, from, count) ==> Obeys(t, op)
    decreases count
  {
    if count > 0 {
      BatchObeys(t, from + 1, count - 1);
    }
  }

  /** One call that settles below its hold, so that the holds which still fit use up the budget exactly. */
  function Opener(t: Terms): seq<Op>
    requires Sensible(t)
  {
    [ReserveOp(t.keyId, Key(0), t.hold, t.budget), SettleOp(Key(0), t.budget % t.hold, "r")]
  }

  lemma AfterOpener(t: Terms)
    requires Sensible(t) && t.hold <= t.budget
    ensures var l := Run(EMPTY, Opener(t));
            && t.keyId in l.budgets && l.budgets[t.keyId] == Budget(t.budget, t.budget % t.hold, 0)
            && forall i: nat :: i >= 1 ==> Key(i) !in l.holds
  {
    var first, second := Opener(t)[0], Opener(t)[1];
    var l1 := Apply(EMPTY, first);
    var l2 := Apply(l1, second);
    assert Opener(t)[1..] == [second] && [second][1..] == [];
    assert Run(l1, [second]) == Run(l2, []) == l2;
    assert Run(EMPTY, Opener(t)) == l2;
    forall i: nat | i >= 1 ensures Key(i) !in l2.holds {
      KeysDiffer(i, 0);
    }
  }

  /** Some run reaches the bound, so `MaxSpend` is exactly the most a connection can spend. */
  lemma MaxSpendIsReached(t: Terms) returns (ops: seq<Op>)
    requires Sensible(t)
    ensures forall op :: op in ops ==> Obeys(t, op)
    ensures SpentBy(Run(EMPTY, ops), t.keyId) == MaxSpend(t)
  {
    if t.budget < t.hold {
      ops := [];
    } else {
      var k := t.budget / t.hold;
      var reserves, settles := Reserves(t, 1, k), Settles(t, 1, k);
      ops := Opener(t) + (reserves + settles);
      BatchObeys(t, 1, k);
      var l0 := Run(EMPTY, Opener(t));
      AfterOpener(t);
      ReserveMany(t, l0, 1, k);
      SettleMany(t, Run(l0, reserves), 1, k);
      RunConcat(EMPTY, Opener(t), reserves + settles);
      RunConcat(l0, reserves, settles);
      SplitMaximum(k, t.hold, t.max);
    }
  }
}
