/**
 * The chat handler's use of the connection ledger: reserve, serve, settle or release, with
 * any number of requests interleaved on one ledger.
 *
 * Every `await` is a step boundary. A store call may fail before or after taking effect,
 * a failed settle is retried once, releases are best effort, and the upstream may fail at
 * any time. A request is identified by its idempotency key.
 */
module BudgetGateway {
  import opened Wrappers
  import opened ConnectionLedger
  import Overspend

  datatype Answer = Ok200 | Refused402 | LedgerUnavailable503 | Withheld503 | UpstreamError

  /** Where a request stands; `Failing` is the release in the handler's catch block. */
  datatype Phase =
    | Reserving
    | Serving
    | Settling(triesLeft: nat)
    | Unbilling
    | Recording
    | Failing
    | Answered(answer: Answer)

  datatype Request = Request(keyId: string, requestId: string, settleAttempted: bool, cost: int, phase: Phase)

  datatype System = System(ledger: Ledger, requests: map<string, Request>)

  datatype Config = Config(holdUsd: int, budgetUsd: int)

  /** A store call goes through, or fails before or after its effect. */
  datatype Fault = NoFault | FailsBefore | FailsAfter

  datatype Event =
    | Arrive(keyId: string, requestId: string)
    | ReserveCall(key: string, fault: Fault)
    | UpstreamDone(key: string, billed: bool, cost: int)
    | UpstreamFailed(key: string)
    | SettleCall(key: string, fault: Fault)
    | ReleaseCall(key: string, fault: Fault)
    | Recorded(key: string)
    | RecordFailed(key: string)

  const START := System(EMPTY, map[])

  function IdempotencyKey(keyId: string, requestId: string): string {
    "conn:" + keyId + ":" + requestId
  }

  function Moved(s: System, key: string, r: Request): System {
    s.(requests := s.requests[key := r])
  }

  /** One step of the system; an event that does not apply changes nothing. */
  function Step(cfg: Config, s: System, e: Event): System
    requires Owned(s.ledger)
  {
    match e
    case Arrive(keyId, requestId) =>
      var key := IdempotencyKey(keyId, requestId);
      if key in s.requests then s else Moved(s, key, Request(keyId, requestId, false, 0, Reserving))
    case ReserveCall(key, fault) =>
      if key !in s.requests || s.requests[key].phase != Reserving then s
      else
        var r := s.requests[key];
        var (l, reply) := AfterReserve(s.ledger, r.keyId, key, cfg.holdUsd, cfg.budgetUsd);
        var phase := if fault != NoFault then Answered(LedgerUnavailable503)
                     else if reply.allowed then Serving else Answered(Refused402);
        Moved(if fault == FailsBefore then s else s.(ledger := l), key, r.(phase := phase))
    case UpstreamDone(key, billed, cost) =>
      if key !in s.requests || s.requests[key].phase != Serving then s
      else if billed
      then Moved(s, key, s.requests[key].(settleAttempted := true, cost := NonNegative(cost), phase := Settling(2)))
      else Moved(s, key, s.requests[key].(phase := Unbilling))
    case UpstreamFailed(key) =>
      if key !in s.requests || s.requests[key].phase != Serving then s
      else Moved(s, key, s.requests[key].(phase := Failing))
    case SettleCall(key, fault) =>
      if key !in s.requests || !s.requests[key].phase.Settling? then s
      else
        var r := s.requests[key];
        var (l, out) := AfterSettle(s.ledger, key, r.cost, r.requestId);
        var phase := if fault == NoFault && out.SettleOk? then Recording
                     else if r.phase.triesLeft > 1 then Settling(r.phase.triesLeft - 1)
                     else Answered(Withheld503);
        Moved(if fault == FailsBefore then s else s.(ledger := l), key, r.(phase := phase))
    case ReleaseCall(key, fault) =>
      if key !in s.requests || s.requests[key].phase !in {Unbilling, Failing} then s
      else
        var r := s.requests[key];
        var phase := if r.phase == Unbilling then Recording else Answered(UpstreamError);
        Moved(if fault == FailsBefore then s else s.(ledger := AfterRelease(s.ledger, key)), key, r.(phase := phase))
    case Recorded(key) =>
      if key !in s.requests || s.requests[key].phase != Recording then s
      else Moved(s, key, s.requests[key].(phase := Answered(Ok200)))
    case RecordFailed(key) =>
      if key !in s.requests || s.requests[key].phase != Recording then s
      else
        var r := s.requests[key];
        Moved(s, key, r.(phase := if r.settleAttempted then Answered(UpstreamError) else Failing))
  }

  /** The ledger operation that a step performs, if any. */
  function OpOf(cfg: Config, s: System, e: Event): Option<Op> {
    match e
    case ReserveCall(key, fault) =>
      if key !in s.requests || s.requests[key].phase != Reserving || fault == FailsBefore then None
      else Some(ReserveOp(s.requests[key].keyId, key, cfg.holdUsd, cfg.budgetUsd))
    case SettleCall(key, fault) =>
      if key !in s.requests || !s.requests[key].phase.Settling? || fault == FailsBefore then None
      else Some(SettleOp(key, s.requests[key].cost, s.requests[key].requestId))
    case ReleaseCall(key, fault) =>
      if key !in s.requests || s.requests[key].phase !in {Unbilling, Failing} || fault == FailsBefore then None
      else Some(ReleaseOp(key))
    case _ => None
  }

  lemma StepIsOneOp(cfg: Config, s: System, e: Event)
    requires Owned(s.ledger)
    ensures Step(cfg, s, e).ledger
         == match OpOf(cfg, s, e) case None => s.ledger case Some(op) => Apply(s.ledger, op)
  {
  }

  function RunEvents(cfg: Config, s: System, events: seq<Event>): (s': System)
    requires Owned(s.ledger)
    ensures Owned(s'.ledger)
    decreases |events|
  {
    if events == [] then s
    else
      StepIsOneOp(cfg, s, events[0]);
      RunEvents(cfg, Step(cfg, s, events[0]), events[1..])
  }

  // ----- the invariant ----------------------------------------------------------------------

  /** What the ledger holds under a request's key, at each phase. */
  predicate Consistent(r: Request, l: Ledger, key: string) {
    var held := key in l.holds && l.holds[key].status == Held;
    var settled := IsSettled(l.holds, key);
    && (key in l.holds ==> l.holds[key].keyId == r.keyId)
    && (settled ==> r.settleAttempted)
    && (r.settleAttempted ==> held || settled)
    && match r.phase
       case Reserving => key !in l.holds
       case Serving => held && !r.settleAttempted
       case Settling(n) => r.settleAttempted && 1 <= n <= 2
       case Unbilling => held && !r.settleAttempted
       case Recording => r.settleAttempted ==> settled
       case Failing => !r.settleAttempted
       case Answered(a) => (a == Ok200 && r.settleAttempted ==> settled) && (a == Withheld503 ==> r.settleAttempted)
  }

  /** A row says what the request under its key settled. */
  predicate RowMatches(s: System, row: Row) {
    && row.idempotencyKey in s.requests
    && row.cost == s.requests[row.idempotencyKey].cost
    && row.requestId == s.requests[row.idempotencyKey].requestId
    && s.requests[row.idempotencyKey].settleAttempted
  }

  ghost predicate RowsMatch(s: System) {
    forall i :: 0 <= i < |s.ledger.rows| ==> RowMatches(s, s.ledger.rows[i])
  }

  ghost predicate Sound(s: System) {
    && Conserved(s.ledger) && NonNegativeHolds(s.ledger)
    && (forall key :: key in s.ledger.holds ==> key in s.requests)
    && (forall key :: key in s.requests ==> Consistent(s.requests[key], s.ledger, key))
    && RowsMatch(s)
  }

  function KeyOf(e: Event): string {
    match e
    case Arrive(keyId, requestId) => IdempotencyKey(keyId, requestId)
    case ReserveCall(key, _) => key
    case UpstreamDone(key, _, _) => key
    case UpstreamFailed(key) => key
    case SettleCall(key, _) => key
    case ReleaseCall(key, _) => key
    case Recorded(key) => key
    case RecordFailed(key) => key
  }

  /** A step touches one key only, in the ledger and among the requests. */
  lemma StepTouchesOneKey(cfg: Config, s: System, e: Event, other: string)
    requires Owned(s.ledger) && other != KeyOf(e)
    ensures var s' := Step(cfg, s, e);
            && (other in s'.requests <==> other in s.requests)
            && (other in s.requests ==> s'.requests[other] == s.requests[other])
            && (other in s'.ledger.holds <==> other in s.ledger.holds)
            && (other in s.ledger.holds ==> s'.ledger.holds[other] == s.ledger.holds[other])
  {
  }

  lemma StepKeepsOwnKeyConsistent(cfg: Config, s: System, e: Event)
    requires Owned(s.ledger)
    requires forall key :: key in s.ledger.holds ==> key in s.requests
    requires KeyOf(e) in s.requests ==> Consistent(s.requests[KeyOf(e)], s.ledger, KeyOf(e))
    ensures var s' := Step(cfg, s, e);
            && (KeyOf(e) in s'.ledger.holds ==> KeyOf(e) in s'.requests)
            && (KeyOf(e) in s'.requests ==> Consistent(s'.requests[KeyOf(e)], s'.ledger, KeyOf(e)))
  {
    var key := KeyOf(e);
    match e {
      case Arrive(_, _) =>
      case ReserveCall(_, fault) =>
      case SettleCall(_, fault) =>
      case ReleaseCall(_, fault) =>
      case _ =>
    }
  }

  /** A request whose settle was attempted keeps its cost and its request id. */
  lemma AttemptedStays(cfg: Config, s: System, e: Event, key: string)
    requires Owned(s.ledger)
    requires key in s.requests && s.requests[key].settleAttempted && Consistent(s.requests[key], s.ledger, key)
    ensures var s' := Step(cfg, s, e);
            && key in s'.requests && s'.requests[key].settleAttempted
            && s'.requests[key].cost == s.requests[key].cost
            && s'.requests[key].requestId == s.requests[key].requestId
  {
    if key != KeyOf(e) {
      StepTouchesOneKey(cfg, s, e, key);
    }
  }

  /** Rows are only appended, and only by a settle, with what its request settles. */
  lemma NewRowMatches(cfg: Config, s: System, e: Event)
    requires Owned(s.ledger)
    requires KeyOf(e) in s.requests ==> Consistent(s.requests[KeyOf(e)], s.ledger, KeyOf(e))
    ensures var s' := Step(cfg, s, e);
            || s'.ledger.rows == s.ledger.rows
            || exists row :: s'.ledger.rows == s.ledger.rows + [row] && RowMatches(s', row)
  {
    var s' := Step(cfg, s, e);
    if s'.ledger.rows != s.ledger.rows {
      var row := s'.ledger.rows[|s.ledger.rows|];
      assert s'.ledger.rows == s.ledger.rows + [row] && RowMatches(s', row);
    }
  }

  lemma StepKeepsRowsMatching(cfg: Config, s: System, e: Event)
    requires Sound(s)
    ensures RowsMatch(Step(cfg, s, e))
  {
    var s' := Step(cfg, s, e);
    NewRowMatches(cfg, s, e);
    forall i | 0 <= i < |s'.ledger.rows| ensures RowMatches(s', s'.ledger.rows[i]) {
      if i < |s.ledger.rows| {
        assert s'.ledger.rows[i] == s.ledger.rows[i];
        var k := s.ledger.rows[i].idempotencyKey;
        assert RowMatches(s, s.ledger.rows[i]) && Consistent(s.requests[k], s.ledger, k);
        AttemptedStays(cfg, s, e, k);
      }
    }
  }

  lemma StepKeepsBooks(cfg: Config, s: System, e: Event)
    requires Conserved(s.ledger) && NonNegativeHolds(s.ledger) && cfg.holdUsd >= 0
    ensures Conserved(Step(cfg, s, e).ledger) && NonNegativeHolds(Step(cfg, s, e).ledger)
  {
    StepIsOneOp(cfg, s, e);
    var op := OpOf(cfg, s, e);
    if op.Some? {
      ApplyConserves(s.ledger, op.value);
      ApplyKeepsHoldsNonNegative(s.ledger, op.value);
    }
  }

  lemma StepIsSound(cfg: Config, s: System, e: Event)
    requires Sound(s) && cfg.holdUsd >= 0
    ensures Sound(Step(cfg, s, e))
  {
    var s' := Step(cfg, s, e);
    StepKeepsBooks(cfg, s, e);
    StepKeepsRowsMatching(cfg, s, e);
    StepKeepsOwnKeyConsistent(cfg, s, e);
    forall key | key in s'.ledger.holds ensures key in s'.requests {
      if key != KeyOf(e) {
        StepTouchesOneKey(cfg, s, e, key);
      }
    }
    forall key | key in s'.requests ensures Consistent(s'.requests[key], s'.ledger, key) {
      if key != KeyOf(e) {
        StepTouchesOneKey(cfg, s, e, key);
        assert Consistent(s.requests[key], s.ledger, key);
      }
    }
  }

  lemma {:induction false} RunIsSound(cfg: Config, s: System, events: seq<Event>)
    requires Sound(s) && cfg.holdUsd >= 0
    ensures Sound(RunEvents(cfg, s, events))
    decreases |events|
  {
    if events != [] {
      StepIsSound(cfg, s, events[0]);
      RunIsSound(cfg, Step(cfg, s, events[0]), events[1..]);
    }
  }

  // ----- what every interleaving guarantees -------------------------------------------------

  lemma {:induction false} SomeRow(rows: seq<Row>, key: string) returns (i: nat)
    requires RowCount(rows, key) > 0
    ensures i < |rows| && rows[i].idempotencyKey == key
  {
    if rows[|rows| - 1].idempotencyKey == key {
      i := |rows| - 1;
    } else {
      i := SomeRow(rows[..|rows| - 1], key);
    }
  }

  /**
   * In every interleaving with every pattern of store failures: no key is ever charged
   * twice; a billed 200 was charged exactly once, at its own cost, to its own connection; a
   * call whose settle was never attempted was not charged; and a hold whose settle was
   * attempted is never released.
   */
  lemma ChargedExactlyWhenServed(cfg: Config, events: seq<Event>, key: string)
    requires cfg.holdUsd >= 0
    requires key in RunEvents(cfg, START, events).requests
    ensures var s := RunEvents(cfg, START, events);
            var r := s.requests[key];
            && RowCount(s.ledger.rows, key) <= 1
            && (r.phase == Answered(Ok200) && r.settleAttempted ==>
                  && RowCount(s.ledger.rows, key) == 1
                  && exists i :: 0 <= i < |s.ledger.rows| && s.ledger.rows[i] == Row(key, r.requestId, r.keyId, r.cost))
            && (!r.settleAttempted ==> RowCount(s.ledger.rows, key) == 0)
            && (r.settleAttempted ==> key in s.ledger.holds && s.ledger.holds[key].status != Released)
  {
    RunIsSound(cfg, START, events);
    var s := RunEvents(cfg, START, events);
    var r := s.requests[key];
    assert Consistent(r, s.ledger, key);
    assert RowCount(s.ledger.rows, key) == if IsSettled(s.ledger.holds, key) then 1 else 0;
    if IsSettled(s.ledger.holds, key) {
      var i := SomeRow(s.ledger.rows, key);
      assert s.ledger.rows[i] == Row(key, r.requestId, r.keyId, r.cost);
    }
  }

  /** Spent and ledger never drift, and nothing is reserved but what is held, in every interleaving. */
  lemma BooksAlwaysBalance(cfg: Config, events: seq<Event>)
    requires cfg.holdUsd >= 0
    ensures Conserved(RunEvents(cfg, START, events).ledger)
  {
    RunIsSound(cfg, START, events);
  }

  lemma {:induction false} RunIsLedgerRun(cfg: Config, s: System, events: seq<Event>, t: Overspend.Terms) returns (ops: seq<Op>)
    requires Owned(s.ledger) && Overspend.Sensible(t) && t.hold == cfg.holdUsd && t.budget == cfg.budgetUsd
    requires forall key :: key in s.requests ==> 0 <= s.requests[key].cost <= t.max
    requires forall e :: e in events && e.UpstreamDone? ==> e.cost <= t.max
    ensures RunEvents(cfg, s, events).ledger == Run(s.ledger, ops)
    ensures forall op :: op in ops ==> Overspend.Obeys(t, op)
    decreases |events|
  {
    if events == [] {
      ops := [];
    } else {
      var s', op := Step(cfg, s, events[0]), OpOf(cfg, s, events[0]);
      StepIsOneOp(cfg, s, events[0]);
      ops := RunIsLedgerRun(cfg, s', events[1..], t);
      if op.Some? {
        assert ([op.value] + ops)[1..] == ops;
        ops := [op.value] + ops;
      }
    }
  }

  /** Through the gateway, no connection ever spends more than the closed-form bound. */
  lemma GatewayNeverOverspends(cfg: Config, events: seq<Event>, t: Overspend.Terms)
    requires Overspend.Sensible(t) && t.hold == cfg.holdUsd && t.budget == cfg.budgetUsd
    requires forall e :: e in events && e.UpstreamDone? ==> e.cost <= t.max
    ensures Overspend.SpentBy(RunEvents(cfg, START, events).ledger, t.keyId) <= Overspend.MaxSpend(t)
  {
    var ops := RunIsLedgerRun(cfg, START, events, t);
    Overspend.NeverAboveMaxSpend(t, ops);
  }

  /** Where the first colon of a text stands. */
  function FirstColon(s: string): nat {
    if s == [] || s[0] == ':' then 0 else 1 + FirstColon(s[1..])
  }

  lemma {:induction false} FirstColonAfter(k: string, rest: string)
    requires ':' !in k
    ensures FirstColon(k + ":" + rest) == |k|
  {
    var s := k + ":" + rest;
    if k != [] {
      assert s[1..] == k[1..] + ":" + rest;
      FirstColonAfter(k[1..], rest);
    }
  }

  /** Connection ids contain no colon, so fresh request ids give fresh idempotency keys. */
  lemma IdempotencyKeyIsInjective(k1: string, r1: string, k2: string, r2: string)
    requires ':' !in k1 && ':' !in k2
    requires IdempotencyKey(k1, r1) == IdempotencyKey(k2, r2)
    ensures k1 == k2 && r1 == r2
  {
    var a, b := k1 + ":" + r1, k2 + ":" + r2;
    assert IdempotencyKey(k1, r1) == "conn:" + a && IdempotencyKey(k2, r2) == "conn:" + b;
    assert a == ("conn:" + a)[5..] && b == ("conn:" + b)[5..];
    FirstColonAfter(k1, r1);
    FirstColonAfter(k2, r2);
    assert k1 == a[..|k1|] && k2 == b[..|k2|];
    assert r1 == a[|k1| + 1..] && r2 == b[|k2| + 1..];
  }
}
