/**
 * The chat handler as it reads from top to bottom, and the proof that every interleaving
 * comes to the same for each request.
 *
 * `Handle` follows one request through its own calls: reserve, serve, settle or release,
 * record, with a catch block. It knows nothing of other requests or of the system's steps.
 * In any run the calls that a request made are picked out of the events by what `Handle`
 * waits for, and the request then stands where `Handle` says it stands.
 */
module GatewayRuns {
  import opened Wrappers
  import opened ConnectionLedger
  import opened BudgetGateway

  /** One call of the handler, with what came of it. */
  datatype Call =
    | AskedHold(fault: Fault, fits: bool)
    | Served(billed: bool, cost: int)
    | ServeFailed
    | TriedSettle(fault: Fault)
    | TriedRelease(fault: Fault)
    | Wrote(failed: bool)

  /** What the handler waits for next. */
  datatype Await = ForReserve | ForUpstream | ForSettle | ForRelease | ForRecord | Over(answer: Answer)

  /** Where the handler stands, what became of its hold, and what it charges once it has tried to. */
  datatype Place = Place(await: Await, hold: Option<Status>, charge: Option<int>)

  // ----- the handler, top to bottom ------------------------------------------------------------

  function Handle(calls: seq<Call>): Place {
    if |calls| == 0 then Place(ForReserve, None, None)
    else match calls[0]
      case AskedHold(fault, fits) =>
        var hold := if fits && fault != FailsBefore then Some(Held) else None;
        if fault != NoFault then Place(Over(LedgerUnavailable503), hold, None)
        else if !fits then Place(Over(Refused402), hold, None)
        else Serve(calls)
      case _ => Place(ForReserve, None, None)
  }

  function Serve(calls: seq<Call>): Place {
    if |calls| <= 1 then Place(ForUpstream, Some(Held), None)
    else match calls[1]
      case ServeFailed => Catch(calls, 2, Held)
      case Served(billed, cost) => if billed then Settle(calls, if cost < 0 then 0 else cost) else Unbill(calls)
      case _ => Place(ForUpstream, Some(Held), None)
  }

  /** Settles, and once more if that throws; the second throw withholds the response. */
  function Settle(calls: seq<Call>, cost: int): Place {
    if |calls| <= 2 || !calls[2].TriedSettle? then Place(ForSettle, Some(Held), Some(cost))
    else if calls[2].fault == NoFault then Record(calls, 3, Settled, Some(cost))
    else
      var status := if calls[2].fault == FailsBefore then Held else Settled;
      if |calls| <= 3 || !calls[3].TriedSettle? then Place(ForSettle, Some(status), Some(cost))
      else if calls[3].fault == NoFault then Record(calls, 4, Settled, Some(cost))
      else Place(Over(Withheld503), Some(if calls[3].fault == FailsBefore then status else Settled), Some(cost))
  }

  /** Nothing to bill: the hold is freed, as far as that works. */
  function Unbill(calls: seq<Call>): Place {
    if |calls| <= 2 || !calls[2].TriedRelease? then Place(ForRelease, Some(Held), None)
    else Record(calls, 3, if calls[2].fault == FailsBefore then Held else Released, None)
  }

  function Record(calls: seq<Call>, i: nat, status: Status, charge: Option<int>): Place {
    if |calls| <= i || !calls[i].Wrote? then Place(ForRecord, Some(status), charge)
    else if !calls[i].failed then Place(Over(Ok200), Some(status), charge)
    else if charge.Some? then Place(Over(UpstreamError), Some(status), charge)
    else Catch(calls, i + 1, status)
  }

  /** The catch block frees a hold that is still held, as far as that works, and answers with the error. */
  function Catch(calls: seq<Call>, i: nat, status: Status): Place {
    if |calls| <= i || !calls[i].TriedRelease? then Place(ForRelease, Some(status), None)
    else Place(Over(UpstreamError), Some(if status == Held && calls[i].fault != FailsBefore then Released else status), None)
  }

  // ----- the calls of one request in a run -----------------------------------------------------

  /** Does the connection's budget cover one more hold? */
  predicate Fits(cfg: Config, l: Ledger, keyId: string) {
    if keyId in l.budgets
    then l.budgets[keyId].spent + l.budgets[keyId].reserved + cfg.holdUsd <= l.budgets[keyId].budget
    else cfg.holdUsd <= cfg.budgetUsd
  }

  /** The call that an event is for the request under `key`, if the handler waits for it. */
  function CallOf(cfg: Config, l: Ledger, keyId: string, key: string, await: Await, e: Event): Option<Call> {
    match e
    case ReserveCall(k, fault) => if k == key && await == ForReserve then Some(AskedHold(fault, Fits(cfg, l, keyId))) else None
    case UpstreamDone(k, billed, cost) => if k == key && await == ForUpstream then Some(Served(billed, cost)) else None
    case UpstreamFailed(k) => if k == key && await == ForUpstream then Some(ServeFailed) else None
    case SettleCall(k, fault) => if k == key && await == ForSettle then Some(TriedSettle(fault)) else None
    case ReleaseCall(k, fault) => if k == key && await == ForRelease then Some(TriedRelease(fault)) else None
    case Recorded(k) => if k == key && await == ForRecord then Some(Wrote(false)) else None
    case RecordFailed(k) => if k == key && await == ForRecord then Some(Wrote(true)) else None
    case Arrive(_, _) => None
  }

  /** Has a request with these ids arrived? */
  predicate HasArrived(events: seq<Event>, keyId: string, requestId: string) {
    Arrive(keyId, requestId) in events
  }

  /** The calls that the handler of a request has made in a run. */
  function CallsOf(cfg: Config, events: seq<Event>, keyId: string, requestId: string): seq<Call> {
    if events == [] then []
    else
      var init, e := events[..|events| - 1], events[|events| - 1];
      var calls := CallsOf(cfg, init, keyId, requestId);
      if !HasArrived(init, keyId, requestId) then calls
      else
        match CallOf(cfg, RunEvents(cfg, START, init).ledger, keyId, "conn:" + keyId + ":" + requestId, Handle(calls).await, e)
        case Some(call) => calls + [call]
        case None => calls
  }

  // ----- every interleaving is the handler ------------------------------------------------------

  /** The phase of a request, as what its handler waits for. */
  function AwaitOf(phase: Phase): Await {
    match phase
    case Reserving => ForReserve
    case Serving => ForUpstream
    case Settling(_) => ForSettle
    case Unbilling => ForRelease
    case Failing => ForRelease
    case Recording => ForRecord
    case Answered(a) => Over(a)
  }

  function PlaceOf(s: System, key: string): Place
    requires key in s.requests
  {
    var r := s.requests[key];
    Place(AwaitOf(r.phase), if key in s.ledger.holds then Some(s.ledger.holds[key].status) else None,
          if r.settleAttempted then Some(r.cost) else None)
  }

  /** How many calls lead to a phase, and which. */
  predicate Remembers(phase: Phase, calls: seq<Call>) {
    match phase
    case Reserving => |calls| == 0
    case Serving => |calls| == 1
    case Settling(n) => if n == 2 then |calls| == 2 else |calls| == 3 && calls[2].TriedSettle? && calls[2].fault != NoFault
    case Unbilling => |calls| == 2 && calls[1].Served?
    case Recording =>
      && |calls| >= 3
      && if calls[2].TriedSettle? && calls[2].fault != NoFault then |calls| == 4 else |calls| == 3
    case Failing =>
      && |calls| >= 2
      && if calls[1].ServeFailed? then |calls| == 2 else |calls| == 4 && calls[2].TriedRelease? && calls[3] == Wrote(true)
    case Answered(_) => true
  }

  /** The request under a key is its own, and stands where the handler stands after its calls. */
  predicate StandsAt(cfg: Config, s: System, keyId: string, requestId: string, calls: seq<Call>) {
    var key := "conn:" + keyId + ":" + requestId;
    && key in s.requests && s.requests[key].keyId == keyId && s.requests[key].requestId == requestId
    && PlaceOf(s, key) == Handle(calls) && Remembers(s.requests[key].phase, calls)
    && (key in s.ledger.holds ==> s.ledger.holds[key].keyId == keyId && s.ledger.holds[key].amount == cfg.holdUsd)
  }

  /** A call that the handler waits for. */
  predicate IsCall(cfg: Config, s: System, keyId: string, requestId: string, calls: seq<Call>, e: Event, call: Call)
    requires Owned(s.ledger)
  {
    var key := "conn:" + keyId + ":" + requestId;
    && StandsAt(cfg, s, keyId, requestId, calls)
    && Consistent(s.requests[key], s.ledger, key)
    && CallOf(cfg, s.ledger, keyId, key, Handle(calls).await, e) == Some(call)
  }

  lemma OwnReserveOrServe(cfg: Config, s: System, keyId: string, requestId: string, calls: seq<Call>, e: Event, call: Call)
    requires Owned(s.ledger) && IsCall(cfg, s, keyId, requestId, calls, e, call)
    requires e.ReserveCall? || e.UpstreamDone? || e.UpstreamFailed?
    ensures StandsAt(cfg, Step(cfg, s, e), keyId, requestId, calls + [call])
  {
    assert (calls + [call])[|calls|] == call;
  }

  lemma OwnSettle(cfg: Config, s: System, keyId: string, requestId: string, calls: seq<Call>, e: Event, call: Call)
    requires Owned(s.ledger) && IsCall(cfg, s, keyId, requestId, calls, e, call) && e.SettleCall?
    ensures StandsAt(cfg, Step(cfg, s, e), keyId, requestId, calls + [call])
  {
    var after := calls + [call];
    assert forall i :: 0 <= i < |calls| ==> after[i] == calls[i];
    assert after[|calls|] == call;
  }

  lemma OwnRelease(cfg: Config, s: System, keyId: string, requestId: string, calls: seq<Call>, e: Event, call: Call)
    requires Owned(s.ledger) && IsCall(cfg, s, keyId, requestId, calls, e, call) && e.ReleaseCall?
    ensures StandsAt(cfg, Step(cfg, s, e), keyId, requestId, calls + [call])
  {
    var key, after := "conn:" + keyId + ":" + requestId, calls + [call];
    assert forall i :: 0 <= i < |calls| ==> after[i] == calls[i];
    assert after[|calls|] == call;
    if s.requests[key].phase == Unbilling {
      assert Handle(after) == Unbill(after);
    } else if |calls| == 2 {
      assert Handle(after) == Catch(after, 2, Held);
    } else {
      var status := if calls[2].fault == FailsBefore then Held else Released;
      assert Handle(calls) == Catch(calls, 4, status) && Handle(after) == Catch(after, 4, status);
    }
  }

  lemma OwnRecord(cfg: Config, s: System, keyId: string, requestId: string, calls: seq<Call>, e: Event, call: Call)
    requires Owned(s.ledger) && IsCall(cfg, s, keyId, requestId, calls, e, call) && (e.Recorded? || e.RecordFailed?)
    ensures StandsAt(cfg, Step(cfg, s, e), keyId, requestId, calls + [call])
  {
    var after := calls + [call];
    assert forall i :: 0 <= i < |calls| ==> after[i] == calls[i];
    assert after[|calls|] == call;
  }

  /** After a call that the handler waits for, the request stands after that call. */
  lemma OwnCall(cfg: Config, s: System, keyId: string, requestId: string, calls: seq<Call>, e: Event, call: Call)
    requires Owned(s.ledger) && IsCall(cfg, s, keyId, requestId, calls, e, call)
    ensures StandsAt(cfg, Step(cfg, s, e), keyId, requestId, calls + [call])
  {
    if e.SettleCall? {
      OwnSettle(cfg, s, keyId, requestId, calls, e, call);
    } else if e.ReleaseCall? {
      OwnRelease(cfg, s, keyId, requestId, calls, e, call);
    } else if e.Recorded? || e.RecordFailed? {
      OwnRecord(cfg, s, keyId, requestId, calls, e, call);
    } else {
      OwnReserveOrServe(cfg, s, keyId, requestId, calls, e, call);
    }
  }

  /** Any other event leaves the request where it stands. */
  lemma OtherEvent(cfg: Config, s: System, keyId: string, requestId: string, calls: seq<Call>, e: Event)
    requires Owned(s.ledger) && StandsAt(cfg, s, keyId, requestId, calls)
    requires CallOf(cfg, s.ledger, keyId, "conn:" + keyId + ":" + requestId, Handle(calls).await, e) == None
    ensures StandsAt(cfg, Step(cfg, s, e), keyId, requestId, calls)
  {
    var key := "conn:" + keyId + ":" + requestId;
    if KeyOf(e) != key {
      StepTouchesOneKey(cfg, s, e, key);
    }
  }

  lemma {:induction false} RunSnoc(cfg: Config, s: System, events: seq<Event>, e: Event)
    requires Owned(s.ledger)
    ensures RunEvents(cfg, s, events + [e]) == Step(cfg, RunEvents(cfg, s, events), e)
    decreases |events|
  {
    StepIsOneOp(cfg, s, (events + [e])[0]);
    if events == [] {
      assert events + [e] == [e] && [e][1..] == [];
    } else {
      assert (events + [e])[0] == events[0] && (events + [e])[1..] == events[1..] + [e];
      RunSnoc(cfg, Step(cfg, s, events[0]), events[1..], e);
    }
  }

  /** Connection ids have no colon. */
  predicate PlainIds(events: seq<Event>) {
    forall e :: e in events && e.Arrive? ==> ':' !in e.keyId
  }

  ghost predicate Tracked(cfg: Config, events: seq<Event>, keyId: string, requestId: string) {
    var s := RunEvents(cfg, START, events);
    if HasArrived(events, keyId, requestId) then StandsAt(cfg, s, keyId, requestId, CallsOf(cfg, events, keyId, requestId))
    else "conn:" + keyId + ":" + requestId !in s.requests
  }

  /** A request that has not arrived yet: only its own arrival puts it on the system. */
  lemma NotYetArrived(cfg: Config, init: seq<Event>, e: Event, keyId: string, requestId: string)
    requires cfg.holdUsd >= 0 && PlainIds(init + [e]) && ':' !in keyId
    requires !HasArrived(init, keyId, requestId) && Tracked(cfg, init, keyId, requestId)
    requires CallsOf(cfg, init, keyId, requestId) == []
    ensures Tracked(cfg, init + [e], keyId, requestId) && CallsOf(cfg, init + [e], keyId, requestId) == []
  {
    var key, s := "conn:" + keyId + ":" + requestId, RunEvents(cfg, START, init);
    assert (init + [e])[..|init|] == init && e in init + [e];
    RunSnoc(cfg, START, init, e);
    RunIsSound(cfg, START, init);
    if KeyOf(e) != key {
      StepTouchesOneKey(cfg, s, e, key);
    } else if e.Arrive? {
      IdempotencyKeyIsInjective(e.keyId, e.requestId, keyId, requestId);
    }
  }

  lemma {:induction false} RunIsTracked(cfg: Config, events: seq<Event>, keyId: string, requestId: string)
    requires cfg.holdUsd >= 0 && PlainIds(events) && ':' !in keyId
    ensures Tracked(cfg, events, keyId, requestId)
    ensures !HasArrived(events, keyId, requestId) ==> CallsOf(cfg, events, keyId, requestId) == []
  {
    if events != [] {
      var init, e := events[..|events| - 1], events[|events| - 1];
      assert events == init + [e];
      RunIsTracked(cfg, init, keyId, requestId);
      if !HasArrived(init, keyId, requestId) {
        NotYetArrived(cfg, init, e, keyId, requestId);
      } else {
        TrackedOneMore(cfg, init, e, keyId, requestId);
      }
    }
  }

  lemma TrackedOneMore(cfg: Config, init: seq<Event>, e: Event, keyId: string, requestId: string)
    requires cfg.holdUsd >= 0 && HasArrived(init, keyId, requestId) && Tracked(cfg, init, keyId, requestId)
    ensures HasArrived(init + [e], keyId, requestId) && Tracked(cfg, init + [e], keyId, requestId)
  {
    var s, calls := RunEvents(cfg, START, init), CallsOf(cfg, init, keyId, requestId);
    var key := "conn:" + keyId + ":" + requestId;
    assert (init + [e])[..|init|] == init;
    RunSnoc(cfg, START, init, e);
    RunIsSound(cfg, START, init);
    assert Consistent(s.requests[key], s.ledger, key);
    match CallOf(cfg, s.ledger, keyId, key, Handle(calls).await, e)
    case Some(call) => OwnCall(cfg, s, keyId, requestId, calls, e, call);
    case None => OtherEvent(cfg, s, keyId, requestId, calls, e);
  }

  /**
   * However many requests interleave, and whatever fails: each request is answered, its hold
   * ends up and it is charged just as its handler alone says for the calls it made itself.
   */
  lemma EveryInterleavingIsTheHandler(cfg: Config, events: seq<Event>, keyId: string, requestId: string)
    requires cfg.holdUsd >= 0 && PlainIds(events) && HasArrived(events, keyId, requestId)
    ensures var s, place := RunEvents(cfg, START, events), Handle(CallsOf(cfg, events, keyId, requestId));
            var key := "conn:" + keyId + ":" + requestId;
            && key in s.requests && PlaceOf(s, key) == place
            && (place.hold.Some? ==> s.ledger.holds[key] == Hold(keyId, cfg.holdUsd, place.hold.value))
            && RowCount(s.ledger.rows, key) == (if place.hold == Some(Settled) then 1 else 0)
            && (place.hold == Some(Settled) ==>
                  place.charge.Some? && Row(key, requestId, keyId, place.charge.value) in s.ledger.rows)
  {
    var s, key := RunEvents(cfg, START, events), "conn:" + keyId + ":" + requestId;
    assert Arrive(keyId, requestId) in events;
    RunIsTracked(cfg, events, keyId, requestId);
    RunIsSound(cfg, START, events);
    assert key == IdempotencyKey(keyId, requestId);
    ChargedExactlyWhenServed(cfg, events, key);
    assert RowCount(s.ledger.rows, key) == if IsSettled(s.ledger.holds, key) then 1 else 0;
    if IsSettled(s.ledger.holds, key) {
      assert Consistent(s.requests[key], s.ledger, key);
      var i := SomeRow(s.ledger.rows, key);
      assert RowMatches(s, s.ledger.rows[i]);
      assert s.ledger.rows[i] == Row(key, requestId, keyId, s.requests[key].cost);
    }
  }

  // ----- what the answers say --------------------------------------------------------------------

  /** The handler has just answered: its last call was one it waited for. */
  predicate JustAnswered(calls: seq<Call>) {
    |calls| > 0 && Handle(calls).await.Over? && !Handle(calls[..|calls| - 1]).await.Over?
  }

  lemma {:induction false} CallsEndWithTheAnswer(cfg: Config, events: seq<Event>, keyId: string, requestId: string)
    ensures var calls := CallsOf(cfg, events, keyId, requestId); Handle(calls).await.Over? ==> JustAnswered(calls)
  {
    if events != [] {
      var init := events[..|events| - 1];
      var calls, now := CallsOf(cfg, init, keyId, requestId), CallsOf(cfg, events, keyId, requestId);
      CallsEndWithTheAnswer(cfg, init, keyId, requestId);
      if now != calls {
        assert now == calls + [now[|calls|]];
        assert now[..|now| - 1] == calls;
      }
    }
  }

  predicate FailsOrFaults(c: Call) {
    match c
    case AskedHold(fault, fits) => fault != NoFault || !fits
    case Served(_, _) => false
    case ServeFailed => true
    case TriedSettle(fault) => fault != NoFault
    case TriedRelease(fault) => fault != NoFault
    case Wrote(failed) => failed
  }

  /** A call after which a hold may stay held without being charged. */
  predicate LeavesHeld(c: Call) {
    (c.AskedHold? && c.fault == FailsAfter) || c == TriedRelease(FailsBefore)
  }

  /**
   * What an answer says about the calls: a 200 that the upstream finished, did not fail, and
   * is billed only when it is to be; an upstream failure is answered as such; a hold that is
   * not charged is not left held but by a fault; and without failure or fault it is a 200.
   */
  lemma AnswersSayWhatHappened(calls: seq<Call>)
    requires JustAnswered(calls)
    ensures var place := Handle(calls);
            var a := place.await.answer;
            && (a == LedgerUnavailable503 <==> calls[0].AskedHold? && calls[0].fault != NoFault)
            && (a == Refused402 <==> calls[0] == AskedHold(NoFault, false))
            && (a == Ok200 ==> ServeFailed !in calls && |calls| > 1 && calls[1].Served? && (calls[1].billed <==> place.hold == Some(Settled)))
            && (ServeFailed in calls ==> a == UpstreamError && place.charge == None)
            && (a == UpstreamError ==> ServeFailed in calls || Wrote(true) in calls)
            && (a == Withheld503 ==> exists i, k :: 0 <= i < k < |calls| && calls[i].TriedSettle? && calls[k].TriedSettle? && FailsOrFaults(calls[i]) && FailsOrFaults(calls[k]))
            && (place.charge == None && place.hold == Some(Held) ==> exists c :: c in calls && LeavesHeld(c))
            && ((forall c :: c in calls ==> !FailsOrFaults(c)) ==> a == Ok200)
  {
    var init := calls[..|calls| - 1];
    assert forall i :: 0 <= i < |init| ==> init[i] == calls[i];
    assert |calls| <= 5;
    assert forall i :: 0 <= i < |calls| ==> calls[i] in calls;
  }

  /** The event that a call of the request under `key` stands for. */
  ghost predicate IsEvent(events: seq<Event>, key: string, c: Call) {
    match c
    case AskedHold(fault, _) => ReserveCall(key, fault) in events
    case Served(billed, cost) => UpstreamDone(key, billed, cost) in events
    case ServeFailed => UpstreamFailed(key) in events
    case TriedSettle(fault) => SettleCall(key, fault) in events
    case TriedRelease(fault) => ReleaseCall(key, fault) in events
    case Wrote(failed) => (if failed then RecordFailed(key) else Recorded(key)) in events
  }

  lemma {:induction false} CallsAreEvents(cfg: Config, events: seq<Event>, keyId: string, requestId: string, c: Call)
    requires c in CallsOf(cfg, events, keyId, requestId)
    ensures IsEvent(events, "conn:" + keyId + ":" + requestId, c)
  {
    var init, e := events[..|events| - 1], events[|events| - 1];
    assert events == init + [e];
    if c in CallsOf(cfg, init, keyId, requestId) {
      CallsAreEvents(cfg, init, keyId, requestId, c);
    }
  }

  /**
   * For every run and every request that is answered in it: a 200 means that its upstream
   * finished, and a hold is left held without a charge only where its own reserve or release
   * was faulted; without any failure, fault or refusal of its own it is answered 200.
   */
  lemma AnsweredRequests(cfg: Config, events: seq<Event>, keyId: string, requestId: string)
    requires cfg.holdUsd >= 0 && PlainIds(events) && HasArrived(events, keyId, requestId)
    requires Handle(CallsOf(cfg, events, keyId, requestId)).await.Over?
    ensures var s, key := RunEvents(cfg, START, events), "conn:" + keyId + ":" + requestId;
            key in s.requests && s.requests[key].phase.Answered?
            && var r, calls := s.requests[key], CallsOf(cfg, events, keyId, requestId);
               && (r.phase.answer == Ok200 ==> exists billed, cost :: UpstreamDone(key, billed, cost) in events)
               && (ServeFailed in calls ==> r.phase.answer == UpstreamError)
               && (!r.settleAttempted && key in s.ledger.holds && s.ledger.holds[key].status == Held ==>
                     ReserveCall(key, FailsAfter) in events || ReleaseCall(key, FailsBefore) in events)
               && (r.phase.answer != Ok200 ==> exists c :: c in calls && FailsOrFaults(c) && IsEvent(events, key, c))
  {
    var s, key := RunEvents(cfg, START, events), "conn:" + keyId + ":" + requestId;
    var calls := CallsOf(cfg, events, keyId, requestId);
    EveryInterleavingIsTheHandler(cfg, events, keyId, requestId);
    CallsEndWithTheAnswer(cfg, events, keyId, requestId);
    AnswersSayWhatHappened(calls);
    forall c | c in calls ensures IsEvent(events, key, c) {
      CallsAreEvents(cfg, events, keyId, requestId, c);
    }
    if s.requests[key].phase.answer == Ok200 {
      assert calls[1] in calls && IsEvent(events, key, calls[1]);
      assert UpstreamDone(key, calls[1].billed, calls[1].cost) in events;
    }
  }

  /** Nothing stands in the way of a request whose calls all go through. */
  lemma UnfaultedStoryIsServed(billed: bool, cost: int)
    ensures var bill := if billed then TriedSettle(NoFault) else TriedRelease(NoFault);
            Handle([AskedHold(NoFault, true), Served(billed, cost), bill, Wrote(false)])
            == Place(Over(Ok200), Some(if billed then Settled else Released), if billed then Some(if cost < 0 then 0 else cost) else None)
  {
  }
}
