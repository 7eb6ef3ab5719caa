/**
 * Payment deduplication: the `settled` and `inflight` maps in front of an on-chain transfer.
 *
 * `pay` runs up to its first suspension in one step. A settlement then completes in two
 * further steps, as its promise chain does: the `then` callback records a success, and the
 * `finally` callback clears the in-flight entry. Any number of calls can fall in between.
 */
module SolanaPay {
  import opened Wrappers

  datatype Requirement = Requirement(resource: string, amount: string, payTo: string, nonce: string, network: string)

  /** What a payment header proves: the requirement it was made for, and the signed transfer. */
  datatype Proof = Proof(paidFor: Requirement, signedTx: string)

  datatype PaymentResult = PaymentResult(header: Proof, reference: string, amount: string)

  datatype Stage = Running | Succeeded(result: PaymentResult) | Failed

  /** A settlement that was started, and whether its `finally` callback has run. */
  datatype Settlement = Settlement(key: string, req: Requirement, stage: Stage, cleared: bool)

  /** What a call returns: an error, a finished result, or the promise of a settlement. */
  datatype Reply = Refused | Done(result: PaymentResult) | Awaits(settlement: nat)

  datatype Call = Call(key: string, req: Requirement, reply: Reply)

  /** The two maps, and the history of settlements and calls. */
  datatype State = State(
    settled: map<string, PaymentResult>, inflight: map<string, nat>, settlements: seq<Settlement>, calls: seq<Call>)

  const START := State(map[], map[], [], [])

  /** Does the network name contain `solana`? */
  predicate OnSolana(network: string) {
    |network| >= 6 && (network[..6] == "solana" || OnSolana(network[1..]))
  }

  predicate Refuses(req: Requirement) {
    req.network != "" && !OnSolana(req.network)
  }

  function PaymentText(req: Requirement): string {
    req.resource + "|" + req.amount + "|" + req.payTo
  }

  function IdempotencyKey(req: Requirement, hash: string -> string): string {
    if req.nonce != "" then req.nonce else hash(PaymentText(req))
  }

  function AfterPay(s: State, req: Requirement, hash: string -> string): (State, Reply) {
    var key := IdempotencyKey(req, hash);
    if Refuses(req) then (Called(s, key, req, Refused), Refused)
    else if key in s.settled then (Called(s, key, req, Done(s.settled[key])), Done(s.settled[key]))
    else if key in s.inflight then (Called(s, key, req, Awaits(s.inflight[key])), Awaits(s.inflight[key]))
    else
      var id := |s.settlements|;
      (Called(s.(inflight := s.inflight[key := id], settlements := s.settlements + [Settlement(key, req, Running, false)]),
              key, req, Awaits(id)),
       Awaits(id))
  }

  function Called(s: State, key: string, req: Requirement, reply: Reply): State {
    s.(calls := s.calls + [Call(key, req, reply)])
  }

  /** The proof, the key and the amount of a finished settlement. */
  function ResultOf(key: string, req: Requirement, signedTx: string): PaymentResult {
    PaymentResult(Proof(req, signedTx), key, req.amount)
  }

  /** The transfer was signed and encoded; the `then` callback records the result. */
  function AfterSuccess(s: State, id: nat, signedTx: string): State
    requires id < |s.settlements|
  {
    var p := s.settlements[id];
    var result := ResultOf(p.key, p.req, signedTx);
    s.(settlements := s.settlements[id := p.(stage := Succeeded(result))], settled := s.settled[p.key := result])
  }

  function AfterFailure(s: State, id: nat): State
    requires id < |s.settlements|
  {
    s.(settlements := s.settlements[id := s.settlements[id].(stage := Failed)])
  }

  function AfterFinally(s: State, id: nat): State
    requires id < |s.settlements|
  {
    var p := s.settlements[id];
    s.(settlements := s.settlements[id := p.(cleared := true)], inflight := s.inflight - {p.key})
  }

  /**
   * The provider. Its fields are the two maps, and the count of promises made so far, which
   * tells promises apart; settlements and calls are history.
   */
  class SolanaPayProvider {
    var settled: map<string, PaymentResult>
    var inflight: map<string, nat>
    var promises: nat
    ghost var settlements: seq<Settlement>
    ghost var calls: seq<Call>
    const hash: string -> string

    ghost predicate Valid()
      reads this
    {
      promises == |settlements|
    }

    ghost function Now(): State
      reads this
    {
      State(settled, inflight, settlements, calls)
    }

    constructor (hash: string -> string)
      ensures Valid() && Now() == START && this.hash == hash
    {
      settled, inflight, promises := map[], map[], 0;
      settlements, calls := [], [];
      this.hash := hash;
    }

    method Pay(req: Requirement) returns (reply: Reply)
      requires Valid()
      modifies this
      ensures Valid() && (Now(), reply) == AfterPay(old(Now()), req, hash)
    {
      var key := IdempotencyKey(req, hash);
      if Refuses(req) {
        reply := Refused;
      } else if key in settled {
        reply := Done(settled[key]);
      } else if key in inflight {
        reply := Awaits(inflight[key]);
      } else {
        reply := Awaits(promises);
        inflight := inflight[key := promises];
        promises := promises + 1;
        settlements := settlements + [Settlement(key, req, Running, false)];
      }
      calls := calls + [Call(key, req, reply)];
    }

    /** The `then` callback of promise `id`, with the key and the requirement of the call that made it. */
    method OnSettled(ghost id: nat, key: string, req: Requirement, signedTx: string)
      requires Valid() && id < |settlements| && settlements[id].key == key && settlements[id].req == req
      modifies this
      ensures Valid() && Now() == AfterSuccess(old(Now()), id, signedTx)
    {
      var result := PaymentResult(Proof(req, signedTx), key, req.amount);
      settled := settled[key := result];
      settlements := settlements[id := settlements[id].(stage := Succeeded(result))];
    }

    /** A rejected promise runs no `then` callback. */
    method OnFailed(ghost id: nat)
      requires Valid() && id < |settlements|
      modifies `settlements
      ensures Valid() && Now() == AfterFailure(old(Now()), id)
    {
      settlements := settlements[id := settlements[id].(stage := Failed)];
    }

    /** The `finally` callback of promise `id`. */
    method OnFinally(ghost id: nat, key: string)
      requires Valid() && id < |settlements| && settlements[id].key == key
      modifies this
      ensures Valid() && Now() == AfterFinally(old(Now()), id)
    {
      inflight := inflight - {key};
      settlements := settlements[id := settlements[id].(cleared := true)];
    }
  }

  // ----- runs ------------------------------------------------------------------------------------

  datatype Event =
    | Pay(req: Requirement)
    | SettleSucceeds(id: nat, signedTx: string)
    | SettleFails(id: nat)
    | Finally(id: nat)

  /** One step; an event that does not apply changes nothing. */
  function Step(s: State, e: Event, hash: string -> string): State {
    match e
    case Pay(req) => AfterPay(s, req, hash).0
    case SettleSucceeds(id, signedTx) =>
      if id < |s.settlements| && s.settlements[id].stage.Running? then AfterSuccess(s, id, signedTx) else s
    case SettleFails(id) =>
      if id < |s.settlements| && s.settlements[id].stage.Running? then AfterFailure(s, id) else s
    case Finally(id) =>
      if id < |s.settlements| && !s.settlements[id].stage.Running? && !s.settlements[id].cleared then AfterFinally(s, id) else s
  }

  function Run(s: State, events: seq<Event>, hash: string -> string): State
    decreases |events|
  {
    if events == [] then s else Run(Step(s, events[0], hash), events[1..], hash)
  }

  /** A settlement is in the in-flight map until its `finally` callback runs. */
  predicate InflightOk(s: State, id: nat)
    requires id < |s.settlements|
  {
    var p := s.settlements[id];
    && (!p.cleared <==> p.key in s.inflight && s.inflight[p.key] == id)
    && (p.stage.Running? ==> !p.cleared)
  }

  /** A success is on record, under its own key and for its own amount. */
  predicate SuccessOk(s: State, id: nat)
    requires id < |s.settlements|
  {
    var p := s.settlements[id];
    p.stage.Succeeded? ==>
      && p.key in s.settled && s.settled[p.key] == p.stage.result
      && p.stage.result.reference == p.key && p.stage.result.amount == p.req.amount && p.stage.result.header.paidFor == p.req
  }

  ghost predicate CallOk(s: State, c: Call) {
    match c.reply
    case Refused => true
    case Done(r) => c.key in s.settled && s.settled[c.key] == r
    case Awaits(id) => id < |s.settlements| && s.settlements[id].key == c.key
  }

  /** The settlement that a key's recorded result came from. */
  ghost predicate SettledBy(s: State, key: string, result: PaymentResult) {
    exists id :: 0 <= id < |s.settlements| && s.settlements[id].key == key && s.settlements[id].stage == Succeeded(result)
  }

  /** Settlements of one key follow each other, and all but the last have failed. */
  ghost predicate Sequential(settlements: seq<Settlement>) {
    forall p, q :: 0 <= p < q < |settlements| && settlements[p].key == settlements[q].key ==>
      settlements[p].cleared && settlements[p].stage.Failed?
  }

  ghost predicate Sound(s: State) {
    && Sequential(s.settlements)
    && (forall id :: 0 <= id < |s.settlements| ==> InflightOk(s, id) && SuccessOk(s, id))
    && (forall key :: key in s.inflight ==> s.inflight[key] < |s.settlements| && s.settlements[s.inflight[key]].key == key)
    && (forall key :: key in s.settled ==> SettledBy(s, key, s.settled[key]))
    && (forall i :: 0 <= i < |s.calls| ==> CallOk(s, s.calls[i]))
  }

  lemma SettledBySurvives(s: State, s': State, key: string, result: PaymentResult)
    requires SettledBy(s, key, result) && |s'.settlements| >= |s.settlements|
    requires forall id :: 0 <= id < |s.settlements| && s.settlements[id].stage.Succeeded? ==>
               s'.settlements[id].key == s.settlements[id].key && s'.settlements[id].stage == s.settlements[id].stage
    ensures SettledBy(s', key, result)
  {
    var id :| 0 <= id < |s.settlements| && s.settlements[id].key == key && s.settlements[id].stage == Succeeded(result);
    assert s'.settlements[id].key == key;
  }

  /** While a settlement runs, its key has no result and no other settlement that could give one. */
  lemma RunningIsUnsettled(s: State, id: nat)
    requires Sound(s) && id < |s.settlements| && s.settlements[id].stage.Running?
    ensures s.settlements[id].key !in s.settled
    ensures forall q :: id < q < |s.settlements| ==> s.settlements[q].key != s.settlements[id].key
  {
    var key := s.settlements[id].key;
    assert forall d :: 0 <= d < |s.settlements| && s.settlements[d].key == key ==> !s.settlements[d].stage.Succeeded?;
    assert forall r :: !SettledBy(s, key, r);
  }

  lemma CallsSurvive(s: State, s': State)
    requires forall i :: 0 <= i < |s.calls| ==> CallOk(s, s.calls[i])
    requires s'.calls == s.calls && |s'.settlements| >= |s.settlements|
    requires forall id :: 0 <= id < |s.settlements| ==> s'.settlements[id].key == s.settlements[id].key
    requires forall key :: key in s.settled ==> key in s'.settled && s'.settled[key] == s.settled[key]
    ensures forall i :: 0 <= i < |s'.calls| ==> CallOk(s', s'.calls[i])
  {
    forall i | 0 <= i < |s'.calls| ensures CallOk(s', s'.calls[i]) {
      assert CallOk(s, s.calls[i]);
    }
  }

  lemma PayIsSound(s: State, req: Requirement, hash: string -> string)
    requires Sound(s)
    ensures Sound(AfterPay(s, req, hash).0)
  {
    var (s', reply) := AfterPay(s, req, hash);
    var key, n := IdempotencyKey(req, hash), |s.settlements|;
    forall id | 0 <= id < |s'.settlements| ensures InflightOk(s', id) && SuccessOk(s', id) {
      if id < n {
        assert InflightOk(s, id) && SuccessOk(s, id);
      }
    }
    forall k | k in s'.settled ensures SettledBy(s', k, s'.settled[k]) {
      SettledBySurvives(s, s', k, s.settled[k]);
    }
    CallsSurvive(s, s'.(calls := s.calls));
    forall i | 0 <= i < |s'.calls| ensures CallOk(s', s'.calls[i]) {
      if i < |s.calls| {
        assert s'.calls[i] == s.calls[i] && CallOk(s'.(calls := s.calls), s.calls[i]);
      }
    }
    if |s'.settlements| > n {
      NewIsLast(s, key, s'.settlements[n]);
    }
  }

  /** A settlement starts only when every earlier one of its key is over and has failed. */
  lemma NewIsLast(s: State, key: string, next: Settlement)
    requires Sound(s) && key !in s.settled && key !in s.inflight && next.key == key
    ensures Sequential(s.settlements + [next])
  {
    var all := s.settlements + [next];
    forall p, q | 0 <= p < q < |all| && all[p].key == all[q].key ensures all[p].cleared && all[p].stage.Failed? {
      assert InflightOk(s, p) && SuccessOk(s, p);
    }
  }

  lemma SuccessIsSound(s: State, id: nat, signedTx: string)
    requires Sound(s) && id < |s.settlements| && s.settlements[id].stage.Running?
    ensures Sound(AfterSuccess(s, id, signedTx))
  {
    var s', p := AfterSuccess(s, id, signedTx), s.settlements[id];
    RunningIsUnsettled(s, id);
    assert InflightOk(s, id);
    forall q | 0 <= q < |s'.settlements| ensures InflightOk(s', q) && SuccessOk(s', q) {
      assert InflightOk(s, q) && SuccessOk(s, q);
    }
    forall k | k in s'.settled ensures SettledBy(s', k, s'.settled[k]) {
      if k == p.key {
        assert s'.settlements[id].key == k;
      } else {
        SettledBySurvives(s, s', k, s.settled[k]);
      }
    }
    CallsSurvive(s, s');
  }

  lemma FailureIsSound(s: State, id: nat)
    requires Sound(s) && id < |s.settlements| && s.settlements[id].stage.Running?
    ensures Sound(AfterFailure(s, id))
  {
    var s' := AfterFailure(s, id);
    forall q | 0 <= q < |s'.settlements| ensures InflightOk(s', q) && SuccessOk(s', q) {
      assert InflightOk(s, q) && SuccessOk(s, q);
    }
    forall k | k in s'.settled ensures SettledBy(s', k, s'.settled[k]) {
      SettledBySurvives(s, s', k, s.settled[k]);
    }
    CallsSurvive(s, s');
  }

  lemma FinallyIsSound(s: State, id: nat)
    requires Sound(s) && id < |s.settlements| && !s.settlements[id].stage.Running? && !s.settlements[id].cleared
    ensures Sound(AfterFinally(s, id))
  {
    var s', p := AfterFinally(s, id), s.settlements[id];
    assert InflightOk(s, id) && s.inflight[p.key] == id;
    forall q | 0 <= q < |s'.settlements| ensures InflightOk(s', q) && SuccessOk(s', q) {
      assert InflightOk(s, q) && SuccessOk(s, q);
    }
    forall k | k in s'.settled ensures SettledBy(s', k, s'.settled[k]) {
      SettledBySurvives(s, s', k, s.settled[k]);
    }
    CallsSurvive(s, s');
  }

  lemma StepIsSound(s: State, e: Event, hash: string -> string)
    requires Sound(s)
    ensures Sound(Step(s, e, hash))
  {
    match e
    case Pay(req) => PayIsSound(s, req, hash);
    case SettleSucceeds(id, signedTx) =>
      if id < |s.settlements| && s.settlements[id].stage.Running? {
        SuccessIsSound(s, id, signedTx);
      }
    case SettleFails(id) =>
      if id < |s.settlements| && s.settlements[id].stage.Running? {
        FailureIsSound(s, id);
      }
    case Finally(id) =>
      if id < |s.settlements| && !s.settlements[id].stage.Running? && !s.settlements[id].cleared {
        FinallyIsSound(s, id);
      }
  }

  lemma {:induction false} RunIsSound(s: State, events: seq<Event>, hash: string -> string)
    requires Sound(s)
    ensures Sound(Run(s, events, hash))
    decreases |events|
  {
    if events != [] {
      StepIsSound(s, events[0], hash);
      RunIsSound(Step(s, events[0], hash), events[1..], hash);
    }
  }

  // ----- what every interleaving guarantees ----------------------------------------------------

  /** Still running, or succeeded. */
  predicate Live(p: Settlement) {
    !p.stage.Failed?
  }

  /**
   * In every interleaving a key has at most one settlement that runs or has succeeded: none
   * starts while another is in progress, and none ever starts after a success.
   */
  lemma AtMostOnePaymentPerKey(events: seq<Event>, hash: string -> string, p: nat, q: nat)
    requires var all := Run(START, events, hash).settlements;
             p < |all| && q < |all| && all[p].key == all[q].key && Live(all[p]) && Live(all[q])
    ensures p == q
  {
    RunIsSound(START, events, hash);
  }

  /** What a call has been answered with so far, if it succeeded. */
  function Answer(s: State, c: Call): Option<PaymentResult> {
    match c.reply
    case Refused => None
    case Done(r) => Some(r)
    case Awaits(id) =>
      if id < |s.settlements| && s.settlements[id].stage.Succeeded? then Some(s.settlements[id].stage.result) else None
  }

  /** All successful callers of one key get the same result, and it names their key. */
  lemma CallersAgree(events: seq<Event>, hash: string -> string, i: nat, j: nat)
    requires var s := Run(START, events, hash);
             && i < |s.calls| && j < |s.calls| && s.calls[i].key == s.calls[j].key
             && Answer(s, s.calls[i]).Some? && Answer(s, s.calls[j]).Some?
    ensures var s := Run(START, events, hash);
            && Answer(s, s.calls[i]) == Answer(s, s.calls[j])
            && Answer(s, s.calls[i]).value.reference == s.calls[i].key
  {
    RunIsSound(START, events, hash);
    var s := Run(START, events, hash);
    assert CallOk(s, s.calls[i]) && CallOk(s, s.calls[j]);
    AnswerIsOnRecord(s, s.calls[i]);
    AnswerIsOnRecord(s, s.calls[j]);
  }

  lemma AnswerIsOnRecord(s: State, c: Call)
    requires Sound(s) && CallOk(s, c) && Answer(s, c).Some?
    ensures c.key in s.settled && s.settled[c.key] == Answer(s, c).value && s.settled[c.key].reference == c.key
  {
    if c.reply.Awaits? {
      assert SuccessOk(s, c.reply.settlement);
    } else {
      var d :| 0 <= d < |s.settlements| && s.settlements[d].key == c.key && s.settlements[d].stage == Succeeded(s.settled[c.key]);
      assert SuccessOk(s, d);
    }
  }

  /**
   * In a reachable state, a call for a payment on this network starts a settlement exactly
   * when no settlement of its key has succeeded and none is still in the in-flight map: so a
   * settlement that failed can be retried as soon as its `finally` callback has run.
   */
  lemma RetryExactlyAfterFailure(events: seq<Event>, req: Requirement, hash: string -> string)
    requires !Refuses(req)
    ensures var s := Run(START, events, hash);
            var s' := AfterPay(s, req, hash).0;
            |s'.settlements| > |s.settlements| <==>
              forall id :: 0 <= id < |s.settlements| && s.settlements[id].key == IdempotencyKey(req, hash) ==>
                s.settlements[id].stage.Failed? && s.settlements[id].cleared
  {
    RunIsSound(START, events, hash);
    var s, key := Run(START, events, hash), IdempotencyKey(req, hash);
    if key in s.settled {
      assert SettledBy(s, key, s.settled[key]);
    } else if key in s.inflight {
      assert InflightOk(s, s.inflight[key]);
    } else {
      forall id | 0 <= id < |s.settlements| && s.settlements[id].key == key
        ensures s.settlements[id].stage.Failed? && s.settlements[id].cleared
      {
        assert InflightOk(s, id) && SuccessOk(s, id);
      }
    }
  }

  predicate SolanaAt(network: string, i: int) {
    0 <= i && i + 6 <= |network| && network[i..i + 6] == "solana"
  }

  /** A network is refused exactly when it is named and its name nowhere says `solana`; then nothing but the call is noted. */
  lemma RefusedExactlyOffSolana(s: State, req: Requirement, hash: string -> string)
    ensures AfterPay(s, req, hash).1 == Refused <==> |req.network| > 0 && forall i :: !SolanaAt(req.network, i)
    ensures AfterPay(s, req, hash).1 == Refused ==> AfterPay(s, req, hash).0.(calls := s.calls) == s
  {
    OnSolanaExactly(req.network);
  }

  lemma {:induction false} OnSolanaExactly(network: string)
    ensures OnSolana(network) <==> exists i :: SolanaAt(network, i)
  {
    if |network| >= 6 {
      var rest := network[1..];
      OnSolanaExactly(rest);
      assert OnSolana(network) <==> SolanaAt(network, 0) || OnSolana(rest);
      if i :| SolanaAt(rest, i) {
        assert rest[i..i + 6] == network[i + 1..i + 1 + 6];
        assert SolanaAt(network, i + 1);
      }
      if i :| SolanaAt(network, i) && i > 0 {
        assert rest[i - 1..i - 1 + 6] == network[i..i + 6];
        assert SolanaAt(rest, i - 1);
      }
    }
  }

  /** A result that is on record stays there. */
  lemma SettledStays(s: State, e: Event, hash: string -> string, key: string)
    requires Sound(s) && key in s.settled
    ensures key in Step(s, e, hash).settled && Step(s, e, hash).settled[key] == s.settled[key]
  {
    if e.SettleSucceeds? && e.id < |s.settlements| && s.settlements[e.id].stage.Running? {
      RunningIsUnsettled(s, e.id);
    }
  }

  lemma {:induction false} SettledForEver(s: State, events: seq<Event>, hash: string -> string, key: string)
    requires Sound(s) && key in s.settled
    ensures key in Run(s, events, hash).settled && Run(s, events, hash).settled[key] == s.settled[key]
    decreases |events|
  {
    if events != [] {
      StepIsSound(s, events[0], hash);
      SettledStays(s, events[0], hash, key);
      SettledForEver(Step(s, events[0], hash), events[1..], hash, key);
    }
  }

  /**
   * Once a settlement has succeeded, whatever happens afterwards: every call that waits for
   * it, and every later call for its key, is answered with the proof that it made.
   */
  lemma SuccessIsKeptForEver(before: seq<Event>, id: nat, signedTx: string, during: seq<Event>, req: Requirement, hash: string -> string)
    requires var s := Run(START, before, hash);
             id < |s.settlements| && s.settlements[id].stage.Running? && s.settlements[id].key == IdempotencyKey(req, hash)
    requires !Refuses(req)
    ensures var p := Run(START, before, hash).settlements[id];
            var done := Step(Run(START, before, hash), SettleSucceeds(id, signedTx), hash);
            var result := PaymentResult(Proof(p.req, signedTx), p.key, p.req.amount);
            && Answer(done, Call(p.key, p.req, Awaits(id))) == Some(result)
            && AfterPay(Run(done, during, hash), req, hash).1 == Done(result)
  {
    RunIsSound(START, before, hash);
    var s := Run(START, before, hash);
    var done := Step(s, SettleSucceeds(id, signedTx), hash);
    StepIsSound(s, SettleSucceeds(id, signedTx), hash);
    SettledForEver(done, during, hash, s.settlements[id].key);
  }

  /** A settlement that failed and was cleared leaves the way free: the next call for its key starts another one. */
  lemma FailureIsRetried(before: seq<Event>, id: nat, req: Requirement, hash: string -> string)
    requires var s := Run(START, before, hash);
             id < |s.settlements| && s.settlements[id].stage.Running? && s.settlements[id].key == IdempotencyKey(req, hash)
    requires !Refuses(req)
    ensures var s := Run(START, before, hash);
            var failed := Step(s, SettleFails(id), hash);
            var cleared := Step(failed, Finally(id), hash);
            && AfterPay(failed, req, hash).1 == Awaits(id)
            && AfterPay(cleared, req, hash).1 == Awaits(|s.settlements|)
  {
    RunIsSound(START, before, hash);
    var s := Run(START, before, hash);
    var failed := Step(s, SettleFails(id), hash);
    RunningIsUnsettled(s, id);
    assert InflightOk(s, id);
    StepIsSound(s, SettleFails(id), hash);
  }

  // ----- which requirements share a key ---------------------------------------------------------

  /** Where the last bar of a text stands; its length when there is none. */
  function LastBar(t: string): nat {
    if t == [] then 0
    else if t[|t| - 1] == '|' then |t| - 1
    else
      var i := LastBar(t[..|t| - 1]);
      if i == |t| - 1 then |t| else i
  }

  lemma {:induction false} LastBarAt(front: string, field: string)
    requires '|' !in field
    ensures LastBar(front + "|" + field) == |front|
    decreases |field|
  {
    var t := front + "|" + field;
    if field != [] {
      assert t[..|t| - 1] == front + "|" + field[..|field| - 1];
      LastBarAt(front, field[..|field| - 1]);
    }
  }

  predicate SameFields(a: Requirement, b: Requirement) {
    a.resource == b.resource && a.amount == b.amount && a.payTo == b.payTo
  }

  /** Amounts are numerals and payees base58 addresses: where a transfer can be built, neither has a bar. */
  predicate Plain(req: Requirement) {
    '|' !in req.amount && '|' !in req.payTo
  }

  lemma PlainTextsAgree(a: Requirement, b: Requirement)
    requires Plain(a) && Plain(b) && PaymentText(a) == PaymentText(b)
    ensures SameFields(a, b)
  {
    var t, fa, fb := PaymentText(a), a.resource + "|" + a.amount, b.resource + "|" + b.amount;
    LastBarAt(fa, a.payTo);
    LastBarAt(fb, b.payTo);
    assert fa == t[..|fa|] && fb == t[..|fb|] && a.payTo == t[|fa| + 1..] && b.payTo == t[|fb| + 1..];
    LastBarAt(a.resource, a.amount);
    LastBarAt(b.resource, b.amount);
    assert a.resource == fa[..|a.resource|] && b.resource == fb[..|b.resource|];
    assert a.amount == fa[|a.resource| + 1..] && b.amount == fb[|b.resource| + 1..];
  }

  ghost predicate Injective(hash: string -> string) {
    forall x, y :: hash(x) == hash(y) ==> x == y
  }

  /**
   * Without nonces, equal resource, amount and payee share a key, and where amounts and
   * payees have no bar nothing else does.
   */
  lemma SharedKeyExactlySamePayment(a: Requirement, b: Requirement, hash: string -> string)
    requires a.nonce == "" && b.nonce == "" && Injective(hash)
    ensures SameFields(a, b) ==> IdempotencyKey(a, hash) == IdempotencyKey(b, hash)
    ensures Plain(a) && Plain(b) && IdempotencyKey(a, hash) == IdempotencyKey(b, hash) ==> SameFields(a, b)
  {
    if Plain(a) && Plain(b) && PaymentText(a) == PaymentText(b) {
      PlainTextsAgree(a, b);
    }
  }

  /** A nonce is the key, whatever is paid. */
  lemma NonceIsKey(req: Requirement, hash: string -> string)
    ensures |req.nonce| > 0 ==> IdempotencyKey(req, hash) == req.nonce
    ensures |req.nonce| == 0 ==> IdempotencyKey(req, hash) == hash(req.resource + "|" + req.amount + "|" + req.payTo)
  {
  }

  function Bars(t: string): nat {
    if t == [] then 0 else (if t[0] == '|' then 1 else 0) + Bars(t[1..])
  }

  lemma {:induction false} BarsConcat(a: string, b: string)
    ensures Bars(a + b) == Bars(a) + Bars(b)
  {
    if a == [] {
      assert a + b == b;
    } else {
      assert (a + b)[1..] == a[1..] + b;
      BarsConcat(a[1..], b);
    }
  }

  lemma {:induction false} NoBars(t: string)
    ensures Bars(t) == 0 <==> '|' !in t
  {
    if t != [] {
      NoBars(t[1..]);
      assert t == [t[0]] + t[1..];
    }
  }

  lemma BarsOfText(req: Requirement)
    ensures Bars(PaymentText(req)) == Bars(req.resource) + Bars(req.amount) + Bars(req.payTo) + 2
  {
    BarsConcat(req.resource + "|" + req.amount + "|", req.payTo);
    BarsConcat(req.resource + "|" + req.amount, "|");
    BarsConcat(req.resource + "|", req.amount);
    BarsConcat(req.resource, "|");
    assert Bars("|") == 1;
  }

  lemma SplitAtBar(t: string) returns (front: string, back: string)
    requires '|' in t
    ensures t == front + "|" + back
  {
    var i :| 0 <= i < |t| && t[i] == '|';
    front, back := t[..i], t[i + 1..];
  }

  /** A bar in a field lets the text be read as other fields. */
  lemma BarIsAmbiguous(a: Requirement) returns (b: Requirement)
    requires '|' in a.resource || '|' in a.amount || '|' in a.payTo
    ensures b.nonce == "" && PaymentText(b) == PaymentText(a) && !SameFields(a, b)
  {
    if '|' in a.resource {
      var u, v := SplitAtBar(a.resource);
      b := Requirement(u, v + "|" + a.amount, a.payTo, "", a.network);
      assert PaymentText(b) == u + "|" + v + "|" + a.amount + "|" + a.payTo;
    } else if '|' in a.amount {
      var u, v := SplitAtBar(a.amount);
      b := Requirement(a.resource + "|" + u, v, a.payTo, "", a.network);
      assert PaymentText(b) == a.resource + "|" + u + "|" + v + "|" + a.payTo == PaymentText(a);
    } else {
      var u, v := SplitAtBar(a.payTo);
      b := Requirement(a.resource + "|" + a.amount, u, v, "", a.network);
      assert PaymentText(b) == a.resource + "|" + a.amount + "|" + u + "|" + v == PaymentText(a);
    }
  }

  /** For all strings the source may be given: a requirement has its key to itself exactly when none of its fields has a bar. */
  lemma KeyIsUnambiguousExactlyWithoutBars(a: Requirement, hash: string -> string)
    requires a.nonce == "" && Injective(hash)
    ensures (forall b: Requirement :: b.nonce == "" && IdempotencyKey(b, hash) == IdempotencyKey(a, hash) ==> SameFields(a, b))
       <==> '|' !in a.resource && '|' !in a.amount && '|' !in a.payTo
  {
    if '|' in a.resource || '|' in a.amount || '|' in a.payTo {
      var b := BarIsAmbiguous(a);
      assert IdempotencyKey(b, hash) == IdempotencyKey(a, hash);
    } else {
      forall b: Requirement | b.nonce == "" && IdempotencyKey(b, hash) == IdempotencyKey(a, hash) ensures SameFields(a, b) {
        BarsOfText(a);
        BarsOfText(b);
        NoBars(a.resource);
        NoBars(a.amount);
        NoBars(a.payTo);
        NoBars(b.amount);
        NoBars(b.payTo);
        PlainTextsAgree(a, b);
      }
    }
  }

  // ----- whose payment an answer proves ---------------------------------------------------------

  predicate SamePayment(a: Requirement, b: Requirement) {
    a.amount == b.amount && a.payTo == b.payTo
  }

  /** A result that proves the caller's own payment. */
  predicate Own(c: Call, r: PaymentResult) {
    r.amount == c.req.amount && SamePayment(r.header.paidFor, c.req)
  }

  ghost predicate OpenedBy(s: State, p: Settlement) {
    exists j :: 0 <= j < |s.calls| && s.calls[j].key == p.key && s.calls[j].req == p.req
  }

  /** Every settlement was started by a call, and every call is filed under its own key. */
  ghost predicate Filed(s: State, hash: string -> string) {
    && (forall id :: 0 <= id < |s.settlements| ==> OpenedBy(s, s.settlements[id]))
    && (forall i :: 0 <= i < |s.calls| ==> s.calls[i].key == IdempotencyKey(s.calls[i].req, hash))
  }

  lemma PayIsFiled(s: State, req: Requirement, hash: string -> string)
    requires Filed(s, hash)
    ensures Filed(AfterPay(s, req, hash).0, hash)
  {
    var s' := AfterPay(s, req, hash).0;
    forall id | 0 <= id < |s'.settlements| ensures OpenedBy(s', s'.settlements[id]) {
      if id < |s.settlements| {
        assert OpenedBy(s, s.settlements[id]) && s'.settlements[id] == s.settlements[id];
        var j :| 0 <= j < |s.calls| && s.calls[j].key == s.settlements[id].key && s.calls[j].req == s.settlements[id].req;
        assert s'.calls[j] == s.calls[j];
      } else {
        assert s'.calls[|s.calls|].req == req;
      }
    }
  }

  lemma StepIsFiled(s: State, e: Event, hash: string -> string)
    requires Filed(s, hash)
    ensures Filed(Step(s, e, hash), hash)
  {
    if e.Pay? {
      PayIsFiled(s, e.req, hash);
    } else {
      var s' := Step(s, e, hash);
      forall id | 0 <= id < |s'.settlements| ensures OpenedBy(s', s'.settlements[id]) {
        assert OpenedBy(s, s.settlements[id]);
      }
    }
  }

  lemma {:induction false} RunIsFiled(s: State, events: seq<Event>, hash: string -> string)
    requires Filed(s, hash)
    ensures Filed(Run(s, events, hash), hash)
    decreases |events|
  {
    if events != [] {
      StepIsFiled(s, events[0], hash);
      RunIsFiled(Step(s, events[0], hash), events[1..], hash);
    }
  }

  /** What an answer proves was asked for by some call of the same key. */
  lemma AnswerWasAskedFor(s: State, c: Call, hash: string -> string) returns (j: nat)
    requires Sound(s) && Filed(s, hash) && CallOk(s, c) && Answer(s, c).Some?
    ensures j < |s.calls| && s.calls[j].key == c.key
    ensures var r := Answer(s, c).value; r.header.paidFor == s.calls[j].req && r.amount == s.calls[j].req.amount
  {
    var r := Answer(s, c).value;
    AnswerIsOnRecord(s, c);
    assert SettledBy(s, c.key, r);
    var d :| 0 <= d < |s.settlements| && s.settlements[d].key == c.key && s.settlements[d].stage == Succeeded(r);
    assert SuccessOk(s, d) && OpenedBy(s, s.settlements[d]);
    j :| 0 <= j < |s.calls| && s.calls[j].key == c.key && s.calls[j].req == s.settlements[d].req;
  }

  ghost predicate AllOwn(s: State) {
    forall i :: 0 <= i < |s.calls| && Answer(s, s.calls[i]).Some? ==> Own(s.calls[i], Answer(s, s.calls[i]).value)
  }

  ghost predicate KeysDecidePayments(calls: seq<Call>) {
    forall i, j :: 0 <= i < |calls| && 0 <= j < |calls| && calls[i].key == calls[j].key ==> SamePayment(calls[i].req, calls[j].req)
  }

  /** In every run in which calls of one key agree on amount and payee, every answer proves its caller's own payment. */
  lemma AnswersAreOwn(events: seq<Event>, hash: string -> string)
    requires KeysDecidePayments(Run(START, events, hash).calls)
    ensures AllOwn(Run(START, events, hash))
  {
    var s := Run(START, events, hash);
    RunIsSound(START, events, hash);
    RunIsFiled(START, events, hash);
    forall i | 0 <= i < |s.calls| && Answer(s, s.calls[i]).Some? ensures Own(s.calls[i], Answer(s, s.calls[i]).value) {
      assert CallOk(s, s.calls[i]);
      var j := AnswerWasAskedFor(s, s.calls[i], hash);
      assert SamePayment(s.calls[j].req, s.calls[i].req);
    }
  }

  predicate OnlyPays(e: Event, a: Requirement, b: Requirement) {
    e.Pay? ==> e.req == a || e.req == b
  }

  ghost predicate CallsOf(s: State, a: Requirement, b: Requirement) {
    forall i :: 0 <= i < |s.calls| ==> s.calls[i].req == a || s.calls[i].req == b
  }

  lemma StepCallsOf(s: State, e: Event, hash: string -> string, a: Requirement, b: Requirement)
    requires CallsOf(s, a, b) && OnlyPays(e, a, b)
    ensures CallsOf(Step(s, e, hash), a, b)
  {
  }

  lemma {:induction false} RunCallsOf(s: State, events: seq<Event>, hash: string -> string, a: Requirement, b: Requirement)
    requires CallsOf(s, a, b) && forall e :: e in events ==> OnlyPays(e, a, b)
    ensures CallsOf(Run(s, events, hash), a, b)
    decreases |events|
  {
    if events != [] {
      assert events[0] in events && forall e :: e in events[1..] ==> e in events;
      StepCallsOf(s, events[0], hash, a, b);
      RunCallsOf(Step(s, events[0], hash), events[1..], hash, a, b);
    }
  }

  /** Paying `a` and then `b`. */
  function OneAfterTheOther(a: Requirement, b: Requirement): seq<Event> {
    [Pay(a), SettleSucceeds(0, "tx"), Pay(b)]
  }

  lemma SecondGetsFirst(a: Requirement, b: Requirement, hash: string -> string)
    requires !Refuses(a) && !Refuses(b) && IdempotencyKey(a, hash) == IdempotencyKey(b, hash) && !SamePayment(a, b)
    ensures !AllOwn(Run(START, OneAfterTheOther(a, b), hash))
  {
    var events := OneAfterTheOther(a, b);
    var key := IdempotencyKey(a, hash);
    var s1 := Step(START, events[0], hash);
    var s2 := Step(s1, events[1], hash);
    var s3 := Step(s2, events[2], hash);
    assert events[1..] == [events[1], events[2]] && events[1..][1..] == [events[2]] && [events[2]][1..] == [];
    assert Run(START, events, hash) == s3 by {
      assert Run(s2, [events[2]], hash) == Run(s3, [], hash);
      assert Run(s1, events[1..], hash) == Run(s2, [events[2]], hash);
    }
    assert s1.settlements == [Settlement(key, a, Running, false)];
    assert s2.settled == map[key := ResultOf(key, a, "tx")];
    assert s3.calls[1] == Call(key, b, Done(ResultOf(key, a, "tx")));
    assert Answer(s3, s3.calls[1]) == Some(ResultOf(key, a, "tx"));
  }

  /**
   * The condition is exact: in all interleavings of calls for two requirements every answer
   * proves its caller's own amount and payee if and only if the two do not share a key with
   * different payments.
   */
  lemma OwnExactlyWhenKeyDecidesPayment(a: Requirement, b: Requirement, hash: string -> string)
    requires !Refuses(a) && !Refuses(b)
    ensures (forall events :: (forall e :: e in events ==> OnlyPays(e, a, b)) ==> AllOwn(Run(START, events, hash)))
       <==> (IdempotencyKey(a, hash) == IdempotencyKey(b, hash) ==> SamePayment(a, b))
  {
    if IdempotencyKey(a, hash) == IdempotencyKey(b, hash) && !SamePayment(a, b) {
      SecondGetsFirst(a, b, hash);
      assert forall e :: e in OneAfterTheOther(a, b) ==> OnlyPays(e, a, b);
    } else {
      forall events | forall e :: e in events ==> OnlyPays(e, a, b) ensures AllOwn(Run(START, events, hash)) {
        RunIsFiled(START, events, hash);
        RunCallsOf(START, events, hash, a, b);
        AnswersAreOwn(events, hash);
      }
    }
  }
}
