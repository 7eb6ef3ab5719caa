/**
 * Execution: walking the plan with per-candidate retries and failover, once for whole
 * responses (`chat`) and once for streams (`chatStream`).
 *
 * A provider's behaviour is a script: what the r-th try of the a-th planned decision
 * does. A run is everything the router does in order (the log) and what the caller
 * gets. The methods are the loops of the source; the functions give their meaning.
 */
module RouterRuns {
  import opened Wrappers
  import opened Streaming

  /** A provider error: whether failover may help, and whether it is the router's own timeout code. */
  datatype Failure = Failure(id: int, retryable: bool, timedOut: bool)

  datatype Outcome = Answer(response: Response) | Fails(failure: Failure)

  /** What a caller may see thrown; `Nothing` is the never assigned `lastError`. */
  datatype Thrown = NoCapableModel | Nothing | Provider(failure: Failure)

  datatype Result = Returned(response: Response) | Threw(thrown: Thrown)

  datatype Entry =
    | CacheHit | CacheMiss | CacheSet(response: Response)
    | Selected(attempt: nat)
    | Called(attempt: nat, retry: nat)
    | Retried(attempt: nat, retry: nat, failure: Failure)
    | FailedOver(attempt: nat, failure: Failure)
    | RouteError(attempt: nat, failure: Failure)
    | HealthSuccess(attempt: nat) | HealthFailure(attempt: nat)
    | Succeeded(attempt: nat)
    | Completed(attempt: nat, usage: Option<Usage>)

  /**
   * `decisions` is the length of the plan, `maxCandidates` the candidate limit, `retries` the
   * per-candidate retry budget; `cache` is absent or holds the lookup's answer.
   */
  datatype Config = Config(
    decisions: nat,
    maxCandidates: Option<int>,
    retries: int,
    noFallback: bool,
    cache: Option<Option<Response>>)

  function StreamLimit(cfg: Config): int {
    var max := cfg.maxCandidates.GetOr(cfg.decisions);
    if cfg.decisions <= max then cfg.decisions else max
  }

  function ChatLimit(cfg: Config): int {
    if cfg.noFallback then 1 else StreamLimit(cfg)
  }

  predicate ShouldRetry(cfg: Config, retry: nat, f: Failure) {
    !f.timedOut && retry < cfg.retries && f.retryable
  }

  /** The effects of a finished response, in the order of the code. */
  function SuccessEntries(cfg: Config, attempt: nat, r: Response): seq<Entry> {
    (if cfg.cache.Some? then [CacheSet(r)] else []) + [HealthSuccess(attempt), Succeeded(attempt), Completed(attempt, r.usage)]
  }

  // ----- chat -----------------------------------------------------------------------------

  type Calls = (nat, nat) -> Outcome

  /**
   * The providers of the plan: what each `chat` does at each try, and for each decision what
   * its `chatOnce` does, if the provider has one.
   */
  datatype Providers = Providers(chat: Calls, chatOnce: nat -> Option<nat -> Outcome>)

  /** The error for a bounded request to a provider without `chatOnce`: no status, no code, not retryable. */
  const UNBOUNDED := Failure(-1, false, false)

  /** What each try of a plan comes to: `chat`, or under `noFallback` only ever `chatOnce`. */
  function Attempted(cfg: Config, p: Providers): Calls {
    if !cfg.noFallback then p.chat
    else (a: nat, n: nat) => match p.chatOnce(a) case Some(once) => once(n) case None => Fails(UNBOUNDED)
  }

  datatype Run = Run(log: seq<Entry>, result: Result)

  function Before(entries: seq<Entry>, run: Run): Run {
    Run(entries + run.log, run.result)
  }

  /** From the choice of the a-th decision on. */
  function ChatAttempts(cfg: Config, calls: Calls, a: nat): Run
    decreases ChatLimit(cfg) - a, 1, 0
  {
    if a >= ChatLimit(cfg) then Run([], Threw(Nothing))
    else Before([Selected(a)], ChatTries(cfg, calls, a, 0))
  }

  /** From the n-th retry of the a-th decision on. */
  function ChatTries(cfg: Config, calls: Calls, a: nat, n: nat): Run
    requires a < ChatLimit(cfg)
    decreases ChatLimit(cfg) - a, 0, cfg.retries - n
  {
    match calls(a, n)
    case Answer(r) => Run([Called(a, n)] + SuccessEntries(cfg, a, r), Returned(r))
    case Fails(f) =>
      if !cfg.noFallback && ShouldRetry(cfg, n, f)
      then Before([Called(a, n), HealthFailure(a), Retried(a, n, f)], ChatTries(cfg, calls, a, n + 1))
      else if a < ChatLimit(cfg) - 1 && f.retryable
      then Before([Called(a, n), HealthFailure(a), FailedOver(a, f)], ChatAttempts(cfg, calls, a + 1))
      else Run([Called(a, n), HealthFailure(a), RouteError(a, f)], Threw(Provider(f)))
  }

  function ChatRun(cfg: Config, p: Providers): Run {
    match cfg.cache
    case Some(Some(hit)) => Run([CacheHit], Returned(hit))
    case _ =>
      Before(if cfg.cache.Some? then [CacheMiss] else [],
             if cfg.decisions == 0 then Run([], Threw(NoCapableModel)) else ChatAttempts(cfg, Attempted(cfg, p), 0))
  }

  /** What the loops do after one try. */
  datatype Next<R> = Stop(result: R) | Again | Onward

  predicate Possible<R>(cfg: Config, limit: int, a: nat, n: nat, next: Next<R>) {
    (next.Again? ==> n < cfg.retries) && (next.Onward? ==> a + 1 < limit)
  }

  function ChatContinues(cfg: Config, calls: Calls, a: nat, n: nat, entries: seq<Entry>, next: Next<Result>): Run
    requires a < ChatLimit(cfg) && Possible(cfg, ChatLimit(cfg), a, n, next)
  {
    match next
    case Stop(result) => Run(entries, result)
    case Again => Before(entries, ChatTries(cfg, calls, a, n + 1))
    case Onward => Before(entries, ChatAttempts(cfg, calls, a + 1))
  }

  method Chat(cfg: Config, p: Providers) returns (log: seq<Entry>, result: Result)
    ensures Run(log, result) == ChatRun(cfg, p)
  {
    log := [];
    if cfg.cache.Some? {
      if cfg.cache.value.Some? {
        return [CacheHit], Returned(cfg.cache.value.value);
      }
      log := [CacheMiss];
    }
    if cfg.decisions == 0 {
      return log, Threw(NoCapableModel);
    }
    ghost var calls := Attempted(cfg, p);
    var limit := ChatLimit(cfg);
    var attempt := 0;
    while attempt < limit
      invariant Before(log, ChatAttempts(cfg, calls, attempt)) == ChatRun(cfg, p)
    {
      BeforeBefore(log, [Selected(attempt)], ChatTries(cfg, calls, attempt, 0));
      log := log + [Selected(attempt)];
      var retry := 0;
      while true
        invariant Before(log, ChatTries(cfg, calls, attempt, retry)) == ChatRun(cfg, p)
        decreases cfg.retries - retry
      {
        var entries, next := ChatTry(cfg, p, attempt, retry);
        match next {
          case Stop(r) =>
            return log + entries, r;
          case Again =>
            BeforeBefore(log, entries, ChatTries(cfg, calls, attempt, retry + 1));
            log, retry := log + entries, retry + 1;
          case Onward =>
            BeforeBefore(log, entries, ChatAttempts(cfg, calls, attempt + 1));
            log := log + entries;
            break;
        }
      }
      attempt := attempt + 1;
    }
    result := Threw(Nothing);
  }

  /** One provider attempt; a bounded one never falls back from `chatOnce` to `chat`. */
  method ChatAttempt(cfg: Config, p: Providers, attempt: nat, retry: nat) returns (outcome: Outcome)
    ensures outcome == Attempted(cfg, p)(attempt, retry)
  {
    if cfg.noFallback && p.chatOnce(attempt) == None {
      return Fails(UNBOUNDED);
    }
    outcome := if cfg.noFallback then p.chatOnce(attempt).value(retry) else p.chat(attempt, retry);
  }

  /** One pass through the body of the inner loop: the provider call, then `try` or `catch`. */
  method ChatTry(cfg: Config, p: Providers, attempt: nat, retry: nat) returns (log: seq<Entry>, next: Next<Result>)
    requires attempt < ChatLimit(cfg)
    ensures Possible(cfg, ChatLimit(cfg), attempt, retry, next)
    ensures var calls := Attempted(cfg, p);
            ChatTries(cfg, calls, attempt, retry) == ChatContinues(cfg, calls, attempt, retry, log, next)
  {
    log := [Called(attempt, retry)];
    var outcome := ChatAttempt(cfg, p, attempt, retry);
    match outcome {
      case Answer(r) =>
        if cfg.cache.Some? {
          log := log + [CacheSet(r)];
        }
        log := log + [HealthSuccess(attempt), Succeeded(attempt), Completed(attempt, r.usage)];
        assert log == [Called(attempt, retry)] + SuccessEntries(cfg, attempt, r);
        next := Stop(Returned(r));
      case Fails(f) =>
        log := log + [HealthFailure(attempt)];
        if !cfg.noFallback && ShouldRetry(cfg, retry, f) {
          return log + [Retried(attempt, retry, f)], Again;
        }
        var hasMore := attempt < ChatLimit(cfg) - 1;
        if hasMore && f.retryable {
          return log + [FailedOver(attempt, f)], Onward;
        }
        return log + [RouteError(attempt, f)], Stop(Threw(Provider(f)));
    }
  }

  lemma BeforeBefore(log0: seq<Entry>, entries: seq<Entry>, run: Run)
    ensures Before(log0, Before(entries, run)) == Before(log0 + entries, run)
  {
    assert log0 + (entries + run.log) == (log0 + entries) + run.log;
  }

  // ----- chatStream -----------------------------------------------------------------------

  /** One try of a streaming provider: the events it yields, then how it ends. */
  datatype Attempt = Attempt(events: seq<Event>, failure: Option<Failure>)

  type Streams = (nat, nat) -> Attempt

  datatype Source = FromCache | FromTry(attempt: nat, retry: nat)

  /** An event as the caller receives it, with where it came from. */
  datatype Emitted = Emitted(source: Source, event: Event)

  datatype StreamEnd = Finished | Broke(thrown: Thrown)

  datatype StreamRun = StreamRun(log: seq<Entry>, emitted: seq<Emitted>, end: StreamEnd)

  function Label(source: Source, events: seq<Event>): seq<Emitted> {
    seq(|events|, i requires 0 <= i < |events| => Emitted(source, events[i]))
  }

  function Plain(emitted: seq<Emitted>): seq<Event> {
    seq(|emitted|, i requires 0 <= i < |emitted| => emitted[i].event)
  }

  function DoneEntries(cfg: Config, a: nat, events: seq<Event>): seq<Entry> {
    if events == [] then []
    else (if events[0].Done? then SuccessEntries(cfg, a, events[0].response) else []) + DoneEntries(cfg, a, events[1..])
  }

  /** Some content reached the caller: the request may no longer be retried or failed over. */
  predicate Commits(events: seq<Event>) {
    exists i :: 0 <= i < |events| && !events[i].Done?
  }

  function After(entries: seq<Entry>, emitted: seq<Emitted>, run: StreamRun): StreamRun {
    StreamRun(entries + run.log, emitted + run.emitted, run.end)
  }

  function StreamAttempts(cfg: Config, streams: Streams, a: nat): StreamRun
    decreases StreamLimit(cfg) - a, 1, 0
  {
    if a >= StreamLimit(cfg) then StreamRun([], [], Broke(Nothing))
    else After([Selected(a)], [], StreamTries(cfg, streams, a, 0))
  }

  function StreamTries(cfg: Config, streams: Streams, a: nat, n: nat): StreamRun
    requires a < StreamLimit(cfg)
    decreases StreamLimit(cfg) - a, 0, cfg.retries - n
  {
    var t := streams(a, n);
    var entries := [Called(a, n)] + DoneEntries(cfg, a, t.events);
    var out := Label(FromTry(a, n), t.events);
    match t.failure
    case None => StreamRun(entries, out, Finished)
    case Some(f) =>
      if !Commits(t.events) && ShouldRetry(cfg, n, f)
      then After(entries + [HealthFailure(a), Retried(a, n, f)], out, StreamTries(cfg, streams, a, n + 1))
      else if !Commits(t.events) && f.retryable && a < StreamLimit(cfg) - 1
      then After(entries + [HealthFailure(a), FailedOver(a, f)], out, StreamAttempts(cfg, streams, a + 1))
      else StreamRun(entries + [HealthFailure(a), RouteError(a, f)], out, Broke(Provider(f)))
  }

  function ChatStreamRun(j: Json, cfg: Config, streams: Streams): StreamRun {
    match cfg.cache
    case Some(Some(hit)) => StreamRun([CacheHit], Label(FromCache, Adapted(j, hit)), Finished)
    case _ =>
      After(if cfg.cache.Some? then [CacheMiss] else [], [],
            if cfg.decisions == 0 then StreamRun([], [], Broke(NoCapableModel)) else StreamAttempts(cfg, streams, 0))
  }

  function StreamContinues(cfg: Config, streams: Streams, a: nat, n: nat, entries: seq<Entry>, out: seq<Emitted>, next: Next<StreamEnd>): StreamRun
    requires a < StreamLimit(cfg) && Possible(cfg, StreamLimit(cfg), a, n, next)
  {
    match next
    case Stop(end) => StreamRun(entries, out, end)
    case Again => After(entries, out, StreamTries(cfg, streams, a, n + 1))
    case Onward => After(entries, out, StreamAttempts(cfg, streams, a + 1))
  }

  method ChatStream(j: Json, cfg: Config, streams: Streams)
    returns (log: seq<Entry>, emitted: seq<Emitted>, end: StreamEnd)
    ensures StreamRun(log, emitted, end) == ChatStreamRun(j, cfg, streams)
  {
    log, emitted := [], [];
    if cfg.cache.Some? {
      if cfg.cache.value.Some? {
        return [CacheHit], Label(FromCache, Adapted(j, cfg.cache.value.value)), Finished;
      }
      log := [CacheMiss];
    }
    if cfg.decisions == 0 {
      return log, emitted, Broke(NoCapableModel);
    }
    var limit := StreamLimit(cfg);
    var attempt := 0;
    while attempt < limit
      invariant After(log, emitted, StreamAttempts(cfg, streams, attempt)) == ChatStreamRun(j, cfg, streams)
    {
      AfterAfter(log, emitted, [Selected(attempt)], [], StreamTries(cfg, streams, attempt, 0));
      assert emitted + [] == emitted;
      log := log + [Selected(attempt)];
      var retry := 0;
      while true
        invariant After(log, emitted, StreamTries(cfg, streams, attempt, retry)) == ChatStreamRun(j, cfg, streams)
        decreases cfg.retries - retry
      {
        var entries, out, next := StreamTry(cfg, streams, attempt, retry);
        match next {
          case Stop(e) =>
            return log + entries, emitted + out, e;
          case Again =>
            AfterAfter(log, emitted, entries, out, StreamTries(cfg, streams, attempt, retry + 1));
            log, emitted, retry := log + entries, emitted + out, retry + 1;
          case Onward =>
            AfterAfter(log, emitted, entries, out, StreamAttempts(cfg, streams, attempt + 1));
            log, emitted := log + entries, emitted + out;
            break;
        }
      }
      attempt := attempt + 1;
    }
    end := Broke(Nothing);
  }

  /** One pass through the body of the inner loop; nothing was committed before it. */
  method StreamTry(cfg: Config, streams: Streams, attempt: nat, retry: nat)
    returns (log: seq<Entry>, out: seq<Emitted>, next: Next<StreamEnd>)
    requires attempt < StreamLimit(cfg)
    ensures Possible(cfg, StreamLimit(cfg), attempt, retry, next)
    ensures StreamTries(cfg, streams, attempt, retry) == StreamContinues(cfg, streams, attempt, retry, log, out, next)
  {
    var t := streams(attempt, retry);
    var committed;
    log, out, committed := Relay(cfg, attempt, retry, t.events);
    if t.failure == None {
      return log, out, Stop(Finished);
    }
    var f := t.failure.value;
    if !committed && ShouldRetry(cfg, retry, f) {
      return log + [HealthFailure(attempt), Retried(attempt, retry, f)], out, Again;
    }
    var hasMore := attempt < StreamLimit(cfg) - 1;
    if !committed && f.retryable && hasMore {
      return log + [HealthFailure(attempt), FailedOver(attempt, f)], out, Onward;
    }
    return log + [HealthFailure(attempt), RouteError(attempt, f)], out, Stop(Broke(Provider(f)));
  }

  /** Relays one try's events, noting whether any was content. */
  method Relay(cfg: Config, a: nat, n: nat, events: seq<Event>)
    returns (log: seq<Entry>, emitted: seq<Emitted>, committed: bool)
    ensures log == [Called(a, n)] + DoneEntries(cfg, a, events)
    ensures emitted == Label(FromTry(a, n), events)
    ensures committed == Commits(events)
  {
    log, emitted, committed := [Called(a, n)], [], false;
    for i := 0 to |events|
      invariant log == [Called(a, n)] + DoneEntries(cfg, a, events[..i])
      invariant emitted == Label(FromTry(a, n), events[..i])
      invariant committed == Commits(events[..i])
    {
      var e := events[i];
      RelayStep(cfg, a, n, events, i);
      if e.Done? {
        log := log + SuccessEntries(cfg, a, e.response);
      } else {
        committed := true;
      }
      emitted := emitted + [Emitted(FromTry(a, n), e)];
    }
    assert events[..|events|] == events;
  }

  lemma {:induction false} DoneEntriesPrefix(cfg: Config, a: nat, events: seq<Event>, i: nat)
    requires i < |events|
    ensures DoneEntries(cfg, a, events[..i + 1])
         == DoneEntries(cfg, a, events[..i]) + (if events[i].Done? then SuccessEntries(cfg, a, events[i].response) else [])
  {
    if i > 0 {
      DoneEntriesPrefix(cfg, a, events[1..], i - 1);
      assert events[1..][..i] == events[..i + 1][1..];
      assert events[1..][..i - 1] == events[..i][1..];
    }
  }

  lemma RelayStep(cfg: Config, a: nat, n: nat, events: seq<Event>, i: nat)
    requires i < |events|
    ensures var e, log := events[i], [Called(a, n)] + DoneEntries(cfg, a, events[..i]);
            && [Called(a, n)] + DoneEntries(cfg, a, events[..i + 1])
            == (if e.Done? then log + SuccessEntries(cfg, a, e.response) else log)
            && Label(FromTry(a, n), events[..i + 1]) == Label(FromTry(a, n), events[..i]) + [Emitted(FromTry(a, n), e)]
            && Commits(events[..i + 1]) == (Commits(events[..i]) || !e.Done?)
  {
    CommitsPrefix(events, i);
    DoneEntriesPrefix(cfg, a, events, i);
    var done := DoneEntries(cfg, a, events[..i]);
    assert done + [] == done;
    if events[i].Done? {
      var more := SuccessEntries(cfg, a, events[i].response);
      assert [Called(a, n)] + (done + more) == [Called(a, n)] + done + more;
    }
  }

  lemma CommitsPrefix(events: seq<Event>, i: nat)
    requires i < |events|
    ensures Commits(events[..i + 1]) <==> Commits(events[..i]) || !events[i].Done?
  {
    var shorter, longer := events[..i], events[..i + 1];
    if Commits(shorter) {
      var k :| 0 <= k < |shorter| && !shorter[k].Done?;
      assert !longer[k].Done?;
    }
    assert longer[i] == events[i];
    if Commits(longer) {
      var k :| 0 <= k < |longer| && !longer[k].Done?;
      assert k < i ==> !shorter[k].Done?;
    }
  }

  lemma AfterAfter(log0: seq<Entry>, emitted0: seq<Emitted>, log: seq<Entry>, emitted: seq<Emitted>, run: StreamRun)
    ensures After(log0, emitted0, After(log, emitted, run)) == After(log0 + log, emitted0 + emitted, run)
  {
    assert log0 + (log + run.log) == (log0 + log) + run.log;
    assert emitted0 + (emitted + run.emitted) == (emitted0 + emitted) + run.emitted;
  }

  // ----- chat: the first success in plan order ----------------------------------------------

  /** The provider attempts of a run, in order. */
  function CallsMade(log: seq<Entry>): seq<(nat, nat)> {
    if log == [] then []
    else (if log[0].Called? then [(log[0].attempt, log[0].retry)] else []) + CallsMade(log[1..])
  }

  /** Going from one call to the next is forced by a retryable failure: a retry while the budget lasts, else the next candidate. */
  predicate Follows(cfg: Config, calls: Calls, p: (nat, nat), q: (nat, nat)) {
    var out := calls(p.0, p.1);
    && out.Fails?
    && out.failure.retryable
    && if !cfg.noFallback && ShouldRetry(cfg, p.1, out.failure) then q == (p.0, p.1 + 1)
       else p.0 + 1 < ChatLimit(cfg) && q == (p.0 + 1, 0)
  }

  /** A call that ends the request with `result`: an answer, or a failure that no rule lets the router continue from. */
  predicate Concludes(cfg: Config, calls: Calls, p: (nat, nat), result: Result) {
    match calls(p.0, p.1)
    case Answer(r) => result == Returned(r)
    case Fails(f) =>
      && result == Threw(Provider(f))
      && (cfg.noFallback || !ShouldRetry(cfg, p.1, f))
      && (!f.retryable || p.0 + 1 >= ChatLimit(cfg))
  }

  ghost predicate ForcedPath(cfg: Config, calls: Calls, path: seq<(nat, nat)>, start: (nat, nat), result: Result) {
    && path != [] && path[0] == start
    && (forall i :: 0 <= i < |path| - 1 ==> Follows(cfg, calls, path[i], path[i + 1]))
    && Concludes(cfg, calls, path[|path| - 1], result)
  }

  lemma {:induction false} CallsMadeConcat(a: seq<Entry>, b: seq<Entry>)
    ensures CallsMade(a + b) == CallsMade(a) + CallsMade(b)
  {
    if a == [] {
      assert a + b == b;
    } else {
      CallsMadeConcat(a[1..], b);
      assert (a + b)[0] == a[0] && (a + b)[1..] == a[1..] + b;
    }
  }

  lemma {:induction false} NoCalls(log: seq<Entry>)
    requires forall e :: e in log ==> !e.Called?
    ensures CallsMade(log) == []
  {
    if log != [] {
      NoCalls(log[1..]);
    }
  }

  function Budget(cfg: Config): nat {
    if cfg.retries < 0 then 1 else cfg.retries + 1
  }

  lemma PathExtends(cfg: Config, calls: Calls, p: (nat, nat), rest: seq<(nat, nat)>, q: (nat, nat), result: Result)
    requires Follows(cfg, calls, p, q)
    requires ForcedPath(cfg, calls, rest, q, result)
    ensures ForcedPath(cfg, calls, [p] + rest, p, result)
  {
    var path := [p] + rest;
    forall i | 0 <= i < |path| - 1 ensures Follows(cfg, calls, path[i], path[i + 1]) {
      if i > 0 {
        assert Follows(cfg, calls, rest[i - 1], rest[i]);
      }
    }
  }

  lemma CallThen(a: nat, n: nat, quiet: seq<Entry>, rest: seq<Entry>)
    requires forall e :: e in quiet ==> !e.Called?
    ensures CallsMade([Called(a, n)] + quiet + rest) == [(a, n)] + CallsMade(rest)
  {
    CallsMadeConcat([Called(a, n)] + quiet, rest);
    CallsMadeConcat([Called(a, n)], quiet);
    NoCalls(quiet);
  }

  /** The calls of a run are this call followed by those of the run it continues with, if any. */
  lemma CallsUnfold(cfg: Config, calls: Calls, a: nat, n: nat)
    requires a < ChatLimit(cfg)
    ensures var made, out := CallsMade(ChatTries(cfg, calls, a, n).log), calls(a, n);
            if out.Fails? && !cfg.noFallback && ShouldRetry(cfg, n, out.failure) then
              made == [(a, n)] + CallsMade(ChatTries(cfg, calls, a, n + 1).log)
            else if out.Fails? && a < ChatLimit(cfg) - 1 && out.failure.retryable then
              made == [(a, n)] + CallsMade(ChatTries(cfg, calls, a + 1, 0).log)
            else made == [(a, n)]
  {
    var run := ChatTries(cfg, calls, a, n);
    match calls(a, n) {
      case Answer(r) =>
        CallThen(a, n, SuccessEntries(cfg, a, r), []);
        assert run.log == [Called(a, n)] + SuccessEntries(cfg, a, r) + [];
      case Fails(f) =>
        if !cfg.noFallback && ShouldRetry(cfg, n, f) {
          var rest := ChatTries(cfg, calls, a, n + 1);
          CallThen(a, n, [HealthFailure(a), Retried(a, n, f)], rest.log);
          assert run.log == [Called(a, n)] + [HealthFailure(a), Retried(a, n, f)] + rest.log;
        } else if a < ChatLimit(cfg) - 1 && f.retryable {
          var rest := ChatTries(cfg, calls, a + 1, 0);
          CallThen(a, n, [HealthFailure(a), FailedOver(a, f), Selected(a + 1)], rest.log);
          assert run.log == [Called(a, n)] + [HealthFailure(a), FailedOver(a, f), Selected(a + 1)] + rest.log;
        } else {
          CallThen(a, n, [HealthFailure(a), RouteError(a, f)], []);
          assert run.log == [Called(a, n)] + [HealthFailure(a), RouteError(a, f)] + [];
        }
    }
  }

  lemma {:induction false} TriesArePath(cfg: Config, calls: Calls, a: nat, n: nat)
    requires a < ChatLimit(cfg)
    ensures var run := ChatTries(cfg, calls, a, n);
            ForcedPath(cfg, calls, CallsMade(run.log), (a, n), run.result)
    decreases ChatLimit(cfg) - a, cfg.retries - n
  {
    var run, out := ChatTries(cfg, calls, a, n), calls(a, n);
    CallsUnfold(cfg, calls, a, n);
    if out.Fails? && !cfg.noFallback && ShouldRetry(cfg, n, out.failure) {
      TriesArePath(cfg, calls, a, n + 1);
      PathExtends(cfg, calls, (a, n), CallsMade(ChatTries(cfg, calls, a, n + 1).log), (a, n + 1), run.result);
    } else if out.Fails? && a < ChatLimit(cfg) - 1 && out.failure.retryable {
      TriesArePath(cfg, calls, a + 1, 0);
      PathExtends(cfg, calls, (a, n), CallsMade(ChatTries(cfg, calls, a + 1, 0).log), (a + 1, 0), run.result);
    }
  }

  lemma {:induction false} TriesWithinBudget(cfg: Config, calls: Calls, a: nat, n: nat)
    requires a < ChatLimit(cfg) && n < Budget(cfg)
    ensures |CallsMade(ChatTries(cfg, calls, a, n).log)| <= (ChatLimit(cfg) - a) * Budget(cfg) - n
    decreases ChatLimit(cfg) - a, cfg.retries - n
  {
    var out := calls(a, n);
    CallsUnfold(cfg, calls, a, n);
    RoomForNextCandidate(ChatLimit(cfg) - a, Budget(cfg));
    if out.Fails? && !cfg.noFallback && ShouldRetry(cfg, n, out.failure) {
      TriesWithinBudget(cfg, calls, a, n + 1);
    } else if out.Fails? && a < ChatLimit(cfg) - 1 && out.failure.retryable {
      TriesWithinBudget(cfg, calls, a + 1, 0);
    }
  }

  lemma RoomForNextCandidate(k: int, budget: nat)
    requires k >= 1
    ensures k * budget == (k - 1) * budget + budget
    ensures (k - 1) * budget >= 0
  {}

  /**
   * Every request that calls a provider starts with the best decision, moves on only where a
   * retryable failure forces it, ends with the first success or the first failure nothing
   * may follow, and makes at most limit * (retries + 1) calls.
   */
  lemma ChatIsFirstSuccess(cfg: Config, p: Providers)
    requires cfg.decisions > 0 && ChatLimit(cfg) >= 1
    requires cfg.cache.Some? ==> cfg.cache.value == None
    ensures var run := ChatRun(cfg, p);
            && ForcedPath(cfg, Attempted(cfg, p), CallsMade(run.log), (0, 0), run.result)
            && |CallsMade(run.log)| <= ChatLimit(cfg) * Budget(cfg)
  {
    TriesArePath(cfg, Attempted(cfg, p), 0, 0);
    TriesWithinBudget(cfg, Attempted(cfg, p), 0, 0);
    CallsFromStart(cfg, p);
  }

  lemma CallsFromStart(cfg: Config, p: Providers)
    requires cfg.decisions > 0 && ChatLimit(cfg) >= 1
    requires cfg.cache.Some? ==> cfg.cache.value == None
    ensures CallsMade(ChatRun(cfg, p).log) == CallsMade(ChatTries(cfg, Attempted(cfg, p), 0, 0).log)
    ensures ChatRun(cfg, p).result == ChatTries(cfg, Attempted(cfg, p), 0, 0).result
  {
    var log := ChatTries(cfg, Attempted(cfg, p), 0, 0).log;
    var quiet := (if cfg.cache.Some? then [CacheMiss] else []) + [Selected(0)];
    assert ChatRun(cfg, p).log == quiet + log;
    NoCalls(quiet);
    assert CallsMade(quiet + log) == CallsMade(log) by {
      CallsMadeConcat(quiet, log);
      assert [] + CallsMade(log) == CallsMade(log);
    }
  }

  /** The path is unique, so the specification determines calls and result. */
  lemma {:induction false} ForcedPathUnique(cfg: Config, calls: Calls, p: seq<(nat, nat)>, q: seq<(nat, nat)>, start: (nat, nat), r: Result, s: Result)
    requires ForcedPath(cfg, calls, p, start, r) && ForcedPath(cfg, calls, q, start, s)
    ensures p == q && r == s
    decreases |p|
  {
    if |p| == 1 {
      assert |q| > 1 ==> Follows(cfg, calls, q[0], q[1]);
    } else {
      assert Follows(cfg, calls, p[0], p[1]);
      assert |q| > 1 ==> Follows(cfg, calls, q[0], q[1]);
      forall i | 0 <= i < |p[1..]| - 1 ensures Follows(cfg, calls, p[1..][i], p[1..][i + 1]) {
        assert Follows(cfg, calls, p[i + 1], p[i + 2]);
      }
      forall i | 0 <= i < |q[1..]| - 1 ensures Follows(cfg, calls, q[1..][i], q[1..][i + 1]) {
        assert Follows(cfg, calls, q[i + 1], q[i + 2]);
      }
      ForcedPathUnique(cfg, calls, p[1..], q[1..], p[1], r, s);
      assert p == [p[0]] + p[1..] && q == [q[0]] + q[1..];
    }
  }

  // ----- chat and chatStream agree ------------------------------------------------------------

  /** How `streamFromDecision` presents a provider without `chatStream`. */
  function AdaptedTry(j: Json, out: Outcome): Attempt {
    match out
    case Answer(r) => Attempt(Adapted(j, r), None)
    case Fails(f) => Attempt([], Some(f))
  }

  function AdaptedStreams(j: Json, calls: Calls): Streams {
    (a: nat, n: nat) => AdaptedTry(j, calls(a, n))
  }

  /** What `collectStream` makes of a run: the first `done` wins, else the error, else the assembled deltas. */
  function CollectedRun(j: Json, run: StreamRun): Result {
    match FirstDone(Plain(run.emitted))
    case Some(r) => Returned(r)
    case None => if run.end.Broke? then Threw(run.end.thrown) else Returned(Collected(j, Plain(run.emitted)))
  }

  /** Collecting `chatStream` does what `chat` does, effect by effect, and gives what it gives. */
  predicate Agree(j: Json, run: Run, srun: StreamRun) {
    srun.log == run.log && CollectedRun(j, srun) == run.result
  }

  lemma {:induction false} DoneEntriesOfDeltas(cfg: Config, a: nat, deltas: seq<Event>, r: Response)
    requires forall e :: e in deltas ==> !e.Done?
    ensures DoneEntries(cfg, a, deltas + [Done(r)]) == SuccessEntries(cfg, a, r)
  {
    if deltas == [] {
      assert deltas + [Done(r)] == [Done(r)];
      assert SuccessEntries(cfg, a, r) + [] == SuccessEntries(cfg, a, r);
    } else {
      DoneEntriesOfDeltas(cfg, a, deltas[1..], r);
      assert (deltas + [Done(r)])[0] == deltas[0] && (deltas + [Done(r)])[1..] == deltas[1..] + [Done(r)];
    }
  }

  lemma AdaptedAnswer(j: Json, cfg: Config, a: nat, source: Source, r: Response)
    ensures DoneEntries(cfg, a, Adapted(j, r)) == SuccessEntries(cfg, a, r)
    ensures Plain(Label(source, Adapted(j, r))) == Adapted(j, r)
    ensures FirstDone(Adapted(j, r)) == Some(r)
  {
    CollectedOfAdapted(j, r);
    DoneEntriesOfDeltas(cfg, a, Deltas(j, r), r);
    FirstDoneConcat(Deltas(j, r), [Done(r)]);
  }

  lemma {:induction false} TriesAgree(j: Json, cfg: Config, calls: Calls, a: nat, n: nat)
    requires !cfg.noFallback && a < ChatLimit(cfg)
    ensures Agree(j, ChatTries(cfg, calls, a, n), StreamTries(cfg, AdaptedStreams(j, calls), a, n))
    decreases ChatLimit(cfg) - a, cfg.retries - n
  {
    var streams := AdaptedStreams(j, calls);
    var srun := StreamTries(cfg, streams, a, n);
    match calls(a, n) {
      case Answer(r) =>
        AdaptedAnswer(j, cfg, a, FromTry(a, n), r);
      case Fails(f) =>
        assert streams(a, n) == Attempt([], Some(f));
        var entries := [Called(a, n)] + DoneEntries(cfg, a, []);
        assert entries == [Called(a, n)];
        if ShouldRetry(cfg, n, f) {
          TriesAgree(j, cfg, calls, a, n + 1);
          assert srun.emitted == StreamTries(cfg, streams, a, n + 1).emitted;
        } else if a < ChatLimit(cfg) - 1 && f.retryable {
          TriesAgree(j, cfg, calls, a + 1, 0);
          var rest := StreamTries(cfg, streams, a + 1, 0).emitted;
          assert srun.emitted == [] + ([] + rest);
          assert srun.emitted == rest;
        } else {
          assert Plain(Label(FromTry(a, n), [])) == [];
        }
    }
  }

  /**
   * For providers that do not stream, collecting `chatStream` is `chat`: same result or
   * error, and the same calls, retries, failovers, health reports, cache writes and
   * telemetry in the same order.
   */
  lemma CollectedStreamIsChat(j: Json, cfg: Config, p: Providers)
    requires !cfg.noFallback
    ensures Agree(j, ChatRun(cfg, p), ChatStreamRun(j, cfg, AdaptedStreams(j, p.chat)))
  {
    match cfg.cache {
      case Some(Some(hit)) =>
        AdaptedAnswer(j, cfg, 0, FromCache, hit);
      case _ =>
        if cfg.decisions > 0 && ChatLimit(cfg) > 0 {
          TriesAgree(j, cfg, p.chat, 0, 0);
          var rest := StreamTries(cfg, AdaptedStreams(j, p.chat), 0, 0);
          assert [] + ([] + rest.emitted) == rest.emitted;
        } else {
          assert Plain([]) == [];
        }
    }
  }

  /** The first try leaves something to retry, or to fail over to. */
  predicate GoesOn(cfg: Config, first: Outcome) {
    first.Fails? && (ShouldRetry(cfg, 0, first.failure) || (first.failure.retryable && StreamLimit(cfg) > 1))
  }

  lemma NoFallbackTries(j: Json, cfg: Config, p: Providers)
    requires cfg.noFallback && StreamLimit(cfg) >= 1
    ensures Agree(j, ChatTries(cfg, Attempted(cfg, p), 0, 0), StreamTries(cfg, AdaptedStreams(j, p.chat), 0, 0))
       <==> Attempted(cfg, p)(0, 0) == p.chat(0, 0) && !GoesOn(cfg, p.chat(0, 0))
  {
    var calls, streams := Attempted(cfg, p), AdaptedStreams(j, p.chat);
    var tries, stries := ChatTries(cfg, calls, 0, 0), StreamTries(cfg, streams, 0, 0);
    assert calls(0, 0).Fails? ==> tries.log[2] == RouteError(0, calls(0, 0).failure);
    assert calls(0, 0).Fails? <==> tries.log[1] == HealthFailure(0);
    match p.chat(0, 0) {
      case Answer(r) =>
        AdaptedAnswer(j, cfg, 0, FromTry(0, 0), r);
        assert CollectedRun(j, stries) == Returned(r);
      case Fails(f) =>
        assert streams(0, 0) == Attempt([], Some(f));
        assert [Called(0, 0)] + DoneEntries(cfg, 0, []) == [Called(0, 0)];
        assert stries.log[1] == HealthFailure(0);
        assert stries.log[2] == RouteError(0, f) <==> !GoesOn(cfg, p.chat(0, 0));
        assert Plain(Label(FromTry(0, 0), [])) == [];
    }
  }

  function Quiet(cfg: Config): seq<Entry> {
    if cfg.cache.Some? then [CacheMiss] else []
  }

  /** A run that gets past the cache with a plan: its first try decides. */
  lemma NoFallbackRuns(j: Json, cfg: Config, p: Providers)
    requires cfg.noFallback && cfg.cache.GetOr(None) == None && cfg.decisions > 0 && StreamLimit(cfg) >= 1
    ensures var run, srun := ChatRun(cfg, p), ChatStreamRun(j, cfg, AdaptedStreams(j, p.chat));
            Agree(j, run, srun) <==> Attempted(cfg, p)(0, 0) == p.chat(0, 0) && !GoesOn(cfg, p.chat(0, 0))
  {
    var tries, stries := ChatTries(cfg, Attempted(cfg, p), 0, 0), StreamTries(cfg, AdaptedStreams(j, p.chat), 0, 0);
    var run, srun := ChatRun(cfg, p), ChatStreamRun(j, cfg, AdaptedStreams(j, p.chat));
    var prefix := Quiet(cfg) + [Selected(0)];
    NoFallbackTries(j, cfg, p);
    assert run.log == prefix + tries.log && srun.log == prefix + stries.log;
    SamePrefix(prefix, tries.log, stries.log);
    assert srun.emitted == stries.emitted;
  }

  /**
   * `chatStream` ignores `noFallback`: it calls `chat` where `chat` calls `chatOnce`, and it
   * goes on where `chat` stops. For all providers the two agree, in effects and result,
   * exactly when the cache answers, when there is no plan, or when the first `chatOnce` comes
   * to the same as the first `chat` and leaves nothing to go on with.
   */
  lemma NoFallbackAgreement(j: Json, cfg: Config, p: Providers)
    requires cfg.noFallback
    ensures Agree(j, ChatRun(cfg, p), ChatStreamRun(j, cfg, AdaptedStreams(j, p.chat)))
       <==> || cfg.cache.GetOr(None).Some?
            || cfg.decisions == 0
            || (StreamLimit(cfg) >= 1 && Attempted(cfg, p)(0, 0) == p.chat(0, 0) && !GoesOn(cfg, p.chat(0, 0)))
  {
    if cfg.cache.GetOr(None).Some? {
      AdaptedAnswer(j, cfg, 0, FromCache, cfg.cache.value.value);
    } else if cfg.decisions == 0 {
      assert Plain([]) == [];
    } else if StreamLimit(cfg) < 1 {
      var run, srun := ChatRun(cfg, p), ChatStreamRun(j, cfg, AdaptedStreams(j, p.chat));
      assert srun.log == Quiet(cfg) && run.log[|Quiet(cfg)|] == Selected(0);
    } else {
      NoFallbackRuns(j, cfg, p);
    }
  }

  /** A first provider without `chatOnce`: where its `chat` answers, the stream returns and `chat` throws. */
  lemma MissingChatOnceThrows(j: Json, cfg: Config, p: Providers, r: Response)
    requires cfg.noFallback && cfg.cache.GetOr(None) == None && cfg.decisions > 0 && StreamLimit(cfg) >= 1
    requires p.chatOnce(0) == None && p.chat(0, 0) == Answer(r)
    ensures ChatRun(cfg, p).result == Threw(Provider(UNBOUNDED))
    ensures CollectedRun(j, ChatStreamRun(j, cfg, AdaptedStreams(j, p.chat))) == Returned(r)
  {
    var srun, stries := ChatStreamRun(j, cfg, AdaptedStreams(j, p.chat)), StreamTries(cfg, AdaptedStreams(j, p.chat), 0, 0);
    assert ChatTries(cfg, Attempted(cfg, p), 0, 0).result == Threw(Provider(UNBOUNDED));
    AdaptedAnswer(j, cfg, 0, FromTry(0, 0), r);
    assert srun.emitted == stries.emitted;
  }

  lemma SamePrefix(prefix: seq<Entry>, a: seq<Entry>, b: seq<Entry>)
    ensures prefix + a == prefix + b <==> a == b
  {
    assert a == (prefix + a)[|prefix|..] && b == (prefix + b)[|prefix|..];
  }

  // ----- chatStream: one source per response -----------------------------------------------

  /** A stream that fails retryably after yielding nothing but `done`: the commit rule does not see it. */
  predicate FailsAfterDone(t: Attempt) {
    t.events != [] && !Commits(t.events) && t.failure.Some? && t.failure.value.retryable
  }

  ghost predicate WellBehaved(streams: Streams) {
    forall a: nat, n: nat :: !FailsAfterDone(streams(a, n))
  }

  /** Everything that was emitted is the full sequence of one try. */
  ghost predicate FromOneTry(streams: Streams, emitted: seq<Emitted>) {
    emitted == [] || exists a: nat, n: nat :: emitted == Label(FromTry(a, n), streams(a, n).events)
  }

  /** Everything the caller gets is the cached response, or the full sequence of one try. */
  ghost predicate OneSource(j: Json, cfg: Config, streams: Streams) {
    var emitted := ChatStreamRun(j, cfg, streams).emitted;
    match cfg.cache
    case Some(Some(hit)) => emitted == Label(FromCache, Adapted(j, hit))
    case _ => FromOneTry(streams, emitted)
  }

  /** A retry or a failover adds what the next try emits, and nothing of its own. */
  lemma EmittedOnward(cfg: Config, streams: Streams, a: nat, n: nat, f: Failure)
    requires a < StreamLimit(cfg)
    requires streams(a, n).failure == Some(f) && !Commits(streams(a, n).events) && f.retryable
    ensures ShouldRetry(cfg, n, f) ==>
              StreamTries(cfg, streams, a, n).emitted
              == Label(FromTry(a, n), streams(a, n).events) + StreamTries(cfg, streams, a, n + 1).emitted
    ensures !ShouldRetry(cfg, n, f) && a < StreamLimit(cfg) - 1 ==>
              StreamTries(cfg, streams, a, n).emitted
              == Label(FromTry(a, n), streams(a, n).events) + StreamTries(cfg, streams, a + 1, 0).emitted
  {
    if !ShouldRetry(cfg, n, f) && a < StreamLimit(cfg) - 1 {
      var rest := StreamTries(cfg, streams, a + 1, 0).emitted;
      assert StreamAttempts(cfg, streams, a + 1).emitted == [] + rest;
      assert [] + rest == rest;
    }
  }

  /** The try that follows, if this one ends in a retry or a failover. */
  function NextTry(cfg: Config, streams: Streams, a: nat, n: nat): Option<(nat, nat)> {
    match streams(a, n).failure
    case None => None
    case Some(f) =>
      if Commits(streams(a, n).events) then None
      else if ShouldRetry(cfg, n, f) then Some((a, n + 1))
      else if f.retryable && a < StreamLimit(cfg) - 1 then Some((a + 1, 0))
      else None
  }

  /** The tries a run reaches, in order. */
  function TriesReached(cfg: Config, streams: Streams, a: nat, n: nat): (reached: seq<(nat, nat)>)
    requires a < StreamLimit(cfg)
    ensures |reached| > 0 && reached[0] == (a, n)
    decreases StreamLimit(cfg) - a, cfg.retries - n
  {
    [(a, n)] + match NextTry(cfg, streams, a, n)
               case Some(q) => TriesReached(cfg, streams, q.0, q.1)
               case None => []
  }

  lemma EmittedUnfolds(cfg: Config, streams: Streams, a: nat, n: nat)
    requires a < StreamLimit(cfg)
    ensures StreamTries(cfg, streams, a, n).emitted
         == Label(FromTry(a, n), streams(a, n).events)
            + match NextTry(cfg, streams, a, n)
              case Some(q) => StreamTries(cfg, streams, q.0, q.1).emitted
              case None => []
  {
    var t, out := streams(a, n), Label(FromTry(a, n), streams(a, n).events);
    assert out + [] == out;
    if NextTry(cfg, streams, a, n).Some? {
      EmittedOnward(cfg, streams, a, n, t.failure.value);
    }
  }

  predicate Emits(streams: Streams, p: (nat, nat)) {
    streams(p.0, p.1).events != []
  }

  /** Of the tries reached, one fails retryably after a bare `done` and a later one emits something. */
  ghost predicate SplicesAlong(streams: Streams, reached: seq<(nat, nat)>) {
    exists i, k :: 0 <= i < k < |reached| && FailsAfterDone(streams(reached[i].0, reached[i].1)) && Emits(streams, reached[k])
  }

  predicate FromLater(e: Emitted, a: nat, n: nat) {
    e.source.FromTry? && (e.source.attempt > a || (e.source.attempt == a && e.source.retry >= n))
  }

  /** What a run emits comes from this try or later ones, and from some try that was reached. */
  lemma {:induction false} EmittedFromReached(cfg: Config, streams: Streams, a: nat, n: nat)
    requires a < StreamLimit(cfg)
    ensures forall e :: e in StreamTries(cfg, streams, a, n).emitted ==> FromLater(e, a, n)
    ensures StreamTries(cfg, streams, a, n).emitted == [] <==> forall p :: p in TriesReached(cfg, streams, a, n) ==> !Emits(streams, p)
    decreases StreamLimit(cfg) - a, cfg.retries - n
  {
    EmittedUnfolds(cfg, streams, a, n);
    assert Label(FromTry(a, n), streams(a, n).events) == [] <==> !Emits(streams, (a, n));
    match NextTry(cfg, streams, a, n)
    case Some(q) => EmittedFromReached(cfg, streams, q.0, q.1);
    case None =>
  }

  lemma SplicesUnfold(streams: Streams, p: (nat, nat), rest: seq<(nat, nat)>)
    ensures SplicesAlong(streams, [p] + rest)
       <==> (FailsAfterDone(streams(p.0, p.1)) && exists q :: q in rest && Emits(streams, q)) || SplicesAlong(streams, rest)
  {
    var all := [p] + rest;
    if SplicesAlong(streams, all) {
      var i, k :| 0 <= i < k < |all| && FailsAfterDone(streams(all[i].0, all[i].1)) && Emits(streams, all[k]);
      assert all[k] == rest[k - 1] && (i > 0 ==> all[i] == rest[i - 1]);
    }
    if SplicesAlong(streams, rest) {
      var i, k :| 0 <= i < k < |rest| && FailsAfterDone(streams(rest[i].0, rest[i].1)) && Emits(streams, rest[k]);
      assert all[i + 1] == rest[i] && all[k + 1] == rest[k];
    }
    if FailsAfterDone(streams(p.0, p.1)) && exists q :: q in rest && Emits(streams, q) {
      var k :| 0 <= k < |rest| && Emits(streams, rest[k]);
      assert all[0] == p && all[k + 1] == rest[k];
    }
  }

  /** Two tries that both emit: no single try accounts for that. */
  lemma TwoSources(streams: Streams, a: nat, n: nat, rest: seq<Emitted>)
    requires streams(a, n).events != [] && rest != []
    requires rest[0].source != FromTry(a, n)
    ensures !FromOneTry(streams, Label(FromTry(a, n), streams(a, n).events) + rest)
  {
    var first := Label(FromTry(a, n), streams(a, n).events);
    assert (first + rest)[0].source == FromTry(a, n) && (first + rest)[|first|] == rest[0];
  }

  lemma {:induction false} TriesHaveOneSourceExactly(cfg: Config, streams: Streams, a: nat, n: nat)
    requires a < StreamLimit(cfg)
    ensures FromOneTry(streams, StreamTries(cfg, streams, a, n).emitted) <==> !SplicesAlong(streams, TriesReached(cfg, streams, a, n))
    decreases StreamLimit(cfg) - a, cfg.retries - n
  {
    var out := Label(FromTry(a, n), streams(a, n).events);
    EmittedUnfolds(cfg, streams, a, n);
    match NextTry(cfg, streams, a, n)
    case None =>
      assert out + [] == out;
    case Some(q) =>
      var rest := StreamTries(cfg, streams, q.0, q.1).emitted;
      TriesHaveOneSourceExactly(cfg, streams, q.0, q.1);
      EmittedFromReached(cfg, streams, q.0, q.1);
      SplicesUnfold(streams, (a, n), TriesReached(cfg, streams, q.0, q.1));
      if out == [] {
        assert out + rest == rest;
      } else if rest == [] {
        assert out + rest == out;
      } else {
        assert rest[0] in rest;
        TwoSources(streams, a, n, rest);
      }
  }

  /** Past the cache and with something to try, the caller gets what the first try and its successors emit. */
  lemma EmittedByTries(j: Json, cfg: Config, streams: Streams)
    requires cfg.cache.GetOr(None) == None
    ensures ChatStreamRun(j, cfg, streams).emitted
         == if StreamLimit(cfg) < 1 then [] else StreamTries(cfg, streams, 0, 0).emitted
  {
    if StreamLimit(cfg) >= 1 {
      var rest := StreamTries(cfg, streams, 0, 0).emitted;
      assert [] + ([] + rest) == rest;
    }
  }

  /** Past the cache, the tries reached; with nothing to try, none. */
  function Reached(cfg: Config, streams: Streams): seq<(nat, nat)> {
    if cfg.cache.GetOr(None).Some? || StreamLimit(cfg) < 1 then [] else TriesReached(cfg, streams, 0, 0)
  }

  /**
   * For every configuration and every script: what the caller gets is the cached response or
   * one try in full if and only if no try that is reached fails retryably after a bare `done`
   * with another one after it that emits something.
   */
  lemma OneSourceExactly(j: Json, cfg: Config, streams: Streams)
    ensures OneSource(j, cfg, streams) <==> !SplicesAlong(streams, Reached(cfg, streams))
  {
    if cfg.cache.GetOr(None) == None {
      EmittedByTries(j, cfg, streams);
      if StreamLimit(cfg) >= 1 {
        TriesHaveOneSourceExactly(cfg, streams, 0, 0);
      }
    }
  }

  /**
   * No text is repeated or spliced across retries and failovers, for every script without a
   * failure after a bare `done`.
   */
  lemma StreamHasOneSource(j: Json, cfg: Config, streams: Streams)
    requires WellBehaved(streams)
    ensures OneSource(j, cfg, streams)
  {
    OneSourceExactly(j, cfg, streams);
  }

  /** The first try behaves as `s`, every later one as in `later`. */
  function StartingWith(s: Attempt, later: Streams): Streams {
    (a: nat, n: nat) => if a == 0 && n == 0 then s else later(a, n)
  }

  /** Every try answers at once with one text. */
  function AllAnswer(): Streams {
    (a: nat, n: nat) => Attempt([TextDelta("again")], None)
  }

  /** A first failure that is followed by another try: past the cache, and with a retry or a candidate left. */
  predicate IsFollowed(cfg: Config, f: Failure) {
    && cfg.cache.GetOr(None) == None
    && StreamLimit(cfg) >= 1
    && (ShouldRetry(cfg, 0, f) || (f.retryable && StreamLimit(cfg) > 1))
  }

  /** A bare `done` and then a failure that is followed: the next try's text comes after the first response. */
  lemma SpliceAfterDone(j: Json, cfg: Config, s: Attempt)
    requires FailsAfterDone(s) && IsFollowed(cfg, s.failure.value)
    ensures !OneSource(j, cfg, StartingWith(s, AllAnswer()))
  {
    var streams := StartingWith(s, AllAnswer());
    var (a, n) := if ShouldRetry(cfg, 0, s.failure.value) then (0, 1) else (1, 0);
    var first, second := Label(FromTry(0, 0), s.events), Label(FromTry(a, n), AllAnswer()(a, n).events);
    assert StreamTries(cfg, streams, a, n).emitted == second;
    EmittedOnward(cfg, streams, 0, 0, s.failure.value);
    assert StreamTries(cfg, streams, 0, 0).emitted == first + second;
    EmittedByTries(j, cfg, streams);
    var emitted := ChatStreamRun(j, cfg, streams).emitted;
    assert emitted[0].source == FromTry(0, 0) && emitted[|first|].source == FromTry(a, n);
  }

  /** A first try that nothing follows is all the caller gets. */
  lemma NothingFollows(j: Json, cfg: Config, s: Attempt, later: Streams)
    requires FailsAfterDone(s) && !IsFollowed(cfg, s.failure.value)
    ensures OneSource(j, cfg, StartingWith(s, later))
  {
    var streams := StartingWith(s, later);
    if cfg.cache.GetOr(None) == None {
      EmittedByTries(j, cfg, streams);
      if StreamLimit(cfg) >= 1 {
        assert StreamTries(cfg, streams, 0, 0).emitted == Label(FromTry(0, 0), streams(0, 0).events);
      }
    }
  }

  /**
   * The condition is exact in every configuration: a first try is safe in front of all
   * well-behaved later ones if and only if it does not fail after a bare `done` with
   * another try to follow.
   */
  lemma SpliceExactlyAfterDone(j: Json, cfg: Config, s: Attempt)
    ensures (forall later: Streams :: WellBehaved(later) ==> OneSource(j, cfg, StartingWith(s, later)))
       <==> !(FailsAfterDone(s) && IsFollowed(cfg, s.failure.value))
  {
    if FailsAfterDone(s) && IsFollowed(cfg, s.failure.value) {
      SpliceAfterDone(j, cfg, s);
      assert WellBehaved(AllAnswer());
    } else {
      forall later: Streams | WellBehaved(later) ensures OneSource(j, cfg, StartingWith(s, later)) {
        if FailsAfterDone(s) {
          NothingFollows(j, cfg, s, later);
        } else {
          assert WellBehaved(StartingWith(s, later));
          StreamHasOneSource(j, cfg, StartingWith(s, later));
        }
      }
    }
  }
}
