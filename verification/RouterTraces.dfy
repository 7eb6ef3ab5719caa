/**
 * What the router does in a run, read off its log: for each provider call, what must follow it.
 *
 * The limits are written out here as the numbers of the configuration, and the rules for
 * retries and failover as tests on the failure. Every log is a chain of calls in which each is
 * followed by exactly the entries its outcome asks for, so the log is determined by the script.
 */
module RouterTraces {
  import opened Wrappers
  import opened Streaming
  import opened RouterRuns

  /** A streaming request may try this decision: it is in the plan and within the candidate limit. */
  predicate StreamMayTry(cfg: Config, a: nat) {
    a < cfg.decisions && match cfg.maxCandidates case Some(m) => a < m case None => true
  }

  /** A bounded request only ever tries the first decision, whatever the candidate limit. */
  predicate ChatMayTry(cfg: Config, a: nat) {
    if cfg.noFallback then a == 0 else StreamMayTry(cfg, a)
  }

  /** The same candidate may be tried again: a retryable failure that is no timeout, within the budget. */
  predicate RetriedAfter(cfg: Config, n: nat, f: Failure) {
    f.retryable && !f.timedOut && n < cfg.retries
  }

  /** The effects of an answer: it is cached if there is a cache, and reported. */
  function Reported(cfg: Config, a: nat, r: Response): seq<Entry> {
    (match cfg.cache case Some(_) => [CacheSet(r)] case None => [])
    + [HealthSuccess(a), Succeeded(a), Completed(a, r.usage)]
  }

  // ----- chains of calls ------------------------------------------------------------------------

  /** The entries that must follow a call, and how the request ends if it ends there. */
  datatype After<R> = After(part: seq<Entry>, ends: Option<R>)

  predicate PartAt(log: seq<Entry>, i: nat, part: seq<Entry>) {
    i + |part| <= |log| && log[i..i + |part|] == part
  }

  predicate Followed<R(==)>(log: seq<Entry>, result: R, i: nat, after: After<R>) {
    PartAt(log, i + 1, after.part) && (after.ends.Some? ==> |log| == i + 1 + |after.part| && result == after.ends.value)
  }

  /** Every call of the log may be made, and is followed by what it asks for. */
  ghost predicate Chain<R(!new)>(after: (nat, nat) -> After<R>, may: nat -> bool, log: seq<Entry>, result: R) {
    forall i :: 0 <= i < |log| && log[i].Called? ==>
      may(log[i].attempt) && Followed(log, result, i, after(log[i].attempt, log[i].retry))
  }

  predicate Quiet(log: seq<Entry>) {
    forall i :: 0 <= i < |log| ==> !log[i].Called?
  }

  lemma FollowedShifts<R>(head: seq<Entry>, log: seq<Entry>, result: R, i: nat, after: After<R>)
    requires Followed(log, result, i, after)
    ensures Followed(head + log, result, |head| + i, after)
  {
    var all, k := head + log, i + 1 + |after.part|;
    assert all[|head| + i + 1..|head| + k] == log[i + 1..k];
  }

  lemma ChainAfterQuiet<R(!new)>(after: (nat, nat) -> After<R>, may: nat -> bool, head: seq<Entry>, log: seq<Entry>, result: R)
    requires Quiet(head) && Chain(after, may, log, result)
    ensures Chain(after, may, head + log, result)
  {
    var all := head + log;
    forall i | 0 <= i < |all| && all[i].Called? ensures may(all[i].attempt) && Followed(all, result, i, after(all[i].attempt, all[i].retry)) {
      assert all[i] == log[i - |head|];
      FollowedShifts(head, log, result, i - |head|, after(all[i].attempt, all[i].retry));
    }
  }

  /** A call that goes on, in front of the chain that it goes on with. */
  lemma ChainGoesOn<R(!new)>(after: (nat, nat) -> After<R>, may: nat -> bool, a: nat, n: nat, quiet: seq<Entry>, log: seq<Entry>, result: R)
    requires may(a) && Quiet(quiet) && Chain(after, may, log, result)
    requires log != [] && after(a, n) == After(quiet + [log[0]], None)
    ensures Chain(after, may, [Called(a, n)] + (quiet + log), result)
  {
    var all := [Called(a, n)] + (quiet + log);
    ChainAfterQuiet(after, may, quiet, log, result);
    assert all[1..1 + |quiet| + 1] == quiet + [log[0]];
    forall i | 0 <= i < |all| && all[i].Called? ensures may(all[i].attempt) && Followed(all, result, i, after(all[i].attempt, all[i].retry)) {
      if i > 0 {
        assert all[i] == (quiet + log)[i - 1];
        FollowedShifts([Called(a, n)], quiet + log, result, i - 1, after(all[i].attempt, all[i].retry));
      }
    }
  }

  lemma ChainEnds<R(!new)>(after: (nat, nat) -> After<R>, may: nat -> bool, a: nat, n: nat, quiet: seq<Entry>, result: R)
    requires may(a) && Quiet(quiet) && after(a, n) == After(quiet, Some(result))
    ensures Chain(after, may, [Called(a, n)] + quiet, result)
  {
    var all := [Called(a, n)] + quiet;
    assert all[1..1 + |quiet|] == quiet;
    forall i | 1 <= i < |all| ensures !all[i].Called? {
      assert all[i] == quiet[i - 1];
    }
  }

  // ----- chat -----------------------------------------------------------------------------------

  /** What follows a call of `chat`, for each outcome. */
  function AfterChatCall(cfg: Config, calls: Calls, a: nat, n: nat): After<Result> {
    match calls(a, n)
    case Answer(r) =>
      After(Reported(cfg, a, r), Some(Returned(r)))
    case Fails(f) =>
      if !cfg.noFallback && RetriedAfter(cfg, n, f)
      then After([HealthFailure(a), Retried(a, n, f), Called(a, n + 1)], None)
      else if !cfg.noFallback && f.retryable && StreamMayTry(cfg, a + 1)
      then After([HealthFailure(a), FailedOver(a, f), Selected(a + 1), Called(a + 1, 0)], None)
      else After([HealthFailure(a), RouteError(a, f)], Some(Threw(Provider(f))))
  }

  function ChatRules(cfg: Config, calls: Calls): (nat, nat) -> After<Result> {
    (a: nat, n: nat) => AfterChatCall(cfg, calls, a, n)
  }

  function ChatTriesAllowed(cfg: Config): nat -> bool {
    (a: nat) => ChatMayTry(cfg, a)
  }

  ghost predicate ChatTrace(cfg: Config, calls: Calls, log: seq<Entry>, result: Result) {
    Chain(ChatRules(cfg, calls), ChatTriesAllowed(cfg), log, result)
  }

  lemma LimitsAreNumbers(cfg: Config, a: nat)
    ensures a < StreamLimit(cfg) <==> StreamMayTry(cfg, a)
    ensures a < ChatLimit(cfg) <==> ChatMayTry(cfg, a)
  {
  }

  ghost predicate ChatTracedFrom(cfg: Config, calls: Calls, a: nat, n: nat)
    requires a < ChatLimit(cfg)
  {
    var run := ChatTries(cfg, calls, a, n);
    run.log != [] && run.log[0] == Called(a, n) && ChatTrace(cfg, calls, run.log, run.result)
  }

  lemma ChatRetryIsTraced(cfg: Config, calls: Calls, a: nat, n: nat, f: Failure)
    requires a < ChatLimit(cfg) && calls(a, n) == Fails(f) && !cfg.noFallback && ShouldRetry(cfg, n, f)
    requires ChatTracedFrom(cfg, calls, a, n + 1)
    ensures ChatTracedFrom(cfg, calls, a, n)
  {
    var rest, quiet := ChatTries(cfg, calls, a, n + 1), [HealthFailure(a), Retried(a, n, f)];
    LimitsAreNumbers(cfg, a);
    assert quiet + [rest.log[0]] == [HealthFailure(a), Retried(a, n, f), Called(a, n + 1)];
    ChainGoesOn(ChatRules(cfg, calls), ChatTriesAllowed(cfg), a, n, quiet, rest.log, rest.result);
    assert [Called(a, n), HealthFailure(a), Retried(a, n, f)] + rest.log == [Called(a, n)] + (quiet + rest.log);
  }

  lemma ChatFailoverIsTraced(cfg: Config, calls: Calls, a: nat, n: nat, f: Failure)
    requires a < ChatLimit(cfg) - 1 && calls(a, n) == Fails(f) && !(!cfg.noFallback && ShouldRetry(cfg, n, f)) && f.retryable
    requires ChatTracedFrom(cfg, calls, a + 1, 0)
    ensures ChatTracedFrom(cfg, calls, a, n)
  {
    var rest, quiet := ChatTries(cfg, calls, a + 1, 0), [HealthFailure(a), FailedOver(a, f), Selected(a + 1)];
    LimitsAreNumbers(cfg, a);
    LimitsAreNumbers(cfg, a + 1);
    assert quiet + [rest.log[0]] == [HealthFailure(a), FailedOver(a, f), Selected(a + 1), Called(a + 1, 0)];
    ChainGoesOn(ChatRules(cfg, calls), ChatTriesAllowed(cfg), a, n, quiet, rest.log, rest.result);
    assert [Called(a, n), HealthFailure(a), FailedOver(a, f)] + ([Selected(a + 1)] + rest.log) == [Called(a, n)] + (quiet + rest.log);
  }

  lemma ChatEndIsTraced(cfg: Config, calls: Calls, a: nat, n: nat)
    requires a < ChatLimit(cfg)
    requires calls(a, n).Fails? ==>
               && !(!cfg.noFallback && ShouldRetry(cfg, n, calls(a, n).failure))
               && !(a < ChatLimit(cfg) - 1 && calls(a, n).failure.retryable)
    ensures ChatTracedFrom(cfg, calls, a, n)
  {
    LimitsAreNumbers(cfg, a);
    LimitsAreNumbers(cfg, a + 1);
    var after := AfterChatCall(cfg, calls, a, n);
    assert ChatTries(cfg, calls, a, n).log == [Called(a, n)] + after.part;
    ChainEnds(ChatRules(cfg, calls), ChatTriesAllowed(cfg), a, n, after.part, ChatTries(cfg, calls, a, n).result);
  }

  lemma {:induction false} TriesAreTraced(cfg: Config, calls: Calls, a: nat, n: nat)
    requires a < ChatLimit(cfg)
    ensures ChatTracedFrom(cfg, calls, a, n)
    decreases ChatLimit(cfg) - a, cfg.retries - n
  {
    var out := calls(a, n);
    if out.Fails? && !cfg.noFallback && ShouldRetry(cfg, n, out.failure) {
      TriesAreTraced(cfg, calls, a, n + 1);
      ChatRetryIsTraced(cfg, calls, a, n, out.failure);
    } else if out.Fails? && a < ChatLimit(cfg) - 1 && out.failure.retryable {
      TriesAreTraced(cfg, calls, a + 1, 0);
      ChatFailoverIsTraced(cfg, calls, a, n, out.failure);
    } else {
      ChatEndIsTraced(cfg, calls, a, n);
    }
  }

  /** The log up to the first call, and how a request ends that makes none. */
  predicate Begins(cfg: Config, log: seq<Entry>, tries: bool) {
    var miss := match cfg.cache case Some(_) => [CacheMiss] case None => [];
    if tries then PartAt(log, 0, miss + [Selected(0), Called(0, 0)]) else log == miss
  }

  /**
   * For every configuration and all providers: a hit is returned without a call; without a plan
   * or with a candidate limit of none the request throws without a call; otherwise the log is a
   * chain of calls from the first try on, none of them beyond the plan or the candidate limit,
   * each followed by exactly what its outcome asks for.
   */
  lemma ChatIsTraced(cfg: Config, p: Providers)
    ensures var run := ChatRun(cfg, p);
            if cfg.cache.Some? && cfg.cache.value.Some? then
              run == Run([CacheHit], Returned(cfg.cache.value.value))
            else
              var tries := cfg.decisions > 0 && ChatMayTry(cfg, 0);
              && Begins(cfg, run.log, tries)
              && ChatTrace(cfg, Attempted(cfg, p), run.log, run.result)
              && (!tries ==> run.result == Threw(if cfg.decisions == 0 then NoCapableModel else Nothing))
  {
    if cfg.cache.GetOr(None) == None {
      var run, calls := ChatRun(cfg, p), Attempted(cfg, p);
      var miss := if cfg.cache.Some? then [CacheMiss] else [];
      LimitsAreNumbers(cfg, 0);
      if cfg.decisions > 0 && ChatMayTry(cfg, 0) {
        var rest, head := ChatTries(cfg, calls, 0, 0), miss + [Selected(0)];
        TriesAreTraced(cfg, calls, 0, 0);
        assert run.log == head + rest.log;
        assert run.log[0..|head| + 1] == miss + [Selected(0), Called(0, 0)];
        ChainAfterQuiet(ChatRules(cfg, calls), ChatTriesAllowed(cfg), head, rest.log, run.result);
      } else {
        assert miss + [] == miss && run.log == miss;
      }
    }
  }

  /** A bounded request makes at most the one call to the first candidate's `chatOnce`, and comes to what that comes to. */
  lemma BoundedChatIsOneTry(cfg: Config, p: Providers)
    requires cfg.noFallback && cfg.decisions > 0 && (cfg.cache.Some? ==> cfg.cache.value.None?)
    ensures var run := ChatRun(cfg, p);
            && (forall e :: e in run.log && e.Called? ==> e == Called(0, 0))
            && match p.chatOnce(0)
               case None => run.result == Threw(Provider(Failure(-1, false, false)))
               case Some(once) =>
                 match once(0)
                 case Answer(r) => run.result == Returned(r)
                 case Fails(f) => run.result == Threw(Provider(f))
  {
    var run := ChatRun(cfg, p);
    ChatIsTraced(cfg, p);
    var at := if cfg.cache.Some? then 2 else 1;
    assert run.log[at] == Called(0, 0) by {
      var first := (match cfg.cache case Some(_) => [CacheMiss] case None => []) + [Selected(0), Called(0, 0)];
      assert run.log[0..|first|] == first && first[at] == Called(0, 0);
    }
    var rest := ChatTries(cfg, Attempted(cfg, p), 0, 0);
    assert forall e :: e in rest.log && e.Called? ==> e == Called(0, 0);
  }

  /** Otherwise every call is to the candidate's `chat`. */
  lemma UnboundedChatIsChat(cfg: Config, p: Providers)
    requires !cfg.noFallback
    ensures ChatTrace(cfg, p.chat, ChatRun(cfg, p).log, ChatRun(cfg, p).result)
  {
    ChatIsTraced(cfg, p);
  }

  // ----- chatStream -----------------------------------------------------------------------------

  /** The effects of the `done` events of one try. */
  function ReportedAll(cfg: Config, a: nat, events: seq<Event>): seq<Entry> {
    if events == [] then []
    else ReportedAll(cfg, a, events[..|events| - 1]) + if events[|events| - 1].Done? then Reported(cfg, a, events[|events| - 1].response) else []
  }

  /** Nothing but `done` events reached the caller. */
  predicate NoContent(events: seq<Event>) {
    forall i :: 0 <= i < |events| ==> events[i].Done?
  }

  /** What follows a call of `chatStream`, for each stream. */
  function AfterStreamCall(cfg: Config, streams: Streams, a: nat, n: nat): After<StreamEnd> {
    var t := streams(a, n);
    var done := ReportedAll(cfg, a, t.events);
    match t.failure
    case None =>
      After(done, Some(Finished))
    case Some(f) =>
      if NoContent(t.events) && RetriedAfter(cfg, n, f)
      then After(done + [HealthFailure(a), Retried(a, n, f)] + [Called(a, n + 1)], None)
      else if NoContent(t.events) && f.retryable && StreamMayTry(cfg, a + 1)
      then After(done + [HealthFailure(a), FailedOver(a, f), Selected(a + 1)] + [Called(a + 1, 0)], None)
      else After(done + [HealthFailure(a), RouteError(a, f)], Some(Broke(Provider(f))))
  }

  function StreamRules(cfg: Config, streams: Streams): (nat, nat) -> After<StreamEnd> {
    (a: nat, n: nat) => AfterStreamCall(cfg, streams, a, n)
  }

  function StreamTriesAllowed(cfg: Config): nat -> bool {
    (a: nat) => StreamMayTry(cfg, a)
  }

  ghost predicate StreamTrace(cfg: Config, streams: Streams, log: seq<Entry>, end: StreamEnd) {
    Chain(StreamRules(cfg, streams), StreamTriesAllowed(cfg), log, end)
  }

  /** Everything the tries of a log yielded, in order. */
  function Yielded(streams: Streams, log: seq<Entry>): seq<Emitted> {
    if log == [] then []
    else
      Yielded(streams, log[..|log| - 1])
      + if log[|log| - 1].Called?
        then Label(FromTry(log[|log| - 1].attempt, log[|log| - 1].retry), streams(log[|log| - 1].attempt, log[|log| - 1].retry).events)
        else []
  }

  lemma {:induction false} YieldedConcat(streams: Streams, x: seq<Entry>, y: seq<Entry>)
    ensures Yielded(streams, x + y) == Yielded(streams, x) + Yielded(streams, y)
    decreases |y|
  {
    if y == [] {
      assert x + y == x && Yielded(streams, x) + [] == Yielded(streams, x);
    } else {
      var init := y[..|y| - 1];
      assert (x + y)[..|x + y| - 1] == x + init;
      YieldedConcat(streams, x, init);
    }
  }

  lemma {:induction false} QuietYieldsNothing(streams: Streams, log: seq<Entry>)
    requires Quiet(log)
    ensures Yielded(streams, log) == []
  {
    if log != [] {
      QuietYieldsNothing(streams, log[..|log| - 1]);
    }
  }

  lemma {:induction false} ReportedAllIsDone(cfg: Config, a: nat, events: seq<Event>)
    ensures ReportedAll(cfg, a, events) == DoneEntries(cfg, a, events)
    ensures Quiet(ReportedAll(cfg, a, events))
  {
    if events != [] {
      var k := |events| - 1;
      ReportedAllIsDone(cfg, a, events[..k]);
      DoneEntriesPrefix(cfg, a, events, k);
      assert events[..k + 1] == events;
    }
  }

  lemma ContentCommits(events: seq<Event>)
    ensures Commits(events) <==> !NoContent(events)
  {
  }

  /** A call yields its own events, the quiet entries after it nothing. */
  lemma TryYields(streams: Streams, a: nat, n: nat, quiet: seq<Entry>, rest: seq<Entry>)
    requires Quiet(quiet)
    ensures Yielded(streams, [Called(a, n)] + (quiet + rest)) == Label(FromTry(a, n), streams(a, n).events) + Yielded(streams, rest)
  {
    var own := Label(FromTry(a, n), streams(a, n).events);
    YieldedConcat(streams, [Called(a, n)], quiet + rest);
    YieldedConcat(streams, quiet, rest);
    QuietYieldsNothing(streams, quiet);
    assert [Called(a, n)][..0] == [] && [] + own == own;
    assert [] + Yielded(streams, rest) == Yielded(streams, rest);
  }

  /** The run says what the trace says, and gives the caller what its calls yielded. */
  ghost predicate Traced(cfg: Config, streams: Streams, run: StreamRun) {
    StreamTrace(cfg, streams, run.log, run.end) && run.emitted == Yielded(streams, run.log)
  }

  lemma StreamGoesOn(cfg: Config, streams: Streams, a: nat, n: nat, quiet: seq<Entry>, rest: StreamRun)
    requires StreamMayTry(cfg, a) && Quiet(quiet) && Traced(cfg, streams, rest)
    requires rest.log != [] && AfterStreamCall(cfg, streams, a, n) == After(quiet + [rest.log[0]], None)
    ensures Traced(cfg, streams, StreamRun([Called(a, n)] + (quiet + rest.log), Label(FromTry(a, n), streams(a, n).events) + rest.emitted, rest.end))
  {
    ChainGoesOn(StreamRules(cfg, streams), StreamTriesAllowed(cfg), a, n, quiet, rest.log, rest.end);
    TryYields(streams, a, n, quiet, rest.log);
  }

  lemma StreamEnds(cfg: Config, streams: Streams, a: nat, n: nat, quiet: seq<Entry>, end: StreamEnd)
    requires StreamMayTry(cfg, a) && Quiet(quiet) && AfterStreamCall(cfg, streams, a, n) == After(quiet, Some(end))
    ensures Traced(cfg, streams, StreamRun([Called(a, n)] + quiet, Label(FromTry(a, n), streams(a, n).events), end))
  {
    ChainEnds(StreamRules(cfg, streams), StreamTriesAllowed(cfg), a, n, quiet, end);
    TryYields(streams, a, n, quiet, []);
    assert quiet + [] == quiet;
  }

  /** One unfolding of the run: what it logs and yields first, and what it goes on with. */
  lemma RetryUnfolds(cfg: Config, streams: Streams, a: nat, n: nat, f: Failure)
    requires a < StreamLimit(cfg) && streams(a, n).failure == Some(f) && !Commits(streams(a, n).events) && ShouldRetry(cfg, n, f)
    ensures var rest, quiet := StreamTries(cfg, streams, a, n + 1), DoneEntries(cfg, a, streams(a, n).events) + [HealthFailure(a), Retried(a, n, f)];
            StreamTries(cfg, streams, a, n)
            == StreamRun([Called(a, n)] + (quiet + rest.log), Label(FromTry(a, n), streams(a, n).events) + rest.emitted, rest.end)
  {
    var rest, done := StreamTries(cfg, streams, a, n + 1), DoneEntries(cfg, a, streams(a, n).events);
    var step := [HealthFailure(a), Retried(a, n, f)];
    assert [Called(a, n)] + done + step + rest.log == [Called(a, n)] + ((done + step) + rest.log);
  }

  lemma FailoverUnfolds(cfg: Config, streams: Streams, a: nat, n: nat, f: Failure)
    requires a < StreamLimit(cfg) - 1 && streams(a, n).failure == Some(f) && !Commits(streams(a, n).events)
    requires !ShouldRetry(cfg, n, f) && f.retryable
    ensures var rest := StreamTries(cfg, streams, a + 1, 0);
            var quiet := DoneEntries(cfg, a, streams(a, n).events) + [HealthFailure(a), FailedOver(a, f), Selected(a + 1)];
            StreamTries(cfg, streams, a, n)
            == StreamRun([Called(a, n)] + (quiet + rest.log), Label(FromTry(a, n), streams(a, n).events) + rest.emitted, rest.end)
  {
    var rest, done := StreamTries(cfg, streams, a + 1, 0), DoneEntries(cfg, a, streams(a, n).events);
    var step := [HealthFailure(a), FailedOver(a, f)];
    assert StreamAttempts(cfg, streams, a + 1) == StreamRun([Selected(a + 1)] + rest.log, [] + rest.emitted, rest.end);
    assert [] + rest.emitted == rest.emitted;
    assert [Called(a, n)] + done + step + ([Selected(a + 1)] + rest.log)
        == [Called(a, n)] + ((done + [HealthFailure(a), FailedOver(a, f), Selected(a + 1)]) + rest.log);
  }

  lemma ErrorUnfolds(cfg: Config, streams: Streams, a: nat, n: nat, f: Failure)
    requires a < StreamLimit(cfg) && streams(a, n).failure == Some(f)
    requires Commits(streams(a, n).events) || (!ShouldRetry(cfg, n, f) && !(f.retryable && a < StreamLimit(cfg) - 1))
    ensures var quiet := DoneEntries(cfg, a, streams(a, n).events) + [HealthFailure(a), RouteError(a, f)];
            StreamTries(cfg, streams, a, n)
            == StreamRun([Called(a, n)] + quiet, Label(FromTry(a, n), streams(a, n).events), Broke(Provider(f)))
  {
    var done := DoneEntries(cfg, a, streams(a, n).events);
    assert [Called(a, n)] + done + [HealthFailure(a), RouteError(a, f)] == [Called(a, n)] + (done + [HealthFailure(a), RouteError(a, f)]);
  }

  /** What the run logs for the `done` events, and whether it is committed, in the terms of the trace. */
  lemma SameTerms(cfg: Config, streams: Streams, a: nat, n: nat)
    ensures var events := streams(a, n).events;
            && DoneEntries(cfg, a, events) == ReportedAll(cfg, a, events) && Quiet(ReportedAll(cfg, a, events))
            && (Commits(events) <==> !NoContent(events))
  {
    ReportedAllIsDone(cfg, a, streams(a, n).events);
    ContentCommits(streams(a, n).events);
  }

  ghost predicate TracedFrom(cfg: Config, streams: Streams, a: nat, n: nat)
    requires a < StreamLimit(cfg)
  {
    var run := StreamTries(cfg, streams, a, n);
    run.log != [] && run.log[0] == Called(a, n) && Traced(cfg, streams, run)
  }

  lemma RetryIsTraced(cfg: Config, streams: Streams, a: nat, n: nat, f: Failure)
    requires a < StreamLimit(cfg) && streams(a, n).failure == Some(f) && !Commits(streams(a, n).events) && ShouldRetry(cfg, n, f)
    requires TracedFrom(cfg, streams, a, n + 1)
    ensures TracedFrom(cfg, streams, a, n)
  {
    var quiet := ReportedAll(cfg, a, streams(a, n).events) + [HealthFailure(a), Retried(a, n, f)];
    SameTerms(cfg, streams, a, n);
    LimitsAreNumbers(cfg, a);
    RetryUnfolds(cfg, streams, a, n, f);
    StreamGoesOn(cfg, streams, a, n, quiet, StreamTries(cfg, streams, a, n + 1));
  }

  lemma FailoverIsTraced(cfg: Config, streams: Streams, a: nat, n: nat, f: Failure)
    requires a < StreamLimit(cfg) - 1 && streams(a, n).failure == Some(f) && !Commits(streams(a, n).events)
    requires !ShouldRetry(cfg, n, f) && f.retryable
    requires TracedFrom(cfg, streams, a + 1, 0)
    ensures TracedFrom(cfg, streams, a, n)
  {
    var quiet := ReportedAll(cfg, a, streams(a, n).events) + [HealthFailure(a), FailedOver(a, f), Selected(a + 1)];
    SameTerms(cfg, streams, a, n);
    LimitsAreNumbers(cfg, a);
    LimitsAreNumbers(cfg, a + 1);
    FailoverUnfolds(cfg, streams, a, n, f);
    StreamGoesOn(cfg, streams, a, n, quiet, StreamTries(cfg, streams, a + 1, 0));
  }

  lemma ErrorIsTraced(cfg: Config, streams: Streams, a: nat, n: nat, f: Failure)
    requires a < StreamLimit(cfg) && streams(a, n).failure == Some(f)
    requires Commits(streams(a, n).events) || (!ShouldRetry(cfg, n, f) && !(f.retryable && a < StreamLimit(cfg) - 1))
    ensures TracedFrom(cfg, streams, a, n)
  {
    SameTerms(cfg, streams, a, n);
    LimitsAreNumbers(cfg, a);
    LimitsAreNumbers(cfg, a + 1);
    ErrorUnfolds(cfg, streams, a, n, f);
    StreamEnds(cfg, streams, a, n, ReportedAll(cfg, a, streams(a, n).events) + [HealthFailure(a), RouteError(a, f)], Broke(Provider(f)));
  }

  lemma FinishIsTraced(cfg: Config, streams: Streams, a: nat, n: nat)
    requires a < StreamLimit(cfg) && streams(a, n).failure == None
    ensures TracedFrom(cfg, streams, a, n)
  {
    SameTerms(cfg, streams, a, n);
    LimitsAreNumbers(cfg, a);
    StreamEnds(cfg, streams, a, n, ReportedAll(cfg, a, streams(a, n).events), Finished);
  }

  lemma {:induction false} StreamTriesAreTraced(cfg: Config, streams: Streams, a: nat, n: nat)
    requires a < StreamLimit(cfg)
    ensures TracedFrom(cfg, streams, a, n)
    decreases StreamLimit(cfg) - a, cfg.retries - n
  {
    var t := streams(a, n);
    match t.failure
    case None =>
      FinishIsTraced(cfg, streams, a, n);
    case Some(f) =>
      if !Commits(t.events) && ShouldRetry(cfg, n, f) {
        StreamTriesAreTraced(cfg, streams, a, n + 1);
        RetryIsTraced(cfg, streams, a, n, f);
      } else if !Commits(t.events) && f.retryable && a < StreamLimit(cfg) - 1 {
        StreamTriesAreTraced(cfg, streams, a + 1, 0);
        FailoverIsTraced(cfg, streams, a, n, f);
      } else {
        ErrorIsTraced(cfg, streams, a, n, f);
      }
  }

  lemma TracedFromStart(j: Json, cfg: Config, streams: Streams, miss: seq<Entry>)
    requires cfg.cache.GetOr(None) == None && StreamMayTry(cfg, 0) && 0 < StreamLimit(cfg) && TracedFrom(cfg, streams, 0, 0)
    requires miss == if cfg.cache.Some? then [CacheMiss] else []
    ensures var run := ChatStreamRun(j, cfg, streams); PartAt(run.log, 0, miss + [Selected(0), Called(0, 0)]) && Traced(cfg, streams, run)
  {
    var run, rest, head := ChatStreamRun(j, cfg, streams), StreamTries(cfg, streams, 0, 0), miss + [Selected(0)];
    assert run.log == head + rest.log;
    assert run.log[0..|head| + 1] == miss + [Selected(0), Called(0, 0)];
    ChainAfterQuiet(StreamRules(cfg, streams), StreamTriesAllowed(cfg), head, rest.log, run.end);
    YieldedConcat(streams, head, rest.log);
    QuietYieldsNothing(streams, head);
    assert [] + rest.emitted == rest.emitted;
  }

  /**
   * For every configuration and every script of streams: a hit is replayed without a call;
   * without a plan or with a candidate limit of none the stream breaks without a call; otherwise
   * the log is a chain of calls within the limits, each followed by exactly what its stream asks
   * for, and the caller gets what those calls yielded.
   */
  lemma ChatStreamIsTraced(j: Json, cfg: Config, streams: Streams)
    ensures var run := ChatStreamRun(j, cfg, streams);
            if cfg.cache.Some? && cfg.cache.value.Some? then
              run == StreamRun([CacheHit], Label(FromCache, Adapted(j, cfg.cache.value.value)), Finished)
            else
              var tries := StreamMayTry(cfg, 0);
              && Begins(cfg, run.log, tries)
              && Traced(cfg, streams, run)
              && (!tries ==> run.end == Broke(if cfg.decisions == 0 then NoCapableModel else Nothing))
  {
    if cfg.cache.GetOr(None) == None {
      var run := ChatStreamRun(j, cfg, streams);
      var miss := if cfg.cache.Some? then [CacheMiss] else [];
      LimitsAreNumbers(cfg, 0);
      if StreamMayTry(cfg, 0) {
        StreamTriesAreTraced(cfg, streams, 0, 0);
        TracedFromStart(j, cfg, streams, miss);
      } else {
        assert miss + [] == miss && run.log == miss;
        QuietYieldsNothing(streams, miss);
      }
    }
  }
}
