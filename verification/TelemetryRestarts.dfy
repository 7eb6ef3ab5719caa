/**
 * The hub's ring when it is rebuilt from the store again and again.
 *
 * Before every dashboard read the ring is replaced by what the store replays. A replay knows
 * only what the store held when it was read: a batch whose append failed, had not landed yet
 * or arrived while the replay was awaited is not in it. Each boot of a run therefore comes
 * with the test of what was stored at its read, and any number of batches and other boots
 * may fall between the read and the swap.
 */
module TelemetryRestarts {
  import opened Sequences
  import opened StableSorting
  import opened TelemetryEvents
  import opened TelemetryHub

  /** What happens to the ring; a horizon is the clock less the retention. */
  datatype Op =
    | Ingests(source: string, events: seq<Event>, horizon: int)
    | Boots(stored: Event -> bool, since: int, horizon: int)

  /** The ring, with everything ingested so far in arrival order, and the horizon of the last prune. */
  datatype View = View(ring: seq<Event>, history: seq<Event>, horizon: int)

  const EMPTY := View([], [], 0)

  /** What the store replays: the stored events since a time, oldest first and otherwise in arrival order. */
  function Replay(h: seq<Event>, stored: Event -> bool, since: int): seq<Event> {
    Filter(Sort(Filter(h, stored), ByAt()), Recent(since))
  }

  function AfterIngest(v: View, batch: seq<Event>, horizon: int, m: int): View {
    if |batch| == 0 then v else View(Merged(v.ring, batch, horizon, m), v.history + batch, horizon)
  }

  function AfterBoot(v: View, replay: seq<Event>, horizon: int, m: int): View {
    if |replay| == 0 then v else View(Rebooted(v.ring, replay, horizon, m), v.history, horizon)
  }

  function Apply(v: View, op: Op, m: int): View {
    match op
    case Ingests(source, events, horizon) => AfterIngest(v, Tagged(source, events), horizon, m)
    case Boots(stored, since, horizon) => AfterBoot(v, Replay(v.history, stored, since), horizon, m)
  }

  function Run(ops: seq<Op>, m: int): View {
    if ops == [] then EMPTY else Apply(Run(ops[..|ops| - 1], m), ops[|ops| - 1], m)
  }

  ghost predicate ClockForward(ops: seq<Op>) {
    && (forall i, j :: 0 <= i < j < |ops| ==> ops[i].horizon <= ops[j].horizon)
    && (forall i :: 0 <= i < |ops| && ops[i].Boots? ==> ops[i].since <= ops[i].horizon)
  }

  // ----- when a rebuild loses nothing -------------------------------------------------------------

  lemma SortSnoc(h: seq<Event>, x: Event)
    ensures Sort(h + [x], ByAt()) == Place(x, Sort(h, ByAt()))
  {
    PlaceIsInsert(x, Sort(h, ByAt()));
    assert (h + [x])[..|h|] == h;
  }

  lemma FilterSnoc(h: seq<Event>, x: Event, p: Event -> bool)
    ensures Filter(h + [x], p) == if p(x) then Filter(h, p) + [x] else Filter(h, p)
  {
    FilterConcat(h, [x], p);
    assert Filter(h, p) + [] == Filter(h, p);
  }

  /** Selecting and sorting by time commute. */
  lemma {:induction false} SortOfFilter(h: seq<Event>, p: Event -> bool)
    ensures Sort(Filter(h, p), ByAt()) == Filter(Sort(h, ByAt()), p)
  {
    if h != [] {
      var init, x := h[..|h| - 1], h[|h| - 1];
      assert h == init + [x];
      SortOfFilter(init, p);
      FilterSnoc(init, x, p);
      SortSnoc(init, x);
      SortSnoc(Filter(init, p), x);
      SortAscends(init);
      FilterOfPlace(x, Sort(init, ByAt()), p);
    }
  }

  lemma {:induction false} FiltersCommute(s: seq<Event>, p: Event -> bool, q: Event -> bool)
    ensures Filter(Filter(s, p), q) == Filter(Filter(s, q), p)
  {
    if s != [] {
      FiltersCommute(s[1..], p, q);
      FilterConcat(if p(s[0]) then [s[0]] else [], Filter(s[1..], p), q);
      FilterConcat(if q(s[0]) then [s[0]] else [], Filter(s[1..], q), p);
    }
  }

  lemma {:induction false} FilterOfAll(s: seq<Event>, p: Event -> bool)
    requires forall e :: e in s ==> p(e)
    ensures Filter(s, p) == s
  {
    if s != [] {
      FilterOfAll(s[1..], p);
      assert s == [s[0]] + s[1..];
    }
  }

  ghost predicate AllStored(shown: seq<Event>, stored: Event -> bool) {
    forall e {:trigger e in shown} :: e in shown ==> stored(e)
  }

  /** A selection leaves the tail of a list alone exactly when it drops nothing of it. */
  lemma TailSurvivesExactly(s: seq<Event>, p: Event -> bool, m: int)
    ensures TakeLast(Filter(s, p), m) == TakeLast(s, m) <==> AllStored(TakeLast(s, m), p)
  {
    var tail := TakeLast(s, m);
    var front := s[..|s| - |tail|];
    assert s == front + tail;
    FilterMembers(s, p);
    if forall e :: e in tail ==> p(e) {
      FilterConcat(front, tail, p);
      FilterOfAll(tail, p);
      assert front == [] ==> Filter(s, p) == s;
    } else {
      var e :| e in tail && !p(e);
      if e in TakeLast(Filter(s, p), m) {
        TakeLastMember(Filter(s, p), m, e);
      }
    }
  }

  /**
   * A rebuild loses nothing exactly when everything the window should show is stored: for
   * every history, every test of what is stored, every horizon and cap.
   */
  lemma RebuildLosesNothingExactlyWhenStored(h: seq<Event>, stored: Event -> bool, c: int, m: int)
    ensures Window(Filter(h, stored), c, m) == Window(h, c, m) <==> AllStored(Window(h, c, m), stored)
  {
    SortOfFilter(h, stored);
    FiltersCommute(Sort(h, ByAt()), stored, Recent(c));
    TailSurvivesExactly(Filter(Sort(h, ByAt()), Recent(c)), stored, m);
  }

  // ----- whole runs -------------------------------------------------------------------------------

  /** A boot that replays anything leaves the window of what was stored. */
  lemma BootIsWindowOfStored(ring: seq<Event>, h: seq<Event>, stored: Event -> bool, since: int, horizon: int, m: int)
    requires since <= horizon && |Replay(h, stored, since)| > 0
    ensures Rebooted(ring, Replay(h, stored, since), horizon, m) == Window(Filter(h, stored), horizon, m)
  {
    LaterHorizonWins(Sort(Filter(h, stored), ByAt()), since, horizon);
  }

  /** The live view: everything ever ingested, in order, in retention, the newest within the cap. */
  predicate Whole(v: View, m: int) {
    v.ring == Window(v.history, v.horizon, m)
  }

  /** A boot that replays anything finds everything stored that the view should show. */
  ghost predicate Covered(v: View, op: Op, m: int) {
    match op
    case Ingests(_, _, _) => true
    case Boots(stored, since, horizon) =>
      |Replay(v.history, stored, since)| > 0 ==> AllStored(Window(v.history, horizon, m), stored)
  }

  /** The clock has not run backwards since the last prune. */
  predicate InTime(v: View, op: Op) {
    && (v.history == [] || v.horizon <= op.horizon)
    && (op.Boots? ==> op.since <= op.horizon)
  }

  lemma IngestStaysWhole(v: View, batch: seq<Event>, horizon: int, m: int)
    requires Whole(v, m) && (v.history == [] || v.horizon <= horizon)
    ensures Whole(AfterIngest(v, batch, horizon, m), m)
  {
    if |batch| > 0 {
      RingFollowsHistory(v.history, v.ring, batch, v.horizon, horizon, m);
    }
  }

  /** Whatever the ring was: after a replay it is whole exactly when all of it was stored. */
  lemma BootIsWholeExactlyWhenStored(v: View, stored: Event -> bool, since: int, horizon: int, m: int)
    requires since <= horizon && |Replay(v.history, stored, since)| > 0
    ensures Whole(AfterBoot(v, Replay(v.history, stored, since), horizon, m), m)
       <==> AllStored(Window(v.history, horizon, m), stored)
  {
    BootIsWindowOfStored(v.ring, v.history, stored, since, horizon, m);
    RebuildLosesNothingExactlyWhenStored(v.history, stored, horizon, m);
  }

  /** One more operation keeps a whole view whole exactly when, if it is a boot, it is covered. */
  lemma StepStaysWholeExactly(v: View, op: Op, m: int)
    requires Whole(v, m) && InTime(v, op)
    ensures Whole(Apply(v, op, m), m) <==> Covered(v, op, m)
  {
    match op
    case Ingests(source, events, horizon) =>
      IngestStaysWhole(v, Tagged(source, events), horizon, m);
    case Boots(stored, since, horizon) =>
      if |Replay(v.history, stored, since)| > 0 {
        BootIsWholeExactlyWhenStored(v, stored, since, horizon, m);
      }
  }

  lemma NothingToReplay(stored: Event -> bool, since: int)
    ensures Replay([], stored, since) == []
  {
  }

  /** In a run that has seen events, the last prune was not later than now. */
  lemma {:induction false} PruneIsPast(ops: seq<Op>, m: int, horizon: int)
    requires forall i :: 0 <= i < |ops| ==> ops[i].horizon <= horizon
    ensures Run(ops, m).history == [] || Run(ops, m).horizon <= horizon
  {
    if ops != [] {
      var init, op := ops[..|ops| - 1], ops[|ops| - 1];
      PruneIsPast(init, m, horizon);
      if op.Boots? {
        NothingToReplay(op.stored, op.since);
      }
    }
  }

  ghost predicate WholeAt(ops: seq<Op>, m: int, k: nat)
    requires k <= |ops|
  {
    Whole(Run(ops[..k], m), m)
  }

  ghost predicate AlwaysWhole(ops: seq<Op>, m: int) {
    forall k :: 0 <= k <= |ops| ==> WholeAt(ops, m, k)
  }

  ghost predicate CoveredAt(ops: seq<Op>, m: int, k: nat)
    requires k < |ops|
  {
    Covered(Run(ops[..k], m), ops[k], m)
  }

  ghost predicate AlwaysCovered(ops: seq<Op>, m: int) {
    forall k :: 0 <= k < |ops| ==> CoveredAt(ops, m, k)
  }

  lemma AlwaysWholeStep(ops: seq<Op>, m: int)
    requires ops != []
    ensures AlwaysWhole(ops, m)
       <==> AlwaysWhole(ops[..|ops| - 1], m) && WholeAt(ops, m, |ops|)
  {
    var init := ops[..|ops| - 1];
    forall k | 0 <= k <= |init| ensures WholeAt(init, m, k) <==> WholeAt(ops, m, k) {
      assert init[..k] == ops[..k];
    }
  }

  lemma CoveredPrefix(ops: seq<Op>, m: int, k: nat)
    requires k < |ops| - 1
    ensures CoveredAt(ops[..|ops| - 1], m, k) <==> CoveredAt(ops, m, k)
  {
    assert ops[..|ops| - 1][..k] == ops[..k];
  }

  lemma AlwaysCoveredStep(ops: seq<Op>, m: int)
    requires ops != []
    ensures AlwaysCovered(ops, m)
       <==> AlwaysCovered(ops[..|ops| - 1], m) && CoveredAt(ops, m, |ops| - 1)
  {
    var init := ops[..|ops| - 1];
    forall k | 0 <= k < |init| ensures CoveredAt(init, m, k) <==> CoveredAt(ops, m, k) {
      CoveredPrefix(ops, m, k);
    }
  }

  /** The last operation of a run whose view was whole so far. */
  lemma LastStepExactly(ops: seq<Op>, m: int)
    requires ops != [] && ClockForward(ops) && WholeAt(ops[..|ops| - 1], m, |ops| - 1)
    ensures WholeAt(ops, m, |ops|) <==> CoveredAt(ops, m, |ops| - 1)
  {
    var init, op := ops[..|ops| - 1], ops[|ops| - 1];
    assert init[..|init|] == init && ops[..|ops|] == ops;
    PruneIsPast(init, m, op.horizon);
    StepStaysWholeExactly(Run(init, m), op, m);
  }

  /**
   * For every run of batches and boots, whatever is stored at each read and whatever falls
   * between a read and its swap: the live view always shows the window of everything ever
   * ingested if and only if each boot that replays anything finds that window stored.
   */
  lemma {:induction false} ViewIsAlwaysWholeExactlyWhenStored(ops: seq<Op>, m: int)
    requires ClockForward(ops)
    ensures AlwaysWhole(ops, m) <==> AlwaysCovered(ops, m)
  {
    if ops == [] {
      assert Run(ops[..0], m) == EMPTY;
    } else {
      var init := ops[..|ops| - 1];
      ViewIsAlwaysWholeExactlyWhenStored(init, m);
      AlwaysWholeStep(ops, m);
      AlwaysCoveredStep(ops, m);
      if AlwaysWhole(init, m) {
        assert WholeAt(init, m, |init|);
        LastStepExactly(ops, m);
      }
    }
  }

  lemma UnstoredIsNotShown(h: seq<Event>, stored: Event -> bool, c: int, m: int, e: Event)
    requires !stored(e)
    ensures e !in Window(Filter(h, stored), c, m)
  {
    FilterMembers(h, stored);
    if e in Window(Filter(h, stored), c, m) {
      WindowHoldsOnlyHistory(Filter(h, stored), c, m, e);
    }
  }

  /** After a boot that replays anything, an event that was not stored at its read is gone. */
  lemma UnstoredIsGone(v: View, stored: Event -> bool, since: int, horizon: int, m: int, e: Event)
    requires since <= horizon && !stored(e) && |Replay(v.history, stored, since)| > 0
    ensures e !in AfterBoot(v, Replay(v.history, stored, since), horizon, m).ring
  {
    UnstoredIsNotShown(v.history, stored, horizon, m, e);
    BootIsWindowOfStored(v.ring, v.history, stored, since, horizon, m);
  }

  // ----- a failed append --------------------------------------------------------------------------

  /** Two events, one after the other and in retention, in a ring with room for both. */
  predicate TwoFit(a: Event, b: Event, horizon: int, m: int) {
    a != b && horizon <= a.at <= b.at && m >= 2
  }

  /** Two batches of one event; the append of the second one will fail. */
  function TwoIngests(a: Event, b: Event, horizon: int): seq<Op> {
    [] + [Ingests(a.source, [a], horizon)] + [Ingests(b.source, [b], horizon)]
  }

  /** Everything but one event is stored. */
  function AllBut(e: Event): Event -> bool {
    (x: Event) => x != e
  }

  lemma RunSnoc(ops: seq<Op>, op: Op, m: int)
    ensures Run(ops + [op], m) == Apply(Run(ops, m), op, m)
  {
    assert (ops + [op])[..|ops|] == ops;
  }

  lemma OneIsTagged(e: Event)
    ensures Tagged(e.source, [e]) == [e]
  {
  }

  /** An event that comes last, in retention like those before it, into a ring with room for it. */
  predicate Fits(ring: seq<Event>, e: Event, horizon: int, m: int) {
    Ascending(ring + [e]) && |ring| < m && forall x :: x in ring + [e] ==> x.at >= horizon
  }

  lemma MergedInOrder(ring: seq<Event>, e: Event, horizon: int, m: int)
    requires Fits(ring, e, horizon, m)
    ensures Merged(ring, [e], horizon, m) == ring + [e]
  {
    SortOfAscending(ring + [e]);
    FilterOfAll(ring + [e], Recent(horizon));
  }

  lemma RunOneMore(ops: seq<Op>, e: Event, horizon: int, m: int, v: View)
    requires v == Run(ops, m) && Fits(v.ring, e, horizon, m)
    ensures Run(ops + [Ingests(e.source, [e], horizon)], m) == View(v.ring + [e], v.history + [e], horizon)
  {
    RunSnoc(ops, Ingests(e.source, [e], horizon), m);
    OneIsTagged(e);
    MergedInOrder(v.ring, e, horizon, m);
  }

  lemma BothFit(a: Event, b: Event, horizon: int, m: int)
    requires TwoFit(a, b, horizon, m)
    ensures Fits([], a, horizon, m) && Fits([] + [a], b, horizon, m)
  {
  }

  lemma AfterBoth(a: Event, b: Event, horizon: int, m: int)
    requires TwoFit(a, b, horizon, m)
    ensures Run(TwoIngests(a, b, horizon), m) == View([] + [a] + [b], [] + [a] + [b], horizon)
  {
    var first := [] + [Ingests(a.source, [a], horizon)];
    BothFit(a, b, horizon, m);
    RunOneMore([], a, horizon, m, EMPTY);
    RunOneMore(first, b, horizon, m, View([] + [a], [] + [a], horizon));
  }

  lemma FirstIsReplayed(a: Event, b: Event, horizon: int, h: seq<Event>)
    requires TwoFit(a, b, horizon, 2) && h == [] + [a] + [b]
    ensures a in Replay(h, AllBut(b), horizon)
  {
    SortOfFilter(h, AllBut(b));
    SortOfAscending(h);
    FilterMembers(h, AllBut(b));
    FilterMembers(Filter(h, AllBut(b)), Recent(horizon));
  }

  /**
   * Such runs: two events are ingested and both are on the live view, the append
   * of the second one fails, and with the next dashboard read it is gone.
   */
  lemma FailedAppendIsGoneAfterBoot(a: Event, b: Event, horizon: int, m: int)
    requires TwoFit(a, b, horizon, m)
    ensures var ops := TwoIngests(a, b, horizon);
            b in Run(ops, m).ring && b !in Run(ops + [Boots(AllBut(b), horizon, horizon)], m).ring
  {
    var ops := TwoIngests(a, b, horizon);
    AfterBoth(a, b, horizon, m);
    FirstIsReplayed(a, b, horizon, [] + [a] + [b]);
    RunSnoc(ops, Boots(AllBut(b), horizon, horizon), m);
    UnstoredIsGone(Run(ops, m), AllBut(b), horizon, horizon, m, b);
  }
}
