/** Telemetry events as the operator stores them, and the hub's retention-bounded ring. */
module TelemetryEvents {
  import opened Wrappers

  /** Stored events: every one has a time and the source the hub tagged it with. Money is exact. */
  datatype Event =
    | Request(at: int, source: string, model: Option<string>, provider: Option<string>, userId: Option<string>,
              inputTokens: int, outputTokens: int, actualCost: Option<real>, baselineCost: Option<real>, saved: Option<real>)
    | Failed(at: int, source: string, model: Option<string>, provider: Option<string>)
    | FailedOver(at: int, source: string, model: Option<string>, provider: Option<string>)
    | Retried(at: int, source: string)
    | Cached(at: int, source: string, hit: bool)
}

/**
 * The hub keeps a ring that is appended to, sorted only when a shortcut says so, cut at
 * the retention horizon by a prefix scan and capped from the front. `Ingest` proves that
 * the ring always equals what a batch computation over everything ever ingested gives.
 */
module TelemetryHub {
  import opened Sequences
  import opened StableSorting
  import opened TelemetryEvents

  function ByAt(): Event -> seq<int> {
    (e: Event) => [e.at]
  }

  function Recent(cutoff: int): Event -> bool {
    (e: Event) => e.at >= cutoff
  }

  /** What the ring should hold: history sorted by time, in retention, newest `max`. */
  function Window(history: seq<Event>, cutoff: int, max: int): seq<Event> {
    TakeLast(Filter(Sort(history, ByAt()), Recent(cutoff)), max)
  }

  /** A ring after a batch: sorted in, cut at the horizon, capped. */
  function Merged(ring: seq<Event>, batch: seq<Event>, horizon: int, max: int): seq<Event> {
    TakeLast(Filter(Sort(ring + batch, ByAt()), Recent(horizon)), max)
  }

  /** A ring after a restart: the replay takes its place, if there is one. */
  function Rebooted(ring: seq<Event>, replay: seq<Event>, horizon: int, max: int): seq<Event> {
    if |replay| == 0 then ring else TakeLast(Filter(replay, Recent(horizon)), max)
  }

  /** The batch as it was sent, with its source. */
  function Tagged(source: string, events: seq<Event>): (tagged: seq<Event>)
    ensures |tagged| == |events|
    ensures forall i :: 0 <= i < |events| ==> tagged[i].source == source && tagged[i].(source := events[i].source) == events[i]
  {
    seq(|events|, i requires 0 <= i < |events| => events[i].(source := source))
  }

  predicate Ascending(s: seq<Event>) {
    forall i, j :: 0 <= i < j < |s| ==> s[i].at <= s[j].at
  }

  class Hub {
    var ring: seq<Event>
    const retentionMs: int
    const maxEvents: int
    /** Everything ingested or replayed since the last restart, in order, and the horizon of the last prune. */
    ghost var history: seq<Event>
    ghost var cutoff: int

    ghost predicate Valid()
      reads this
    {
      ring == Window(history, cutoff, maxEvents)
    }

    constructor (retentionMs: int, maxEvents: int)
      ensures Valid() && history == []
      ensures this.retentionMs == retentionMs && this.maxEvents == maxEvents
    {
      this.ring, this.history, this.cutoff := [], [], 0;
      this.retentionMs, this.maxEvents := retentionMs, maxEvents;
    }

    /**
     * Restart from the store, which replays its events oldest first. The replay replaces the
     * ring, so nothing is left of what was ingested but not replayed: history starts anew.
     */
    method Boot(events: seq<Event>, now: int)
      requires Valid() && Ascending(events)
      modifies this
      ensures Valid() && ring == Rebooted(old(ring), events, now - retentionMs, maxEvents)
      ensures events != [] ==> history == events && cutoff == now - retentionMs
      ensures events == [] ==> unchanged(this)
    {
      if events != [] {
        ring := events;
        Prune(now);
        SortOfAscending(events);
        history, cutoff := events, now - retentionMs;
      }
    }

    /** One batch from one source, while the clock does not run backwards. */
    method Ingest(source: string, events: seq<Event>, now: int) returns (count: int)
      requires Valid()
      requires history != [] ==> now - retentionMs >= cutoff
      modifies this
      ensures Valid()
      ensures count == |events|
      ensures history == old(history) + Tagged(source, events)
      ensures events != [] ==> cutoff == now - retentionMs
      ensures events == [] ==> ring == old(ring) && cutoff == old(cutoff)
    {
      if events == [] {
        assert Tagged(source, events) == [];
        assert history + [] == history;
        return 0;
      }
      var stored := Tagged(source, events);
      ghost var more := history + stored;
      MergeInOrder(stored, now);
      history, cutoff := more, now - retentionMs;
      count := |stored|;
    }

    /** The batch joins the ring, and the ring is again what the whole history leaves. */
    method MergeInOrder(stored: seq<Event>, now: int)
      requires Valid()
      requires history != [] ==> now - retentionMs >= cutoff
      modifies this`ring
      ensures ring == Window(history + stored, now - retentionMs, maxEvents)
    {
      ghost var horizon := now - retentionMs;
      assert Ascending(ring) by {
        WindowAscending(history, cutoff, maxEvents);
      }
      assert Merged(ring, stored, horizon, maxEvents) == Window(history + stored, horizon, maxEvents) by {
        RingFollowsHistory(history, ring, stored, cutoff, horizon, maxEvents);
      }
      Merge(stored, now);
    }

    method Merge(stored: seq<Event>, now: int)
      requires Ascending(ring)
      modifies this`ring
      ensures ring == Merged(old(ring), stored, now - retentionMs, maxEvents)
    {
      Append(stored);
      Prune(now);
    }

    /** Appends a batch and sorts in place, unless the shortcut shows that the order holds already. */
    method Append(stored: seq<Event>)
      requires Ascending(ring)
      modifies this`ring
      ensures ring == Sort(old(ring) + stored, ByAt()) && Ascending(ring)
    {
      var needSort := Push(stored);
      SortAscends(ring);
      if needSort {
        ring := Sort(ring, ByAt());
      } else {
        SortOfAscending(ring);
      }
    }

    /** Appends a batch, comparing each event only with the latest time seen so far. */
    method Push(stored: seq<Event>) returns (needSort: bool)
      requires Ascending(ring)
      modifies this`ring
      ensures ring == old(ring) + stored
      ensures !needSort ==> Ascending(ring)
    {
      var unset := ring == [];
      var max := if ring == [] then 0 else ring[|ring| - 1].at;
      needSort := false;
      for i := 0 to |stored|
        invariant ring == old(ring) + stored[..i]
        invariant !needSort ==> Ascending(ring) && unset == (ring == []) && (!unset ==> max == ring[|ring| - 1].at)
      {
        var e := stored[i];
        assert stored[..i + 1] == stored[..i] + [e];
        if !needSort && (unset || e.at >= max) {
          AscendingSnoc(ring, e);
        }
        ring := ring + [e];
        if !unset && e.at < max {
          needSort := true;
        } else {
          unset, max := false, e.at;
        }
      }
      assert stored[..|stored|] == stored;
    }

    /** Drops the prefix older than retention, then trims to the cap from the front. */
    method Prune(now: int)
      requires Ascending(ring)
      modifies this`ring
      ensures ring == TakeLast(Filter(old(ring), Recent(now - retentionMs)), maxEvents)
    {
      var start := ExpiredPrefix(ring, now - retentionMs);
      Trim(start);
    }

    /** The two cuts at the front: what has expired, then what is over the cap. */
    method Trim(start: nat)
      requires start <= |ring|
      modifies this`ring
      ensures ring == TakeLast(old(ring)[start..], maxEvents)
    {
      if start > 0 {
        ring := ring[start..];
      }
      if |ring| > maxEvents {
        ring := if maxEvents < 0 then [] else ring[|ring| - maxEvents..];
      }
    }
  }

  /** How many events at the front of an ordered ring are past the horizon: the scan in `Prune`. */
  method ExpiredPrefix(ring: seq<Event>, horizon: int) returns (start: nat)
    requires Ascending(ring)
    ensures start <= |ring| && Filter(ring, Recent(horizon)) == ring[start..]
  {
    start := 0;
    while start < |ring| && ring[start].at < horizon
      invariant start <= |ring|
      invariant forall i :: 0 <= i < start ==> ring[i].at < horizon
    {
      start := start + 1;
    }
    ScanIsFilter(ring, start, horizon);
  }

  /** The prefix scan keeps exactly the events in retention. */
  lemma {:induction false} ScanIsFilter(s: seq<Event>, start: nat, horizon: int)
    requires Ascending(s) && start <= |s|
    requires forall i :: 0 <= i < start ==> s[i].at < horizon
    requires start < |s| ==> s[start].at >= horizon
    ensures Filter(s, Recent(horizon)) == s[start..]
  {
    if start == 0 {
      RecentTail(s, horizon);
    } else {
      ScanIsFilter(s[1..], start - 1, horizon);
      assert s[1..][start - 1..] == s[start..];
    }
  }

  lemma AscendingSnoc(s: seq<Event>, e: Event)
    requires Ascending(s) && (s == [] || s[|s| - 1].at <= e.at)
    ensures Ascending(s + [e])
  {
  }

  // ----- the batch view is maintained incrementally ---------------------------------------

  lemma AscendingIsSorted(s: seq<Event>)
    ensures Ascending(s) <==> Sorted(s, ByAt())
  {
    forall i, j | 0 <= i < j < |s| ensures s[i].at <= s[j].at <==> LexLe(ByAt()(s[i]), ByAt()(s[j])) {}
  }

  lemma SortAscends(s: seq<Event>)
    ensures Ascending(Sort(s, ByAt()))
  {
    SortIsStable(s, ByAt());
    AscendingIsSorted(Sort(s, ByAt()));
  }

  lemma SortOfAscending(s: seq<Event>)
    requires Ascending(s)
    ensures Sort(s, ByAt()) == s
  {
    AscendingIsSorted(s);
    SortOfSorted(s, ByAt());
  }

  lemma FilterAscends(s: seq<Event>, p: Event -> bool)
    requires Ascending(s)
    ensures Ascending(Filter(s, p))
  {
    AscendingIsSorted(s);
    FilterSorted(s, p, ByAt());
    AscendingIsSorted(Filter(s, p));
  }

  /** Insertion by time, after every event that is not later. */
  function Place(x: Event, s: seq<Event>): seq<Event> {
    if s == [] then [x] else if s[0].at <= x.at then [s[0]] + Place(x, s[1..]) else [x] + s
  }

  function PlaceAll(s: seq<Event>, batch: seq<Event>): seq<Event>
    decreases |batch|
  {
    if batch == [] then s else PlaceAll(Place(batch[0], s), batch[1..])
  }

  lemma {:induction false} PlaceIsInsert(x: Event, s: seq<Event>)
    ensures Place(x, s) == Insert(x, s, ByAt())
  {
    if s != [] {
      PlaceIsInsert(x, s[1..]);
      assert s[0].at <= x.at <==> LexLe(ByAt()(s[0]), ByAt()(x));
    }
  }

  lemma {:induction false} PlaceMembers(x: Event, s: seq<Event>)
    ensures |Place(x, s)| == |s| + 1
    ensures forall y :: y in Place(x, s) <==> y == x || y in s
  {
    PlaceIsInsert(x, s);
    InsertMembers(x, s, ByAt());
  }

  lemma PlaceAscends(x: Event, s: seq<Event>)
    requires Ascending(s)
    ensures Ascending(Place(x, s))
  {
    PlaceIsInsert(x, s);
    AscendingIsSorted(s);
    InsertIsStable(x, s, ByAt());
    AscendingIsSorted(Place(x, s));
  }

  lemma {:induction false} SortOfConcat(h: seq<Event>, batch: seq<Event>)
    ensures Sort(h + batch, ByAt()) == PlaceAll(Sort(h, ByAt()), batch)
    decreases |batch|
  {
    if batch == [] {
      assert h + [] == h;
    } else {
      var h' := h + [batch[0]];
      SortOfConcat(h', batch[1..]);
      PlaceIsInsert(batch[0], Sort(h, ByAt()));
      assert h + batch == h' + batch[1..];
      assert h'[..|h'| - 1] == h;
    }
  }

  /** Selecting by any test and placing into an ascending list commute. */
  lemma {:induction false} FilterOfPlace(x: Event, s: seq<Event>, p: Event -> bool)
    requires Ascending(s)
    ensures Filter(Place(x, s), p) == if p(x) then Place(x, Filter(s, p)) else Filter(s, p)
  {
    if s == [] {
    } else if s[0].at <= x.at {
      FilterOfPlace(x, s[1..], p);
      var rest, head := Place(x, s[1..]), if p(s[0]) then [s[0]] else [];
      assert ([s[0]] + rest)[1..] == rest;
      assert Filter(Place(x, s), p) == head + Filter(rest, p);
      var kept := Filter(s[1..], p);
      assert p(s[0]) ==> ([s[0]] + kept)[1..] == kept;
      assert !p(s[0]) ==> Filter(s, p) == kept;
    } else {
      FilterMembers(s, p);
      var kept := Filter(s, p);
      assert kept != [] ==> kept[0] in s;
      assert ([x] + s)[1..] == s;
      assert !p(x) ==> Filter([x] + s, p) == kept;
    }
  }

  lemma {:induction false} FilterOfPlaceAll(s: seq<Event>, batch: seq<Event>, p: Event -> bool)
    requires Ascending(s)
    ensures Filter(PlaceAll(s, batch), p) == PlaceAll(Filter(s, p), Filter(batch, p))
    decreases |batch|
  {
    if batch != [] {
      PlaceAscends(batch[0], s);
      FilterOfPlace(batch[0], s, p);
      FilterOfPlaceAll(Place(batch[0], s), batch[1..], p);
      var rest := Filter(batch[1..], p);
      assert p(batch[0]) ==> Filter(batch, p)[0] == batch[0] && Filter(batch, p)[1..] == rest;
      assert !p(batch[0]) ==> Filter(batch, p) == rest;
    }
  }

  /** An event beyond the cap stays irrelevant when one more is placed. */
  lemma {:induction false} TakeLastOfPlace(x: Event, s: seq<Event>, m: int)
    requires Ascending(s)
    ensures TakeLast(Place(x, s), m) == TakeLast(Place(x, TakeLast(s, m)), m)
  {
    if |s| > m && s != [] {
      var t := s[1..];
      assert s == [s[0]] + t;
      TakeLastOfPlace(x, t, m);
      TakeLastDropsFront(s[0], t, m);
      PlaceMembers(x, t);
      if s[0].at <= x.at {
        TakeLastDropsFront(s[0], Place(x, t), m);
      } else {
        assert Place(x, t) == [x] + t;
        TakeLastDropsFront(x, s, m);
        TakeLastDropsFront(x, t, m);
      }
    }
  }

  lemma {:induction false} TakeLastOfPlaceAll(s: seq<Event>, batch: seq<Event>, m: int)
    requires Ascending(s)
    ensures TakeLast(PlaceAll(s, batch), m) == TakeLast(PlaceAll(TakeLast(s, m), batch), m)
    decreases |batch|
  {
    var top := TakeLast(s, m);
    if batch == [] {
      assert TakeLast(top, m) == top;
    } else {
      var x := batch[0];
      PlaceAscends(x, s);
      PlaceAscends(x, top);
      TakeLastOfPlace(x, s, m);
      TakeLastOfPlaceAll(Place(x, s), batch[1..], m);
      TakeLastOfPlaceAll(Place(x, top), batch[1..], m);
    }
  }

  lemma {:induction false} RecentTail(s: seq<Event>, cutoff: int)
    requires Ascending(s)
    requires s != [] ==> s[0].at >= cutoff
    ensures Filter(s, Recent(cutoff)) == s
  {
    if s != [] {
      RecentTail(s[1..], cutoff);
      assert s == [s[0]] + s[1..];
    }
  }

  /** On an ascending list the horizon and the cap may be applied in either order. */
  lemma RecentIsShorter(s: seq<Event>, cutoff: int)
    ensures |Filter(s, Recent(cutoff))| <= |s|
  {
    FilterMembers(s, Recent(cutoff));
  }

  lemma RecentStep(x: Event, t: seq<Event>, cutoff: int)
    ensures Filter([x] + t, Recent(cutoff)) == (if x.at >= cutoff then [x] else []) + Filter(t, Recent(cutoff))
  {
    assert ([x] + t)[1..] == t;
  }

  lemma {:induction false} RecentOfTakeLast(s: seq<Event>, cutoff: int, m: int)
    requires Ascending(s)
    ensures Filter(TakeLast(s, m), Recent(cutoff)) == TakeLast(Filter(s, Recent(cutoff)), m)
  {
    if |s| <= m || s == [] {
      RecentIsShorter(s, cutoff);
    } else {
      var x, t := s[0], s[1..];
      assert s == [x] + t;
      RecentOfTakeLast(t, cutoff, m);
      TakeLastDropsFront(x, t, m);
      RecentStep(x, t, cutoff);
      if x.at >= cutoff {
        RecentTail(t, cutoff);
        assert Filter(s, Recent(cutoff)) == s;
      } else {
        assert [] + Filter(t, Recent(cutoff)) == Filter(t, Recent(cutoff));
      }
    }
  }

  lemma {:induction false} LaterHorizonWins(s: seq<Event>, c: int, c': int)
    requires c <= c'
    ensures Filter(Filter(s, Recent(c)), Recent(c')) == Filter(s, Recent(c'))
  {
    if s != [] {
      LaterHorizonWins(s[1..], c, c');
      FilterConcat(if Recent(c)(s[0]) then [s[0]] else [], Filter(s[1..], Recent(c)), Recent(c'));
    }
  }

  lemma WindowAscending(h: seq<Event>, c: int, m: int)
    ensures Ascending(Window(h, c, m))
  {
    SortAscends(h);
    FilterAscends(Sort(h, ByAt()), Recent(c));
  }

  /**
   * Sorting a batch into the bounded ring and pruning gives the window of the longer
   * history: nothing that was dropped earlier can come back.
   */
  lemma RingFollowsHistory(h: seq<Event>, ring: seq<Event>, batch: seq<Event>, c: int, c': int, m: int)
    requires ring == Window(h, c, m)
    requires h == [] || c <= c'
    ensures Merged(ring, batch, c', m) == Window(h + batch, c', m)
  {
    var all, keep := Sort(h, ByAt()), Recent(c');
    var all', batch' := Filter(all, keep), Filter(batch, keep);
    SortAscends(h);
    FilterAscends(all, Recent(c));
    FilterAscends(all, keep);
    WindowAscending(h, c, m);
    // both sides as placements
    SortOfConcat(ring, batch);
    SortOfAscending(ring);
    SortOfConcat(h, batch);
    FilterOfPlaceAll(ring, batch, keep);
    FilterOfPlaceAll(all, batch, keep);
    // what the new horizon leaves of the old ring
    assert Filter(ring, keep) == TakeLast(all', m) by {
      RecentOfTakeLast(Filter(all, Recent(c)), c', m);
      if h != [] {
        LaterHorizonWins(all, c, c');
      }
    }
    TakeLastOfPlaceAll(all', batch', m);
  }

  lemma TakeLastMember(s: seq<Event>, m: int, e: Event)
    requires e in TakeLast(s, m)
    ensures e in s
  {
  }

  lemma SortMember(s: seq<Event>, e: Event)
    requires e in Sort(s, ByAt())
    ensures e in s
  {
    SortIsStable(s, ByAt());
    StableSortIsPermutation(s, Sort(s, ByAt()), ByAt());
    assert e in multiset(Sort(s, ByAt()));
  }

  /** A window holds nothing but its history. */
  lemma WindowHoldsOnlyHistory(h: seq<Event>, c: int, m: int, e: Event)
    requires e in Window(h, c, m)
    ensures e in h
  {
    var sorted := Sort(h, ByAt());
    var kept := Filter(sorted, Recent(c));
    TakeLastMember(kept, m, e);
    FilterMembers(sorted, Recent(c));
    assert e in sorted;
    SortMember(h, e);
  }

  // ----- whole runs ---------------------------------------------------------------------------

  datatype Batch = Batch(source: string, events: seq<Event>, now: int)

  /** One `ingest` on the ring alone: sort the batch in, then prune. */
  function Ingested(ring: seq<Event>, b: Batch, retentionMs: int, m: int): seq<Event> {
    if b.events == [] then ring
    else Merged(ring, Tagged(b.source, b.events), b.now - retentionMs, m)
  }

  function RingAfter(batches: seq<Batch>, retentionMs: int, m: int): seq<Event> {
    if batches == [] then [] else Ingested(RingAfter(batches[..|batches| - 1], retentionMs, m), batches[|batches| - 1], retentionMs, m)
  }

  function History(batches: seq<Batch>): seq<Event> {
    if batches == [] then []
    else History(batches[..|batches| - 1]) + Tagged(batches[|batches| - 1].source, batches[|batches| - 1].events)
  }

  /** The horizon of the last batch that was not empty. */
  function Horizon(batches: seq<Batch>, retentionMs: int): int {
    if batches == [] then 0
    else
      var b := batches[|batches| - 1];
      if b.events == [] then Horizon(batches[..|batches| - 1], retentionMs) else b.now - retentionMs
  }

  ghost predicate ClockRunsForward(batches: seq<Batch>) {
    forall i, j :: 0 <= i < j < |batches| ==> batches[i].now <= batches[j].now
  }

  lemma {:induction false} HorizonIsPast(batches: seq<Batch>, retentionMs: int, now: int)
    requires forall i :: 0 <= i < |batches| ==> batches[i].now <= now
    requires History(batches) != []
    ensures Horizon(batches, retentionMs) <= now - retentionMs
  {
    var init, b := batches[..|batches| - 1], batches[|batches| - 1];
    if b.events == [] {
      assert Tagged(b.source, b.events) == [];
      assert History(init) + [] == History(init);
      HorizonIsPast(init, retentionMs, now);
    }
  }

  lemma IngestedIsWindow(h: seq<Event>, c: int, b: Batch, retentionMs: int, m: int)
    requires b.events != [] && (h == [] || c <= b.now - retentionMs)
    ensures Ingested(Window(h, c, m), b, retentionMs, m) == Window(h + Tagged(b.source, b.events), b.now - retentionMs, m)
  {
    RingFollowsHistory(h, Window(h, c, m), Tagged(b.source, b.events), c, b.now - retentionMs, m);
  }

  lemma EmptyBatch(init: seq<Batch>, b: Batch, retentionMs: int, m: int)
    requires b.events == []
    ensures RingAfter(init + [b], retentionMs, m) == RingAfter(init, retentionMs, m)
    ensures History(init + [b]) == History(init) && Horizon(init + [b], retentionMs) == Horizon(init, retentionMs)
  {
    assert (init + [b])[..|init|] == init;
    assert Tagged(b.source, b.events) == [];
    assert History(init) + [] == History(init);
  }

  lemma FullBatch(init: seq<Batch>, b: Batch, retentionMs: int, m: int)
    requires b.events != []
    ensures RingAfter(init + [b], retentionMs, m) == Ingested(RingAfter(init, retentionMs, m), b, retentionMs, m)
    ensures History(init + [b]) == History(init) + Tagged(b.source, b.events)
    ensures Horizon(init + [b], retentionMs) == b.now - retentionMs
  {
    assert (init + [b])[..|init|] == init;
  }

  /**
   * After any sequence of batches from any sources, with a clock that does not run
   * backwards, the ring is the window of everything ever ingested.
   */
  lemma {:induction false} RingIsWindowOfHistory(batches: seq<Batch>, retentionMs: int, m: int)
    requires ClockRunsForward(batches)
    ensures RingAfter(batches, retentionMs, m) == Window(History(batches), Horizon(batches, retentionMs), m)
  {
    if batches != [] {
      var init, b := batches[..|batches| - 1], batches[|batches| - 1];
      assert batches == init + [b];
      RingIsWindowOfHistory(init, retentionMs, m);
      if b.events == [] {
        EmptyBatch(init, b, retentionMs, m);
      } else {
        if History(init) != [] {
          HorizonIsPast(init, retentionMs, b.now);
        }
        FullBatch(init, b, retentionMs, m);
        IngestedIsWindow(History(init), Horizon(init, retentionMs), b, retentionMs, m);
      }
    }
  }
}
