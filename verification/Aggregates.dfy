/**
 * The operator's three views of one list of events: overview, time series and breakdown.
 *
 * Money is exact. What the views add up is kept in one `Totals` value.
 */
module Aggregates {
  import opened Wrappers
  import opened TelemetryEvents

  datatype Totals = Totals(
    requests: int, inputTokens: int, outputTokens: int, actualCost: real, baselineCost: real, saved: real, revenue: real)

  const ZERO := Totals(0, 0, 0, 0.0, 0.0, 0.0, 0.0)

  function Plus(a: Totals, b: Totals): Totals {
    Totals(a.requests + b.requests, a.inputTokens + b.inputTokens, a.outputTokens + b.outputTokens,
           a.actualCost + b.actualCost, a.baselineCost + b.baselineCost, a.saved + b.saved, a.revenue + b.revenue)
  }

  /** Cost plus margin, capped at the baseline; nothing for a request of unknown cost. */
  function ModeledRevenue(actual: Option<real>, baseline: Option<real>, marginPct: real): real {
    match actual
    case None => 0.0
    case Some(cost) =>
      var withMargin := cost * (1.0 + marginPct / 100.0);
      if baseline.Some? && baseline.value < withMargin then baseline.value else withMargin
  }

  /** What one event adds. */
  function TotalsOf(e: Event, marginPct: real): Totals {
    match e
    case Request(_, _, _, _, _, inputTokens, outputTokens, actual, baseline, saved) =>
      Totals(1, inputTokens, outputTokens, actual.GetOr(0.0), baseline.GetOr(0.0), saved.GetOr(0.0),
             ModeledRevenue(actual, baseline, marginPct))
    case _ => ZERO
  }

  /** What each event adds, at one margin. */
  function Amounts(marginPct: real): Event -> Totals {
    (e: Event) => TotalsOf(e, marginPct)
  }

  /** What a time series reports of it: everything but the baseline. */
  function WithoutBaseline(t: Totals): Totals {
    t.(baselineCost := 0.0)
  }

  function SeriesAmounts(marginPct: real): Event -> Totals {
    (e: Event) => WithoutBaseline(TotalsOf(e, marginPct))
  }

  /** The part of an event in a sum over the requests that meet a condition. */
  function Part(e: Event, p: Event -> bool, amount: Event -> Totals): Totals {
    if e.Request? && p(e) then amount(e) else ZERO
  }

  function SumWhere(events: seq<Event>, p: Event -> bool, amount: Event -> Totals): Totals {
    if events == [] then ZERO
    else Plus(SumWhere(events[..|events| - 1], p, amount), Part(events[|events| - 1], p, amount))
  }

  function CountWhere(events: seq<Event>, p: Event -> bool): int {
    if events == [] then 0
    else CountWhere(events[..|events| - 1], p) + if p(events[|events| - 1]) then 1 else 0
  }

  function Any(): Event -> bool { (e: Event) => true }

  function IsFailed(): Event -> bool { (e: Event) => e.Failed? }

  function IsFailedOver(): Event -> bool { (e: Event) => e.FailedOver? }

  function IsRetried(): Event -> bool { (e: Event) => e.Retried? }

  function IsHit(): Event -> bool { (e: Event) => e.Cached? && e.hit }

  function IsMiss(): Event -> bool { (e: Event) => e.Cached? && !e.hit }

  lemma SumSnoc(events: seq<Event>, i: nat, p: Event -> bool, amount: Event -> Totals)
    requires i < |events|
    ensures SumWhere(events[..i + 1], p, amount)
         == Plus(SumWhere(events[..i], p, amount), Part(events[i], p, amount))
    ensures CountWhere(events[..i + 1], p) == CountWhere(events[..i], p) + if p(events[i]) then 1 else 0
  {
    assert events[..i + 1][..i] == events[..i];
  }

  // ----- overview -------------------------------------------------------------------------------

  datatype Overview = Overview(
    totals: Totals, errors: int, failovers: int, retries: int, cacheHits: int, cacheMisses: int, margin: real)

  lemma CountersStep(events: seq<Event>, i: nat, amount: Event -> Totals)
    requires i < |events|
    ensures var e, before, after := events[i], events[..i], events[..i + 1];
            && SumWhere(after, Any(), amount) == Plus(SumWhere(before, Any(), amount), if e.Request? then amount(e) else ZERO)
            && CountWhere(after, IsFailed()) == CountWhere(before, IsFailed()) + (if e.Failed? then 1 else 0)
            && CountWhere(after, IsFailedOver()) == CountWhere(before, IsFailedOver()) + (if e.FailedOver? then 1 else 0)
            && CountWhere(after, IsRetried()) == CountWhere(before, IsRetried()) + (if e.Retried? then 1 else 0)
            && CountWhere(after, IsHit()) == CountWhere(before, IsHit()) + (if e.Cached? && e.hit then 1 else 0)
            && CountWhere(after, IsMiss()) == CountWhere(before, IsMiss()) + (if e.Cached? && !e.hit then 1 else 0)
  {
    SumSnoc(events, i, Any(), amount);
    SumSnoc(events, i, IsFailed(), amount);
    SumSnoc(events, i, IsFailedOver(), amount);
    SumSnoc(events, i, IsRetried(), amount);
    SumSnoc(events, i, IsHit(), amount);
    SumSnoc(events, i, IsMiss(), amount);
  }

  method ComputeOverview(events: seq<Event>, marginPct: real) returns (o: Overview)
    ensures o.totals == SumWhere(events, Any(), Amounts(marginPct))
    ensures o.errors == CountWhere(events, IsFailed()) && o.failovers == CountWhere(events, IsFailedOver())
    ensures o.retries == CountWhere(events, IsRetried())
    ensures o.cacheHits == CountWhere(events, IsHit()) && o.cacheMisses == CountWhere(events, IsMiss())
    ensures o.margin == o.totals.revenue - o.totals.actualCost
  {
    var t, amount := ZERO, Amounts(marginPct);
    var errors, failovers, retries, hits, misses := 0, 0, 0, 0, 0;
    for i := 0 to |events|
      invariant t == SumWhere(events[..i], Any(), amount)
      invariant errors == CountWhere(events[..i], IsFailed()) && failovers == CountWhere(events[..i], IsFailedOver())
      invariant retries == CountWhere(events[..i], IsRetried())
      invariant hits == CountWhere(events[..i], IsHit()) && misses == CountWhere(events[..i], IsMiss())
    {
      CountersStep(events, i, amount);
      match events[i] {
        case Request(_, _, _, _, _, _, _, _, _, _) => t := Plus(t, amount(events[i]));
        case Failed(_, _, _, _) => errors := errors + 1;
        case FailedOver(_, _, _, _) => failovers := failovers + 1;
        case Retried(_, _) => retries := retries + 1;
        case Cached(_, _, hit) =>
          if hit {
            hits := hits + 1;
          } else {
            misses := misses + 1;
          }
      }
    }
    assert events[..|events|] == events;
    o := Overview(t, errors, failovers, retries, hits, misses, t.revenue - t.actualCost);
  }

  /** With a margin that is not negative, a request sells below cost exactly when its baseline is below its cost. */
  lemma SoldBelowCostExactlyWhenBaselineIsLower(cost: real, baseline: Option<real>, marginPct: real)
    requires cost >= 0.0 && marginPct >= 0.0
    ensures ModeledRevenue(Some(cost), baseline, marginPct) < cost <==> baseline.Some? && baseline.value < cost
    ensures baseline.Some? ==> ModeledRevenue(Some(cost), baseline, marginPct) <= baseline.value
  {
    var rate := marginPct / 100.0;
    assert cost * (1.0 + rate) == cost + cost * rate && cost * rate >= 0.0;
  }

  // ----- time series -------------------------------------------------------------------------------

  datatype Bucket = Bucket(t: int, totals: Totals, errors: int)

  /** How many buckets: the span in bucket widths, rounded up, at least one. */
  function BucketCount(since: int, now: int, bucketMs: int): (n: nat)
    requires bucketMs > 0
    ensures n >= 1
  {
    var n := (now - since + bucketMs - 1) / bucketMs;
    if n < 1 then 1 else n
  }

  /** The bucket of a time, clamped to the series. */
  function BucketOf(at: int, since: int, bucketMs: int, n: nat): (i: nat)
    requires bucketMs > 0 && n >= 1
    ensures i < n
  {
    var i := (at - since) / bucketMs;
    if i < 0 then 0 else if i > n - 1 then n - 1 else i
  }

  function Since(since: int): Event -> bool { (e: Event) => e.at >= since }

  /** Where an event goes: its bucket, or nowhere (-1) before the start of the series. */
  function Place(since: int, bucketMs: int, n: nat): Event -> int
    requires bucketMs > 0 && n >= 1
  {
    (e: Event) => if e.at < since then -1 else BucketOf(e.at, since, bucketMs, n)
  }

  function InBucket(place: Event -> int, i: int): Event -> bool { (e: Event) => place(e) == i }

  function FailedInBucket(place: Event -> int, i: int): Event -> bool { (e: Event) => e.Failed? && place(e) == i }

  /** What bucket `i` holds after some events. */
  function BucketAfter(events: seq<Event>, place: Event -> int, t: int, i: nat, amount: Event -> Totals): Bucket {
    Bucket(t, SumWhere(events, InBucket(place, i), amount), CountWhere(events, FailedInBucket(place, i)))
  }

  function Filled(b: Bucket, e: Event, amount: Event -> Totals): Bucket {
    match e
    case Request(_, _, _, _, _, _, _, _, _, _) => b.(totals := Plus(b.totals, amount(e)))
    case Failed(_, _, _, _) => b.(errors := b.errors + 1)
    case _ => b
  }

  lemma BucketStep(events: seq<Event>, k: nat, place: Event -> int, t: int, i: nat, amount: Event -> Totals)
    requires k < |events|
    ensures BucketAfter(events[..k + 1], place, t, i, amount)
         == if place(events[k]) == i then Filled(BucketAfter(events[..k], place, t, i, amount), events[k], amount)
            else BucketAfter(events[..k], place, t, i, amount)
  {
    SumSnoc(events, k, InBucket(place, i), amount);
    SumSnoc(events, k, FailedInBucket(place, i), amount);
  }

  /** The series: one bucket after another, each holding its own events. */
  ghost predicate Series(series: seq<Bucket>, events: seq<Event>, since: int, bucketMs: int, amount: Event -> Totals)
    requires bucketMs > 0
  {
    && |series| >= 1
    && forall i :: 0 <= i < |series| ==>
         series[i] == BucketAfter(events, Place(since, bucketMs, |series|), since + i * bucketMs, i, amount)
  }

  method ComputeTimeseries(events: seq<Event>, since: int, now: int, bucketMs: int, marginPct: real) returns (series: seq<Bucket>)
    requires bucketMs > 0
    ensures |series| == BucketCount(since, now, bucketMs)
    ensures Series(series, events, since, bucketMs, SeriesAmounts(marginPct))
  {
    var n := BucketCount(since, now, bucketMs);
    var amount, place := SeriesAmounts(marginPct), Place(since, bucketMs, n);
    var buckets := new Bucket[n](i => Bucket(since + i * bucketMs, ZERO, 0));
    for k := 0 to |events|
      invariant forall i :: 0 <= i < n ==> buckets[i] == BucketAfter(events[..k], place, since + i * bucketMs, i, amount)
    {
      forall i | 0 <= i < n
        ensures BucketAfter(events[..k + 1], place, since + i * bucketMs, i, amount)
             == if place(events[k]) == i then Filled(buckets[i], events[k], amount) else buckets[i]
      {
        BucketStep(events, k, place, since + i * bucketMs, i, amount);
      }
      if events[k].at >= since {
        var i := BucketOf(events[k].at, since, bucketMs, n);
        buckets[i] := Filled(buckets[i], events[k], amount);
      }
    }
    assert events[..|events|] == events;
    series := buckets[..];
  }

  function SumTotals(parts: seq<Totals>): Totals {
    if parts == [] then ZERO else Plus(SumTotals(parts[..|parts| - 1]), parts[|parts| - 1])
  }

  function BucketTotals(series: seq<Bucket>): seq<Totals> {
    seq(|series|, i requires 0 <= i < |series| => series[i].totals)
  }

  lemma PlusSwap(a: Totals, b: Totals, c: Totals, d: Totals)
    ensures Plus(Plus(a, b), Plus(c, d)) == Plus(Plus(a, c), Plus(b, d))
  {
  }

  lemma PartSplits(e: Event, p: Event -> bool, q: Event -> bool, r: Event -> bool, amount: Event -> Totals)
    requires !(p(e) && q(e)) && (r(e) <==> p(e) || q(e))
    ensures Part(e, r, amount) == Plus(Part(e, p, amount), Part(e, q, amount))
  {
  }

  lemma SumStep(events: seq<Event>, p: Event -> bool, amount: Event -> Totals)
    requires events != []
    ensures SumWhere(events, p, amount)
         == Plus(SumWhere(events[..|events| - 1], p, amount), Part(events[|events| - 1], p, amount))
  {
  }

  /** Sums split along disjoint conditions. */
  lemma {:induction false} SumSplits(events: seq<Event>, p: Event -> bool, q: Event -> bool, r: Event -> bool, amount: Event -> Totals)
    requires forall e :: e in events ==> !(p(e) && q(e)) && (r(e) <==> p(e) || q(e))
    ensures SumWhere(events, r, amount) == Plus(SumWhere(events, p, amount), SumWhere(events, q, amount))
  {
    if events != [] {
      var init, last := events[..|events| - 1], events[|events| - 1];
      SumSplits(init, p, q, r, amount);
      PartSplits(last, p, q, r, amount);
      PlusSwap(SumWhere(init, p, amount), SumWhere(init, q, amount), Part(last, p, amount), Part(last, q, amount));
      SumStep(events, p, amount);
      SumStep(events, q, amount);
      SumStep(events, r, amount);
    }
  }

  lemma {:induction false} SumCongruent(events: seq<Event>, p: Event -> bool, q: Event -> bool, amount: Event -> Totals)
    requires forall e :: e in events ==> (p(e) <==> q(e))
    ensures SumWhere(events, p, amount) == SumWhere(events, q, amount)
  {
    if events != [] {
      SumCongruent(events[..|events| - 1], p, q, amount);
    }
  }

  lemma {:induction false} SumNone(events: seq<Event>, p: Event -> bool, amount: Event -> Totals)
    requires forall e :: e in events ==> !p(e)
    ensures SumWhere(events, p, amount) == ZERO
  {
    if events != [] {
      var init, last := events[..|events| - 1], events[|events| - 1];
      SumNone(init, p, amount);
      assert Part(last, p, amount) == ZERO;
    }
  }

  function InFirst(place: Event -> int, k: int): Event -> bool { (e: Event) => 0 <= place(e) < k }

  lemma {:induction false} FirstBucketsSum(events: seq<Event>, totals: seq<Totals>, place: Event -> int, amount: Event -> Totals)
    requires forall i :: 0 <= i < |totals| ==> totals[i] == SumWhere(events, InBucket(place, i), amount)
    ensures SumTotals(totals) == SumWhere(events, InFirst(place, |totals|), amount)
    decreases |totals|
  {
    if totals == [] {
      SumNone(events, InFirst(place, 0), amount);
    } else {
      var k := |totals| - 1;
      FirstBucketsSum(events, totals[..k], place, amount);
      SumSplits(events, InFirst(place, k), InBucket(place, k), InFirst(place, k + 1), amount);
    }
  }

  lemma PlacedExactlySince(since: int, bucketMs: int, n: nat, e: Event)
    requires bucketMs > 0 && n >= 1
    ensures InFirst(Place(since, bucketMs, n), n)(e) <==> Since(since)(e)
  {
  }

  lemma PlacedSum(events: seq<Event>, since: int, bucketMs: int, n: nat, amount: Event -> Totals)
    requires bucketMs > 0 && n >= 1
    ensures SumWhere(events, InFirst(Place(since, bucketMs, n), n), amount) == SumWhere(events, Since(since), amount)
  {
    var p, q := InFirst(Place(since, bucketMs, n), n), Since(since);
    forall e | e in events ensures p(e) <==> q(e) {
      PlacedExactlySince(since, bucketMs, n, e);
    }
    SumCongruent(events, p, q, amount);
  }

  /** No event of the span is lost or counted twice by bucketing. */
  lemma BucketsSumToSpan(events: seq<Event>, series: seq<Bucket>, since: int, bucketMs: int, amount: Event -> Totals)
    requires bucketMs > 0 && Series(series, events, since, bucketMs, amount)
    ensures SumTotals(BucketTotals(series)) == SumWhere(events, Since(since), amount)
  {
    FirstBucketsSum(events, BucketTotals(series), Place(since, bucketMs, |series|), amount);
    PlacedSum(events, since, bucketMs, |series|, amount);
  }

  // ----- breakdown ------------------------------------------------------------------------------------

  datatype Row = Row(key: string, totals: Totals, margin: real, errors: int, failovers: int)

  function Find(rows: seq<Row>, key: string): (i: nat)
    ensures i <= |rows|
    ensures i < |rows| ==> rows[i].key == key
    ensures forall j :: 0 <= j < i ==> rows[j].key != key
  {
    if rows == [] || rows[0].key == key then 0 else 1 + Find(rows[1..], key)
  }

  function EmptyRow(key: string): Row {
    Row(key, ZERO, 0.0, 0, 0)
  }

  /** The row of a key, created empty when there is none. */
  function WithRow(rows: seq<Row>, key: string): (r: seq<Row>)
    ensures Find(rows, key) < |r|
  {
    if Find(rows, key) < |rows| then rows else rows + [EmptyRow(key)]
  }

  function Counted(r: Row, e: Event, amount: Event -> Totals): Row {
    match e
    case Request(_, _, _, _, _, _, _, _, _, _) =>
      r.(totals := Plus(r.totals, amount(e)), margin := r.margin + (amount(e).revenue - amount(e).actualCost))
    case Failed(_, _, _, _) => r.(errors := r.errors + 1)
    case FailedOver(_, _, _, _) => r.(failovers := r.failovers + 1)
    case _ => r
  }

  /** The row an event goes to: requests by their key, errors and failovers by attribution. */
  function KeyFor(e: Event, keyOf: Event -> Option<string>, attribute: Event -> Option<string>): Option<string> {
    match e
    case Request(_, _, _, _, _, _, _, _, _, _) => keyOf(e)
    case Failed(_, _, _, _) => attribute(e)
    case FailedOver(_, _, _, _) => attribute(e)
    case _ => None
  }

  function Goes(keyOf: Event -> Option<string>, attribute: Event -> Option<string>, key: string): Event -> bool {
    (e: Event) => KeyFor(e, keyOf, attribute) == Some(key)
  }

  function FailedFor(keyOf: Event -> Option<string>, attribute: Event -> Option<string>, key: string): Event -> bool {
    (e: Event) => e.Failed? && KeyFor(e, keyOf, attribute) == Some(key)
  }

  function FailedOverFor(keyOf: Event -> Option<string>, attribute: Event -> Option<string>, key: string): Event -> bool {
    (e: Event) => e.FailedOver? && KeyFor(e, keyOf, attribute) == Some(key)
  }

  /** What the row of a key should say. */
  function RowFor(events: seq<Event>, keyOf: Event -> Option<string>, attribute: Event -> Option<string>, key: string, amount: Event -> Totals): Row {
    var t := SumWhere(events, Goes(keyOf, attribute, key), amount);
    Row(key, t, t.revenue - t.actualCost,
        CountWhere(events, FailedFor(keyOf, attribute, key)), CountWhere(events, FailedOverFor(keyOf, attribute, key)))
  }

  ghost predicate DistinctRows(rows: seq<Row>) {
    forall i, j :: 0 <= i < j < |rows| ==> rows[i].key != rows[j].key
  }

  ghost predicate Touched(events: seq<Event>, keyOf: Event -> Option<string>, attribute: Event -> Option<string>, key: string) {
    exists i :: 0 <= i < |events| && KeyFor(events[i], keyOf, attribute) == Some(key)
  }

  /** Exactly one row for each key that an event goes to, saying what it should. */
  ghost predicate Breakdown(rows: seq<Row>, events: seq<Event>, keyOf: Event -> Option<string>, attribute: Event -> Option<string>, amount: Event -> Totals) {
    && DistinctRows(rows)
    && (forall i :: 0 <= i < |rows| ==> rows[i] == RowFor(events, keyOf, attribute, rows[i].key, amount))
    && (forall key :: Find(rows, key) < |rows| <==> Touched(events, keyOf, attribute, key))
  }

  lemma TouchedStep(events: seq<Event>, k: nat, keyOf: Event -> Option<string>, attribute: Event -> Option<string>, key: string)
    requires k < |events|
    ensures Touched(events[..k + 1], keyOf, attribute, key)
        <==> Touched(events[..k], keyOf, attribute, key) || KeyFor(events[k], keyOf, attribute) == Some(key)
  {
    var more, fewer := events[..k + 1], events[..k];
    assert more[k] == events[k] && forall i :: 0 <= i < k ==> more[i] == fewer[i];
    if Touched(fewer, keyOf, attribute, key) {
      var i :| 0 <= i < k && KeyFor(fewer[i], keyOf, attribute) == Some(key);
      assert KeyFor(more[i], keyOf, attribute) == Some(key);
    }
  }

  lemma RowStep(events: seq<Event>, k: nat, keyOf: Event -> Option<string>, attribute: Event -> Option<string>, key: string, amount: Event -> Totals)
    requires k < |events|
    ensures RowFor(events[..k + 1], keyOf, attribute, key, amount)
         == if KeyFor(events[k], keyOf, attribute) == Some(key)
            then Counted(RowFor(events[..k], keyOf, attribute, key, amount), events[k], amount)
            else RowFor(events[..k], keyOf, attribute, key, amount)
  {
    SumSnoc(events, k, Goes(keyOf, attribute, key), amount);
    SumSnoc(events, k, FailedFor(keyOf, attribute, key), amount);
    SumSnoc(events, k, FailedOverFor(keyOf, attribute, key), amount);
  }

  method ComputeBreakdown(events: seq<Event>, keyOf: Event -> Option<string>, attribute: Event -> Option<string>, marginPct: real)
    returns (rows: seq<Row>)
    ensures Breakdown(rows, events, keyOf, attribute, Amounts(marginPct))
  {
    var amount := Amounts(marginPct);
    rows := [];
    for k := 0 to |events|
      invariant Breakdown(rows, events[..k], keyOf, attribute, amount)
    {
      var key := KeyFor(events[k], keyOf, attribute);
      if key.None? {
        NothingTouched(rows, events, k, keyOf, attribute, amount);
      } else {
        TouchedRow(rows, events, k, keyOf, attribute, key.value, amount);
        rows := WithRow(rows, key.value);
        var i := Find(rows, key.value);
        rows := rows[i := Counted(rows[i], events[k], amount)];
      }
    }
    assert events[..|events|] == events;
  }

  lemma NothingTouched(rows: seq<Row>, events: seq<Event>, k: nat, keyOf: Event -> Option<string>, attribute: Event -> Option<string>, amount: Event -> Totals)
    requires k < |events| && KeyFor(events[k], keyOf, attribute) == None
    requires Breakdown(rows, events[..k], keyOf, attribute, amount)
    ensures Breakdown(rows, events[..k + 1], keyOf, attribute, amount)
  {
    forall i | 0 <= i < |rows| ensures rows[i] == RowFor(events[..k + 1], keyOf, attribute, rows[i].key, amount) {
      RowStep(events, k, keyOf, attribute, rows[i].key, amount);
    }
    forall key ensures Find(rows, key) < |rows| <==> Touched(events[..k + 1], keyOf, attribute, key) {
      TouchedStep(events, k, keyOf, attribute, key);
    }
  }

  lemma FindAfter(rows: seq<Row>, key: string, other: string)
    ensures Find(WithRow(rows, key), other) < |WithRow(rows, key)| <==> Find(rows, other) < |rows| || other == key
  {
    var r := WithRow(rows, key);
    if Find(rows, other) < |rows| {
      assert r[Find(rows, other)].key == other;
    }
    if other == key {
      assert Find(rows, key) == |rows| ==> r[|rows|].key == key;
    }
    if Find(r, other) < |r| && other != key {
      assert r[Find(r, other)] == rows[Find(r, other)];
    }
  }

  lemma {:induction false} CountNone(events: seq<Event>, p: Event -> bool)
    requires forall e :: e in events ==> !p(e)
    ensures CountWhere(events, p) == 0
  {
    if events != [] {
      CountNone(events[..|events| - 1], p);
    }
  }

  lemma UntouchedIsEmpty(events: seq<Event>, keyOf: Event -> Option<string>, attribute: Event -> Option<string>, key: string, amount: Event -> Totals)
    requires !Touched(events, keyOf, attribute, key)
    ensures RowFor(events, keyOf, attribute, key, amount) == EmptyRow(key)
  {
    forall e | e in events ensures KeyFor(e, keyOf, attribute) != Some(key) {
      var i :| 0 <= i < |events| && events[i] == e;
    }
    SumNone(events, Goes(keyOf, attribute, key), amount);
    CountNone(events, FailedFor(keyOf, attribute, key));
    CountNone(events, FailedOverFor(keyOf, attribute, key));
  }

  /** A row that is created when needed was already right, as an empty row. */
  lemma WithRowIsRight(rows: seq<Row>, events: seq<Event>, keyOf: Event -> Option<string>, attribute: Event -> Option<string>, key: string, amount: Event -> Totals)
    requires Breakdown(rows, events, keyOf, attribute, amount)
    ensures DistinctRows(WithRow(rows, key))
    ensures forall i :: 0 <= i < |WithRow(rows, key)| ==>
              WithRow(rows, key)[i] == RowFor(events, keyOf, attribute, WithRow(rows, key)[i].key, amount)
  {
    if Find(rows, key) == |rows| {
      UntouchedIsEmpty(events, keyOf, attribute, key, amount);
    }
  }

  lemma TouchedRow(rows: seq<Row>, events: seq<Event>, k: nat, keyOf: Event -> Option<string>, attribute: Event -> Option<string>, key: string, amount: Event -> Totals)
    requires k < |events| && KeyFor(events[k], keyOf, attribute) == Some(key)
    requires Breakdown(rows, events[..k], keyOf, attribute, amount)
    ensures var r := WithRow(rows, key);
            var i := Find(r, key);
            i < |r| && Breakdown(r[i := Counted(r[i], events[k], amount)], events[..k + 1], keyOf, attribute, amount)
  {
    var r := WithRow(rows, key);
    FindAfter(rows, key, key);
    var i := Find(r, key);
    WithRowIsRight(rows, events[..k], keyOf, attribute, key, amount);
    var after := r[i := Counted(r[i], events[k], amount)];
    forall j | 0 <= j < |after| ensures after[j] == RowFor(events[..k + 1], keyOf, attribute, after[j].key, amount) && after[j].key == r[j].key {
      RowStep(events, k, keyOf, attribute, r[j].key, amount);
    }
    forall other ensures Find(after, other) < |after| <==> Touched(events[..k + 1], keyOf, attribute, other) {
      TouchedStep(events, k, keyOf, attribute, other);
      FindAfter(rows, key, other);
      SameKeysSameFind(r, after, other);
    }
  }

  lemma SameKeysSameFind(r: seq<Row>, after: seq<Row>, key: string)
    requires |r| == |after| && forall j :: 0 <= j < |r| ==> after[j].key == r[j].key
    ensures Find(after, key) < |after| <==> Find(r, key) < |r|
  {
    if Find(r, key) < |r| {
      assert after[Find(r, key)].key == key;
    }
    if Find(after, key) < |after| {
      assert r[Find(after, key)].key == key;
    }
  }

  // ----- the views agree -----------------------------------------------------------------------------

  function RowTotals(rows: seq<Row>): seq<Totals> {
    seq(|rows|, i requires 0 <= i < |rows| => rows[i].totals)
  }

  function SumMargins(rows: seq<Row>): real {
    if rows == [] then 0.0 else SumMargins(rows[..|rows| - 1]) + rows[|rows| - 1].margin
  }

  function Keyed(keyOf: Event -> Option<string>): Event -> bool { (e: Event) => e.Request? && keyOf(e).Some? }

  /** The requests whose key is among those of some rows. */
  function InRows(rows: seq<Row>, keyOf: Event -> Option<string>): Event -> bool {
    (e: Event) => e.Request? && keyOf(e).Some? && Find(rows, keyOf(e).value) < |rows|
  }

  function KeyIs(keyOf: Event -> Option<string>, key: string): Event -> bool {
    (e: Event) => e.Request? && keyOf(e) == Some(key)
  }

  lemma FindSnoc(rows: seq<Row>, key: string)
    requires rows != []
    ensures Find(rows, key) < |rows| <==> Find(rows[..|rows| - 1], key) < |rows| - 1 || rows[|rows| - 1].key == key
  {
    var init := rows[..|rows| - 1];
    if Find(init, key) < |init| {
      assert rows[Find(init, key)].key == key;
    }
    if Find(rows, key) < |rows| - 1 {
      assert init[Find(rows, key)].key == key;
    }
  }

  lemma InRowsSplits(rows: seq<Row>, keyOf: Event -> Option<string>, e: Event)
    requires rows != [] && DistinctRows(rows)
    ensures var init, last := rows[..|rows| - 1], rows[|rows| - 1];
            && !(InRows(init, keyOf)(e) && KeyIs(keyOf, last.key)(e))
            && (InRows(rows, keyOf)(e) <==> InRows(init, keyOf)(e) || KeyIs(keyOf, last.key)(e))
  {
    if e.Request? && keyOf(e).Some? {
      FindSnoc(rows, keyOf(e).value);
      var init := rows[..|rows| - 1];
      assert Find(init, keyOf(e).value) < |init| ==> rows[Find(init, keyOf(e).value)].key == keyOf(e).value;
    }
  }

  lemma RowsSumStep(events: seq<Event>, rows: seq<Row>, keyOf: Event -> Option<string>, amount: Event -> Totals)
    requires DistinctRows(rows) && rows != []
    ensures SumWhere(events, InRows(rows, keyOf), amount)
         == Plus(SumWhere(events, InRows(rows[..|rows| - 1], keyOf), amount),
                 SumWhere(events, KeyIs(keyOf, rows[|rows| - 1].key), amount))
  {
    var p, q, r := InRows(rows[..|rows| - 1], keyOf), KeyIs(keyOf, rows[|rows| - 1].key), InRows(rows, keyOf);
    forall e | e in events ensures !(p(e) && q(e)) && (r(e) <==> p(e) || q(e)) {
      InRowsSplits(rows, keyOf, e);
    }
    SumSplits(events, p, q, r, amount);
  }

  lemma TotalsStep(rows: seq<Row>)
    requires rows != []
    ensures SumTotals(RowTotals(rows)) == Plus(SumTotals(RowTotals(rows[..|rows| - 1])), rows[|rows| - 1].totals)
  {
    assert RowTotals(rows)[..|rows| - 1] == RowTotals(rows[..|rows| - 1]);
  }

  lemma {:induction false} RowsSum(events: seq<Event>, rows: seq<Row>, keyOf: Event -> Option<string>, amount: Event -> Totals)
    requires DistinctRows(rows)
    requires forall i :: 0 <= i < |rows| ==> rows[i].totals == SumWhere(events, KeyIs(keyOf, rows[i].key), amount)
    ensures SumTotals(RowTotals(rows)) == SumWhere(events, InRows(rows, keyOf), amount)
    decreases |rows|
  {
    if rows == [] {
      SumNone(events, InRows(rows, keyOf), amount);
    } else {
      RowsSum(events, rows[..|rows| - 1], keyOf, amount);
      RowsSumStep(events, rows, keyOf, amount);
      TotalsStep(rows);
    }
  }

  lemma {:induction false} SumRequestsOnly(events: seq<Event>, p: Event -> bool, q: Event -> bool, amount: Event -> Totals)
    requires forall e :: e in events && e.Request? ==> (p(e) <==> q(e))
    ensures SumWhere(events, p, amount) == SumWhere(events, q, amount)
  {
    if events != [] {
      SumRequestsOnly(events[..|events| - 1], p, q, amount);
    }
  }

  /** The rows of a breakdown add up to the requests that have a key: none is lost or counted twice. */
  lemma RowsSumToKeyed(events: seq<Event>, rows: seq<Row>, keyOf: Event -> Option<string>, attribute: Event -> Option<string>, amount: Event -> Totals)
    requires Breakdown(rows, events, keyOf, attribute, amount)
    ensures SumTotals(RowTotals(rows)) == SumWhere(events, Keyed(keyOf), amount)
  {
    forall i | 0 <= i < |rows| ensures rows[i].totals == SumWhere(events, KeyIs(keyOf, rows[i].key), amount) {
      SumRequestsOnly(events, Goes(keyOf, attribute, rows[i].key), KeyIs(keyOf, rows[i].key), amount);
    }
    RowsSum(events, rows, keyOf, amount);
    forall e | e in events && e.Request? ensures InRows(rows, keyOf)(e) <==> Keyed(keyOf)(e) {
      if keyOf(e).Some? {
        var i :| 0 <= i < |events| && events[i] == e;
        assert Touched(events, keyOf, attribute, keyOf(e).value);
      }
    }
    SumRequestsOnly(events, InRows(rows, keyOf), Keyed(keyOf), amount);
  }

  lemma {:induction false} MarginsSum(rows: seq<Row>)
    requires forall i :: 0 <= i < |rows| ==> rows[i].margin == rows[i].totals.revenue - rows[i].totals.actualCost
    ensures SumMargins(rows) == SumTotals(RowTotals(rows)).revenue - SumTotals(RowTotals(rows)).actualCost
    decreases |rows|
  {
    if rows != [] {
      MarginsSum(rows[..|rows| - 1]);
      assert RowTotals(rows)[..|rows| - 1] == RowTotals(rows[..|rows| - 1]);
    }
  }

  lemma PlusWithoutBaseline(a: Totals, b: Totals)
    ensures WithoutBaseline(Plus(a, b)) == Plus(WithoutBaseline(a), WithoutBaseline(b))
  {
  }

  lemma {:induction false} SumWithoutBaseline(events: seq<Event>, p: Event -> bool, amount: Event -> Totals, reported: Event -> Totals)
    requires forall e :: reported(e) == WithoutBaseline(amount(e))
    ensures SumWhere(events, p, reported) == WithoutBaseline(SumWhere(events, p, amount))
  {
    if events != [] {
      var init, last := events[..|events| - 1], events[|events| - 1];
      SumWithoutBaseline(init, p, amount, reported);
      SumStep(events, p, amount);
      SumStep(events, p, reported);
      PlusWithoutBaseline(SumWhere(init, p, amount), Part(last, p, amount));
      assert Part(last, p, reported) == WithoutBaseline(Part(last, p, amount));
    }
  }

  /**
   * The three views agree: when every event lies in the span and every request has a key,
   * the rows add up to the overview, the buckets to all of it that they report, and the
   * rows' margins to its margin.
   */
  lemma ViewsAgree(events: seq<Event>, o: Totals, series: seq<Bucket>, rows: seq<Row>, since: int, bucketMs: int,
                   keyOf: Event -> Option<string>, attribute: Event -> Option<string>, marginPct: real)
    requires bucketMs > 0 && forall e :: e in events ==> e.at >= since && (e.Request? ==> keyOf(e).Some?)
    requires o == SumWhere(events, Any(), Amounts(marginPct))
    requires Series(series, events, since, bucketMs, SeriesAmounts(marginPct))
    requires Breakdown(rows, events, keyOf, attribute, Amounts(marginPct))
    ensures SumTotals(BucketTotals(series)) == WithoutBaseline(o) && SumTotals(RowTotals(rows)) == o
    ensures SumMargins(rows) == o.revenue - o.actualCost
  {
    var amount := Amounts(marginPct);
    BucketsSumToSpan(events, series, since, bucketMs, SeriesAmounts(marginPct));
    SumCongruent(events, Since(since), Any(), SeriesAmounts(marginPct));
    SumWithoutBaseline(events, Any(), amount, SeriesAmounts(marginPct));
    RowsSumToKeyed(events, rows, keyOf, attribute, amount);
    SumRequestsOnly(events, Keyed(keyOf), Any(), amount);
    MarginsSum(rows);
  }
}
