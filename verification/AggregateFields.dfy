/**
 * The three views field by field: every number a view shows, as a sum over the events, with
 * the fields of the events, the revenue formula and the borders of the buckets written out.
 */
module AggregateFields {
  import opened Wrappers
  import opened TelemetryEvents
  import opened Aggregates

  function Ints(events: seq<Event>, f: Event -> int): int {
    if events == [] then 0 else Ints(events[..|events| - 1], f) + f(events[|events| - 1])
  }

  function Reals(events: seq<Event>, f: Event -> real): real {
    if events == [] then 0.0 else Reals(events[..|events| - 1], f) + f(events[|events| - 1])
  }

  function One(p: Event -> bool): Event -> int {
    (e: Event) => if p(e) then 1 else 0
  }

  /** How many events are of a kind. */
  function Count(events: seq<Event>, p: Event -> bool): int {
    Ints(events, One(p))
  }

  function Amount(x: Option<real>): real {
    match x case Some(v) => v case None => 0.0
  }

  function Least(x: real, y: real): real {
    if x <= y then x else y
  }

  /** What a request brings in: its cost with the margin, but no more than its baseline; nothing where the cost is unknown. */
  function Revenue(e: Event, marginPct: real): real
    requires e.Request?
  {
    match (e.actualCost, e.baselineCost)
    case (None, _) => 0.0
    case (Some(cost), None) => cost * (1.0 + marginPct / 100.0)
    case (Some(cost), Some(baseline)) => Least(cost * (1.0 + marginPct / 100.0), baseline)
  }

  // Each field of the requests that meet a condition.

  function Requests(p: Event -> bool): Event -> int {
    (e: Event) => if e.Request? && p(e) then 1 else 0
  }

  function InputTokens(p: Event -> bool): Event -> int {
    (e: Event) => if e.Request? && p(e) then e.inputTokens else 0
  }

  function OutputTokens(p: Event -> bool): Event -> int {
    (e: Event) => if e.Request? && p(e) then e.outputTokens else 0
  }

  function Costs(p: Event -> bool): Event -> real {
    (e: Event) => if e.Request? && p(e) then Amount(e.actualCost) else 0.0
  }

  function Baselines(p: Event -> bool): Event -> real {
    (e: Event) => if e.Request? && p(e) then Amount(e.baselineCost) else 0.0
  }

  function Savings(p: Event -> bool): Event -> real {
    (e: Event) => if e.Request? && p(e) then Amount(e.saved) else 0.0
  }

  function Revenues(p: Event -> bool, marginPct: real): Event -> real {
    (e: Event) => if e.Request? && p(e) then Revenue(e, marginPct) else 0.0
  }

  /** The totals of the requests that meet a condition. */
  predicate FieldsOf(t: Totals, events: seq<Event>, p: Event -> bool, marginPct: real) {
    && t.requests == Ints(events, Requests(p))
    && t.inputTokens == Ints(events, InputTokens(p)) && t.outputTokens == Ints(events, OutputTokens(p))
    && t.actualCost == Reals(events, Costs(p)) && t.baselineCost == Reals(events, Baselines(p))
    && t.saved == Reals(events, Savings(p)) && t.revenue == Reals(events, Revenues(p, marginPct))
  }

  lemma PartByField(e: Event, p: Event -> bool, marginPct: real)
    ensures Part(e, p, Amounts(marginPct))
         == Totals(Requests(p)(e), InputTokens(p)(e), OutputTokens(p)(e), Costs(p)(e), Baselines(p)(e), Savings(p)(e), Revenues(p, marginPct)(e))
  {
  }

  lemma {:induction false} SumsByField(events: seq<Event>, p: Event -> bool, marginPct: real)
    ensures FieldsOf(SumWhere(events, p, Amounts(marginPct)), events, p, marginPct)
  {
    if events != [] {
      var init, e := events[..|events| - 1], events[|events| - 1];
      SumsByField(init, p, marginPct);
      PartByField(e, p, marginPct);
    }
  }

  lemma {:induction false} CountsAre(events: seq<Event>, p: Event -> bool, q: Event -> bool)
    requires forall e :: p(e) == q(e)
    ensures CountWhere(events, p) == Count(events, q)
  {
    if events != [] {
      CountsAre(events[..|events| - 1], p, q);
    }
  }

  /** What `ComputeOverview` ensures, as one condition. */
  predicate IsOverview(o: Overview, events: seq<Event>, marginPct: real) {
    && o.totals == SumWhere(events, Any(), Amounts(marginPct))
    && o.errors == CountWhere(events, IsFailed()) && o.failovers == CountWhere(events, IsFailedOver())
    && o.retries == CountWhere(events, IsRetried())
    && o.cacheHits == CountWhere(events, IsHit()) && o.cacheMisses == CountWhere(events, IsMiss())
    && o.margin == o.totals.revenue - o.totals.actualCost
  }

  /** The overview: totals over all requests, and a count for every other kind of event. */
  lemma OverviewByField(events: seq<Event>, o: Overview, marginPct: real)
    requires IsOverview(o, events, marginPct)
    ensures FieldsOf(o.totals, events, (e: Event) => true, marginPct) && o.margin == o.totals.revenue - o.totals.actualCost
    ensures o.errors == Count(events, (e: Event) => e.Failed?) && o.failovers == Count(events, (e: Event) => e.FailedOver?)
    ensures o.retries == Count(events, (e: Event) => e.Retried?)
    ensures o.cacheHits == Count(events, (e: Event) => e.Cached? && e.hit)
    ensures o.cacheMisses == Count(events, (e: Event) => e.Cached? && !e.hit)
  {
    var all := (e: Event) => true;
    SumsByField(events, all, marginPct);
    SumCongruent(events, all, Any(), Amounts(marginPct));
    CountsAre(events, IsFailed(), (e: Event) => e.Failed?);
    CountsAre(events, IsFailedOver(), (e: Event) => e.FailedOver?);
    CountsAre(events, IsRetried(), (e: Event) => e.Retried?);
    CountsAre(events, IsHit(), (e: Event) => e.Cached? && e.hit);
    CountsAre(events, IsMiss(), (e: Event) => e.Cached? && !e.hit);
  }

  // ----- time series --------------------------------------------------------------------------------

  /** Times from the start of bucket `i` to the start of the next; the last bucket has no end. */
  predicate InSlot(at: int, since: int, bucketMs: int, n: nat, i: nat) {
    since + i * bucketMs <= at && (i < n - 1 ==> at < since + (i + 1) * bucketMs)
  }

  function Slot(since: int, bucketMs: int, n: nat, i: nat): Event -> bool {
    (e: Event) => InSlot(e.at, since, bucketMs, n, i)
  }

  function FailedInSlot(since: int, bucketMs: int, n: nat, i: nat): Event -> bool {
    (e: Event) => e.Failed? && InSlot(e.at, since, bucketMs, n, i)
  }

  lemma Multiples(i: int, k: int, width: int)
    requires width > 0
    ensures i <= k ==> i * width <= k * width
    ensures (i + 1) * width == i * width + width
  {
  }

  lemma Quotient(d: int, width: int)
    requires width > 0
    ensures var q := d / width; q * width <= d < q * width + width
    ensures d >= 0 ==> d / width >= 0
  {
    assert d == (d / width) * width + d % width;
  }

  lemma SlotExactly(at: int, since: int, bucketMs: int, n: nat, i: nat)
    requires bucketMs > 0 && i < n && at >= since
    ensures BucketOf(at, since, bucketMs, n) == i <==> InSlot(at, since, bucketMs, n, i)
  {
    var q := (at - since) / bucketMs;
    Quotient(at - since, bucketMs);
    Multiples(i, q, bucketMs);
    Multiples(q + 1, i, bucketMs);
    Multiples(i + 1, q, bucketMs);
    Multiples(q, i, bucketMs);
  }

  lemma PlaceIsSlot(e: Event, since: int, bucketMs: int, n: nat, i: nat)
    requires bucketMs > 0 && i < n
    ensures Place(since, bucketMs, n)(e) == i <==> InSlot(e.at, since, bucketMs, n, i)
  {
    assert i * bucketMs >= 0;
    if e.at >= since {
      SlotExactly(e.at, since, bucketMs, n, i);
    }
  }

  /** The buckets reach up to now, with none to spare. */
  lemma BucketsReachNow(since: int, now: int, bucketMs: int)
    requires bucketMs > 0
    ensures var n := BucketCount(since, now, bucketMs);
            now - since <= n * bucketMs && (n > 1 ==> (n - 1) * bucketMs < now - since)
  {
    var q := (now - since + bucketMs - 1) / bucketMs;
    Quotient(now - since + bucketMs - 1, bucketMs);
    Multiples(q - 1, q, bucketMs);
    Multiples(q, 0, bucketMs);
  }

  /** Every bucket: its start, the fields of the requests in its slot but the baseline, and its errors. */
  lemma SeriesByField(events: seq<Event>, series: seq<Bucket>, since: int, bucketMs: int, marginPct: real, i: nat)
    requires bucketMs > 0 && Series(series, events, since, bucketMs, SeriesAmounts(marginPct)) && i < |series|
    ensures series[i].t == since + i * bucketMs
    ensures series[i].errors == Count(events, FailedInSlot(since, bucketMs, |series|, i))
    ensures exists full :: FieldsOf(full, events, Slot(since, bucketMs, |series|, i), marginPct) && series[i].totals == full.(baselineCost := 0.0)
  {
    var n := |series|;
    var place, slot := Place(since, bucketMs, n), Slot(since, bucketMs, n, i);
    assert series[i] == BucketAfter(events, place, since + i * bucketMs, i, SeriesAmounts(marginPct));
    SlotSum(events, since, bucketMs, n, i, marginPct);
    forall e: Event ensures FailedInBucket(place, i)(e) == FailedInSlot(since, bucketMs, n, i)(e) {
      PlaceIsSlot(e, since, bucketMs, n, i);
    }
    CountsAre(events, FailedInBucket(place, i), FailedInSlot(since, bucketMs, n, i));
  }

  lemma SlotSum(events: seq<Event>, since: int, bucketMs: int, n: nat, i: nat, marginPct: real)
    requires bucketMs > 0 && i < n
    ensures var slot, full := Slot(since, bucketMs, n, i), SumWhere(events, Slot(since, bucketMs, n, i), Amounts(marginPct));
            && FieldsOf(full, events, slot, marginPct)
            && SumWhere(events, InBucket(Place(since, bucketMs, n), i), SeriesAmounts(marginPct)) == full.(baselineCost := 0.0)
  {
    var place, slot := InBucket(Place(since, bucketMs, n), i), Slot(since, bucketMs, n, i);
    forall e: Event ensures place(e) == slot(e) {
      PlaceIsSlot(e, since, bucketMs, n, i);
    }
    SumsByField(events, slot, marginPct);
    SumCongruent(events, place, slot, Amounts(marginPct));
    SumWithoutBaseline(events, place, Amounts(marginPct), SeriesAmounts(marginPct));
  }

  // ----- breakdown ----------------------------------------------------------------------------------

  /** Every row: the fields of the requests with its key, its margin, and what was attributed to it. */
  lemma RowsByField(events: seq<Event>, rows: seq<Row>, keyOf: Event -> Option<string>, attribute: Event -> Option<string>, marginPct: real, i: nat)
    requires Breakdown(rows, events, keyOf, attribute, Amounts(marginPct)) && i < |rows|
    ensures var key := rows[i].key;
            && FieldsOf(rows[i].totals, events, (e: Event) => keyOf(e) == Some(key), marginPct)
            && rows[i].margin == rows[i].totals.revenue - rows[i].totals.actualCost
            && rows[i].errors == Count(events, (e: Event) => e.Failed? && attribute(e) == Some(key))
            && rows[i].failovers == Count(events, (e: Event) => e.FailedOver? && attribute(e) == Some(key))
  {
    var key := rows[i].key;
    var own := (e: Event) => keyOf(e) == Some(key);
    SumsByField(events, own, marginPct);
    SumRequestsOnly(events, Goes(keyOf, attribute, key), own, Amounts(marginPct));
    CountsAre(events, FailedFor(keyOf, attribute, key), (e: Event) => e.Failed? && attribute(e) == Some(key));
    CountsAre(events, FailedOverFor(keyOf, attribute, key), (e: Event) => e.FailedOver? && attribute(e) == Some(key));
  }

  /** There is a row for a key exactly where a request has it, or an error or a failover is attributed to it; one row for each. */
  lemma RowExactlyWhenTouched(events: seq<Event>, rows: seq<Row>, keyOf: Event -> Option<string>, attribute: Event -> Option<string>, marginPct: real, key: string)
    requires Breakdown(rows, events, keyOf, attribute, Amounts(marginPct))
    ensures (exists i :: 0 <= i < |rows| && rows[i].key == key)
       <==> exists e :: e in events && ((e.Request? && keyOf(e) == Some(key)) || ((e.Failed? || e.FailedOver?) && attribute(e) == Some(key)))
    ensures forall i, k :: 0 <= i < k < |rows| ==> rows[i].key != rows[k].key
  {
    if exists i :: 0 <= i < |rows| && rows[i].key == key {
      assert Touched(events, keyOf, attribute, key);
      var k :| 0 <= k < |events| && KeyFor(events[k], keyOf, attribute) == Some(key);
      assert events[k] in events;
    }
    if exists e :: e in events && ((e.Request? && keyOf(e) == Some(key)) || ((e.Failed? || e.FailedOver?) && attribute(e) == Some(key))) {
      var e :| e in events && ((e.Request? && keyOf(e) == Some(key)) || ((e.Failed? || e.FailedOver?) && attribute(e) == Some(key)));
      var k :| 0 <= k < |events| && events[k] == e;
      assert Touched(events, keyOf, attribute, key);
    }
  }
}
