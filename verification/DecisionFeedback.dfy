/**
 * The in-memory join of tier decisions and guardrail outcomes by request id.
 *
 * Either side may arrive first, duplicates are ignored, and both sides are capped by
 * evicting the oldest entry. Quality and confidence are exact here.
 */
module DecisionFeedback {
  import opened Wrappers
  import opened MapSums

  datatype TierRecord = TierRecord(tier: string, byJev: bool, cached: bool, confidence: Option<real>)

  datatype Guard = Guard(requestId: string, quality: Option<real>, flagged: bool)

  /** A stored decision with its join marker; `serial` numbers the accepted decisions. */
  datatype TierEntry = TierEntry(rec: TierRecord, joined: bool, serial: nat)

  datatype Totals = Totals(requests: int, quality: real, flagged: int, confidence: real, confidenceN: int)

  const ZERO := Totals(0, 0.0, 0, 0.0, 0)

  /**
   * Each of the two maps comes with the insertion order of its keys. The last two fields are
   * history: the request ids of the accepted decisions, in order, and the serials (places in
   * that list) of those that joined.
   */
  datatype State = State(
    tiers: map<string, TierEntry>, tierOrder: seq<string>, guards: map<string, Guard>, guardOrder: seq<string>,
    joined: int, perTier: map<string, Totals>,
    tierDecisions: nat, jevDecisions: int, cacheHits: int, fallbacks: int, accepted: seq<string>, joinLog: seq<nat>)

  const START := State(map[], [], map[], [], 0, map[], 0, 0, 0, 0, [], [])

  function Plus(a: Totals, b: Totals): Totals {
    Totals(a.requests + b.requests, a.quality + b.quality, a.flagged + b.flagged,
           a.confidence + b.confidence, a.confidenceN + b.confidenceN)
  }

  /** What one joined pair adds to its tier. */
  function Joined(rec: TierRecord, g: Guard): Totals {
    Totals(1, g.quality.GetOr(0.0), if g.flagged then 1 else 0, rec.confidence.GetOr(0.0), if rec.confidence.Some? then 1 else 0)
  }

  function TotalsFor(perTier: map<string, Totals>, tier: string): Totals {
    if tier in perTier then perTier[tier] else ZERO
  }

  /** Makes room for one more: at the cap the oldest key goes. */
  function Evicted<V>(m: map<string, V>, order: seq<string>, max: int): (map<string, V>, seq<string>) {
    if |order| >= max && order != [] then (m - {order[0]}, order[1..]) else (m, order)
  }

  function AfterJoin(s: State, id: string): State {
    if id !in s.tiers || id !in s.guards || s.tiers[id].joined then s
    else
      var rec := s.tiers[id].rec;
      s.(tiers := s.tiers[id := s.tiers[id].(joined := true)],
         joined := s.joined + 1,
         perTier := s.perTier[rec.tier := Plus(TotalsFor(s.perTier, rec.tier), Joined(rec, s.guards[id]))],
         joinLog := s.joinLog + [s.tiers[id].serial])
  }

  /** The decision is stored and counted; nothing is joined yet. */
  function WithTier(s: State, id: string, rec: TierRecord, max: int): State {
    var (tiers, order) := Evicted(s.tiers, s.tierOrder, max);
    s.(tiers := tiers[id := TierEntry(rec, false, s.tierDecisions)],
       tierOrder := order + [id],
       tierDecisions := s.tierDecisions + 1,
       jevDecisions := s.jevDecisions + (if rec.byJev then 1 else 0),
       cacheHits := s.cacheHits + (if rec.byJev && rec.cached then 1 else 0),
       fallbacks := s.fallbacks + (if rec.byJev then 0 else 1),
       accepted := s.accepted + [id])
  }

  function WithGuard(s: State, g: Guard, max: int): State {
    var (guards, order) := Evicted(s.guards, s.guardOrder, max);
    s.(guards := guards[g.requestId := g], guardOrder := order + [g.requestId])
  }

  function AfterTier(s: State, id: string, rec: TierRecord, max: int): State {
    if id in s.tiers then s else AfterJoin(WithTier(s, id, rec, max), id)
  }

  function AfterGuard(s: State, g: Guard, max: int): State {
    if g.requestId in s.guards then s else AfterJoin(WithGuard(s, g, max), g.requestId)
  }

  class MemoryDecisionFeedback {
    var tiers: map<string, TierEntry>
    var tierOrder: seq<string>
    var guards: map<string, Guard>
    var guardOrder: seq<string>
    var joined: int
    var perTier: map<string, Totals>
    var tierDecisions: nat
    var jevDecisions: int
    var cacheHits: int
    var fallbacks: int
    ghost var accepted: seq<string>
    ghost var joinLog: seq<nat>
    const maxEntries: int

    ghost function Now(): State
      reads this
    {
      State(tiers, tierOrder, guards, guardOrder, joined, perTier, tierDecisions, jevDecisions, cacheHits, fallbacks,
            accepted, joinLog)
    }

    constructor (maxEntries: int)
      ensures Now() == START && this.maxEntries == maxEntries
    {
      tiers, tierOrder, guards, guardOrder := map[], [], map[], [];
      joined, perTier, accepted, joinLog := 0, map[], [], [];
      tierDecisions, jevDecisions, cacheHits, fallbacks := 0, 0, 0, 0;
      this.maxEntries := maxEntries;
    }

    method RecordTier(id: string, rec: TierRecord)
      modifies this
      ensures Now() == AfterTier(old(Now()), id, rec, maxEntries)
    {
      if id in tiers {
        return;
      }
      Store(id, rec);
      MaybeJoin(id);
    }

    /** Makes room, inserts the decision and counts it. */
    method Store(id: string, rec: TierRecord)
      modifies this
      ensures Now() == WithTier(old(Now()), id, rec, maxEntries)
    {
      if |tierOrder| >= maxEntries && tierOrder != [] {
        tiers, tierOrder := tiers - {tierOrder[0]}, tierOrder[1..];
      }
      tiers, tierOrder := tiers[id := TierEntry(rec, false, tierDecisions)], tierOrder + [id];
      tierDecisions, accepted := tierDecisions + 1, accepted + [id];
      CountSource(rec);
    }

    /** Who decided: Jev, perhaps from its cache, or the structural fallback. */
    method CountSource(rec: TierRecord)
      modifies `jevDecisions, `cacheHits, `fallbacks
      ensures jevDecisions == old(jevDecisions) + (if rec.byJev then 1 else 0)
      ensures cacheHits == old(cacheHits) + (if rec.byJev && rec.cached then 1 else 0)
      ensures fallbacks == old(fallbacks) + (if rec.byJev then 0 else 1)
    {
      if rec.byJev {
        jevDecisions := jevDecisions + 1;
        if rec.cached {
          cacheHits := cacheHits + 1;
        }
      } else {
        fallbacks := fallbacks + 1;
      }
    }

    method RecordGuardrail(g: Guard)
      modifies this
      ensures Now() == AfterGuard(old(Now()), g, maxEntries)
    {
      if g.requestId in guards {
        return;
      }
      if |guardOrder| >= maxEntries && guardOrder != [] {
        guards, guardOrder := guards - {guardOrder[0]}, guardOrder[1..];
      }
      guards, guardOrder := guards[g.requestId := g], guardOrder + [g.requestId];
      assert Now() == WithGuard(old(Now()), g, maxEntries);
      MaybeJoin(g.requestId);
    }

    method MaybeJoin(id: string)
      modifies this
      ensures Now() == AfterJoin(old(Now()), id)
    {
      if id !in tiers || id !in guards || tiers[id].joined {
        return;
      }
      var rec := tiers[id].rec;
      joinLog := joinLog + [tiers[id].serial];
      tiers := tiers[id := tiers[id].(joined := true)];
      joined := joined + 1;
      var t := AddJoined(TotalsFor(perTier, rec.tier), rec, guards[id]);
      perTier := perTier[rec.tier := t];
    }
  }

  method AddJoined(before: Totals, rec: TierRecord, g: Guard) returns (t: Totals)
    ensures t == Plus(before, Joined(rec, g))
    ensures t.requests == before.requests + 1
    ensures t.quality == before.quality + match g.quality case Some(q) => q case None => 0.0
    ensures g.flagged ==> t.flagged == before.flagged + 1
    ensures !g.flagged ==> t.flagged == before.flagged
    ensures match rec.confidence
            case Some(c) => t.confidence == before.confidence + c && t.confidenceN == before.confidenceN + 1
            case None => t.confidence == before.confidence && t.confidenceN == before.confidenceN
  {
    t := before.(requests := before.requests + 1);
    if g.quality.Some? {
      t := t.(quality := t.quality + g.quality.value);
    }
    if g.flagged {
      t := t.(flagged := t.flagged + 1);
    }
    if rec.confidence.Some? {
      t := t.(confidence := t.confidence + rec.confidence.value, confidenceN := t.confidenceN + 1);
    }
  }

  // ----- histories ---------------------------------------------------------------------------------

  datatype Event = TierArrives(id: string, rec: TierRecord) | GuardArrives(g: Guard)

  function Step(s: State, e: Event, max: int): State {
    match e
    case TierArrives(id, rec) => AfterTier(s, id, rec, max)
    case GuardArrives(g) => AfterGuard(s, g, max)
  }

  function Run(h: seq<Event>, max: int): State {
    if h == [] then START else Step(Run(h[..|h| - 1], max), h[|h| - 1], max)
  }

  // ----- with eviction -----------------------------------------------------------------------------

  ghost predicate NoRepeats(log: seq<nat>) {
    forall i, j :: 0 <= i < j < |log| ==> log[i] != log[j]
  }

  /** Markers, serials and the log tell the same story. */
  ghost predicate MarkersOk(s: State) {
    && NoRepeats(s.joinLog) && |s.joinLog| == s.joined
    && (forall i :: 0 <= i < |s.joinLog| ==> s.joinLog[i] < s.tierDecisions)
    && |s.accepted| == s.tierDecisions
    && (forall id :: id in s.tiers ==> s.tiers[id].serial < s.tierDecisions && s.accepted[s.tiers[id].serial] == id)
    && (forall id, other :: id in s.tiers && other in s.tiers && id != other ==> s.tiers[id].serial != s.tiers[other].serial)
    && (forall id :: id in s.tiers ==> (s.tiers[id].joined <==> s.tiers[id].serial in s.joinLog))
  }

  function Requests(perTier: map<string, Totals>): map<string, int> {
    map t | t in perTier :: perTier[t].requests
  }

  ghost predicate CountsOk(s: State) {
    && s.joined == Sum(Requests(s.perTier))
    && s.jevDecisions + s.fallbacks == s.tierDecisions
    && 0 <= s.cacheHits <= s.jevDecisions
  }

  lemma JoinKeepsMarkers(s: State, id: string)
    requires MarkersOk(s)
    ensures MarkersOk(AfterJoin(s, id))
  {
  }

  lemma WithTierKeepsMarkers(s: State, id: string, rec: TierRecord, max: int)
    requires MarkersOk(s)
    ensures MarkersOk(WithTier(s, id, rec, max))
  {
  }

  lemma JoinKeepsCounts(s: State, id: string)
    requires CountsOk(s)
    ensures CountsOk(AfterJoin(s, id))
  {
    var s' := AfterJoin(s, id);
    if s'.perTier != s.perTier {
      var tier := s.tiers[id].rec.tier;
      var before, after := Requests(s.perTier), Requests(s'.perTier);
      assert after - {tier} == before - {tier};
      SumRemove(after, tier);
      if tier in before {
        SumRemove(before, tier);
      } else {
        assert before - {tier} == before;
      }
    }
  }

  lemma StepIsSound(s: State, e: Event, max: int)
    requires MarkersOk(s) && CountsOk(s)
    ensures MarkersOk(Step(s, e, max)) && CountsOk(Step(s, e, max))
  {
    match e
    case TierArrives(id, rec) =>
      WithTierKeepsMarkers(s, id, rec, max);
      JoinKeepsMarkers(WithTier(s, id, rec, max), id);
      JoinKeepsCounts(WithTier(s, id, rec, max), id);
    case GuardArrives(g) =>
      JoinKeepsMarkers(WithGuard(s, g, max), g.requestId);
      JoinKeepsCounts(WithGuard(s, g, max), g.requestId);
  }

  lemma {:induction false} RunIsSound(h: seq<Event>, max: int)
    ensures MarkersOk(Run(h, max)) && CountsOk(Run(h, max))
  {
    if h != [] {
      RunIsSound(h[..|h| - 1], max);
      StepIsSound(Run(h[..|h| - 1], max), h[|h| - 1], max);
    }
  }

  /** A list of distinct numbers below `n` has at most `n` entries. */
  lemma {:induction false} PigeonHole(log: seq<nat>, n: nat)
    requires NoRepeats(log) && forall i :: 0 <= i < |log| ==> log[i] < n
    ensures |log| <= n
    decreases n
  {
    if log != [] {
      assert log[0] < n;
      if exists i :: 0 <= i < |log| && log[i] == n - 1 {
        var i :| 0 <= i < |log| && log[i] == n - 1;
        PigeonHole(log[..i] + log[i + 1..], n - 1);
      } else {
        PigeonHole(log, n - 1);
      }
    }
  }

  /**
   * For every history and every cap: no accepted decision joins twice, the joined count is
   * the sum of the per-tier requests, and every accepted decision is Jev's or a fallback.
   */
  lemma CountsAgreeUnderEviction(h: seq<Event>, max: int)
    ensures var s := Run(h, max);
            && NoRepeats(s.joinLog) && |s.joinLog| == s.joined <= s.tierDecisions
            && s.joined == Sum(Requests(s.perTier))
            && s.jevDecisions + s.fallbacks == s.tierDecisions && 0 <= s.cacheHits <= s.jevDecisions
  {
    RunIsSound(h, max);
    var s := Run(h, max);
    PigeonHole(s.joinLog, s.tierDecisions);
  }

  // ----- without eviction: the relational join of first records ----------------------------------------

  datatype Decision = Decision(id: string, rec: TierRecord)

  predicate Decided(ds: seq<Decision>, id: string) {
    exists i :: 0 <= i < |ds| && ds[i].id == id
  }

  /** The first decision of each request, in order of arrival. */
  function FirstDecisions(h: seq<Event>): seq<Decision> {
    if h == [] then []
    else
      var ds, e := FirstDecisions(h[..|h| - 1]), h[|h| - 1];
      if e.TierArrives? && !Decided(ds, e.id) then ds + [Decision(e.id, e.rec)] else ds
  }

  /** The first guardrail outcome of each request. */
  function FirstGuards(h: seq<Event>): map<string, Guard> {
    if h == [] then map[]
    else
      var gs, e := FirstGuards(h[..|h| - 1]), h[|h| - 1];
      if e.GuardArrives? && e.g.requestId !in gs then gs[e.g.requestId := e.g] else gs
  }

  /** What a decision adds to a tier in the join. */
  function Pair(d: Decision, gs: map<string, Guard>, tier: string): Totals {
    if d.rec.tier == tier && d.id in gs then Joined(d.rec, gs[d.id]) else ZERO
  }

  /** A tier's totals over the decisions that have an outcome. */
  function JoinOf(ds: seq<Decision>, gs: map<string, Guard>, tier: string): Totals {
    if ds == [] then ZERO else Plus(JoinOf(ds[..|ds| - 1], gs, tier), Pair(ds[|ds| - 1], gs, tier))
  }

  function JoinCount(ds: seq<Decision>, gs: map<string, Guard>): int {
    if ds == [] then 0 else JoinCount(ds[..|ds| - 1], gs) + if ds[|ds| - 1].id in gs then 1 else 0
  }

  ghost predicate DistinctDecisions(ds: seq<Decision>) {
    forall i, j :: 0 <= i < j < |ds| ==> ds[i].id != ds[j].id
  }

  /** The state holds exactly the first records, each decision joined when it has an outcome. */
  ghost predicate Stored(s: State, ds: seq<Decision>, gs: map<string, Guard>) {
    && s.guards == gs && |s.guardOrder| == |gs| && |s.tierOrder| == |ds|
    && DistinctDecisions(ds)
    && (forall id :: id in s.tiers ==> Decided(ds, id))
    && (forall i :: 0 <= i < |ds| ==>
          ds[i].id in s.tiers && s.tiers[ds[i].id].rec == ds[i].rec && (s.tiers[ds[i].id].joined <==> ds[i].id in gs))
  }

  predicate JoinsAt(s: State, ds: seq<Decision>, gs: map<string, Guard>, tier: string) {
    TotalsFor(s.perTier, tier) == JoinOf(ds, gs, tier)
  }

  ghost predicate Joins(s: State, ds: seq<Decision>, gs: map<string, Guard>) {
    s.joined == JoinCount(ds, gs) && forall tier :: JoinsAt(s, ds, gs, tier)
  }

  lemma JoinSnoc(ds: seq<Decision>, d: Decision, gs: map<string, Guard>, tier: string)
    ensures JoinOf(ds + [d], gs, tier) == Plus(JoinOf(ds, gs, tier), Pair(d, gs, tier))
    ensures JoinCount(ds + [d], gs) == JoinCount(ds, gs) + if d.id in gs then 1 else 0
  {
    assert (ds + [d])[..|ds|] == ds;
  }

  lemma PairUnaffected(d: Decision, gs: map<string, Guard>, g: Guard, tier: string)
    requires d.id != g.requestId
    ensures Pair(d, gs[g.requestId := g], tier) == Pair(d, gs, tier)
  {
  }

  lemma {:induction false} JoinUnaffected(ds: seq<Decision>, gs: map<string, Guard>, g: Guard, tier: string)
    requires forall d :: d in ds ==> d.id != g.requestId
    ensures JoinOf(ds, gs[g.requestId := g], tier) == JoinOf(ds, gs, tier)
    ensures JoinCount(ds, gs[g.requestId := g]) == JoinCount(ds, gs)
    decreases |ds|
  {
    if ds != [] {
      var init, last := ds[..|ds| - 1], ds[|ds| - 1];
      assert ds == init + [last];
      JoinUnaffected(init, gs, g, tier);
      PairUnaffected(last, gs, g, tier);
      JoinSnoc(init, last, gs, tier);
      JoinSnoc(init, last, gs[g.requestId := g], tier);
    }
  }

  lemma PlusSwap(a: Totals, b: Totals, c: Totals)
    ensures Plus(Plus(a, b), c) == Plus(Plus(a, c), b)
  {
  }

  lemma PlusZero(a: Totals)
    ensures Plus(a, ZERO) == a
  {
  }

  function Gain(rec: TierRecord, g: Guard, tier: string): Totals {
    if rec.tier == tier then Joined(rec, g) else ZERO
  }

  /** An outcome for a decided request adds exactly its pair. */
  lemma {:induction false} JoinGains(ds: seq<Decision>, gs: map<string, Guard>, g: Guard, i: nat, tier: string)
    requires g.requestId !in gs && DistinctDecisions(ds) && i < |ds| && ds[i].id == g.requestId
    ensures JoinOf(ds, gs[g.requestId := g], tier) == Plus(JoinOf(ds, gs, tier), Gain(ds[i].rec, g, tier))
    ensures JoinCount(ds, gs[g.requestId := g]) == JoinCount(ds, gs) + 1
    decreases |ds|
  {
    var init, last := ds[..|ds| - 1], ds[|ds| - 1];
    assert ds == init + [last];
    JoinSnoc(init, last, gs, tier);
    JoinSnoc(init, last, gs[g.requestId := g], tier);
    if i == |ds| - 1 {
      JoinUnaffected(init, gs, g, tier);
      PlusZero(JoinOf(init, gs, tier));
    } else {
      assert init[i] == ds[i];
      JoinGains(init, gs, g, i, tier);
      PlusSwap(JoinOf(init, gs, tier), Gain(ds[i].rec, g, tier), Pair(last, gs, tier));
    }
  }

  lemma TotalsAfter(perTier: map<string, Totals>, own: string, total: Totals, tier: string)
    ensures TotalsFor(perTier[own := total], tier) == if own == tier then total else TotalsFor(perTier, tier)
  {
  }

  lemma JoinWrites(s: State, id: string)
    requires id in s.tiers && id in s.guards && !s.tiers[id].joined
    ensures var own := s.tiers[id].rec.tier;
            && AfterJoin(s, id).joined == s.joined + 1
            && AfterJoin(s, id).perTier == s.perTier[own := Plus(TotalsFor(s.perTier, own), Joined(s.tiers[id].rec, s.guards[id]))]
  {
  }

  /** What joining changes in the counts. */
  lemma JoinEffect(s: State, id: string, tier: string)
    requires id in s.tiers && id in s.guards && !s.tiers[id].joined
    ensures AfterJoin(s, id).joined == s.joined + 1
    ensures TotalsFor(AfterJoin(s, id).perTier, tier)
         == Plus(TotalsFor(s.perTier, tier), Gain(s.tiers[id].rec, s.guards[id], tier))
  {
    var rec, g := s.tiers[id].rec, s.guards[id];
    var total := Plus(TotalsFor(s.perTier, rec.tier), Joined(rec, g));
    JoinWrites(s, id);
    TotalsAfter(s.perTier, rec.tier, total, tier);
    GainCases(s.perTier, rec, g, tier);
  }

  lemma GainCases(perTier: map<string, Totals>, rec: TierRecord, g: Guard, tier: string)
    ensures Plus(TotalsFor(perTier, tier), Gain(rec, g, tier))
         == if rec.tier == tier then Plus(TotalsFor(perTier, rec.tier), Joined(rec, g)) else TotalsFor(perTier, tier)
  {
    if rec.tier != tier {
      PlusZero(TotalsFor(perTier, tier));
    }
  }

  lemma TierIsStored(s: State, ds: seq<Decision>, gs: map<string, Guard>, id: string, rec: TierRecord, max: int)
    requires Stored(s, ds, gs) && |ds| < max && !Decided(ds, id)
    ensures id !in s.tiers && Stored(AfterTier(s, id, rec, max), ds + [Decision(id, rec)], gs)
  {
    var ds', s' := ds + [Decision(id, rec)], AfterTier(s, id, rec, max);
    forall other | other in s'.tiers ensures Decided(ds', other) {
      if other == id {
        assert ds'[|ds|].id == id;
      } else {
        var i :| 0 <= i < |ds| && ds[i].id == other;
        assert ds'[i].id == other;
      }
    }
  }

  lemma TierJoinsAt(s: State, ds: seq<Decision>, gs: map<string, Guard>, id: string, rec: TierRecord, max: int, tier: string)
    requires s.guards == gs && id !in s.tiers && s.joined == JoinCount(ds, gs) && JoinsAt(s, ds, gs, tier)
    ensures var s', ds' := AfterTier(s, id, rec, max), ds + [Decision(id, rec)];
            s'.joined == JoinCount(ds', gs) && JoinsAt(s', ds', gs, tier)
  {
    var d, s1 := Decision(id, rec), WithTier(s, id, rec, max);
    JoinSnoc(ds, d, gs, tier);
    if id in gs {
      JoinEffect(s1, id, tier);
    } else {
      PlusZero(JoinOf(ds, gs, tier));
    }
  }

  lemma TierJoins(s: State, ds: seq<Decision>, gs: map<string, Guard>, id: string, rec: TierRecord, max: int)
    requires Stored(s, ds, gs) && Joins(s, ds, gs) && !Decided(ds, id)
    ensures Joins(AfterTier(s, id, rec, max), ds + [Decision(id, rec)], gs)
  {
    forall tier ensures JoinsAt(AfterTier(s, id, rec, max), ds + [Decision(id, rec)], gs, tier) {
      TierJoinsAt(s, ds, gs, id, rec, max, tier);
    }
    TierJoinsAt(s, ds, gs, id, rec, max, "");
  }

  lemma GuardIsStored(s: State, ds: seq<Decision>, gs: map<string, Guard>, g: Guard, max: int)
    requires Stored(s, ds, gs) && |gs| < max && g.requestId !in gs
    ensures Stored(AfterGuard(s, g, max), ds, gs[g.requestId := g])
  {
    assert WithGuard(s, g, max).guards == gs[g.requestId := g];
  }

  /** An outcome that comes before its decision, or without one, joins nothing. */
  lemma EarlyGuardAt(s: State, ds: seq<Decision>, gs: map<string, Guard>, g: Guard, max: int, tier: string)
    requires s.guards == gs && g.requestId !in gs && g.requestId !in s.tiers && !Decided(ds, g.requestId)
    requires s.joined == JoinCount(ds, gs) && JoinsAt(s, ds, gs, tier)
    ensures var s', gs' := AfterGuard(s, g, max), gs[g.requestId := g];
            s'.joined == JoinCount(ds, gs') && JoinsAt(s', ds, gs', tier)
  {
    JoinUnaffected(ds, gs, g, tier);
  }

  /** An outcome for a stored decision joins it. */
  lemma LateGuardAt(s: State, ds: seq<Decision>, gs: map<string, Guard>, g: Guard, max: int, i: nat, tier: string)
    requires g.requestId !in s.guards && g.requestId !in gs && g.requestId in s.tiers && !s.tiers[g.requestId].joined
    requires DistinctDecisions(ds) && i < |ds| && ds[i].id == g.requestId && s.tiers[g.requestId].rec == ds[i].rec
    requires s.joined == JoinCount(ds, gs) && JoinsAt(s, ds, gs, tier)
    ensures AfterGuard(s, g, max).joined == JoinCount(ds, gs[g.requestId := g])
    ensures JoinsAt(AfterGuard(s, g, max), ds, gs[g.requestId := g], tier)
  {
    var gain, before := Gain(ds[i].rec, g, tier), JoinOf(ds, gs, tier);
    assert JoinOf(ds, gs[g.requestId := g], tier) == Plus(before, gain) by {
      JoinGains(ds, gs, g, i, tier);
    }
    assert JoinCount(ds, gs[g.requestId := g]) == s.joined + 1 by {
      JoinGains(ds, gs, g, i, tier);
    }
    assert TotalsFor(AfterGuard(s, g, max).perTier, tier) == Plus(before, gain) by {
      GuardEffect(s, g, max, tier);
    }
    GuardEffect(s, g, max, tier);
  }

  lemma GuardEffect(s: State, g: Guard, max: int, tier: string)
    requires g.requestId !in s.guards && g.requestId in s.tiers && !s.tiers[g.requestId].joined
    ensures AfterGuard(s, g, max).joined == s.joined + 1
    ensures TotalsFor(AfterGuard(s, g, max).perTier, tier)
         == Plus(TotalsFor(s.perTier, tier), Gain(s.tiers[g.requestId].rec, g, tier))
  {
    var s1 := WithGuard(s, g, max);
    assert s1.guards[g.requestId] == g && s1.tiers == s.tiers && s1.perTier == s.perTier && s1.joined == s.joined;
    JoinEffect(s1, g.requestId, tier);
  }

  lemma GuardJoins(s: State, ds: seq<Decision>, gs: map<string, Guard>, g: Guard, max: int)
    requires Stored(s, ds, gs) && Joins(s, ds, gs) && g.requestId !in gs
    ensures Joins(AfterGuard(s, g, max), ds, gs[g.requestId := g])
  {
    var s', gs' := AfterGuard(s, g, max), gs[g.requestId := g];
    forall tier ensures s'.joined == JoinCount(ds, gs') && JoinsAt(s', ds, gs', tier) {
      if Decided(ds, g.requestId) {
        var i: nat :| i < |ds| && ds[i].id == g.requestId;
        LateGuardAt(s, ds, gs, g, max, i, tier);
      } else {
        EarlyGuardAt(s, ds, gs, g, max, tier);
      }
    }
    assert JoinsAt(s', ds, gs', "");
  }

  /**
   * Without eviction, for every arrival order with any duplicates: the joined count and
   * every tier's totals are those of the relational join of the first records per request.
   */
  lemma {:induction false} NoEvictionIsRelationalJoin(h: seq<Event>, max: int)
    requires |FirstDecisions(h)| <= max && |FirstGuards(h)| <= max
    ensures Stored(Run(h, max), FirstDecisions(h), FirstGuards(h))
    ensures Joins(Run(h, max), FirstDecisions(h), FirstGuards(h))
  {
    if h != [] {
      var init, e := h[..|h| - 1], h[|h| - 1];
      var s, ds, gs := Run(init, max), FirstDecisions(init), FirstGuards(init);
      NoEvictionIsRelationalJoin(init, max);
      match e
      case TierArrives(id, rec) =>
        if !Decided(ds, id) {
          TierIsStored(s, ds, gs, id, rec, max);
          TierJoins(s, ds, gs, id, rec, max);
        }
      case GuardArrives(g) =>
        if g.requestId !in gs {
          GuardIsStored(s, ds, gs, g, max);
          GuardJoins(s, ds, gs, g, max);
        }
    }
  }

  // ----- the join, field by field -----------------------------------------------------------------

  function Reals(ds: seq<Decision>, f: Decision -> real): real {
    if ds == [] then 0.0 else Reals(ds[..|ds| - 1], f) + f(ds[|ds| - 1])
  }

  function Count(ds: seq<Decision>, p: Decision -> bool): int {
    if ds == [] then 0 else Count(ds[..|ds| - 1], p) + if p(ds[|ds| - 1]) then 1 else 0
  }

  /** Decisions for a tier that have an outcome. */
  function Matched(gs: map<string, Guard>, tier: string): Decision -> bool {
    (d: Decision) => d.rec.tier == tier && d.id in gs
  }

  function MatchedFlagged(gs: map<string, Guard>, tier: string): Decision -> bool {
    (d: Decision) => d.rec.tier == tier && d.id in gs && gs[d.id].flagged
  }

  function MatchedConfident(gs: map<string, Guard>, tier: string): Decision -> bool {
    (d: Decision) => d.rec.tier == tier && d.id in gs && d.rec.confidence.Some?
  }

  function Qualities(gs: map<string, Guard>, tier: string): Decision -> real {
    (d: Decision) => if d.rec.tier == tier && d.id in gs && gs[d.id].quality.Some? then gs[d.id].quality.value else 0.0
  }

  function Confidences(gs: map<string, Guard>, tier: string): Decision -> real {
    (d: Decision) => if d.rec.tier == tier && d.id in gs && d.rec.confidence.Some? then d.rec.confidence.value else 0.0
  }

  lemma PairByField(d: Decision, gs: map<string, Guard>, tier: string)
    ensures Pair(d, gs, tier)
         == Totals(if Matched(gs, tier)(d) then 1 else 0, Qualities(gs, tier)(d), if MatchedFlagged(gs, tier)(d) then 1 else 0,
                   Confidences(gs, tier)(d), if MatchedConfident(gs, tier)(d) then 1 else 0)
  {
  }

  /** A tier's totals: how many pairs, how many flagged and with confidence, and what those sum to. */
  predicate FieldsOf(t: Totals, ds: seq<Decision>, gs: map<string, Guard>, tier: string) {
    && t.requests == Count(ds, Matched(gs, tier)) && t.quality == Reals(ds, Qualities(gs, tier))
    && t.flagged == Count(ds, MatchedFlagged(gs, tier))
    && t.confidence == Reals(ds, Confidences(gs, tier)) && t.confidenceN == Count(ds, MatchedConfident(gs, tier))
  }

  lemma CountSnoc(ds: seq<Decision>, d: Decision, p: Decision -> bool)
    ensures Count(ds + [d], p) == Count(ds, p) + if p(d) then 1 else 0
  {
    assert (ds + [d])[..|ds|] == ds;
  }

  lemma RealsSnoc(ds: seq<Decision>, d: Decision, f: Decision -> real)
    ensures Reals(ds + [d], f) == Reals(ds, f) + f(d)
  {
    assert (ds + [d])[..|ds|] == ds;
  }

  lemma FieldsStep(t: Totals, ds: seq<Decision>, d: Decision, gs: map<string, Guard>, tier: string)
    requires FieldsOf(t, ds, gs, tier)
    ensures FieldsOf(Plus(t, Pair(d, gs, tier)), ds + [d], gs, tier)
  {
    PairByField(d, gs, tier);
    CountSnoc(ds, d, Matched(gs, tier));
    CountSnoc(ds, d, MatchedFlagged(gs, tier));
    CountSnoc(ds, d, MatchedConfident(gs, tier));
    RealsSnoc(ds, d, Qualities(gs, tier));
    RealsSnoc(ds, d, Confidences(gs, tier));
  }

  lemma {:induction false} JoinByField(ds: seq<Decision>, gs: map<string, Guard>, tier: string)
    ensures FieldsOf(JoinOf(ds, gs, tier), ds, gs, tier)
  {
    if ds != [] {
      var init, d := ds[..|ds| - 1], ds[|ds| - 1];
      JoinByField(init, gs, tier);
      FieldsStep(JoinOf(init, gs, tier), init, d, gs, tier);
      assert ds == init + [d];
    }
  }

  /** A decision by Jev, one of those from its cache, or a fallback. */
  function IsJev(): Decision -> bool {
    (d: Decision) => d.rec.byJev
  }

  function IsCacheHit(): Decision -> bool {
    (d: Decision) => d.rec.byJev && d.rec.cached
  }

  function IsFallback(): Decision -> bool {
    (d: Decision) => !d.rec.byJev
  }

  lemma JoinKeepsSources(s: State, id: string)
    ensures var s' := AfterJoin(s, id);
            s'.jevDecisions == s.jevDecisions && s'.cacheHits == s.cacheHits && s'.fallbacks == s.fallbacks && s'.tierDecisions == s.tierDecisions
  {
  }

  /** Without eviction the source counters count the first decisions of their kind. */
  lemma {:induction false} SourcesAreCounted(h: seq<Event>, max: int)
    requires |FirstDecisions(h)| <= max && |FirstGuards(h)| <= max
    ensures var s, ds := Run(h, max), FirstDecisions(h);
            && s.tierDecisions == |ds| && s.jevDecisions == Count(ds, IsJev())
            && s.cacheHits == Count(ds, IsCacheHit()) && s.fallbacks == Count(ds, IsFallback())
  {
    if h != [] {
      var init, e := h[..|h| - 1], h[|h| - 1];
      var s, ds := Run(init, max), FirstDecisions(init);
      SourcesAreCounted(init, max);
      NoEvictionIsRelationalJoin(init, max);
      match e
      case TierArrives(id, rec) =>
        JoinKeepsSources(WithTier(s, id, rec, max), id);
        CountSnoc(ds, Decision(id, rec), IsJev());
        CountSnoc(ds, Decision(id, rec), IsCacheHit());
        CountSnoc(ds, Decision(id, rec), IsFallback());
      case GuardArrives(g) =>
        JoinKeepsSources(WithGuard(s, g, max), g.requestId);
    }
  }

  lemma RunSnoc(h: seq<Event>, e: Event, max: int)
    ensures Run(h + [e], max) == Step(Run(h, max), e, max)
  {
    assert (h + [e])[..|h|] == h;
  }
}
