/**
 * How often one request joins when entries are evicted.
 *
 * A request joins again only when its decision is accepted again, and a decision is accepted
 * again exactly when its entry has been evicted. So the number of joins is bounded by the
 * number of acceptances, whatever the outcomes do, and no smaller bound is right.
 */
module DecisionJoins {
  import opened Wrappers
  import opened Sequences
  import opened DecisionFeedback

  /** How often an id was accepted. */
  function Acceptances(accepted: seq<string>, id: string): nat {
    if accepted == [] then 0
    else Acceptances(accepted[..|accepted| - 1], id) + if accepted[|accepted| - 1] == id then 1 else 0
  }

  /** How many of the logged serials belong to an id. */
  function JoinsIn(log: seq<nat>, accepted: seq<string>, id: string): nat {
    if log == [] then 0
    else
      var serial := log[|log| - 1];
      JoinsIn(log[..|log| - 1], accepted, id) + if serial < |accepted| && accepted[serial] == id then 1 else 0
  }

  function TimesJoined(s: State, id: string): nat {
    JoinsIn(s.joinLog, s.accepted, id)
  }

  // ----- one step -----------------------------------------------------------------------------

  /** An event makes a request join: by its decision, or by its outcome. */
  predicate MakesJoin(s: State, e: Event, id: string) {
    match e
    case TierArrives(x, _) => x == id && id !in s.tiers && id in s.guards
    case GuardArrives(g) => g.requestId == id && id !in s.guards && id in s.tiers && !s.tiers[id].joined
  }

  lemma {:induction false} JoinsInLonger(log: seq<nat>, accepted: seq<string>, more: string, id: string)
    requires forall i :: 0 <= i < |log| ==> log[i] < |accepted|
    ensures JoinsIn(log, accepted + [more], id) == JoinsIn(log, accepted, id)
  {
    if log != [] {
      JoinsInLonger(log[..|log| - 1], accepted, more, id);
    }
  }

  lemma JoinsInSnoc(log: seq<nat>, accepted: seq<string>, serial: nat, id: string)
    ensures JoinsIn(log + [serial], accepted, id)
         == JoinsIn(log, accepted, id) + if serial < |accepted| && accepted[serial] == id then 1 else 0
  {
    assert (log + [serial])[..|log|] == log;
  }

  /** Joining adds one to the request that joins, and to no other. */
  lemma JoinAddsOne(s: State, x: string, id: string)
    requires MarkersOk(s)
    ensures TimesJoined(AfterJoin(s, x), id)
         == TimesJoined(s, id) + if x == id && id in s.tiers && id in s.guards && !s.tiers[id].joined then 1 else 0
  {
    if x in s.tiers && x in s.guards && !s.tiers[x].joined {
      JoinsInSnoc(s.joinLog, s.accepted, s.tiers[x].serial, id);
    }
  }

  /** For every event: a request joins at this step exactly when the event makes it join. */
  lemma StepJoinsExactly(s: State, e: Event, max: int, id: string)
    requires MarkersOk(s)
    ensures TimesJoined(Step(s, e, max), id) == TimesJoined(s, id) + if MakesJoin(s, e, id) then 1 else 0
  {
    match e
    case TierArrives(x, rec) =>
      if x !in s.tiers {
        WithTierKeepsMarkers(s, x, rec, max);
        JoinsInLonger(s.joinLog, s.accepted, x, id);
        JoinAddsOne(WithTier(s, x, rec, max), x, id);
      }
    case GuardArrives(g) =>
      if g.requestId !in s.guards {
        JoinAddsOne(WithGuard(s, g, max), g.requestId, id);
      }
  }

  /** The event at place `k` makes a request join that has joined before. */
  predicate RejoinsAt(h: seq<Event>, max: int, id: string, k: nat)
    requires k < |h|
  {
    TimesJoined(Run(h[..k], max), id) >= 1 && MakesJoin(Run(h[..k], max), h[k], id)
  }

  lemma RejoinsAtPrefix(h: seq<Event>, max: int, id: string, k: nat)
    requires k < |h| - 1
    ensures RejoinsAt(h, max, id, k) == RejoinsAt(h[..|h| - 1], max, id, k)
  {
    assert h[..|h| - 1][..k] == h[..k];
  }

  ghost predicate Rejoins(h: seq<Event>, max: int, id: string) {
    exists k :: 0 <= k < |h| && RejoinsAt(h, max, id, k)
  }

  lemma RejoinsLonger(h: seq<Event>, max: int, id: string)
    requires h != [] && Rejoins(h[..|h| - 1], max, id)
    ensures Rejoins(h, max, id)
  {
    var k :| 0 <= k < |h| - 1 && RejoinsAt(h[..|h| - 1], max, id, k);
    RejoinsAtPrefix(h, max, id, k);
  }

  lemma RejoinsShorter(h: seq<Event>, max: int, id: string)
    requires h != [] && Rejoins(h, max, id) && !RejoinsAt(h, max, id, |h| - 1)
    ensures Rejoins(h[..|h| - 1], max, id)
  {
    var k :| 0 <= k < |h| && RejoinsAt(h, max, id, k);
    RejoinsAtPrefix(h, max, id, k);
  }

  lemma RejoinsStep(h: seq<Event>, max: int, id: string)
    requires h != []
    ensures Rejoins(h, max, id) <==> Rejoins(h[..|h| - 1], max, id) || RejoinsAt(h, max, id, |h| - 1)
  {
    if Rejoins(h[..|h| - 1], max, id) {
      RejoinsLonger(h, max, id);
    } else if Rejoins(h, max, id) && !RejoinsAt(h, max, id, |h| - 1) {
      RejoinsShorter(h, max, id);
    }
  }

  /** For every history and cap: a request joins more than once exactly when some event makes it rejoin. */
  lemma {:induction false} JoinsTwiceExactlyWhenRejoined(h: seq<Event>, max: int, id: string)
    ensures TimesJoined(Run(h, max), id) >= 2 <==> Rejoins(h, max, id)
  {
    if h != [] {
      var init, e := h[..|h| - 1], h[|h| - 1];
      var s := Run(init, max);
      JoinsTwiceExactlyWhenRejoined(init, max, id);
      RunIsSound(init, max);
      StepJoinsExactly(s, e, max, id);
      RejoinsStep(h, max, id);
      assert Run(h, max) == Step(s, e, max);
    }
  }

  // ----- joins and acceptances ----------------------------------------------------------------

  lemma AcceptancesSnoc(accepted: seq<string>, x: string, id: string)
    ensures Acceptances(accepted + [x], id) == Acceptances(accepted, id) + if x == id then 1 else 0
  {
    assert (accepted + [x])[..|accepted|] == accepted;
  }

  /** A stored decision that has not joined yet. */
  function Pending(s: State, id: string): nat {
    if id in s.tiers && !s.tiers[id].joined then 1 else 0
  }

  /** Every join, and every decision that may still join, was accepted. */
  predicate Covered(s: State, id: string) {
    TimesJoined(s, id) + Pending(s, id) <= Acceptances(s.accepted, id)
  }

  lemma AcceptingAdds(s: State, x: string, rec: TierRecord, max: int, id: string)
    ensures Acceptances(AfterTier(s, x, rec, max).accepted, id)
         == Acceptances(s.accepted, id) + if x == id && id !in s.tiers then 1 else 0
  {
    AcceptancesSnoc(s.accepted, x, id);
  }

  /** A decision becomes pending when it is accepted without an outcome, and stops when it joins. */
  lemma TierPending(s: State, x: string, rec: TierRecord, max: int, id: string)
    ensures Pending(AfterTier(s, x, rec, max), id)
         <= if x == id && id !in s.tiers then (if id in s.guards then 0 else 1) else Pending(s, id)
  {
    if x !in s.tiers {
      var s1 := WithTier(s, x, rec, max);
      assert s1.guards == s.guards;
      assert x != id ==> (id in s1.tiers ==> id in s.tiers && s1.tiers[id] == s.tiers[id]);
      assert AfterJoin(s1, x).tiers == s1.tiers || AfterJoin(s1, x).tiers == s1.tiers[x := s1.tiers[x].(joined := true)];
    }
  }

  lemma GuardPending(s: State, g: Guard, max: int, id: string)
    ensures Pending(AfterGuard(s, g, max), id) == if MakesJoin(s, GuardArrives(g), id) then 0 else Pending(s, id)
  {
  }

  lemma StepKeepsCovered(s: State, e: Event, max: int, id: string)
    requires MarkersOk(s) && Covered(s, id)
    ensures Covered(Step(s, e, max), id)
  {
    var s' := Step(s, e, max);
    assert TimesJoined(s', id) == TimesJoined(s, id) + if MakesJoin(s, e, id) then 1 else 0 by {
      StepJoinsExactly(s, e, max, id);
    }
    match e
    case TierArrives(x, rec) =>
      AcceptingAdds(s, x, rec, max, id);
      TierPending(s, x, rec, max, id);
    case GuardArrives(g) =>
      assert s'.accepted == s.accepted;
      GuardPending(s, g, max, id);
  }

  /** For every history and cap: no request joins more often than its decision was accepted. */
  lemma {:induction false} JoinsAtMostAccepted(h: seq<Event>, max: int, id: string)
    ensures Covered(Run(h, max), id)
  {
    if h != [] {
      JoinsAtMostAccepted(h[..|h| - 1], max, id);
      RunIsSound(h[..|h| - 1], max);
      StepKeepsCovered(Run(h[..|h| - 1], max), h[|h| - 1], max, id);
    }
  }

  /** The decisions of a history, without the outcomes. */
  function DecisionsOf(h: seq<Event>): seq<Event> {
    if h == [] then []
    else DecisionsOf(h[..|h| - 1]) + if h[|h| - 1].TierArrives? then [h[|h| - 1]] else []
  }

  predicate SameStore(s: State, t: State) {
    s.accepted == t.accepted && s.tierOrder == t.tierOrder && s.tiers.Keys == t.tiers.Keys
  }

  lemma JoinKeepsStore(s: State, id: string)
    ensures SameStore(AfterJoin(s, id), s)
  {
  }

  lemma TierKeepsStoresAlike(s: State, t: State, id: string, rec: TierRecord, max: int)
    requires SameStore(s, t)
    ensures SameStore(AfterTier(s, id, rec, max), AfterTier(t, id, rec, max))
  {
    if id !in s.tiers {
      var s1, t1 := WithTier(s, id, rec, max), WithTier(t, id, rec, max);
      assert s1.tiers.Keys == t1.tiers.Keys;
      JoinKeepsStore(s1, id);
      JoinKeepsStore(t1, id);
    }
  }

  /** Outcomes do not influence which decisions are accepted and stored. */
  lemma {:induction false} OutcomesDoNotDecide(h: seq<Event>, max: int)
    ensures SameStore(Run(h, max), Run(DecisionsOf(h), max))
  {
    if h != [] {
      var init, e := h[..|h| - 1], h[|h| - 1];
      var s, d := Run(init, max), DecisionsOf(init);
      OutcomesDoNotDecide(init, max);
      match e
      case TierArrives(id, rec) =>
        assert (d + [e])[..|d|] == d;
        TierKeepsStoresAlike(s, Run(d, max), id, rec, max);
      case GuardArrives(g) =>
        assert d + [] == d;
        JoinKeepsStore(WithGuard(s, g, max), g.requestId);
    }
  }

  predicate AllDecisions(d: seq<Event>) {
    forall e :: e in d ==> e.TierArrives?
  }

  /** The outcome of one request first, then decisions only. */
  function OutcomeFirst(g: Guard, d: seq<Event>): seq<Event> {
    [GuardArrives(g)] + d
  }

  lemma {:induction false} DecisionsAfterOutcome(g: Guard, d: seq<Event>)
    requires AllDecisions(d)
    ensures DecisionsOf(OutcomeFirst(g, d)) == d
  {
    var h := OutcomeFirst(g, d);
    if d == [] {
      assert h == [GuardArrives(g)] && h[..0] == [];
    } else {
      assert h[..|h| - 1] == OutcomeFirst(g, d[..|d| - 1]) && h[|h| - 1] == d[|d| - 1];
      assert h[|h| - 1] in d;
      DecisionsAfterOutcome(g, d[..|d| - 1]);
    }
  }

  /** A state that knows one outcome only, and in which that request joined at every acceptance. */
  predicate JoinedAlways(s: State, g: Guard) {
    && s.guards == map[g.requestId := g]
    && TimesJoined(s, g.requestId) == Acceptances(s.accepted, g.requestId)
  }

  lemma TierJoinsAlways(s: State, g: Guard, x: string, rec: TierRecord, max: int)
    requires MarkersOk(s) && JoinedAlways(s, g)
    ensures JoinedAlways(AfterTier(s, x, rec, max), g)
  {
    StepJoinsExactly(s, TierArrives(x, rec), max, g.requestId);
    AcceptancesSnoc(s.accepted, x, g.requestId);
  }

  lemma {:induction false} OutcomeFirstJoinsAlways(g: Guard, d: seq<Event>, max: int)
    requires AllDecisions(d)
    ensures JoinedAlways(Run(OutcomeFirst(g, d), max), g)
  {
    var h := OutcomeFirst(g, d);
    if d == [] {
      assert h == [GuardArrives(g)] && h[..0] == [];
      assert Run(h, max) == Step(START, GuardArrives(g), max);
      assert Run(h, max).guards == map[g.requestId := g];
    } else {
      var init, e := OutcomeFirst(g, d[..|d| - 1]), d[|d| - 1];
      assert h[..|h| - 1] == init && h[|h| - 1] == e && e in d;
      OutcomeFirstJoinsAlways(g, d[..|d| - 1], max);
      RunIsSound(init, max);
      TierJoinsAlways(Run(init, max), g, e.id, e.rec, max);
    }
  }

  /** Whatever outcomes come in between, the request joins at most `n` times. */
  ghost predicate JoinsAtMost(d: seq<Event>, max: int, id: string, n: nat) {
    forall h :: DecisionsOf(h) == d ==> TimesJoined(Run(h, max), id) <= n
  }

  /**
   * How often a request can join is decided by the decisions alone: for every list of
   * decisions, every cap and every bound, the bound holds for all outcomes in all
   * interleavings if and only if the request's decision is accepted no more often than that.
   */
  lemma JoinsAreBoundedExactlyByAcceptances(d: seq<Event>, max: int, id: string, n: nat)
    requires AllDecisions(d)
    ensures JoinsAtMost(d, max, id, n) <==> Acceptances(Run(d, max).accepted, id) <= n
  {
    if Acceptances(Run(d, max).accepted, id) <= n {
      forall h | DecisionsOf(h) == d ensures TimesJoined(Run(h, max), id) <= n {
        JoinsAtMostAccepted(h, max, id);
        OutcomesDoNotDecide(h, max);
      }
    } else {
      var g := Guard(id, None, false);
      DecisionsAfterOutcome(g, d);
      OutcomesDoNotDecide(OutcomeFirst(g, d), max);
      OutcomeFirstJoinsAlways(g, d, max);
    }
  }

  // ----- when a decision is accepted again ----------------------------------------------------

  /** How many decisions are stored at most: a cap below one still keeps the newest. */
  function Cap(max: int): nat {
    if max < 1 then 1 else max
  }

  /** The store holds the newest acceptances, and within its reach none repeats. */
  ghost predicate Fifo(s: State, max: int) {
    && s.tierOrder == TakeLast(s.accepted, Cap(max))
    && (forall id :: id in s.tiers <==> id in s.tierOrder)
    && (forall a, b :: 0 <= a < b < |s.accepted| && b - a <= Cap(max) ==> s.accepted[a] != s.accepted[b])
  }

  lemma TakeLastSnoc(accepted: seq<string>, x: string, cap: nat)
    requires cap >= 1
    ensures TakeLast(accepted + [x], cap)
         == (if |accepted| >= cap then TakeLast(accepted, cap)[1..] else accepted) + [x]
  {
    var all := accepted + [x];
    if |accepted| >= cap {
      assert TakeLast(all, cap) == all[|all| - cap..];
    }
  }

  lemma AtTheEnd(accepted: seq<string>, cap: nat, a: nat)
    requires a < |accepted| && |accepted| - a <= cap
    ensures accepted[a] in TakeLast(accepted, cap)
  {
    var last := TakeLast(accepted, cap);
    assert last[|last| - (|accepted| - a)] == accepted[a];
  }

  lemma EvictedOrder(s: State, id: string, max: int)
    requires Fifo(s, max)
    ensures Evicted(s.tiers, s.tierOrder, max).1 + [id] == TakeLast(s.accepted + [id], Cap(max))
  {
    TakeLastSnoc(s.accepted, id, Cap(max));
  }

  lemma TailMember(order: seq<string>, x: string)
    requires order != [] && forall i :: 1 <= i < |order| ==> order[i] != order[0]
    ensures x in order[1..] <==> x in order && x != order[0]
  {
    assert order == [order[0]] + order[1..];
  }

  lemma OldestOnce(s: State, max: int)
    requires Fifo(s, max)
    ensures forall i :: 1 <= i < |s.tierOrder| ==> s.tierOrder[i] != s.tierOrder[0]
  {
    var order, n := s.tierOrder, |s.accepted|;
    forall i | 1 <= i < |order| ensures order[i] != order[0] {
      assert order[i] == s.accepted[n - |order| + i] && order[0] == s.accepted[n - |order|];
    }
  }

  lemma EvictedKeys(s: State, max: int, x: string)
    requires Fifo(s, max)
    ensures var (tiers, order) := Evicted(s.tiers, s.tierOrder, max); x in tiers <==> x in order
  {
    if s.tierOrder != [] {
      OldestOnce(s, max);
      TailMember(s.tierOrder, x);
    }
  }

  lemma WithTierKeepsFifo(s: State, id: string, rec: TierRecord, max: int)
    requires Fifo(s, max) && id !in s.tiers
    ensures Fifo(WithTier(s, id, rec, max), max)
  {
    var s', order := WithTier(s, id, rec, max), Evicted(s.tiers, s.tierOrder, max).1;
    EvictedOrder(s, id, max);
    forall x ensures x in s'.tiers <==> x in s'.tierOrder {
      EvictedKeys(s, max, x);
    }
    forall a, b | 0 <= a < b < |s'.accepted| && b - a <= Cap(max) ensures s'.accepted[a] != s'.accepted[b] {
      if b == |s.accepted| {
        AtTheEnd(s.accepted, Cap(max), a);
      }
    }
  }

  lemma SameStoreKeepsFifo(s: State, t: State, max: int)
    requires SameStore(s, t) && Fifo(s, max)
    ensures Fifo(t, max)
  {
    assert forall id :: id in s.tiers <==> id in s.tiers.Keys;
    assert forall id :: id in t.tiers <==> id in t.tiers.Keys;
  }

  lemma {:induction false} RunIsFifo(h: seq<Event>, max: int)
    ensures Fifo(Run(h, max), max)
  {
    if h != [] {
      var s, e := Run(h[..|h| - 1], max), h[|h| - 1];
      RunIsFifo(h[..|h| - 1], max);
      match e
      case TierArrives(id, rec) =>
        if id !in s.tiers {
          WithTierKeepsFifo(s, id, rec, max);
          var s1 := WithTier(s, id, rec, max);
          JoinKeepsStore(s1, id);
          SameStoreKeepsFifo(s1, AfterJoin(s1, id), max);
        }
      case GuardArrives(g) =>
        var s1 := WithGuard(s, g, max);
        JoinKeepsStore(s1, g.requestId);
        SameStoreKeepsFifo(s, Step(s, e, max), max);
    }
  }

  /**
   * For every history and cap: a decision is stored exactly when it is among the newest
   * acceptances. So a record of a known request is accepted again exactly when at least
   * that many others were accepted since.
   */
  lemma StoredExactlyWhenAmongNewest(h: seq<Event>, max: int, id: string)
    ensures id in Run(h, max).tiers <==> id in TakeLast(Run(h, max).accepted, Cap(max))
  {
    RunIsFifo(h, max);
  }

  // ----- histories in which a request stays recent --------------------------------------------

  /** The other requests with a decision strictly between two places of a history. */
  function OthersBetween(h: seq<Event>, i: nat, j: nat, id: string): set<string>
    requires j <= |h|
  {
    set k | i < k < j && h[k].TierArrives? && h[k].id != id :: h[k].id
  }

  /** Between any two decisions of the request there are fewer than `n` other requests. */
  ghost predicate Spaced(h: seq<Event>, n: nat, id: string) {
    forall i, j :: 0 <= i < j < |h| && h[i].TierArrives? && h[i].id == id && h[j].TierArrives? && h[j].id == id ==>
      |OthersBetween(h, i, j, id)| < n
  }

  lemma AcceptedGrows(s: State, e: Event, max: int)
    ensures var after := Step(s, e, max).accepted;
            after == s.accepted || (e.TierArrives? && after == s.accepted + [e.id])
  {
  }

  /** The place in a history where the `p`-th accepted decision arrived. */
  lemma {:induction false} AcceptedAt(h: seq<Event>, max: int, p: nat) returns (i: nat)
    requires p < |Run(h, max).accepted|
    ensures i < |h| && h[i].TierArrives? && h[i].id == Run(h, max).accepted[p]
    ensures |Run(h[..i], max).accepted| == p
  {
    var init, e := h[..|h| - 1], h[|h| - 1];
    AcceptedGrows(Run(init, max), e, max);
    if p < |Run(init, max).accepted| {
      i := AcceptedAt(init, max, p);
      assert init[..i] == h[..i];
    } else {
      i := |h| - 1;
    }
  }

  lemma AcceptedGrowsAt(h: seq<Event>, max: int, j: nat)
    requires j < |h|
    ensures |Run(h[..j], max).accepted| <= |Run(h[..j + 1], max).accepted|
  {
    assert h[..j + 1][..j] == h[..j];
    AcceptedGrows(Run(h[..j], max), h[j], max);
  }

  lemma {:induction false} AcceptedNeverShrinks(h: seq<Event>, max: int, i: nat, j: nat)
    requires i <= j <= |h|
    ensures |Run(h[..i], max).accepted| <= |Run(h[..j], max).accepted|
    decreases j - i
  {
    if i < j {
      AcceptedGrowsAt(h, max, i);
      AcceptedNeverShrinks(h, max, i + 1, j);
    }
  }

  function Names(w: seq<string>): set<string> {
    set i | 0 <= i < |w| :: w[i]
  }

  lemma {:induction false} DistinctNames(w: seq<string>)
    requires forall i, j :: 0 <= i < j < |w| ==> w[i] != w[j]
    ensures |Names(w)| == |w|
  {
    if w != [] {
      var init, last := w[..|w| - 1], w[|w| - 1];
      DistinctNames(init);
      assert Names(w) == Names(init) + {last} by {
        assert forall i :: 0 <= i < |init| ==> init[i] == w[i];
      }
      assert last !in Names(init);
    }
  }

  lemma SubsetIsSmaller(a: set<string>, b: set<string>)
    requires a <= b
    ensures |a| <= |b|
  {
    assert b == a + (b - a);
  }

  lemma {:induction false} SomeAcceptance(accepted: seq<string>, id: string) returns (p: nat)
    requires Acceptances(accepted, id) > 0
    ensures p < |accepted| && accepted[p] == id
  {
    if accepted[|accepted| - 1] == id {
      p := |accepted| - 1;
    } else {
      p := SomeAcceptance(accepted[..|accepted| - 1], id);
    }
  }

  /** The acceptances that pushed a decision out came from that many different other requests. */
  lemma PushedOutByOthers(h: seq<Event>, max: int, p: nat, i: nat, q: nat)
    requires Fifo(Run(h, max), max)
    requires p < q < |Run(h, max).accepted| && q - p <= Cap(max)
    requires i < |h| && |Run(h[..i], max).accepted| == p
    ensures Run(h, max).accepted[q] in OthersBetween(h, i, |h|, Run(h, max).accepted[p])
  {
    var k := AcceptedAt(h, max, q);
    if k <= i {
      AcceptedNeverShrinks(h, max, k, i);
    }
    assert h[k].id == Run(h, max).accepted[q] && Run(h, max).accepted[p] != Run(h, max).accepted[q];
  }

  /** A window in which nothing repeats fills any set that holds its names. */
  lemma CrowdOf(accepted: seq<string>, from: nat, cap: nat, others: set<string>)
    requires from + cap <= |accepted|
    requires forall a, b :: from <= a < b < from + cap ==> accepted[a] != accepted[b]
    requires forall q :: from <= q < from + cap ==> accepted[q] in others
    ensures |others| >= cap
  {
    var w := accepted[from..from + cap];
    assert forall j :: 0 <= j < cap ==> w[j] == accepted[from + j];
    DistinctNames(w);
    SubsetIsSmaller(Names(w), others);
  }

  /** When `Cap(max)` acceptances follow the `p`-th, they are of that many others. */
  lemma CrowdAfter(h: seq<Event>, max: int, p: nat, i: nat)
    requires Fifo(Run(h, max), max)
    requires p + Cap(max) < |Run(h, max).accepted|
    requires i < |h| && |Run(h[..i], max).accepted| == p
    ensures |OthersBetween(h, i, |h|, Run(h, max).accepted[p])| >= Cap(max)
  {
    var s := Run(h, max);
    var others := OthersBetween(h, i, |h|, s.accepted[p]);
    forall q | p + 1 <= q < p + 1 + Cap(max) ensures s.accepted[q] in others {
      PushedOutByOthers(h, max, p, i, q);
    }
    CrowdOf(s.accepted, p + 1, Cap(max), others);
  }

  lemma GoneIsOld(s: State, max: int, p: nat)
    requires Fifo(s, max) && p < |s.accepted| && s.accepted[p] !in s.tiers
    ensures p + Cap(max) < |s.accepted|
  {
    if |s.accepted| - p <= Cap(max) {
      AtTheEnd(s.accepted, Cap(max), p);
    }
  }

  /** A decision that is gone was followed by decisions of at least `Cap(max)` other requests. */
  lemma GoneMeansCrowded(h: seq<Event>, max: int, id: string) returns (i: nat)
    requires Acceptances(Run(h, max).accepted, id) > 0 && id !in Run(h, max).tiers
    ensures i < |h| && h[i].TierArrives? && h[i].id == id && |OthersBetween(h, i, |h|, id)| >= Cap(max)
  {
    var s := Run(h, max);
    RunIsFifo(h, max);
    var p := SomeAcceptance(s.accepted, id);
    i := AcceptedAt(h, max, p);
    GoneIsOld(s, max, p);
    CrowdAfter(h, max, p, i);
  }

  lemma SpacedPrefix(h: seq<Event>, n: nat, id: string)
    requires h != [] && Spaced(h, n, id)
    ensures Spaced(h[..|h| - 1], n, id)
  {
    var init := h[..|h| - 1];
    forall i, j | 0 <= i < j < |init| && init[i].TierArrives? && init[i].id == id && init[j].TierArrives? && init[j].id == id
      ensures |OthersBetween(init, i, j, id)| < n
    {
      assert OthersBetween(init, i, j, id) == OthersBetween(h, i, j, id);
    }
  }

  lemma OthersOfPrefix(init: seq<Event>, e: Event, i: nat, id: string)
    ensures OthersBetween(init, i, |init|, id) == OthersBetween(init + [e], i, |init|, id)
  {
    assert forall k :: 0 <= k < |init| ==> init[k] == (init + [e])[k];
  }

  /** A spaced request is still stored when its next record arrives. */
  lemma SpacedIsStillStored(h: seq<Event>, max: int, id: string)
    requires h != [] && h[|h| - 1].TierArrives? && h[|h| - 1].id == id && Spaced(h, Cap(max), id)
    requires Acceptances(Run(h[..|h| - 1], max).accepted, id) > 0
    ensures id in Run(h[..|h| - 1], max).tiers
  {
    var init, e := h[..|h| - 1], h[|h| - 1];
    assert h == init + [e];
    if id !in Run(init, max).tiers {
      var i := GoneMeansCrowded(init, max, id);
      OthersOfPrefix(init, e, i, id);
    }
  }

  lemma {:induction false} SpacedIsAcceptedOnce(h: seq<Event>, max: int, id: string)
    requires Spaced(h, Cap(max), id)
    ensures Acceptances(Run(h, max).accepted, id) <= 1
  {
    if h != [] {
      var init, e := h[..|h| - 1], h[|h| - 1];
      SpacedPrefix(h, Cap(max), id);
      SpacedIsAcceptedOnce(init, max, id);
      match e
      case TierArrives(x, rec) =>
        AcceptingAdds(Run(init, max), x, rec, max, id);
        if x == id && Acceptances(Run(init, max).accepted, id) > 0 {
          SpacedIsStillStored(h, max, id);
        }
      case GuardArrives(g) =>
        AcceptedGrows(Run(init, max), e, max);
    }
  }

  /** Whatever the outcomes do: a spaced request joins at most once. */
  lemma SpacedRequestJoinsOnce(h: seq<Event>, max: int, id: string)
    requires Spaced(h, Cap(max), id)
    ensures TimesJoined(Run(h, max), id) <= 1
  {
    JoinsAtMostAccepted(h, max, id);
    SpacedIsAcceptedOnce(h, max, id);
  }

  // ----- no wider spacing will do -------------------------------------------------------------

  /** An id longer than another by `k + 1`: different for different `k`. */
  function OtherId(id: string, k: nat): string {
    if k == 0 then id + "x" else OtherId(id, k - 1) + "x"
  }

  lemma {:induction false} OtherIdLength(id: string, k: nat)
    ensures |OtherId(id, k)| == |id| + k + 1
  {
    if k > 0 {
      OtherIdLength(id, k - 1);
    }
  }

  function OtherIds(id: string, n: nat): (ids: seq<string>)
    ensures |ids| == n && forall k :: 0 <= k < n ==> ids[k] == OtherId(id, k)
  {
    if n == 0 then [] else OtherIds(id, n - 1) + [OtherId(id, n - 1)]
  }

  const PLAIN := TierRecord("t", false, false, None)

  /** One decision of a request, and then one of each of `n` others. */
  function Crowd(id: string, n: nat): (d: seq<Event>)
    ensures |d| == n + 1 && d[0] == TierArrives(id, PLAIN)
    ensures forall k :: 1 <= k <= n ==> d[k] == TierArrives(OtherId(id, k - 1), PLAIN)
  {
    if n == 0 then [TierArrives(id, PLAIN)] else Crowd(id, n - 1) + [TierArrives(OtherId(id, n - 1), PLAIN)]
  }

  lemma FreshIsAccepted(d: seq<Event>, max: int, x: string)
    requires x !in Run(d, max).accepted
    ensures Run(d + [TierArrives(x, PLAIN)], max).accepted == Run(d, max).accepted + [x]
  {
    RunSnoc(d, TierArrives(x, PLAIN), max);
    RunIsFifo(d, max);
    assert x !in Run(d, max).tierOrder;
  }

  lemma OtherIdIsNew(id: string, n: nat)
    ensures OtherId(id, n) !in [id] + OtherIds(id, n)
  {
    OtherIdLength(id, n);
    forall k | 0 <= k < n ensures OtherId(id, k) != OtherId(id, n) {
      OtherIdLength(id, k);
    }
  }

  lemma CrowdOfOne(id: string, max: int)
    ensures Run(Crowd(id, 0), max).accepted == [id] + OtherIds(id, 0)
  {
    assert [] + [TierArrives(id, PLAIN)] == Crowd(id, 0);
    FreshIsAccepted([], max, id);
  }

  lemma CrowdOfOneMore(id: string, n: nat, max: int, d: seq<Event>, ids: seq<string>)
    requires d == Crowd(id, n) && ids == OtherIds(id, n)
    requires Run(d, max).accepted == [id] + ids
    ensures Run(Crowd(id, n + 1), max).accepted == [id] + OtherIds(id, n + 1)
  {
    var x := OtherId(id, n);
    OtherIdIsNew(id, n);
    FreshIsAccepted(d, max, x);
    assert Crowd(id, n + 1) == d + [TierArrives(x, PLAIN)];
    assert OtherIds(id, n + 1) == ids + [x];
    assert [id] + ids + [x] == [id] + (ids + [x]);
  }

  /** All of a crowd is accepted, in order. */
  lemma {:induction false} CrowdIsAccepted(id: string, n: nat, max: int)
    ensures Run(Crowd(id, n), max).accepted == [id] + OtherIds(id, n)
  {
    if n == 0 {
      CrowdOfOne(id, max);
    } else {
      CrowdIsAccepted(id, n - 1, max);
      CrowdOfOneMore(id, n - 1, max, Crowd(id, n - 1), OtherIds(id, n - 1));
    }
  }

  /** After a crowd as large as the store the request is gone, and its next record is accepted again. */
  lemma CrowdedOut(id: string, max: int)
    ensures Acceptances(Run(Crowd(id, Cap(max)) + [TierArrives(id, PLAIN)], max).accepted, id) >= 2
  {
    var d, n := Crowd(id, Cap(max)), Cap(max);
    var s, e := Run(d, max), TierArrives(id, PLAIN);
    CrowdIsAccepted(id, n, max);
    RunIsFifo(d, max);
    assert TakeLast(s.accepted, n) == OtherIds(id, n);
    forall k | 0 <= k < n ensures OtherId(id, k) != id {
      OtherIdLength(id, k);
    }
    RunSnoc(d, e, max);
    AcceptingAdds(s, id, PLAIN, max, id);
    AcceptedOnce([id], OtherIds(id, n), id);
  }

  lemma {:induction false} AcceptedOnce(front: seq<string>, rest: seq<string>, id: string)
    ensures Acceptances(front + rest, id) >= Acceptances(front, id)
    decreases |rest|
  {
    if rest == [] {
      assert front + rest == front;
    } else {
      var init, last := rest[..|rest| - 1], rest[|rest| - 1];
      AcceptedOnce(front, init, id);
      assert front + rest == (front + init) + [last];
      AcceptancesSnoc(front + init, last, id);
    }
  }

  lemma OtherIdsAreDistinct(id: string, n: nat)
    ensures |Names(OtherIds(id, n))| == n
  {
    var ids := OtherIds(id, n);
    forall i, j | 0 <= i < j < n ensures ids[i] != ids[j] {
      OtherIdLength(id, i);
      OtherIdLength(id, j);
    }
    DistinctNames(ids);
  }

  /** The crowd and the next record of its first request, with that request's outcome in front. */
  function Crowded(id: string, n: nat): (h: seq<Event>)
    ensures |h| == n + 3
    ensures forall k :: 1 <= k < n + 2 ==> h[k] == Crowd(id, n)[k - 1]
    ensures h[0] == GuardArrives(Guard(id, None, false)) && h[n + 2] == TierArrives(id, PLAIN)
  {
    OutcomeFirst(Guard(id, None, false), Crowd(id, n) + [TierArrives(id, PLAIN)])
  }

  lemma CrowdedIsSpaced(id: string, n: nat)
    ensures Spaced(Crowded(id, n), n + 1, id)
  {
    var h, names := Crowded(id, n), Names(OtherIds(id, n));
    OtherIdsAreDistinct(id, n);
    forall i, j | 0 <= i < j < |h| ensures |OthersBetween(h, i, j, id)| < n + 1 {
      forall x | x in OthersBetween(h, i, j, id) ensures x in names {
        var k :| i < k < j && h[k].TierArrives? && h[k].id != id && h[k].id == x;
        assert h[k] == Crowd(id, n)[k - 1] && k >= 2;
        assert OtherIds(id, n)[k - 2] == x;
      }
      SubsetIsSmaller(OthersBetween(h, i, j, id), names);
    }
  }

  lemma CrowdedJoinsTwice(id: string, max: int)
    ensures TimesJoined(Run(Crowded(id, Cap(max)), max), id) >= 2
  {
    var g, d := Guard(id, None, false), Crowd(id, Cap(max)) + [TierArrives(id, PLAIN)];
    assert AllDecisions(d);
    CrowdedOut(id, max);
    DecisionsAfterOutcome(g, d);
    OutcomesDoNotDecide(OutcomeFirst(g, d), max);
    OutcomeFirstJoinsAlways(g, d, max);
  }

  lemma WiderIsSpaced(h: seq<Event>, n: nat, m: nat, id: string)
    requires Spaced(h, n, id) && n <= m
    ensures Spaced(h, m, id)
  {
  }

  /**
   * The spacing is exact: for every cap, request and `n`, the request joins at most once in
   * all histories with fewer than `n` others between any two of its records if and only if
   * `n` is no more than the store holds.
   */
  lemma SpacingBoundIsExact(max: int, n: nat, id: string)
    ensures (forall h :: Spaced(h, n, id) ==> TimesJoined(Run(h, max), id) <= 1) <==> n <= Cap(max)
  {
    if n <= Cap(max) {
      forall h | Spaced(h, n, id) ensures TimesJoined(Run(h, max), id) <= 1 {
        WiderIsSpaced(h, n, Cap(max), id);
        SpacedRequestJoinsOnce(h, max, id);
      }
    } else {
      CrowdedIsSpaced(id, Cap(max));
      WiderIsSpaced(Crowded(id, Cap(max)), Cap(max) + 1, n, id);
      CrowdedJoinsTwice(id, max);
    }
  }

  lemma JoinedFirst(rec: TierRecord, g: Guard)
    requires g.requestId == "a"
    ensures var s := Run([TierArrives("a", rec)] + [GuardArrives(g)], 1);
            s.guards == map["a" := g] && s.tierOrder == ["a"] && s.tiers.Keys == {"a"} && TimesJoined(s, "a") == 1
  {
    var t, h1 := TierArrives("a", rec), [TierArrives("a", rec)];
    assert [] + [t] == h1;
    RunSnoc([], t, 1);
    var s1 := Run(h1, 1);
    assert s1.tiers == map["a" := TierEntry(rec, false, 0)] && s1.tierOrder == ["a"] && s1.guards == map[];
    RunSnoc(h1, GuardArrives(g), 1);
    RunIsSound(h1, 1);
    StepJoinsExactly(START, t, 1, "a");
    StepJoinsExactly(s1, GuardArrives(g), 1, "a");
  }

  /** Such a run: room for one entry, one other request, and the first one joins twice. */
  lemma EvictedRequestJoinsTwice(rec: TierRecord, g: Guard)
    requires g.requestId == "a"
    ensures var h := [TierArrives("a", rec)] + [GuardArrives(g)] + [TierArrives("b", rec)] + [TierArrives("a", rec)];
            TimesJoined(Run(h, 1), "a") == 2
  {
    var t, b, h2 := TierArrives("a", rec), TierArrives("b", rec), [TierArrives("a", rec)] + [GuardArrives(g)];
    JoinedFirst(rec, g);
    RunSnoc(h2, b, 1);
    RunSnoc(h2 + [b], t, 1);
    RunIsSound(h2, 1);
    RunIsSound(h2 + [b], 1);
    var s3 := Run(h2 + [b], 1);
    StepJoinsExactly(Run(h2, 1), b, 1, "a");
    assert "a" !in s3.tiers && s3.guards == map["a" := g];
    StepJoinsExactly(s3, t, 1, "a");
  }
}
