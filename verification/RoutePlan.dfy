/**
 * Selection: which (candidate, model) pairs the router will try, in which order.
 *
 * The code sorts by estimated cost and then runs three stable partitions, each in
 * another function: preferred first, models above the tier ceiling last, candidates
 * with the caller's own live key first. `ResolvePlan` proves that this is *one* stable
 * sort of the capable pairs by a four-part rank.
 */
module RoutePlan {
  import opened Wrappers
  import opened StableSorting

  datatype Tier = Economy | Standard | Frontier

  function TierRank(t: Tier): int {
    match t
    case Economy => 0
    case Standard => 1
    case Frontier => 2
  }

  datatype Model = Model(name: string, tier: Tier)

  datatype Candidate = Candidate(id: string, models: seq<Model>)

  /** A soft preference; an empty field is absent. */
  datatype Prefer = Prefer(provider: string, model: string)

  /** The routing hints that shape the order, after tier inference. */
  datatype Hints = Hints(prefer: Option<Prefer>, maxTier: Option<Tier>, providers: seq<string>)

  /** One bring-your-own-key rule, with whether its environment variable is set. */
  datatype OwnKey = OwnKey(provider: string, keyed: bool)

  /** Everything selection asks that is data or another subsystem: metadata, capability, price, circuit breaker. */
  datatype Catalog = Catalog(
    resolve: Model -> Model,
    capable: Model -> bool,
    cost: Model -> int,
    available: string -> bool,
    lower: string -> string)

  datatype Decision = Decision(candidate: Candidate, meta: Model, cost: int, byok: bool)

  predicate Declared(byok: seq<OwnKey>, id: string) {
    exists i :: 0 <= i < |byok| && byok[i].provider == id
  }

  predicate Live(byok: seq<OwnKey>, id: string) {
    exists i :: 0 <= i < |byok| && byok[i].provider == id && byok[i].keyed
  }

  /** Keep the allowlisted candidates; an allowlist that matches nothing is ignored. */
  function FilterByProviders(pool: seq<Candidate>, providers: seq<string>, lower: string -> string): seq<Candidate> {
    var kept := Filter(pool, (c: Candidate) => exists i :: 0 <= i < |providers| && lower(providers[i]) == lower(c.id));
    if providers == [] || kept == [] then pool else kept
  }

  /** Candidates that may be planned: not an unkeyed own-key rung, allowlisted, circuit closed. */
  function EligiblePool(candidates: seq<Candidate>, byok: seq<OwnKey>, hints: Hints, cat: Catalog): seq<Candidate> {
    var base := Filter(candidates, (c: Candidate) => !Declared(byok, c.id) || Live(byok, c.id));
    Filter(FilterByProviders(base, hints.providers, cat.lower), (c: Candidate) => cat.available(c.id))
  }

  function CapableModels(c: Candidate, models: seq<Model>, cat: Catalog): seq<Decision> {
    if models == [] then []
    else
      var meta := cat.resolve(models[0]);
      (if cat.capable(meta) then [Decision(c, meta, cat.cost(meta), false)] else []) + CapableModels(c, models[1..], cat)
  }

  /** The capable pairs of a pool in configured order. */
  function CapablePairs(pool: seq<Candidate>, cat: Catalog): seq<Decision> {
    if pool == [] then [] else CapableModels(pool[0], pool[0].models, cat) + CapablePairs(pool[1..], cat)
  }

  predicate Preferred(prefer: Prefer, d: Decision) {
    && (prefer.provider != "" ==> d.candidate.id == prefer.provider)
    && (prefer.model != "" ==> d.meta.name == prefer.model)
  }

  predicate Unpreferred(hints: Hints, d: Decision) {
    hints.prefer.Some? && !Preferred(hints.prefer.value, d)
  }

  predicate AboveCeiling(ceiling: Option<Tier>, d: Decision) {
    ceiling.Some? && TierRank(d.meta.tier) > TierRank(ceiling.value)
  }

  // The three partitions and the sort key of selection, as functions on decisions.

  function ByCost(): Decision -> seq<int> {
    (d: Decision) => [d.cost]
  }

  function UnpreferredIn(hints: Hints): Decision -> bool {
    (d: Decision) => Unpreferred(hints, d)
  }

  function Above(ceiling: Option<Tier>): Decision -> bool {
    (d: Decision) => AboveCeiling(ceiling, d)
  }

  function Shared(byok: seq<OwnKey>): Decision -> bool {
    (d: Decision) => !Live(byok, d.candidate.id)
  }

  function Tag(byok: seq<OwnKey>, d: Decision): Decision {
    d.(byok := d.byok || Live(byok, d.candidate.id))
  }

  function TagAll(byok: seq<OwnKey>, s: seq<Decision>): seq<Decision> {
    if s == [] then [] else [Tag(byok, s[0])] + TagAll(byok, s[1..])
  }

  /** What the plan is ordered by, most significant first. */
  function PlanRank(byok: seq<OwnKey>, hints: Hints): Decision -> seq<int> {
    (d: Decision) =>
      [ if Live(byok, d.candidate.id) then 0 else 1,
        if AboveCeiling(hints.maxTier, d) then 1 else 0,
        if Unpreferred(hints, d) then 1 else 0,
        d.cost ]
  }

  // ----- the loops of the source ------------------------------------------------------

  method CapableDecisions(pool: seq<Candidate>, cat: Catalog) returns (out: seq<Decision>)
    ensures out == CapablePairs(pool, cat)
  {
    out := [];
    for i := 0 to |pool|
      invariant out + CapablePairs(pool[i..], cat) == CapablePairs(pool, cat)
    {
      var c := pool[i];
      ghost var before := out;
      for j := 0 to |c.models|
        invariant out + CapableModels(c, c.models[j..], cat) == before + CapableModels(c, c.models, cat)
      {
        assert c.models[j..][1..] == c.models[j + 1..];
        var meta := cat.resolve(c.models[j]);
        if !cat.capable(meta) {
          continue;
        }
        out := out + [Decision(c, meta, cat.cost(meta), false)];
      }
      assert pool[i..][1..] == pool[i + 1..];
      assert before + (CapableModels(c, c.models, cat) + CapablePairs(pool[i + 1..], cat))
          == (before + CapableModels(c, c.models, cat)) + CapablePairs(pool[i + 1..], cat);
    }
  }

  method CostOptimized(pool: seq<Candidate>, hints: Hints, cat: Catalog) returns (decisions: seq<Decision>)
    ensures IsStableSort(CapablePairs(pool, cat), decisions,
                         Flagged(UnpreferredIn(hints), ByCost()))
  {
    var rank := ByCost();
    var late := UnpreferredIn(hints);
    var pairs := CapableDecisions(pool, cat);
    decisions := Sort(pairs, rank);
    SortIsStable(pairs, rank);
    PartitionRefinesSort(pairs, decisions, late, rank);
    PartitionOfFew(decisions, late);
    if hints.prefer == None || |decisions| < 2 {
      return;
    }
    decisions := Filter(decisions, Not(late)) + Filter(decisions, late);
  }

  method ApplyCeiling(decisions: seq<Decision>, ceiling: Option<Tier>) returns (out: seq<Decision>)
    ensures out == Partition(decisions, Above(ceiling))
  {
    ghost var late := Above(ceiling);
    if ceiling == None {
      PartitionOfFew(decisions, late);
      return decisions;
    }
    var within: seq<Decision> := [];
    var above: seq<Decision> := [];
    for i := 0 to |decisions|
      invariant within == Filter(decisions[..i], Not(late))
      invariant above == Filter(decisions[..i], late)
    {
      var d := decisions[i];
      FilterConcat(decisions[..i], [d], Not(late));
      FilterConcat(decisions[..i], [d], late);
      assert decisions[..i + 1] == decisions[..i] + [d];
      if TierRank(d.meta.tier) > TierRank(ceiling.value) {
        above := above + [d];
      } else {
        within := within + [d];
      }
    }
    assert decisions[..|decisions|] == decisions;
    out := within + above;
  }

  method PromoteByok(decisions: seq<Decision>, byok: seq<OwnKey>) returns (out: seq<Decision>)
    ensures out == TagAll(byok, Partition(decisions, Shared(byok)))
  {
    ghost var late := Shared(byok);
    ghost var early := Not(late);
    var own: seq<Decision> := [];
    var shared: seq<Decision> := [];
    for i := 0 to |decisions|
      invariant own == TagAll(byok, Filter(decisions[..i], early))
      invariant shared == TagAll(byok, Filter(decisions[..i], late))
    {
      var d := decisions[i];
      FilterConcat(decisions[..i], [d], early);
      FilterConcat(decisions[..i], [d], late);
      TagAllConcat(byok, Filter(decisions[..i], early), Filter([d], early));
      TagAllConcat(byok, Filter(decisions[..i], late), Filter([d], late));
      assert decisions[..i + 1] == decisions[..i] + [d];
      if Live(byok, d.candidate.id) {
        own := own + [d.(byok := true)];
      } else {
        shared := shared + [d];
      }
    }
    assert decisions[..|decisions|] == decisions;
    TagAllConcat(byok, Filter(decisions, early), Filter(decisions, late));
    out := own + shared;
  }

  /**
   * The whole unpinned selection: one stable sort of exactly the capable pairs, in which a
   * pair is planned if and only if its candidate is admitted and its model capable, and no
   * pair comes before one that should be tried first.
   */
  method ResolvePlan(candidates: seq<Candidate>, byok: seq<OwnKey>, hints: Hints, cat: Catalog)
    returns (plan: seq<Decision>)
    ensures IsStableSort(TagAll(byok, CapablePairs(EligiblePool(candidates, byok, hints, cat), cat)), plan, PlanRank(byok, hints))
    ensures forall d :: d in plan <==> Planned(candidates, byok, hints, cat, d)
    ensures forall i, j :: 0 <= i < j < |plan| ==> InTurn(byok, hints, plan[i], plan[j])
  {
    var pool := EligiblePool(candidates, byok, hints, cat);
    ghost var pairs := CapablePairs(pool, cat);
    ghost var byCost, unpreferred := ByCost(), UnpreferredIn(hints);
    ghost var above, shared := Above(hints.maxTier), Shared(byok);
    var picked := CostOptimized(pool, hints, cat);
    var selected := ApplyCeiling(picked, hints.maxTier);
    PartitionRefinesSort(pairs, picked, above, Flagged(unpreferred, byCost));
    PartitionRefinesSort(pairs, selected, shared, Flagged(above, Flagged(unpreferred, byCost)));
    ghost var flagged := Flagged(shared, Flagged(above, Flagged(unpreferred, byCost)));
    forall d: Decision ensures flagged(d) == PlanRank(byok, hints)(d) {}
    RankCongruence(pairs, Partition(selected, shared), flagged, PlanRank(byok, hints));
    TaggingKeepsStability(pairs, Partition(selected, shared), byok, hints);
    if exists i :: 0 <= i < |byok| && byok[i].keyed {
      plan := PromoteByok(selected, byok);
    } else {
      NoLiveKeyNoChange(selected, byok);
      plan := selected;
    }
    PlanHoldsPlanned(candidates, byok, hints, cat, plan);
    PlanIsInTurn(pool, cat, plan, byok, hints);
  }

  // ----- what is planned, and in which order ---------------------------------------------

  /** No own-key rule names the candidate, or one that names it has its key set. */
  predicate PassesOwnKeys(byok: seq<OwnKey>, id: string) {
    (exists i :: 0 <= i < |byok| && byok[i].provider == id && byok[i].keyed) || (forall i :: 0 <= i < |byok| ==> byok[i].provider != id)
  }

  predicate Named(providers: seq<string>, lower: string -> string, id: string) {
    exists i :: 0 <= i < |providers| && lower(providers[i]) == lower(id)
  }

  /**
   * A candidate that may be called: it passes the own-key rules, its circuit is closed, and
   * the allowlist is empty, names it up to case, or names nobody who passes the own-key rules.
   */
  ghost predicate Admitted(candidates: seq<Candidate>, byok: seq<OwnKey>, hints: Hints, cat: Catalog, c: Candidate) {
    && PassesOwnKeys(byok, c.id)
    && cat.available(c.id)
    && (|| hints.providers == []
        || Named(hints.providers, cat.lower, c.id)
        || forall x :: x in candidates && PassesOwnKeys(byok, x.id) ==> !Named(hints.providers, cat.lower, x.id))
  }

  ghost function AdmittedOf(candidates: seq<Candidate>, byok: seq<OwnKey>, hints: Hints, cat: Catalog): Candidate -> bool {
    (c: Candidate) => Admitted(candidates, byok, hints, cat, c)
  }

  lemma {:induction false} FilterCongruent<T(!new)>(s: seq<T>, p: T -> bool, q: T -> bool)
    requires forall x :: x in s ==> p(x) == q(x)
    ensures Filter(s, p) == Filter(s, q)
  {
    if s != [] {
      FilterCongruent(s[1..], p, q);
      assert s == [s[0]] + s[1..];
    }
  }

  lemma {:induction false} FilterTwice<T(!new)>(s: seq<T>, p: T -> bool, q: T -> bool, both: T -> bool)
    requires forall x :: x in s ==> both(x) == (p(x) && q(x))
    ensures Filter(Filter(s, p), q) == Filter(s, both)
  {
    if s != [] {
      FilterTwice(s[1..], p, q, both);
      FilterConcat(if p(s[0]) then [s[0]] else [], Filter(s[1..], p), q);
      assert s == [s[0]] + s[1..];
    }
  }

  /** The allowlist as one test on the candidates that pass the own-key rules. */
  lemma AllowlistExactly(base: seq<Candidate>, providers: seq<string>, lower: string -> string, allowed: Candidate -> bool)
    requires forall c :: c in base ==>
               allowed(c) == (providers == [] || Named(providers, lower, c.id) || forall x :: x in base ==> !Named(providers, lower, x.id))
    ensures FilterByProviders(base, providers, lower) == Filter(base, allowed)
  {
    var named := (c: Candidate) => exists i :: 0 <= i < |providers| && lower(providers[i]) == lower(c.id);
    FilterMembers(base, named);
    if exists x :: x in base && Named(providers, lower, x.id) {
      var x :| x in base && Named(providers, lower, x.id);
      assert x in Filter(base, named);
      if providers != [] {
        FilterCongruent(base, named, allowed);
      } else {
        FilterAll(base, allowed);
      }
    } else {
      FilterAll(base, allowed);
      FilterNone(base, named);
    }
  }

  /** The pool is the admitted candidates, as often and in the order in which they are configured. */
  lemma PoolIsAdmitted(candidates: seq<Candidate>, byok: seq<OwnKey>, hints: Hints, cat: Catalog)
    ensures EligiblePool(candidates, byok, hints, cat) == Filter(candidates, AdmittedOf(candidates, byok, hints, cat))
  {
    var passes := (c: Candidate) => PassesOwnKeys(byok, c.id);
    var base := Filter(candidates, passes);
    FilterMembers(candidates, passes);
    assert base == Filter(candidates, (c: Candidate) => !Declared(byok, c.id) || Live(byok, c.id)) by {
      FilterCongruent(candidates, passes, (c: Candidate) => !Declared(byok, c.id) || Live(byok, c.id));
    }
    ghost var allowed := (c: Candidate) =>
      hints.providers == [] || Named(hints.providers, cat.lower, c.id) || forall x :: x in base ==> !Named(hints.providers, cat.lower, x.id);
    ghost var open := (c: Candidate) => cat.available(c.id);
    AllowlistExactly(base, hints.providers, cat.lower, allowed);
    ghost var both := (c: Candidate) => allowed(c) && open(c);
    FilterTwice(base, allowed, open, both);
    FilterTwice(candidates, passes, both, AdmittedOf(candidates, byok, hints, cat));
  }

  /** A pair of an admitted candidate and one of its capable models, priced, and tagged where the caller's own key is live. */
  ghost predicate Planned(candidates: seq<Candidate>, byok: seq<OwnKey>, hints: Hints, cat: Catalog, d: Decision) {
    && d.candidate in candidates && Admitted(candidates, byok, hints, cat, d.candidate)
    && (d.byok <==> exists i :: 0 <= i < |byok| && byok[i].provider == d.candidate.id && byok[i].keyed)
    && exists m :: m in d.candidate.models && cat.capable(cat.resolve(m)) && d.meta == cat.resolve(m) && d.cost == cat.cost(d.meta)
  }

  lemma PlanHoldsPlanned(candidates: seq<Candidate>, byok: seq<OwnKey>, hints: Hints, cat: Catalog, plan: seq<Decision>)
    requires var pairs := CapablePairs(EligiblePool(candidates, byok, hints, cat), cat);
             IsStableSort(TagAll(byok, pairs), plan, PlanRank(byok, hints))
    ensures forall d :: d in plan <==> Planned(candidates, byok, hints, cat, d)
  {
    var pool := EligiblePool(candidates, byok, hints, cat);
    PoolIsAdmitted(candidates, byok, hints, cat);
    FilterMembers(candidates, AdmittedOf(candidates, byok, hints, cat));
    forall d ensures d in plan <==> Planned(candidates, byok, hints, cat, d) {
      PlanMember(pool, cat, plan, byok, hints, d);
      CapablePairsMember(pool, cat, d.(byok := false));
    }
  }

  lemma PlanMember(pool: seq<Candidate>, cat: Catalog, plan: seq<Decision>, byok: seq<OwnKey>, hints: Hints, d: Decision)
    requires IsStableSort(TagAll(byok, CapablePairs(pool, cat)), plan, PlanRank(byok, hints))
    ensures d in plan <==> d.(byok := false) in CapablePairs(pool, cat) && d.byok == Live(byok, d.candidate.id)
  {
    var pairs := CapablePairs(pool, cat);
    var tagged := TagAll(byok, pairs);
    StableSortIsPermutation(tagged, plan, PlanRank(byok, hints));
    assert d in plan <==> d in multiset(plan);
    assert d in tagged <==> d in multiset(tagged);
    forall x | x in pairs ensures !x.byok {
      CapablePairsMember(pool, cat, x);
    }
    TaggedMember(byok, pairs, d);
  }

  /** Pairs come from the loops untagged, so a tagged one is a pair with its tag set where the key is live. */
  lemma TaggedMember(byok: seq<OwnKey>, pairs: seq<Decision>, d: Decision)
    requires forall x :: x in pairs ==> !x.byok
    ensures d in TagAll(byok, pairs) <==> d.(byok := false) in pairs && d.byok == Live(byok, d.candidate.id)
  {
    TagAllAt(byok, pairs);
    if d in TagAll(byok, pairs) {
      var i :| 0 <= i < |pairs| && TagAll(byok, pairs)[i] == d;
      assert pairs[i] in pairs && d == Tag(byok, pairs[i]);
      assert d.(byok := false) == pairs[i];
    }
    if d.(byok := false) in pairs && d.byok == Live(byok, d.candidate.id) {
      var i :| 0 <= i < |pairs| && pairs[i] == d.(byok := false);
      assert TagAll(byok, pairs)[i] == d;
    }
  }

  /** A model above the ceiling: economy admits economy only, standard all but frontier. */
  predicate Over(ceiling: Option<Tier>, tier: Tier) {
    match ceiling
    case None => false
    case Some(Economy) => tier != Economy
    case Some(Standard) => tier == Frontier
    case Some(Frontier) => false
  }

  /** The provider and the model that are asked for, as far as any are. */
  predicate Asked(prefer: Option<Prefer>, d: Decision) {
    prefer.None? || (prefer.value.provider in {"", d.candidate.id} && prefer.value.model in {"", d.meta.name})
  }

  /** `a` may come before `b`: own live keys first, then within the ceiling, then what was asked for, then the cheaper one. */
  predicate InTurn(byok: seq<OwnKey>, hints: Hints, a: Decision, b: Decision) {
    if a.byok != b.byok then a.byok
    else if Over(hints.maxTier, a.meta.tier) != Over(hints.maxTier, b.meta.tier) then Over(hints.maxTier, b.meta.tier)
    else if Asked(hints.prefer, a) != Asked(hints.prefer, b) then Asked(hints.prefer, a)
    else a.cost <= b.cost
  }

  lemma PlanIsInTurn(pool: seq<Candidate>, cat: Catalog, plan: seq<Decision>, byok: seq<OwnKey>, hints: Hints)
    requires IsStableSort(TagAll(byok, CapablePairs(pool, cat)), plan, PlanRank(byok, hints))
    ensures forall i, j :: 0 <= i < j < |plan| ==> InTurn(byok, hints, plan[i], plan[j])
  {
    forall i, j | 0 <= i < j < |plan| ensures InTurn(byok, hints, plan[i], plan[j]) {
      PlanMember(pool, cat, plan, byok, hints, plan[i]);
      PlanMember(pool, cat, plan, byok, hints, plan[j]);
      RankIsTurn(byok, hints, plan[i], plan[j]);
    }
  }

  lemma LexOfCons(x: int, a: seq<int>, y: int, b: seq<int>)
    ensures LexLe([x] + a, [y] + b) <==> x < y || (x == y && LexLe(a, b))
  {
    assert ([x] + a)[1..] == a && ([y] + b)[1..] == b;
  }

  lemma RankIsTurn(byok: seq<OwnKey>, hints: Hints, a: Decision, b: Decision)
    requires a.byok == Live(byok, a.candidate.id) && b.byok == Live(byok, b.candidate.id)
    ensures LexLe(PlanRank(byok, hints)(a), PlanRank(byok, hints)(b)) <==> InTurn(byok, hints, a, b)
  {
    var x, y := PlanRank(byok, hints)(a), PlanRank(byok, hints)(b);
    assert x == [x[0]] + ([x[1]] + ([x[2]] + [x[3]])) && y == [y[0]] + ([y[1]] + ([y[2]] + [y[3]]));
    LexOfCons(x[0], [x[1]] + ([x[2]] + [x[3]]), y[0], [y[1]] + ([y[2]] + [y[3]]));
    LexOfCons(x[1], [x[2]] + [x[3]], y[1], [y[2]] + [y[3]]);
    LexOfCons(x[2], [x[3]], y[2], [y[3]]);
    LexOfCons(x[3], [], y[3], []);
    assert [x[3]] + [] == [x[3]] && [y[3]] + [] == [y[3]];
    OverIsAbove(hints, a);
    OverIsAbove(hints, b);
  }

  lemma OverIsAbove(hints: Hints, d: Decision)
    ensures AboveCeiling(hints.maxTier, d) == Over(hints.maxTier, d.meta.tier)
    ensures Unpreferred(hints, d) == !Asked(hints.prefer, d)
  {
  }

  // ----- lemmas -------------------------------------------------------------------------

  lemma {:induction false} CapableModelsMember(c: Candidate, models: seq<Model>, cat: Catalog, d: Decision)
    ensures d in CapableModels(c, models, cat)
       <==> exists m :: m in models && cat.capable(cat.resolve(m)) && d == Decision(c, cat.resolve(m), cat.cost(cat.resolve(m)), false)
  {
    if models != [] {
      CapableModelsMember(c, models[1..], cat, d);
      assert models == [models[0]] + models[1..];
    }
  }

  /** Nothing but capable pairs of the pool is planned, and every one of them is. */
  lemma {:induction false} CapablePairsMember(pool: seq<Candidate>, cat: Catalog, d: Decision)
    ensures d in CapablePairs(pool, cat)
       <==> && d.candidate in pool
            && exists m :: m in d.candidate.models && cat.capable(cat.resolve(m))
                        && d == Decision(d.candidate, cat.resolve(m), cat.cost(cat.resolve(m)), false)
  {
    if pool != [] {
      CapablePairsMember(pool[1..], cat, d);
      CapableModelsMember(pool[0], pool[0].models, cat, d);
      assert pool == [pool[0]] + pool[1..];
    }
  }

  /** The plan is determined by its specification, is a permutation of the pairs, and starts with a pair of least rank. */
  lemma PlanDetermined(pairs: seq<Decision>, plan: seq<Decision>, other: seq<Decision>, byok: seq<OwnKey>, hints: Hints)
    requires IsStableSort(pairs, plan, PlanRank(byok, hints))
    requires IsStableSort(pairs, other, PlanRank(byok, hints))
    ensures plan == other
    ensures multiset(plan) == multiset(pairs)
    ensures plan != [] ==> forall d :: d in pairs ==> LexLe(PlanRank(byok, hints)(plan[0]), PlanRank(byok, hints)(d))
  {
    var rank := PlanRank(byok, hints);
    StableSortUnique(pairs, plan, other, rank);
    StableSortIsPermutation(pairs, plan, rank);
    if plan != [] {
      forall d | d in pairs ensures LexLe(rank(plan[0]), rank(d)) {
        assert d in multiset(plan);
        var j :| 0 <= j < |plan| && plan[j] == d;
        LexTotal(rank(d), rank(d));
      }
    }
  }

  lemma {:induction false} FilterAll<T(!new)>(s: seq<T>, p: T -> bool)
    requires forall x :: x in s ==> p(x)
    ensures Filter(s, p) == s
  {
    if s != [] {
      FilterAll(s[1..], p);
      assert s == [s[0]] + s[1..];
    }
  }

  lemma {:induction false} FilterNone<T(!new)>(s: seq<T>, p: T -> bool)
    requires forall x :: x in s ==> !p(x)
    ensures Filter(s, p) == []
  {
    if s != [] {
      FilterNone(s[1..], p);
    }
  }

  /** A partition that separates nothing is the identity. */
  lemma PartitionOfFew<T(!new)>(s: seq<T>, late: T -> bool)
    ensures |s| < 2 || (forall x :: x in s ==> !late(x)) || (forall x :: x in s ==> late(x)) ==> Partition(s, late) == s
  {
    if forall x :: x in s ==> !late(x) {
      FilterAll(s, Not(late));
      FilterNone(s, late);
    } else if forall x :: x in s ==> late(x) {
      FilterAll(s, late);
      FilterNone(s, Not(late));
    }
  }

  lemma {:induction false} GroupCongruence<T(!new)>(s: seq<T>, rank: T -> seq<int>, rank': T -> seq<int>, k: seq<int>)
    requires forall x :: rank(x) == rank'(x)
    ensures Group(s, rank, k) == Group(s, rank', k)
  {
    if s != [] {
      GroupCongruence(s[1..], rank, rank', k);
    }
  }

  lemma RankCongruence<T(!new)>(s: seq<T>, r: seq<T>, rank: T -> seq<int>, rank': T -> seq<int>)
    requires IsStableSort(s, r, rank)
    requires forall x :: rank(x) == rank'(x)
    ensures IsStableSort(s, r, rank')
  {
    forall k ensures Group(r, rank', k) == Group(s, rank', k) {
      GroupCongruence(s, rank, rank', k);
      GroupCongruence(r, rank, rank', k);
      assert Group(r, rank, k) == Group(s, rank, k);
    }
  }

  lemma {:induction false} TagAllConcat(byok: seq<OwnKey>, a: seq<Decision>, b: seq<Decision>)
    ensures TagAll(byok, a + b) == TagAll(byok, a) + TagAll(byok, b)
  {
    if a == [] {
      assert a + b == b;
    } else {
      TagAllConcat(byok, a[1..], b);
      assert (a + b)[0] == a[0] && (a + b)[1..] == a[1..] + b;
    }
  }

  lemma {:induction false} TagAllAt(byok: seq<OwnKey>, s: seq<Decision>)
    ensures |TagAll(byok, s)| == |s|
    ensures forall i :: 0 <= i < |s| ==> TagAll(byok, s)[i] == Tag(byok, s[i])
  {
    if s != [] {
      TagAllAt(byok, s[1..]);
    }
  }

  lemma {:induction false} GroupOfTagged(s: seq<Decision>, byok: seq<OwnKey>, hints: Hints, k: seq<int>)
    ensures Group(TagAll(byok, s), PlanRank(byok, hints), k) == TagAll(byok, Group(s, PlanRank(byok, hints), k))
  {
    if s != [] {
      GroupOfTagged(s[1..], byok, hints, k);
      var rank := PlanRank(byok, hints);
      assert rank(Tag(byok, s[0])) == rank(s[0]);
      assert TagAll(byok, s)[1..] == TagAll(byok, s[1..]);
      TagAllConcat(byok, if rank(s[0]) == k then [s[0]] else [], Group(s[1..], rank, k));
    }
  }

  lemma TaggingKeepsStability(s: seq<Decision>, r: seq<Decision>, byok: seq<OwnKey>, hints: Hints)
    requires IsStableSort(s, r, PlanRank(byok, hints))
    ensures IsStableSort(TagAll(byok, s), TagAll(byok, r), PlanRank(byok, hints))
  {
    var rank := PlanRank(byok, hints);
    TagAllAt(byok, r);
    assert forall d :: rank(Tag(byok, d)) == rank(d);
    forall k ensures Group(TagAll(byok, r), rank, k) == Group(TagAll(byok, s), rank, k) {
      GroupOfTagged(s, byok, hints, k);
      GroupOfTagged(r, byok, hints, k);
      assert Group(r, rank, k) == Group(s, rank, k);
    }
  }

  lemma NoLiveKeyNoChange(s: seq<Decision>, byok: seq<OwnKey>)
    requires !exists i :: 0 <= i < |byok| && byok[i].keyed
    ensures TagAll(byok, Partition(s, Shared(byok))) == s
  {
    PartitionOfFew(s, Shared(byok));
    TagAllAt(byok, s);
  }
}
