/** The router's exact-match response cache: its key, and its bounded store. */
module ResponseCache {
  import opened Wrappers
  import opened Sequences
  import opened CanonicalJson

  /** A request; the concrete model and the telemetry metadata are not part of the key. */
  datatype Params = Params(
    system: Text, messages: Value, tools: Value, maxTokens: Option<Value>, routingHints: Option<Value>,
    model: Option<Text>, metadata: Option<Value>)

  /** The object whose text is hashed. */
  function Normalized(p: Params): Value {
    Obj([Member(Units("system"), Str(p.system)),
         Member(Units("messages"), p.messages),
         Member(Units("tools"), p.tools),
         Member(Units("maxTokens"), p.maxTokens.GetOr(Null)),
         Member(Units("routingHints"), p.routingHints.GetOr(Null))])
  }

  function KeyText(p: Params): Text {
    Stringify(Normalized(p))
  }

  ghost predicate WfParams(p: Params) {
    Wf(p.messages) && Wf(p.tools) && Wf(p.maxTokens.GetOr(Null)) && Wf(p.routingHints.GetOr(Null))
  }

  /** Equal in every keyed field, up to the order of object keys. */
  ghost predicate SameRequest(p: Params, q: Params) {
    && p.system == q.system
    && Same(p.messages, q.messages)
    && Same(p.tools, q.tools)
    && Same(p.maxTokens.GetOr(Null), q.maxTokens.GetOr(Null))
    && Same(p.routingHints.GetOr(Null), q.routingHints.GetOr(Null))
  }

  function FieldName(i: nat): Text
    requires i < 5
  {
    if i == 0 then Units("system") else if i == 1 then Units("messages") else if i == 2 then Units("tools")
    else if i == 3 then Units("maxTokens") else Units("routingHints")
  }

  function Field(p: Params, i: nat): Value
    requires i < 5
  {
    if i == 0 then Str(p.system) else if i == 1 then p.messages else if i == 2 then p.tools
    else if i == 3 then p.maxTokens.GetOr(Null) else p.routingHints.GetOr(Null)
  }

  lemma FieldNamesDiffer(i: nat, j: nat)
    requires i < 5 && j < 5 && FieldName(i) == FieldName(j)
    ensures i == j
  {
    assert |Units("system")| == 6 && |Units("messages")| == 8 && |Units("tools")| == 5;
    assert |Units("maxTokens")| == 9 && |Units("routingHints")| == 12;
  }

  lemma FieldsOf(p: Params)
    ensures |Normalized(p).members| == 5
    ensures forall i :: 0 <= i < 5 ==> Normalized(p).members[i] == Member(FieldName(i), Field(p, i))
  {
  }

  lemma NormalizedIsWf(p: Params)
    requires WfParams(p)
    ensures Wf(Normalized(p))
  {
    FieldsOf(p);
    forall i, j | 0 <= i < j < 5 ensures FieldName(i) != FieldName(j) {
      if FieldName(i) == FieldName(j) {
        FieldNamesDiffer(i, j);
      }
    }
  }

  lemma SameFields(p: Params, q: Params)
    ensures Same(Normalized(p), Normalized(q)) <==> forall i :: 0 <= i < 5 ==> Same(Field(p, i), Field(q, i))
  {
    FieldsOf(p);
    FieldsOf(q);
    var ms, ns := Normalized(p).members, Normalized(q).members;
    forall key ensures HasKey(ms, key) <==> HasKey(ns, key) {
      assert HasKey(ms, key) ==> ns[Find(ms, key)].key == key;
      assert HasKey(ns, key) ==> ms[Find(ns, key)].key == key;
    }
    forall i, j | 0 <= i < 5 && 0 <= j < 5 && ms[i].key == ns[j].key ensures i == j {
      FieldNamesDiffer(i, j);
    }
    assert forall i :: 0 <= i < 5 ==> ms[i].key == ns[i].key && ms[i].value == Field(p, i) && ns[i].value == Field(q, i);
  }

  /** Two requests have the same cache key text exactly when they agree in every keyed field. */
  lemma SameKeyExactlyWhenSameRequest(p: Params, q: Params)
    requires WfParams(p) && WfParams(q)
    ensures KeyText(p) == KeyText(q) <==> SameRequest(p, q)
  {
    NormalizedIsWf(p);
    NormalizedIsWf(q);
    SameTextExactlyWhenSame(Normalized(p), Normalized(q));
    SameFields(p, q);
    assert Field(p, 0) == Str(p.system) && Field(p, 1) == p.messages && Field(p, 2) == p.tools;
    assert Field(p, 3) == p.maxTokens.GetOr(Null) && Field(p, 4) == p.routingHints.GetOr(Null);
  }

  // ----- the store ------------------------------------------------------------------------------

  /** A map entry; entries are in insertion order, one for a key. */
  datatype Slot<R> = Slot(key: Text, value: R)

  function Without<R>(entries: seq<Slot<R>>, key: Text): seq<Slot<R>> {
    if entries == [] then []
    else if entries[0].key == key then Without(entries[1..], key)
    else [entries[0]] + Without(entries[1..], key)
  }

  function Lookup<R>(entries: seq<Slot<R>>, key: Text): Option<R> {
    if entries == [] then None else if entries[0].key == key then Some(entries[0].value) else Lookup(entries[1..], key)
  }

  /** A set moves its key to the back and then evicts from the front. */
  function AfterSet<R>(entries: seq<Slot<R>>, key: Text, value: R, max: int): seq<Slot<R>> {
    TakeLast(Without(entries, key) + [Slot(key, value)], max)
  }

  /** One slot for a key, as in any map. */
  ghost predicate Distinct<R>(entries: seq<Slot<R>>) {
    forall i, j :: 0 <= i < j < |entries| ==> entries[i].key != entries[j].key
  }

  class MemoryCacheStore<R> {
    var entries: seq<Slot<R>>
    const maxEntries: int
    const hash: Text -> Text

    ghost predicate Valid()
      reads this
    {
      Distinct(entries)
    }

    constructor (maxEntries: int, hash: Text -> Text)
      ensures Valid() && entries == [] && this.maxEntries == maxEntries && this.hash == hash
    {
      this.entries, this.maxEntries, this.hash := [], maxEntries, hash;
    }

    /** A hit is the value of the one slot under the request's key; a miss says that there is no such slot. */
    method Get(p: Params) returns (hit: Option<R>)
      requires Valid()
      ensures match hit
              case Some(v) => exists i :: 0 <= i < |entries| && entries[i] == Slot(hash(KeyText(p)), v)
              case None => forall i :: 0 <= i < |entries| ==> entries[i].key != hash(KeyText(p))
    {
      hit := Lookup(entries, hash(KeyText(p)));
      LookupFinds(entries, hash(KeyText(p)));
    }

    method Set(p: Params, value: R)
      requires Valid()
      modifies this`entries
      ensures Valid()
      ensures entries == AfterSet(old(entries), hash(KeyText(p)), value, maxEntries)
    {
      var key := hash(KeyText(p));
      AfterSetIsDistinct(entries, key, value, maxEntries);
      if Lookup(entries, key).Some? {
        entries := Without(entries, key);
      } else {
        WithoutAbsent(entries, key);
      }
      entries := entries + [Slot(key, value)];
      Evict();
    }

    /** The eviction loop: the oldest slot goes until the rest fits, or nothing is left. */
    method Evict()
      modifies this`entries
      ensures entries == TakeLast(old(entries), maxEntries)
    {
      ghost var all := entries;
      while |entries| > maxEntries
        invariant |entries| <= |all| && entries == all[|all| - |entries|..]
        invariant |entries| >= maxEntries || entries == all
      {
        if entries == [] {
          break;
        }
        entries := entries[1..];
      }
    }
  }

  lemma {:induction false} LookupFinds<R>(entries: seq<Slot<R>>, key: Text)
    ensures match Lookup(entries, key)
            case Some(v) => exists i :: 0 <= i < |entries| && entries[i] == Slot(key, v)
            case None => forall i :: 0 <= i < |entries| ==> entries[i].key != key
  {
    if entries != [] {
      LookupFinds(entries[1..], key);
      if entries[0].key == key {
        assert entries[0] == Slot(key, entries[0].value);
      } else if Lookup(entries, key).Some? {
        var i :| 0 <= i < |entries[1..]| && entries[1..][i] == Slot(key, Lookup(entries, key).value);
        assert entries[i + 1] == Slot(key, Lookup(entries, key).value);
      } else {
        assert forall i :: 1 <= i < |entries| ==> entries[i] == entries[1..][i - 1];
      }
    }
  }

  lemma AfterSetIsDistinct<R>(entries: seq<Slot<R>>, key: Text, value: R, max: int)
    requires Distinct(entries)
    ensures Distinct(AfterSet(entries, key, value, max))
  {
    WithoutMembers(entries, key);
  }

  lemma {:induction false} WithoutAbsent<R>(entries: seq<Slot<R>>, key: Text)
    requires Lookup(entries, key).None?
    ensures Without(entries, key) == entries
  {
    if entries != [] {
      WithoutAbsent(entries[1..], key);
    }
  }

  // ----- the store as a function of its history ---------------------------------------------------

  /** Everything that was set, oldest first, by key. */
  function Run<R>(h: seq<Slot<R>>, max: int): seq<Slot<R>> {
    if h == [] then [] else AfterSet(Run(h[..|h| - 1], max), h[|h| - 1].key, h[|h| - 1].value, max)
  }

  /** The last set of each key, in the order of those sets. */
  function Latest<R>(h: seq<Slot<R>>): seq<Slot<R>> {
    if h == [] then [] else Without(Latest(h[..|h| - 1]), h[|h| - 1].key) + [h[|h| - 1]]
  }

  lemma {:induction false} WithoutMembers<R>(entries: seq<Slot<R>>, key: Text)
    ensures forall i :: 0 <= i < |Without(entries, key)| ==> Without(entries, key)[i] in entries && Without(entries, key)[i].key != key
    ensures Distinct(entries) ==> Distinct(Without(entries, key))
    ensures |Without(entries, key)| <= |entries|
    ensures Distinct(entries) ==> |Without(entries, key)| + 1 >= |entries|
  {
    if entries != [] {
      var rest := entries[1..];
      WithoutMembers(rest, key);
      assert Distinct(entries) ==> Distinct(rest);
      var w := Without(rest, key);
      forall i | 0 <= i < |w| ensures w[i] in entries {
        assert w[i] in rest;
      }
      if Distinct(entries) {
        if entries[0].key == key {
          WithoutUnused(rest, key);
        } else {
          forall i | 0 <= i < |w| ensures entries[0].key != w[i].key {
            assert w[i] in rest;
          }
        }
      }
    }
  }

  lemma {:induction false} WithoutUnused<R>(entries: seq<Slot<R>>, key: Text)
    requires forall i :: 0 <= i < |entries| ==> entries[i].key != key
    ensures Without(entries, key) == entries
  {
    if entries != [] {
      WithoutUnused(entries[1..], key);
    }
  }

  lemma {:induction false} LatestIsDistinct<R>(h: seq<Slot<R>>)
    ensures Distinct(Latest(h))
  {
    if h != [] {
      LatestIsDistinct(h[..|h| - 1]);
      WithoutMembers(Latest(h[..|h| - 1]), h[|h| - 1].key);
    }
  }

  /** Evicting early makes no difference: what was dropped would be dropped again. */
  lemma {:induction false} EvictionCommutes<R>(entries: seq<Slot<R>>, e: Slot<R>, m: int)
    requires Distinct(entries)
    ensures TakeLast(Without(TakeLast(entries, m), e.key) + [e], m) == TakeLast(Without(entries, e.key) + [e], m)
  {
    if |entries| > m && m > 0 {
      var rest := entries[1..];
      assert entries == [entries[0]] + rest;
      TakeLastDropsFront(entries[0], rest, m);
      EvictionCommutes(rest, e, m);
      if entries[0].key == e.key {
        WithoutUnused(rest, e.key);
        WithoutUnused(TakeLast(rest, m), e.key);
      } else {
        WithoutMembers(rest, e.key);
        assert Without(entries, e.key) + [e] == [entries[0]] + (Without(rest, e.key) + [e]);
        TakeLastDropsFront(entries[0], Without(rest, e.key) + [e], m);
      }
    }
  }

  /** The store holds the newest `max` of the last sets: eviction is oldest set first. */
  lemma {:induction false} StoreIsNewestSets<R>(h: seq<Slot<R>>, max: int)
    ensures Run(h, max) == TakeLast(Latest(h), max)
    ensures |Run(h, max)| <= if max < 0 then 0 else max
  {
    if h != [] {
      StoreIsNewestSets(h[..|h| - 1], max);
      LatestIsDistinct(h[..|h| - 1]);
      EvictionCommutes(Latest(h[..|h| - 1]), h[|h| - 1], max);
    }
  }

  // ----- when a lookup hits -------------------------------------------------------------------------

  /** What was set after the last set of a key. */
  function After<R>(entries: seq<Slot<R>>, key: Text): seq<Slot<R>> {
    if entries == [] then [] else if entries[0].key == key then entries[1..] else After(entries[1..], key)
  }

  function KeySet<R>(entries: seq<Slot<R>>): set<Text> {
    set i | 0 <= i < |entries| :: entries[i].key
  }

  /** The index of the last set of a key; the length of the history when there is none. */
  function LastSet<R>(h: seq<Slot<R>>, key: Text): (i: nat)
    ensures i <= |h|
    ensures i < |h| ==> h[i].key == key
    ensures forall j :: (i < |h| ==> i < j) && 0 <= j < |h| ==> h[j].key != key
  {
    if h == [] then 0
    else if h[|h| - 1].key == key then |h| - 1
    else
      var i := LastSet(h[..|h| - 1], key);
      if i == |h| - 1 then |h| else i
  }

  /** The distinct keys set since the last set of a key. */
  function KeysSince<R>(h: seq<Slot<R>>, key: Text): set<Text> {
    var i := LastSet(h, key);
    if i == |h| then {} else KeySet(h[i + 1..])
  }

  lemma {:induction false} DistinctCount<R>(entries: seq<Slot<R>>)
    requires Distinct(entries)
    ensures |KeySet(entries)| == |entries|
  {
    if entries != [] {
      DistinctCount(entries[1..]);
      KeySetCons(entries[0], entries[1..]);
      assert entries == [entries[0]] + entries[1..];
      assert entries[0].key !in KeySet(entries[1..]);
    }
  }

  lemma KeySetCons<R>(x: Slot<R>, s: seq<Slot<R>>)
    ensures KeySet([x] + s) == {x.key} + KeySet(s)
  {
    forall k | k in KeySet(s) ensures k in KeySet([x] + s) {
      var i :| 0 <= i < |s| && s[i].key == k;
      assert ([x] + s)[i + 1].key == k;
    }
    assert ([x] + s)[0].key == x.key;
  }

  lemma KeySetSnoc<R>(s: seq<Slot<R>>, x: Slot<R>)
    ensures KeySet(s + [x]) == KeySet(s) + {x.key}
  {
    forall k | k in KeySet(s) ensures k in KeySet(s + [x]) {
      var i :| 0 <= i < |s| && s[i].key == k;
      assert (s + [x])[i].key == k;
    }
    assert (s + [x])[|s|].key == x.key;
  }

  lemma {:induction false} KeySetWithout<R>(s: seq<Slot<R>>, key: Text)
    ensures KeySet(Without(s, key)) == KeySet(s) - {key}
  {
    if s != [] {
      KeySetWithout(s[1..], key);
      KeySetCons(s[0], s[1..]);
      assert s == [s[0]] + s[1..];
      if s[0].key != key {
        KeySetCons(s[0], Without(s[1..], key));
      }
    }
  }

  /** Moving another key to the back. */
  lemma {:induction false} AfterMove<R>(s: seq<Slot<R>>, e: Slot<R>, key: Text)
    requires e.key != key
    ensures Lookup(Without(s, e.key) + [e], key) == Lookup(s, key)
    ensures Lookup(s, key).Some? ==> After(Without(s, e.key) + [e], key) == Without(After(s, key), e.key) + [e]
  {
    if s == [] {
      assert [e][1..] == [];
    } else {
      AfterMove(s[1..], e, key);
      if s[0].key != e.key {
        assert Without(s, e.key) + [e] == [s[0]] + (Without(s[1..], e.key) + [e]);
      }
    }
  }

  /** A key moved to the back has nothing behind it. */
  lemma {:induction false} AfterOwn<R>(s: seq<Slot<R>>, e: Slot<R>)
    requires forall i :: 0 <= i < |s| ==> s[i].key != e.key
    ensures Lookup(s + [e], e.key) == Some(e.value) && After(s + [e], e.key) == []
  {
    if s == [] {
      assert [] + [e] == [e] && [e][1..] == [];
    } else {
      assert (s + [e])[1..] == s[1..] + [e];
      AfterOwn(s[1..], e);
    }
  }

  /** In the uncapped history a key has the value it was set to last. */
  lemma {:induction false} LatestValue<R>(h: seq<Slot<R>>, key: Text)
    ensures var i := LastSet(h, key);
            Lookup(Latest(h), key) == if i == |h| then None else Some(h[i].value)
  {
    if h != [] {
      var init, e := h[..|h| - 1], h[|h| - 1];
      LatestValue(init, key);
      WithoutMembers(Latest(init), e.key);
      if e.key == key {
        AfterOwn(Without(Latest(init), key), e);
      } else {
        AfterMove(Latest(init), e, key);
      }
    }
  }

  lemma LastSetStays<R>(init: seq<Slot<R>>, e: Slot<R>, key: Text)
    requires e.key != key && LastSet(init, key) < |init|
    ensures LastSet(init + [e], key) == LastSet(init, key)
  {
    assert (init + [e])[..|init|] == init;
  }

  lemma SuffixSnoc<R>(init: seq<Slot<R>>, e: Slot<R>, i: nat)
    requires i <= |init|
    ensures KeySet((init + [e])[i..]) == KeySet(init[i..]) + {e.key}
  {
    KeySetSnoc(init[i..], e);
    assert (init + [e])[i..] == init[i..] + [e];
  }

  lemma KeysSinceGrows<R>(init: seq<Slot<R>>, e: Slot<R>, key: Text)
    requires e.key != key && LastSet(init, key) < |init|
    ensures KeysSince(init + [e], key) == KeysSince(init, key) + {e.key}
  {
    LastSetStays(init, e, key);
    SuffixSnoc(init, e, LastSet(init, key) + 1);
  }

  /** Behind a key stand exactly the keys set since. */
  lemma {:induction false} LatestAfter<R>(h: seq<Slot<R>>, key: Text)
    requires LastSet(h, key) < |h|
    ensures KeySet(After(Latest(h), key)) == KeysSince(h, key)
  {
    var init, e := h[..|h| - 1], h[|h| - 1];
    assert h == init + [e];
    if e.key == key {
      WithoutMembers(Latest(init), key);
      AfterOwn(Without(Latest(init), key), e);
    } else {
      LatestAfter(init, key);
      LatestValue(init, key);
      AfterMove(Latest(init), e, key);
      KeySetSnoc(Without(After(Latest(init), key), e.key), e);
      KeySetWithout(After(Latest(init), key), e.key);
      KeysSinceGrows(init, e, key);
    }
  }

  lemma {:induction false} LookupOfTakeLast<R>(s: seq<Slot<R>>, m: int, key: Text)
    requires Distinct(s)
    ensures Lookup(TakeLast(s, m), key) == if Lookup(s, key).Some? && |After(s, key)| < m then Lookup(s, key) else None
  {
    AfterIsShorter(s, key);
    if |s| > m && m > 0 {
      var rest := s[1..];
      assert s == [s[0]] + rest;
      TakeLastDropsFront(s[0], rest, m);
      LookupOfTakeLast(rest, m, key);
      if s[0].key == key {
        LookupAbsent(rest, key);
      }
    }
  }

  lemma {:induction false} LookupAbsent<R>(s: seq<Slot<R>>, key: Text)
    requires forall i :: 0 <= i < |s| ==> s[i].key != key
    ensures Lookup(s, key) == None
  {
    if s != [] {
      LookupAbsent(s[1..], key);
    }
  }

  lemma {:induction false} AfterIsShorter<R>(s: seq<Slot<R>>, key: Text)
    ensures Lookup(s, key).Some? ==> |After(s, key)| < |s|
    ensures Distinct(s) ==> Distinct(After(s, key))
  {
    if s != [] {
      AfterIsShorter(s[1..], key);
      assert Distinct(s) ==> Distinct(s[1..]);
    }
  }

  /**
   * A lookup hits exactly when the key was set and fewer than `max` distinct other keys
   * have been set since, and then it returns what was set last.
   */
  lemma HitExactlyWhenRecent<R>(h: seq<Slot<R>>, max: int, key: Text)
    ensures var i := LastSet(h, key);
            Lookup(Run(h, max), key) == if i < |h| && |KeysSince(h, key)| < max then Some(h[i].value) else None
  {
    StoreIsNewestSets(h, max);
    LatestIsDistinct(h);
    LatestValue(h, key);
    if LastSet(h, key) < |h| {
      LatestAfter(h, key);
    }
    LookupOfTakeLast(Latest(h), max, key);
    AfterIsShorter(Latest(h), key);
    DistinctCount(After(Latest(h), key));
  }

  // ----- hits are answers to the same request --------------------------------------------------------

  datatype Stored<R> = Stored(params: Params, value: R)

  function Slots<R>(sets: seq<Stored<R>>, hash: Text -> Text): seq<Slot<R>> {
    seq(|sets|, i requires 0 <= i < |sets| => Slot(hash(KeyText(sets[i].params)), sets[i].value))
  }

  ghost predicate Injective(hash: Text -> Text) {
    forall a, b :: hash(a) == hash(b) ==> a == b
  }

  /**
   * With a hash that does not collide, a hit is the response that was last set for a
   * request equal in every keyed field, up to the order of object keys.
   */
  lemma HitAnswersTheSameRequest<R>(sets: seq<Stored<R>>, max: int, hash: Text -> Text, p: Params, hit: R)
    requires Injective(hash) && WfParams(p) && forall i :: 0 <= i < |sets| ==> WfParams(sets[i].params)
    requires Lookup(Run(Slots(sets, hash), max), hash(KeyText(p))) == Some(hit)
    ensures exists i :: 0 <= i < |sets| && SameRequest(sets[i].params, p) && sets[i].value == hit
                        && forall j :: i < j < |sets| ==> !SameRequest(sets[j].params, p)
  {
    var h, key := Slots(sets, hash), hash(KeyText(p));
    HitExactlyWhenRecent(h, max, key);
    var i := LastSet(h, key);
    forall j | 0 <= j < |sets| ensures h[j].key == key <==> SameRequest(sets[j].params, p) {
      SameKeyExactlyWhenSameRequest(sets[j].params, p);
    }
    assert sets[i].value == hit;
  }
}
