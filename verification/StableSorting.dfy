/**
 * Stable sorting, stated without an algorithm, and stable partitioning.
 *
 * An element is ranked by a list of integers compared lexicographically. A list `r`
 * is *the* stable sort of `s` when `r` is ascending by rank and, rank by rank, holds
 * the same elements in the same order as `s`. `StableSortUnique` shows that this
 * leaves exactly one candidate, so the predicate is a complete specification of the
 * host language's `Array.prototype.sort`.
 */
module StableSorting {

  function Filter<T(!new)>(s: seq<T>, p: T -> bool): seq<T> {
    if s == [] then [] else (if p(s[0]) then [s[0]] else []) + Filter(s[1..], p)
  }

  predicate LexLe(a: seq<int>, b: seq<int>) {
    a == [] || (b != [] && (a[0] < b[0] || (a[0] == b[0] && LexLe(a[1..], b[1..]))))
  }

  ghost predicate Sorted<T(!new)>(s: seq<T>, rank: T -> seq<int>) {
    forall i, j :: 0 <= i < j < |s| ==> LexLe(rank(s[i]), rank(s[j]))
  }

  /** The elements of `s` that have rank `k`, in the order of `s`. */
  function Group<T(!new)>(s: seq<T>, rank: T -> seq<int>, k: seq<int>): seq<T> {
    if s == [] then [] else (if rank(s[0]) == k then [s[0]] else []) + Group(s[1..], rank, k)
  }

  ghost predicate IsStableSort<T(!new)>(s: seq<T>, r: seq<T>, rank: T -> seq<int>) {
    && Sorted(r, rank)
    && forall k :: Group(r, rank, k) == Group(s, rank, k)
  }

  /** Puts `x` behind every element that does not rank above it. */
  function Insert<T(!new)>(x: T, s: seq<T>, rank: T -> seq<int>): seq<T> {
    if s == [] then [x]
    else if LexLe(rank(s[0]), rank(x)) then [s[0]] + Insert(x, s[1..], rank)
    else [x] + s
  }

  /** A stable sort, as a left-to-right insertion. */
  function Sort<T(!new)>(s: seq<T>, rank: T -> seq<int>): seq<T> {
    if s == [] then [] else Insert(s[|s| - 1], Sort(s[..|s| - 1], rank), rank)
  }

  function Not<T>(p: T -> bool): T -> bool {
    (x: T) => !p(x)
  }

  /** The elements outside `late` first, then those in `late`, each part in its old order. */
  function Partition<T(!new)>(s: seq<T>, late: T -> bool): seq<T> {
    Filter(s, Not(late)) + Filter(s, late)
  }

  /** `rank` with one more significant digit in front: 1 for the elements in `late`. */
  function Flagged<T(!new)>(late: T -> bool, rank: T -> seq<int>): T -> seq<int> {
    (x: T) => [if late(x) then 1 else 0] + rank(x)
  }

  // ----- the lexicographic order ------------------------------------------------

  lemma LexTotal(a: seq<int>, b: seq<int>)
    ensures LexLe(a, b) || LexLe(b, a)
  {}

  lemma {:induction false} LexAntisymmetric(a: seq<int>, b: seq<int>)
    requires LexLe(a, b) && LexLe(b, a)
    ensures a == b
  {
    if a != [] {
      LexAntisymmetric(a[1..], b[1..]);
      assert a == [a[0]] + a[1..] && b == [b[0]] + b[1..];
    }
  }

  lemma {:induction false} LexTransitive(a: seq<int>, b: seq<int>, c: seq<int>)
    requires LexLe(a, b) && LexLe(b, c)
    ensures LexLe(a, c)
  {
    if a != [] && a[0] == b[0] == c[0] {
      LexTransitive(a[1..], b[1..], c[1..]);
    }
  }

  // ----- filters and groups -------------------------------------------------------

  lemma {:induction false} FilterConcat<T(!new)>(a: seq<T>, b: seq<T>, p: T -> bool)
    ensures Filter(a + b, p) == Filter(a, p) + Filter(b, p)
  {
    if a == [] {
      assert a + b == b;
    } else {
      FilterConcat(a[1..], b, p);
      assert (a + b)[0] == a[0] && (a + b)[1..] == a[1..] + b;
      var head := if p(a[0]) then [a[0]] else [];
      assert head + (Filter(a[1..], p) + Filter(b, p)) == (head + Filter(a[1..], p)) + Filter(b, p);
    }
  }

  lemma {:induction false} FilterMembers<T(!new)>(s: seq<T>, p: T -> bool)
    ensures forall x :: x in Filter(s, p) <==> x in s && p(x)
    ensures |Filter(s, p)| <= |s|
  {
    if s != [] {
      FilterMembers(s[1..], p);
      assert s == [s[0]] + s[1..];
    }
  }

  lemma {:induction false} FilterSorted<T(!new)>(s: seq<T>, p: T -> bool, rank: T -> seq<int>)
    requires Sorted(s, rank)
    ensures Sorted(Filter(s, p), rank)
  {
    if s != [] {
      FilterSorted(s[1..], p, rank);
      FilterMembers(s[1..], p);
      var rest := Filter(s[1..], p);
      forall i | 0 <= i < |rest| ensures LexLe(rank(s[0]), rank(rest[i])) {
        assert rest[i] in rest;
        var j :| 0 <= j < |s[1..]| && s[1..][j] == rest[i];
        assert s[1 + j] == rest[i];
      }
    }
  }

  lemma {:induction false} GroupConcat<T(!new)>(a: seq<T>, b: seq<T>, rank: T -> seq<int>, k: seq<int>)
    ensures Group(a + b, rank, k) == Group(a, rank, k) + Group(b, rank, k)
  {
    if a == [] {
      assert a + b == b;
    } else {
      GroupConcat(a[1..], b, rank, k);
      assert (a + b)[0] == a[0] && (a + b)[1..] == a[1..] + b;
      var head := if rank(a[0]) == k then [a[0]] else [];
      assert head + (Group(a[1..], rank, k) + Group(b, rank, k)) == (head + Group(a[1..], rank, k)) + Group(b, rank, k);
    }
  }

  lemma {:induction false} GroupMembers<T(!new)>(s: seq<T>, rank: T -> seq<int>, k: seq<int>)
    ensures forall x :: x in Group(s, rank, k) <==> x in s && rank(x) == k
  {
    if s != [] {
      GroupMembers(s[1..], rank, k);
      assert s == [s[0]] + s[1..];
    }
  }

  lemma {:induction false} GroupCount<T(!new)>(s: seq<T>, rank: T -> seq<int>, x: T)
    ensures multiset(s)[x] == multiset(Group(s, rank, rank(x)))[x]
  {
    if s != [] {
      GroupCount(s[1..], rank, x);
      assert s == [s[0]] + s[1..];
    }
  }

  /** A group for a flagged rank is the flagged part of the group for the plain rank. */
  lemma {:induction false} GroupFlagged<T(!new)>(s: seq<T>, late: T -> bool, rank: T -> seq<int>, k: seq<int>)
    requires k != []
    ensures Group(s, Flagged(late, rank), k) == Filter(Group(s, rank, k[1..]), (x: T) => (if late(x) then 1 else 0) == k[0])
  {
    var sel := (x: T) => (if late(x) then 1 else 0) == k[0];
    if s != [] {
      GroupFlagged(s[1..], late, rank, k);
      var head := if rank(s[0]) == k[1..] then [s[0]] else [];
      FilterConcat(head, Group(s[1..], rank, k[1..]), sel);
      assert Flagged(late, rank)(s[0]) == k <==> sel(s[0]) && rank(s[0]) == k[1..] by {
        assert k == [k[0]] + k[1..];
      }
    }
  }

  /** Filtering by a flag keeps a group whole or drops it, as its first digit says. */
  lemma {:induction false} GroupOfFiltered<T(!new)>(s: seq<T>, p: T -> bool, late: T -> bool, rank: T -> seq<int>, k: seq<int>)
    requires k != []
    requires forall x :: x in s && rank(x) == k[1..] && (if late(x) then 1 else 0) == k[0] ==> p(x)
    ensures Group(Filter(s, p), Flagged(late, rank), k) == Group(s, Flagged(late, rank), k)
  {
    if s != [] {
      GroupOfFiltered(s[1..], p, late, rank, k);
      var head := if p(s[0]) then [s[0]] else [];
      GroupConcat(head, Filter(s[1..], p), Flagged(late, rank), k);
      if Flagged(late, rank)(s[0]) == k {
        assert k[0] == (if late(s[0]) then 1 else 0) && k[1..] == rank(s[0]);
      }
    }
  }

  lemma FlaggedDigits<T(!new)>(late: T -> bool, rank: T -> seq<int>, x: T)
    ensures Flagged(late, rank)(x) != []
    ensures Flagged(late, rank)(x)[0] == (if late(x) then 1 else 0)
    ensures Flagged(late, rank)(x)[1..] == rank(x)
  {
    assert Flagged(late, rank)(x) == [if late(x) then 1 else 0] + rank(x);
  }

  lemma {:induction false} GroupOfExcluded<T(!new)>(s: seq<T>, rank: T -> seq<int>, k: seq<int>)
    requires forall x :: x in s ==> rank(x) != k
    ensures Group(s, rank, k) == []
  {
    if s != [] {
      GroupOfExcluded(s[1..], rank, k);
    }
  }

  // ----- sorting ------------------------------------------------------------------

  lemma {:induction false} InsertMembers<T(!new)>(x: T, s: seq<T>, rank: T -> seq<int>)
    ensures forall y :: y in Insert(x, s, rank) <==> y == x || y in s
    ensures |Insert(x, s, rank)| == |s| + 1
  {
    if s != [] {
      InsertMembers(x, s[1..], rank);
      assert s == [s[0]] + s[1..];
    }
  }

  lemma {:induction false} InsertIsStable<T(!new)>(x: T, s: seq<T>, rank: T -> seq<int>)
    requires Sorted(s, rank)
    ensures IsStableSort(s + [x], Insert(x, s, rank), rank)
  {
    if s == [] {
    } else if LexLe(rank(s[0]), rank(x)) {
      var rest := Insert(x, s[1..], rank);
      InsertIsStable(x, s[1..], rank);
      InsertMembers(x, s[1..], rank);
      forall i | 0 <= i < |rest| ensures LexLe(rank(s[0]), rank(rest[i])) {
        assert rest[i] in rest;
        if rest[i] != x {
          var j :| 0 <= j < |s[1..]| && s[1..][j] == rest[i];
          assert s[1 + j] == rest[i];
        }
      }
      forall k ensures Group([s[0]] + rest, rank, k) == Group(s + [x], rank, k) {
        assert ([s[0]] + rest)[1..] == rest;
        assert (s + [x])[1..] == s[1..] + [x];
      }
    } else {
      LexTotal(rank(s[0]), rank(x));
      forall j | 0 <= j < |s| ensures LexLe(rank(x), rank(s[j])) && rank(s[j]) != rank(x) {
        if j > 0 {
          LexTransitive(rank(x), rank(s[0]), rank(s[j]));
        }
      }
      forall k ensures Group([x] + s, rank, k) == Group(s + [x], rank, k) {
        GroupConcat([x], s, rank, k);
        GroupConcat(s, [x], rank, k);
        if rank(x) == k {
          GroupOfExcluded(s, rank, k);
        }
      }
    }
  }

  /** The insertion sort meets the specification. */
  lemma {:induction false} SortIsStable<T(!new)>(s: seq<T>, rank: T -> seq<int>)
    ensures IsStableSort(s, Sort(s, rank), rank)
  {
    if s != [] {
      var init, x := s[..|s| - 1], s[|s| - 1];
      SortIsStable(init, rank);
      InsertIsStable(x, Sort(init, rank), rank);
      assert s == init + [x];
      forall k ensures Group(Sort(s, rank), rank, k) == Group(s, rank, k) {
        GroupConcat(Sort(init, rank), [x], rank, k);
        GroupConcat(init, [x], rank, k);
      }
    }
  }

  lemma {:induction false} SameGroupsSameList<T(!new)>(r1: seq<T>, r2: seq<T>, rank: T -> seq<int>)
    requires Sorted(r1, rank) && Sorted(r2, rank)
    requires forall k :: Group(r1, rank, k) == Group(r2, rank, k)
    ensures r1 == r2
  {
    forall x ensures x in r1 <==> x in r2 {
      GroupMembers(r1, rank, rank(x));
      GroupMembers(r2, rank, rank(x));
      assert Group(r1, rank, rank(x)) == Group(r2, rank, rank(x));
    }
    assert |r1| > 0 ==> r1[0] in r1;
    assert |r2| > 0 ==> r2[0] in r2;
    if r1 != [] {
      FirstRankLeads(r1, r2, rank);
      FirstRankLeads(r2, r1, rank);
      LexAntisymmetric(rank(r1[0]), rank(r2[0]));
      var k0 := rank(r1[0]);
      assert Group(r1, rank, k0)[0] == r1[0] && Group(r2, rank, k0)[0] == r2[0];
      forall k ensures Group(r1[1..], rank, k) == Group(r2[1..], rank, k) {
        assert Group(r1, rank, k) == Group(r2, rank, k);
        var drop := if k == k0 then 1 else 0;
        assert Group(r1[1..], rank, k) == Group(r1, rank, k)[drop..];
        assert Group(r2[1..], rank, k) == Group(r2, rank, k)[drop..];
      }
      SameGroupsSameList(r1[1..], r2[1..], rank);
      assert r1 == [r1[0]] + r1[1..] && r2 == [r2[0]] + r2[1..];
    }
  }

  lemma FirstRankLeads<T(!new)>(r1: seq<T>, r2: seq<T>, rank: T -> seq<int>)
    requires r1 != [] && r2 != [] && Sorted(r1, rank)
    requires forall k :: Group(r1, rank, k) == Group(r2, rank, k)
    ensures LexLe(rank(r1[0]), rank(r2[0]))
  {
    var k := rank(r2[0]);
    GroupMembers(r1, rank, k);
    assert r2[0] in Group(r1, rank, k);
    var j :| 0 <= j < |r1| && r1[j] == r2[0];
    if j == 0 {
      LexTotal(k, k);
    }
  }

  /** Only one list is the stable sort of `s`: the specification is complete. */
  lemma StableSortUnique<T(!new)>(s: seq<T>, r1: seq<T>, r2: seq<T>, rank: T -> seq<int>)
    requires IsStableSort(s, r1, rank) && IsStableSort(s, r2, rank)
    ensures r1 == r2
  {
    forall k ensures Group(r1, rank, k) == Group(r2, rank, k) {
      assert Group(r1, rank, k) == Group(s, rank, k);
    }
    SameGroupsSameList(r1, r2, rank);
  }

  /** A stable sort neither loses, adds nor duplicates an element. */
  lemma StableSortIsPermutation<T(!new)>(s: seq<T>, r: seq<T>, rank: T -> seq<int>)
    requires IsStableSort(s, r, rank)
    ensures multiset(s) == multiset(r)
  {
    forall x ensures multiset(s)[x] == multiset(r)[x] {
      GroupCount(s, rank, x);
      GroupCount(r, rank, x);
    }
  }

  /** Partitioning a stably sorted list sorts it stably by the flag first. */
  lemma PartitionRefinesSort<T(!new)>(s: seq<T>, r: seq<T>, late: T -> bool, rank: T -> seq<int>)
    requires IsStableSort(s, r, rank)
    ensures IsStableSort(s, Partition(r, late), Flagged(late, rank))
  {
    var early := Not(late);
    var front, back := Filter(r, early), Filter(r, late);
    var flagged := Flagged(late, rank);
    FilterSorted(r, early, rank);
    FilterSorted(r, late, rank);
    FilterMembers(r, early);
    FilterMembers(r, late);
    var part := front + back;
    forall x ensures flagged(x) != [] && flagged(x)[0] == (if late(x) then 1 else 0) && flagged(x)[1..] == rank(x) {
      FlaggedDigits(late, rank, x);
    }
    forall i, j | 0 <= i < j < |part| ensures LexLe(flagged(part[i]), flagged(part[j])) {
      var a, b := flagged(part[i]), flagged(part[j]);
      assert a != [] && a[0] == (if late(part[i]) then 1 else 0) && a[1..] == rank(part[i]);
      assert b != [] && b[0] == (if late(part[j]) then 1 else 0) && b[1..] == rank(part[j]);
      assert i < |front| ==> part[i] in front && part[i] == front[i];
      assert j < |front| ==> part[j] in front && part[j] == front[j];
      assert i >= |front| ==> part[i] in back && part[i] == back[i - |front|];
      assert j >= |front| ==> part[j] in back && part[j] == back[j - |front|];
    }
    forall k ensures Group(part, flagged, k) == Group(s, flagged, k) {
      GroupConcat(front, back, flagged, k);
      if k == [] || (k[0] != 0 && k[0] != 1) {
        GroupOfExcluded(front, flagged, k);
        GroupOfExcluded(back, flagged, k);
        GroupOfExcluded(s, flagged, k);
      } else {
        if k[0] == 0 {
          GroupOfFiltered(r, early, late, rank, k);
          GroupOfExcluded(back, flagged, k);
        } else {
          GroupOfFiltered(r, late, late, rank, k);
          GroupOfExcluded(front, flagged, k);
        }
        GroupFlagged(r, late, rank, k);
        GroupFlagged(s, late, rank, k);
        assert Group(r, rank, k[1..]) == Group(s, rank, k[1..]);
      }
    }
  }

  /** Sorting a sorted list changes nothing. */
  lemma SortOfSorted<T(!new)>(s: seq<T>, rank: T -> seq<int>)
    requires Sorted(s, rank)
    ensures Sort(s, rank) == s
  {
    SortIsStable(s, rank);
    StableSortUnique(s, Sort(s, rank), s, rank);
  }
}
