/** The part of a list that a capped buffer keeps, and the last place of a kind in a list. */
module Sequences {

  /** The last `m` elements; everything when there are no more, nothing when `m` is not positive. */
  function TakeLast<T>(s: seq<T>, m: int): seq<T> {
    if |s| <= m then s else if m <= 0 then [] else s[|s| - m..]
  }

  /** One more element at the front of a full buffer is not kept. */
  lemma TakeLastDropsFront<T>(x: T, s: seq<T>, m: int)
    requires |s| >= m
    ensures TakeLast([x] + s, m) == TakeLast(s, m)
  {
    assert 0 < m ==> ([x] + s)[|s| + 1 - m..] == s[|s| - m..];
  }

  ghost predicate Has<T(!new)>(s: seq<T>, kind: T -> bool) {
    exists k :: 0 <= k < |s| && kind(s[k])
  }

  /** Place `k` holds the last element of its kind. */
  predicate LastOf<T>(s: seq<T>, kind: T -> bool, k: int) {
    0 <= k < |s| && kind(s[k]) && forall i :: k < i < |s| ==> !kind(s[i])
  }

  lemma HasLonger<T(!new)>(s: seq<T>, x: T, kind: T -> bool)
    ensures Has(s + [x], kind) <==> Has(s, kind) || kind(x)
  {
    var all := s + [x];
    assert all[|s|] == x && forall k :: 0 <= k < |s| ==> all[k] == s[k];
    if kind(x) {
      assert kind(all[|s|]);
    }
    if Has(s, kind) {
      var k :| 0 <= k < |s| && kind(s[k]);
      assert kind(all[k]);
    }
  }

  lemma LastLonger<T>(s: seq<T>, x: T, kind: T -> bool, k: int)
    requires LastOf(s + [x], kind, k)
    ensures if kind(x) then k == |s| else LastOf(s, kind, k)
  {
    var all := s + [x];
    assert all[|s|] == x && forall i :: 0 <= i < |s| ==> all[i] == s[i];
    if !kind(x) {
      forall i | k < i < |s| ensures !kind(s[i]) {
        assert !kind(all[i]);
      }
    }
  }

  /** Where there is an element of a kind, there is a last one. */
  lemma {:induction false} SomeLast<T(!new)>(s: seq<T>, kind: T -> bool) returns (k: nat)
    requires Has(s, kind)
    ensures LastOf(s, kind, k)
  {
    var init, last := s[..|s| - 1], s[|s| - 1];
    if kind(last) {
      k := |s| - 1;
    } else {
      assert s == init + [last];
      HasLonger(init, last, kind);
      k := SomeLast(init, kind);
    }
  }
}
