/**
 * The printer's strings, as any JSON reader sees them: reading gives the string back, and the
 * text is well-formed UTF-16 even where the string is not (RFC 8259, section 7).
 */
module JsonStrings {
  import opened Wrappers
  import opened CanonicalJson

  /** What a short escape stands for, by its letter. */
  function Letter(c: nat): Option<nat> {
    if c in {'"' as int, '\\' as int, '/' as int} then Some(c)
    else if c == 'b' as int then Some(0x08)
    else if c == 'f' as int then Some(0x0C)
    else if c == 'n' as int then Some(0x0A)
    else if c == 'r' as int then Some(0x0D)
    else if c == 't' as int then Some(0x09)
    else None
  }

  function HexValue(c: nat): Option<nat> {
    if '0' as int <= c <= '9' as int then Some(c - '0' as int)
    else if 'a' as int <= c <= 'f' as int then Some(c - 'a' as int + 10)
    else if 'A' as int <= c <= 'F' as int then Some(c - 'A' as int + 10)
    else None
  }

  function Prepend(c: nat, rest: Option<Text>): Option<Text> {
    match rest case Some(t) => Some([c] + t) case None => None
  }

  /** The four digits of a long escape. */
  function CodeOf(a: nat, b: nat, c: nat, d: nat): Option<nat> {
    match (HexValue(a), HexValue(b), HexValue(c), HexValue(d))
    case (Some(w), Some(x), Some(y), Some(z)) => Some(((w * 16 + x) * 16 + y) * 16 + z)
    case _ => None
  }

  /** Reads what stands between the quotes. */
  function ReadString(t: Text): Option<Text>
    decreases |t|
  {
    if t == [] then Some([])
    else if t[0] == '"' as int || t[0] < 0x20 then None
    else if t[0] != '\\' as int then Prepend(t[0], ReadString(t[1..]))
    else if |t| >= 6 && t[1] == 'u' as int then
      match CodeOf(t[2], t[3], t[4], t[5]) case Some(c) => Prepend(c, ReadString(t[6..])) case None => None
    else if |t| >= 2 && Letter(t[1]).Some? then Prepend(Letter(t[1]).value, ReadString(t[2..]))
    else None
  }

  lemma HexDigitReads(d: nat)
    requires d < 16
    ensures HexValue(HexDigit(d)) == Some(d)
  {
  }

  lemma Hex4Reads(c: nat)
    requires c < 0x10000
    ensures var h := Hex4(c); CodeOf(h[0], h[1], h[2], h[3]) == Some(c)
  {
    HexDigits(c);
    HexDigitReads(c / 4096);
    HexDigitReads(c / 256 % 16);
    HexDigitReads(c / 16 % 16);
    HexDigitReads(c % 16);
  }

  /** One unit, printed in any of the three ways, reads as itself. */
  lemma UnitReads(c: nat, lone: bool, rest: Text)
    ensures ReadString(UnitText(c, lone) + rest) == Prepend(c, ReadString(rest))
  {
    var u := UnitText(c, lone);
    var t := u + rest;
    if ShortEscape(c) != 0 {
      assert t[2..] == rest;
    } else if |u| == 1 {
      assert t[1..] == rest;
    } else {
      Hex4Reads(c);
      assert u == [BACKSLASH, 117] + Hex4(c);
      assert t[2] == Hex4(c)[0] && t[3] == Hex4(c)[1] && t[4] == Hex4(c)[2] && t[5] == Hex4(c)[3];
      assert t[6..] == rest;
    }
  }

  lemma {:induction false} EscapedReads(previous: nat, s: Text)
    ensures ReadString(Escaped(previous, s)) == Some(s)
    decreases |s|
  {
    if s != [] {
      EscapedReads(s[0], s[1..]);
      UnitReads(s[0], Lone(previous, s[0], s[1..]), Escaped(s[0], s[1..]));
      assert s == [s[0]] + s[1..];
    }
  }

  /** Every string, lone surrogates and control characters included, is read back from its text. */
  lemma QuotedReadsBack(s: Text)
    ensures var t := Quoted(s);
            |t| >= 2 && t[0] == '"' as int && t[|t| - 1] == '"' as int && ReadString(t[1..|t| - 1]) == Some(s)
  {
    var inner := Escaped(0, s);
    EscapedReads(0, s);
    assert Quoted(s)[1..|Quoted(s)| - 1] == inner;
  }

  predicate High(c: nat) {
    55296 <= c <= 56319
  }

  predicate Low(c: nat) {
    56320 <= c <= 57343
  }

  /** No surrogate stands alone, given what stands before the text. */
  predicate Paired(previous: nat, t: Text) {
    && (forall i :: 0 <= i < |t| && High(t[i]) ==> i + 1 < |t| && Low(t[i + 1]))
    && (t != [] && Low(t[0]) ==> High(previous))
    && (forall i :: 1 <= i < |t| && Low(t[i]) ==> High(t[i - 1]))
  }

  /** An escape is plain ASCII. */
  lemma EscapeIsPlain(c: nat, lone: bool)
    requires UnitText(c, lone) != [c]
    ensures forall i :: 0 <= i < |UnitText(c, lone)| ==> UnitText(c, lone)[i] < 128
  {
    if ShortEscape(c) == 0 {
      HexDigits(c);
    }
  }

  /** A unit that is not part of a pair is escaped if it is a surrogate. */
  lemma LoneIsEscaped(previous: nat, s: Text)
    requires s != []
    ensures var c := s[0];
            && (UnitText(c, Lone(previous, c, s[1..])) == [c] && High(c) ==> |s| > 1 && Low(s[1]))
            && (UnitText(c, Lone(previous, c, s[1..])) == [c] && Low(c) ==> High(previous))
            && (Low(c) && High(previous) ==> UnitText(c, Lone(previous, c, s[1..])) == [c])
  {
  }

  lemma {:induction false} EscapedIsPaired(previous: nat, s: Text)
    ensures Paired(previous, Escaped(previous, s))
    ensures s != [] && Low(s[0]) && High(previous) ==> Escaped(previous, s) != [] && Escaped(previous, s)[0] == s[0]
    decreases |s|
  {
    if s != [] {
      var c, u, rest := s[0], UnitText(s[0], Lone(previous, s[0], s[1..])), Escaped(s[0], s[1..]);
      EscapedIsPaired(c, s[1..]);
      LoneIsEscaped(previous, s);
      if u != [c] {
        EscapeIsPlain(c, Lone(previous, c, s[1..]));
      }
      UnitInFront(previous, c, u, rest, s[1..]);
    }
  }

  lemma UnitInFront(previous: nat, c: nat, u: Text, rest: Text, tail: Text)
    requires Paired(c, rest) && u != []
    requires u == [c] || forall i :: 0 <= i < |u| ==> u[i] < 128
    requires u == [c] && High(c) ==> rest != [] && Low(rest[0])
    requires u == [c] && Low(c) ==> High(previous)
    requires u != [c] && High(c) ==> rest == [] || !Low(rest[0])
    ensures Paired(previous, u + rest)
  {
    var t := u + rest;
    forall i | 0 <= i < |t| && High(t[i]) ensures i + 1 < |t| && Low(t[i + 1]) {
      if i >= |u| {
        assert t[i] == rest[i - |u|];
      }
    }
    forall i | 1 <= i < |t| && Low(t[i]) ensures High(t[i - 1]) {
      if i > |u| {
        assert t[i] == rest[i - |u|] && t[i - 1] == rest[i - |u| - 1];
      } else if i == |u| {
        assert t[i] == rest[0] && t[i - 1] == u[i - 1];
      }
    }
  }

  /** The text of any string is well-formed: no surrogate stands alone in it. */
  lemma QuotedIsWellFormed(s: Text)
    ensures Paired(0, Quoted(s))
  {
    EscapedIsPaired(0, s);
    var inner := Escaped(0, s);
    var t := Quoted(s);
    assert forall i :: 1 <= i < |t| - 1 ==> t[i] == inner[i - 1];
    assert t[0] == QUOTE && t[|t| - 1] == QUOTE;
  }
}
