/**
 * The key-sorted JSON text behind the response cache.
 *
 * Texts are sequences of UTF-16 code units. A number is represented by the text that the
 * runtime prints for it, which is different for different finite numbers.
 */
module CanonicalJson {
  import opened StableSorting

  type Text = seq<nat>

  /** `undefined` and the non-finite numbers are not JSON, but requests can hold them. */
  datatype Value =
    | Undefined
    | Null
    | NonFinite
    | Bool(b: bool)
    | Num(digits: Text)
    | Str(s: Text)
    | Arr(items: seq<Value>)
    | Obj(members: seq<Member>)

  /** Members are in insertion order. */
  datatype Member = Member(key: Text, value: Value)

  function Units(s: string): Text {
    seq(|s|, i requires 0 <= i < |s| => s[i] as int)
  }

  const COMMA: nat := 44
  const COLON: nat := 58
  const QUOTE: nat := 34
  const BACKSLASH: nat := 92
  const OPEN_LIST: nat := 91
  const CLOSE_LIST: nat := 93
  const OPEN_OBJECT: nat := 123
  const CLOSE_OBJECT: nat := 125

  // ----- strings ---------------------------------------------------------------------------

  predicate HighSurrogate(c: nat) {
    0xD800 <= c < 0xDC00
  }

  predicate LowSurrogate(c: nat) {
    0xDC00 <= c < 0xE000
  }

  function HexDigit(d: nat): nat
    requires d < 16
  {
    if d < 10 then 48 + d else 87 + d
  }

  function Hex4(c: nat): Text
    requires c < 0x10000
  {
    [HexDigit(c / 4096), HexDigit(c / 256 % 16), HexDigit(c / 16 % 16), HexDigit(c % 16)]
  }

  /** The letter of a two-character escape. */
  function ShortEscape(c: nat): nat {
    if c == QUOTE then QUOTE
    else if c == BACKSLASH then BACKSLASH
    else if c == 8 then 98
    else if c == 9 then 116
    else if c == 10 then 110
    else if c == 12 then 102
    else if c == 13 then 114
    else 0
  }

  /** A code unit inside a string; `lone` says that it is a surrogate without its partner. */
  function UnitText(c: nat, lone: bool): Text {
    if ShortEscape(c) != 0 then [BACKSLASH, ShortEscape(c)]
    else if c < 0x20 || (lone && 0xD800 <= c < 0xE000) then [BACKSLASH, 117] + Hex4(c)
    else [c]
  }

  predicate Lone(previous: nat, c: nat, rest: Text) {
    || (HighSurrogate(c) && (rest == [] || !LowSurrogate(rest[0])))
    || (LowSurrogate(c) && !HighSurrogate(previous))
  }

  function Escaped(previous: nat, s: Text): Text
    decreases |s|
  {
    if s == [] then [] else UnitText(s[0], Lone(previous, s[0], s[1..])) + Escaped(s[0], s[1..])
  }

  function Quoted(s: Text): Text {
    [QUOTE] + Escaped(0, s) + [QUOTE]
  }

  // ----- the printer -------------------------------------------------------------------------

  function Keys(ms: seq<Member>): seq<Text> {
    if ms == [] then [] else [ms[0].key] + Keys(ms[1..])
  }

  function Itself(): Text -> seq<int> {
    (t: Text) => t
  }

  /** Keys in code unit order. */
  function SortedKeys(ms: seq<Member>): seq<Text> {
    Sort(Keys(ms), Itself())
  }

  /** Where a key stands; the number of members when there is none. */
  function Find(ms: seq<Member>, key: Text): (i: nat)
    ensures i <= |ms|
    ensures i < |ms| ==> ms[i].key == key
    ensures forall j :: 0 <= j < i ==> ms[j].key != key
  {
    if ms == [] || ms[0].key == key then 0 else 1 + Find(ms[1..], key)
  }

  function Scalar(v: Value): Text
    requires !v.Arr? && !v.Obj?
  {
    match v
    case Undefined => []
    case Null => Units("null")
    case NonFinite => Units("null")
    case Bool(b) => if b then Units("true") else Units("false")
    case Num(digits) => digits
    case Str(s) => Quoted(s)
  }

  /** `stableStringify`; `undefined` prints nothing, which is how `join` renders it. */
  function Stringify(v: Value): Text
    decreases v, 0
  {
    match v
    case Arr(items) => [OPEN_LIST] + StringifyItems(items) + [CLOSE_LIST]
    case Obj(ms) => [OPEN_OBJECT] + StringifyEntries(SortedKeys(ms), ms) + [CLOSE_OBJECT]
    case _ => Scalar(v)
  }

  function StringifyItems(items: seq<Value>): Text
    decreases items, 0
  {
    if items == [] then []
    else if |items| == 1 then Stringify(items[0])
    else Stringify(items[0]) + [COMMA] + StringifyItems(items[1..])
  }

  /** One entry for each key, looked up in the object. */
  function StringifyEntries(keys: seq<Text>, ms: seq<Member>): Text
    decreases ms, |keys|
  {
    if keys == [] then []
    else
      var i := Find(ms, keys[0]);
      var value := if i == |ms| || ms[i].value.Undefined? then Units("undefined") else Stringify(ms[i].value);
      var entry := Quoted(keys[0]) + [COLON] + value;
      if |keys| == 1 then entry else entry + [COMMA] + StringifyEntries(keys[1..], ms)
  }

  // ----- canonical forms ---------------------------------------------------------------------

  /** What the text depends on: members by key, non-finite numbers as null, `[undefined]` as `[]`. */
  function Canon(v: Value): Value
    decreases v, 0
  {
    match v
    case NonFinite => Null
    case Arr(items) => Arr(if items == [Undefined] then [] else CanonItems(items))
    case Obj(ms) => Obj(CanonMembers(SortedKeys(ms), ms))
    case _ => v
  }

  function CanonItems(items: seq<Value>): (r: seq<Value>)
    ensures |r| == |items|
    decreases items, 0
  {
    if items == [] then [] else [Canon(items[0])] + CanonItems(items[1..])
  }

  function CanonMembers(keys: seq<Text>, ms: seq<Member>): (r: seq<Member>)
    ensures |r| == |keys|
    decreases ms, |keys|
  {
    if keys == [] then []
    else
      var i := Find(ms, keys[0]);
      [Member(keys[0], if i == |ms| then Undefined else Canon(ms[i].value))] + CanonMembers(keys[1..], ms)
  }

  /** Prints members in the order they have. */
  function Print(v: Value): Text
    decreases v, 0
  {
    match v
    case Arr(items) => [OPEN_LIST] + PrintItems(items) + [CLOSE_LIST]
    case Obj(ms) => [OPEN_OBJECT] + PrintMembers(ms) + [CLOSE_OBJECT]
    case _ => Scalar(v)
  }

  function PrintItems(items: seq<Value>): Text
    decreases items, 0
  {
    if items == [] then []
    else if |items| == 1 then Print(items[0])
    else Print(items[0]) + [COMMA] + PrintItems(items[1..])
  }

  function PrintMember(m: Member): Text
    decreases m, 1
  {
    Quoted(m.key) + [COLON] + if m.value.Undefined? then Units("undefined") else Print(m.value)
  }

  function PrintMembers(ms: seq<Member>): Text
    decreases ms, 0
  {
    if ms == [] then []
    else if |ms| == 1 then PrintMember(ms[0])
    else PrintMember(ms[0]) + [COMMA] + PrintMembers(ms[1..])
  }

  /** The key-sorting printer is the plain printer on canonical forms. */
  lemma {:induction false} StringifyIsPrintOfCanon(v: Value)
    ensures Stringify(v) == Print(Canon(v))
    decreases v, 0
  {
    match v
    case Arr(items) => ItemsArePrints(items);
    case Obj(ms) => EntriesArePrints(SortedKeys(ms), ms);
    case _ =>
  }

  lemma {:induction false} ItemsArePrints(items: seq<Value>)
    ensures StringifyItems(items) == PrintItems(CanonItems(items))
    ensures items == [Undefined] ==> StringifyItems(items) == []
    decreases items, 0
  {
    if items != [] {
      StringifyIsPrintOfCanon(items[0]);
      ItemsArePrints(items[1..]);
      assert CanonItems(items)[1..] == CanonItems(items[1..]);
    }
  }

  lemma {:induction false} EntriesArePrints(keys: seq<Text>, ms: seq<Member>)
    ensures StringifyEntries(keys, ms) == PrintMembers(CanonMembers(keys, ms))
    decreases ms, |keys|
  {
    if keys != [] {
      var i := Find(ms, keys[0]);
      if i < |ms| {
        StringifyIsPrintOfCanon(ms[i].value);
      }
      EntriesArePrints(keys[1..], ms);
      assert CanonMembers(keys, ms)[1..] == CanonMembers(keys[1..], ms);
    }
  }

  // ----- the printer is injective on canonical forms --------------------------------------

  /** Number texts: `-` or a digit, then the characters that numbers are made of. */
  predicate NumberUnit(c: nat) {
    48 <= c <= 57 || c == 43 || c == 45 || c == 46 || c == 101
  }

  ghost predicate NumberText(t: Text) {
    t != [] && (48 <= t[0] <= 57 || t[0] == 45) && forall i :: 0 <= i < |t| ==> NumberUnit(t[i])
  }

  ghost predicate DistinctKeys(ms: seq<Member>) {
    forall i, j :: 0 <= i < j < |ms| ==> ms[i].key != ms[j].key
  }

  /** What the host language guarantees of a value: number texts, and one member for a key. */
  ghost predicate Wf(v: Value) {
    match v
    case Num(digits) => NumberText(digits)
    case Arr(items) => forall i :: 0 <= i < |items| ==> Wf(items[i])
    case Obj(ms) => DistinctKeys(ms) && forall i :: 0 <= i < |ms| ==> Wf(ms[i].value)
    case _ => true
  }

  ghost predicate Canonical(v: Value) {
    match v
    case NonFinite => false
    case Num(digits) => NumberText(digits)
    case Arr(items) => items != [Undefined] && forall i :: 0 <= i < |items| ==> Canonical(items[i])
    case Obj(ms) => forall i :: 0 <= i < |ms| ==> Canonical(ms[i].value)
    case _ => true
  }

  /** A value is followed by nothing, or by what ends it. */
  predicate Delimited(rest: Text) {
    rest == [] || rest[0] in {COMMA, CLOSE_LIST, CLOSE_OBJECT}
  }

  lemma HexDigits(c: nat)
    requires c < 0x10000
    ensures c / 4096 < 16
    ensures c == c / 4096 * 4096 + c / 256 % 16 * 256 + c / 16 % 16 * 16 + c % 16
  {
    var a := c / 16;
    var b := a / 16;
    assert a == b * 16 + a % 16 && c == a * 16 + c % 16;
    assert b == c / 256 && b / 16 == c / 4096;
    assert b == b / 16 * 16 + b % 16;
  }

  lemma HexDigitUnique(d: nat, e: nat)
    requires d < 16 && e < 16 && HexDigit(d) == HexDigit(e)
    ensures d == e
  {
  }

  lemma HexDigitsAgree(c: nat, d: nat)
    requires c < 0x10000 && d < 0x10000 && Hex4(c) == Hex4(d)
    ensures c == d
  {
    HexDigits(c);
    HexDigits(d);
    assert Hex4(c)[0] == Hex4(d)[0] && Hex4(c)[1] == Hex4(d)[1] && Hex4(c)[2] == Hex4(d)[2] && Hex4(c)[3] == Hex4(d)[3];
    HexDigitUnique(c / 4096, d / 4096);
    HexDigitUnique(c / 256 % 16, d / 256 % 16);
    HexDigitUnique(c / 16 % 16, d / 16 % 16);
    HexDigitUnique(c % 16, d % 16);
  }

  lemma ConsUnique(h: nat, x: Text, k: nat, y: Text)
    requires [h] + x == [k] + y
    ensures h == k && x == y
  {
    assert ([h] + x)[0] == h && ([k] + y)[0] == k;
    assert x == ([h] + x)[1..] && y == ([k] + y)[1..];
  }

  lemma Regroup(p: Text, c: nat, q: Text, r: Text)
    ensures p + [c] + q + r == p + ([c] + (q + r))
  {
  }

  /** A unit's text says which unit it is, whatever follows. */
  lemma UnitTextUnique(c: nat, l: bool, a: Text, d: nat, m: bool, b: Text)
    requires UnitText(c, l) + a == UnitText(d, m) + b
    ensures c == d && a == b
  {
    var x, y := UnitText(c, l) + a, UnitText(d, m) + b;
    assert x[0] == y[0];
    assert |UnitText(c, l)| > 1 <==> x[0] == BACKSLASH;
    assert |UnitText(d, m)| > 1 <==> y[0] == BACKSLASH;
    if |UnitText(c, l)| > 1 {
      assert x[1] == y[1];
      if |UnitText(c, l)| > 2 {
        assert UnitText(c, l) == [BACKSLASH, 117] + Hex4(c) && UnitText(d, m) == [BACKSLASH, 117] + Hex4(d);
        assert x[2..6] == Hex4(c) && y[2..6] == Hex4(d);
        HexDigitsAgree(c, d);
      }
    }
    assert a == x[|UnitText(c, l)|..] && b == y[|UnitText(d, m)|..];
  }

  /** No unit's text starts with a quotation mark. */
  lemma EscapedHead(p: nat, s: Text, rest: Text)
    requires s != []
    ensures (Escaped(p, s) + rest)[0] != QUOTE
  {
    var u := UnitText(s[0], Lone(p, s[0], s[1..]));
    assert Escaped(p, s)[0] == u[0];
    assert u[0] != QUOTE;
  }

  lemma EscapedSplit(p: nat, s: Text, rest: Text)
    requires s != []
    ensures Escaped(p, s) + rest == UnitText(s[0], Lone(p, s[0], s[1..])) + (Escaped(s[0], s[1..]) + rest)
  {
  }

  lemma {:induction false} EscapedUnique(p: nat, s: Text, a: Text, q: nat, t: Text, b: Text)
    requires Escaped(p, s) + ([QUOTE] + a) == Escaped(q, t) + ([QUOTE] + b)
    ensures s == t && a == b
    decreases |s|
  {
    var x, y := [QUOTE] + a, [QUOTE] + b;
    assert [] + x == x && [] + y == y;
    if s == [] && t == [] {
      ConsUnique(QUOTE, a, QUOTE, b);
    } else if s == [] {
      EscapedHead(q, t, y);
    } else if t == [] {
      EscapedHead(p, s, x);
    } else {
      EscapedSplit(p, s, x);
      EscapedSplit(q, t, y);
      UnitTextUnique(s[0], Lone(p, s[0], s[1..]), Escaped(s[0], s[1..]) + x, t[0], Lone(q, t[0], t[1..]), Escaped(t[0], t[1..]) + y);
      EscapedUnique(s[0], s[1..], a, t[0], t[1..], b);
      assert s == [s[0]] + s[1..] && t == [t[0]] + t[1..];
    }
  }

  lemma QuotedSplit(s: Text, rest: Text)
    ensures Quoted(s) + rest == [QUOTE] + (Escaped(0, s) + ([QUOTE] + rest))
  {
  }

  lemma QuotedUnique(s: Text, a: Text, t: Text, b: Text)
    requires Quoted(s) + a == Quoted(t) + b
    ensures s == t && a == b
  {
    QuotedSplit(s, a);
    QuotedSplit(t, b);
    ConsUnique(QUOTE, Escaped(0, s) + ([QUOTE] + a), QUOTE, Escaped(0, t) + ([QUOTE] + b));
    EscapedUnique(0, s, a, 0, t, b);
  }

  /** How long the run of number characters at the front is. */
  function Run(t: Text): nat {
    if t == [] || !NumberUnit(t[0]) then 0 else 1 + Run(t[1..])
  }

  lemma {:induction false} RunOfNumber(s: Text, rest: Text)
    requires (forall i :: 0 <= i < |s| ==> NumberUnit(s[i])) && Delimited(rest)
    ensures Run(s + rest) == |s|
  {
    if s == [] {
      assert s + rest == rest;
    } else {
      assert (s + rest)[1..] == s[1..] + rest;
      RunOfNumber(s[1..], rest);
    }
  }

  lemma NumberUnique(s: Text, a: Text, t: Text, b: Text)
    requires NumberText(s) && NumberText(t) && Delimited(a) && Delimited(b)
    requires s + a == t + b
    ensures s == t && a == b
  {
    var x, y := s + a, t + b;
    RunOfNumber(s, a);
    RunOfNumber(t, b);
    assert s == x[..|s|] && t == y[..|t|] && a == x[|s|..] && b == y[|t|..];
  }

  /** The first unit of a printed value. */
  function Head(v: Value): nat
    requires v.Num? ==> v.digits != []
  {
    match v
    case Undefined => COMMA
    case Null => 110
    case NonFinite => 110
    case Bool(b) => if b then 116 else 102
    case Num(digits) => digits[0]
    case Str(_) => QUOTE
    case Arr(_) => OPEN_LIST
    case Obj(_) => OPEN_OBJECT
  }

  lemma PrintHead(v: Value, rest: Text)
    requires Canonical(v) && !v.Undefined?
    ensures (Print(v) + rest)[0] == Head(v)
    ensures !Delimited(Print(v) + rest)
  {
    assert Print(v)[0] == Head(v);
  }

  /** Literals and strings; `undefined` prints nothing, so what follows it must be a delimiter. */
  lemma ScalarUnique(v: Value, a: Text, w: Value, b: Text)
    requires Canonical(v) && Canonical(w) && Delimited(a) && Delimited(b)
    requires !v.Arr? && !v.Obj?
    requires Print(v) + a == Print(w) + b
    ensures v == w && a == b
  {
    if v.Undefined? || w.Undefined? {
      assert [] + a == a && [] + b == b;
      if !v.Undefined? {
        PrintHead(v, a);
      }
      if !w.Undefined? {
        PrintHead(w, b);
      }
    } else {
      PrintHead(v, a);
      PrintHead(w, b);
      assert Head(v) == Head(w);
      if v.Num? {
        NumberUnique(v.digits, a, w.digits, b);
      } else if v.Str? {
        QuotedUnique(v.s, a, w.s, b);
      } else {
        assert v == w && Print(v) == Print(w);
        assert a == (Print(v) + a)[|Print(v)|..] && b == (Print(w) + b)[|Print(w)|..];
      }
    }
  }

  lemma {:induction false} PrintUnique(v: Value, a: Text, w: Value, b: Text)
    requires Canonical(v) && Canonical(w) && Delimited(a) && Delimited(b)
    requires Print(v) + a == Print(w) + b
    ensures v == w && a == b
    decreases v, 2
  {
    if !v.Arr? && !v.Obj? {
      ScalarUnique(v, a, w, b);
    } else if !w.Arr? && !w.Obj? {
      ScalarUnique(w, b, v, a);
    } else {
      PrintHead(v, a);
      PrintHead(w, b);
      if v.Arr? {
        ArrSplit(v.items, a);
        ArrSplit(w.items, b);
        ConsUnique(OPEN_LIST, PrintItems(v.items) + ([CLOSE_LIST] + a), OPEN_LIST, PrintItems(w.items) + ([CLOSE_LIST] + b));
        ItemsUnique(v.items, a, w.items, b);
      } else {
        ObjSplit(v.members, a);
        ObjSplit(w.members, b);
        ConsUnique(OPEN_OBJECT, PrintMembers(v.members) + ([CLOSE_OBJECT] + a), OPEN_OBJECT, PrintMembers(w.members) + ([CLOSE_OBJECT] + b));
        MembersUnique(v.members, a, w.members, b);
      }
    }
  }

  lemma ArrSplit(items: seq<Value>, a: Text)
    ensures Print(Arr(items)) + a == [OPEN_LIST] + (PrintItems(items) + ([CLOSE_LIST] + a))
  {
    var t := PrintItems(items);
    assert [OPEN_LIST] + t + [CLOSE_LIST] + a == [OPEN_LIST] + (t + ([CLOSE_LIST] + a));
  }

  lemma ObjSplit(ms: seq<Member>, a: Text)
    ensures Print(Obj(ms)) + a == [OPEN_OBJECT] + (PrintMembers(ms) + ([CLOSE_OBJECT] + a))
  {
    var t := PrintMembers(ms);
    assert [OPEN_OBJECT] + t + [CLOSE_OBJECT] + a == [OPEN_OBJECT] + (t + ([CLOSE_OBJECT] + a));
  }

  /** An empty list closes at once; no other list but `[undefined]` does. */
  lemma ListHead(items: seq<Value>, rest: Text)
    requires items != [] && items != [Undefined] && Canonical(items[0])
    ensures |PrintItems(items)| > 0 && (PrintItems(items) + rest)[0] != CLOSE_LIST
  {
    if !items[0].Undefined? {
      PrintHead(items[0], []);
      assert Print(items[0]) + [] == Print(items[0]);
    }
  }

  /** What follows the first item of a list. */
  function ItemRest(items: seq<Value>, a: Text): Text
    requires items != []
  {
    if |items| == 1 then [CLOSE_LIST] + a else [COMMA] + (PrintItems(items[1..]) + ([CLOSE_LIST] + a))
  }

  lemma ItemSplit(items: seq<Value>, a: Text)
    requires items != []
    ensures PrintItems(items) + ([CLOSE_LIST] + a) == Print(items[0]) + ItemRest(items, a)
    ensures Delimited(ItemRest(items, a))
  {
    if |items| > 1 {
      Regroup(Print(items[0]), COMMA, PrintItems(items[1..]), [CLOSE_LIST] + a);
    }
  }

  lemma {:induction false} ItemsUnique(vs: seq<Value>, a: Text, ws: seq<Value>, b: Text)
    requires forall i :: 0 <= i < |vs| ==> Canonical(vs[i])
    requires forall i :: 0 <= i < |ws| ==> Canonical(ws[i])
    requires (vs == [] ==> ws != [Undefined]) && (ws == [] ==> vs != [Undefined])
    requires Delimited(a) && Delimited(b)
    requires PrintItems(vs) + ([CLOSE_LIST] + a) == PrintItems(ws) + ([CLOSE_LIST] + b)
    ensures vs == ws && a == b
    decreases vs, 1
  {
    var x, y := [CLOSE_LIST] + a, [CLOSE_LIST] + b;
    assert [] + x == x && [] + y == y;
    if vs == [] && ws == [] {
      ConsUnique(CLOSE_LIST, a, CLOSE_LIST, b);
    } else if vs == [] {
      ListHead(ws, y);
    } else if ws == [] {
      ListHead(vs, x);
    } else {
      ItemSplit(vs, a);
      ItemSplit(ws, b);
      PrintUnique(vs[0], ItemRest(vs, a), ws[0], ItemRest(ws, b));
      ItemRestUnique(vs, a, ws, b);
      assert vs == [vs[0]] + vs[1..] && ws == [ws[0]] + ws[1..];
    }
  }

  lemma {:induction false} ItemRestUnique(vs: seq<Value>, a: Text, ws: seq<Value>, b: Text)
    requires vs != [] && ws != []
    requires forall i :: 0 <= i < |vs| ==> Canonical(vs[i])
    requires forall i :: 0 <= i < |ws| ==> Canonical(ws[i])
    requires Delimited(a) && Delimited(b) && ItemRest(vs, a) == ItemRest(ws, b)
    ensures vs[1..] == ws[1..] && a == b
    decreases vs, 0
  {
    assert ItemRest(vs, a)[0] == ItemRest(ws, b)[0];
    if |vs| == 1 {
      ConsUnique(CLOSE_LIST, a, CLOSE_LIST, b);
    } else {
      ConsUnique(COMMA, PrintItems(vs[1..]) + ([CLOSE_LIST] + a), COMMA, PrintItems(ws[1..]) + ([CLOSE_LIST] + b));
      ItemsUnique(vs[1..], a, ws[1..], b);
    }
  }

  function MemberValueText(v: Value): Text {
    if v.Undefined? then Units("undefined") else Print(v)
  }

  lemma {:induction false} MemberUnique(m: Member, a: Text, n: Member, b: Text)
    requires Canonical(m.value) && Canonical(n.value) && Delimited(a) && Delimited(b)
    requires PrintMember(m) + a == PrintMember(n) + b
    ensures m == n && a == b
    decreases m, 3
  {
    var x, y := MemberValueText(m.value), MemberValueText(n.value);
    Regroup(Quoted(m.key), COLON, x, a);
    Regroup(Quoted(n.key), COLON, y, b);
    QuotedUnique(m.key, [COLON] + (x + a), n.key, [COLON] + (y + b));
    ConsUnique(COLON, x + a, COLON, y + b);
    MemberValueUnique(m.value, a, n.value, b);
  }

  lemma UndefinedHead(rest: Text)
    ensures (Units("undefined") + rest)[0] == 117
    ensures rest == (Units("undefined") + rest)[9..]
  {
  }

  lemma {:induction false} MemberValueUnique(v: Value, a: Text, w: Value, b: Text)
    requires Canonical(v) && Canonical(w) && Delimited(a) && Delimited(b)
    requires MemberValueText(v) + a == MemberValueText(w) + b
    ensures v == w && a == b
    decreases v, 3
  {
    UndefinedHead(a);
    UndefinedHead(b);
    if !v.Undefined? && !w.Undefined? {
      PrintUnique(v, a, w, b);
    } else if !v.Undefined? {
      PrintHead(v, a);
    } else if !w.Undefined? {
      PrintHead(w, b);
    }
  }

  /** What follows the first member of an object. */
  function MemberRest(ms: seq<Member>, a: Text): Text
    requires ms != []
  {
    if |ms| == 1 then [CLOSE_OBJECT] + a else [COMMA] + (PrintMembers(ms[1..]) + ([CLOSE_OBJECT] + a))
  }

  lemma MemberSplit(ms: seq<Member>, a: Text)
    requires ms != []
    ensures PrintMembers(ms) + ([CLOSE_OBJECT] + a) == PrintMember(ms[0]) + MemberRest(ms, a)
    ensures Delimited(MemberRest(ms, a))
  {
    if |ms| > 1 {
      Regroup(PrintMember(ms[0]), COMMA, PrintMembers(ms[1..]), [CLOSE_OBJECT] + a);
    }
  }

  lemma MembersHead(ms: seq<Member>, rest: Text)
    requires ms != []
    ensures |PrintMembers(ms)| > 0 && (PrintMembers(ms) + rest)[0] == QUOTE
  {
    assert Quoted(ms[0].key)[0] == QUOTE;
    assert PrintMember(ms[0])[0] == QUOTE;
  }

  lemma {:induction false} MembersUnique(ms: seq<Member>, a: Text, ns: seq<Member>, b: Text)
    requires forall i :: 0 <= i < |ms| ==> Canonical(ms[i].value)
    requires forall i :: 0 <= i < |ns| ==> Canonical(ns[i].value)
    requires Delimited(a) && Delimited(b)
    requires PrintMembers(ms) + ([CLOSE_OBJECT] + a) == PrintMembers(ns) + ([CLOSE_OBJECT] + b)
    ensures ms == ns && a == b
    decreases ms, 1
  {
    var x, y := [CLOSE_OBJECT] + a, [CLOSE_OBJECT] + b;
    assert [] + x == x && [] + y == y;
    if ms == [] && ns == [] {
      ConsUnique(CLOSE_OBJECT, a, CLOSE_OBJECT, b);
    } else if ms == [] {
      MembersHead(ns, y);
    } else if ns == [] {
      MembersHead(ms, x);
    } else {
      MemberSplit(ms, a);
      MemberSplit(ns, b);
      MemberUnique(ms[0], MemberRest(ms, a), ns[0], MemberRest(ns, b));
      MemberRestUnique(ms, a, ns, b);
      assert ms == [ms[0]] + ms[1..] && ns == [ns[0]] + ns[1..];
    }
  }

  lemma {:induction false} MemberRestUnique(ms: seq<Member>, a: Text, ns: seq<Member>, b: Text)
    requires ms != [] && ns != []
    requires forall i :: 0 <= i < |ms| ==> Canonical(ms[i].value)
    requires forall i :: 0 <= i < |ns| ==> Canonical(ns[i].value)
    requires Delimited(a) && Delimited(b) && MemberRest(ms, a) == MemberRest(ns, b)
    ensures ms[1..] == ns[1..] && a == b
    decreases ms, 0
  {
    assert MemberRest(ms, a)[0] == MemberRest(ns, b)[0];
    if |ms| == 1 {
      ConsUnique(CLOSE_OBJECT, a, CLOSE_OBJECT, b);
    } else {
      ConsUnique(COMMA, PrintMembers(ms[1..]) + ([CLOSE_OBJECT] + a), COMMA, PrintMembers(ns[1..]) + ([CLOSE_OBJECT] + b));
      MembersUnique(ms[1..], a, ns[1..], b);
    }
  }

  // ----- what the text means ------------------------------------------------------------------

  lemma {:induction false} CanonIsCanonical(v: Value)
    requires Wf(v)
    ensures Canonical(Canon(v))
    decreases v, 1
  {
    match v
    case Arr(items) => CanonItemsAt(items);
    case Obj(ms) => CanonMembersAt(SortedKeys(ms), ms);
    case _ =>
  }

  lemma {:induction false} CanonItemsAt(items: seq<Value>)
    requires forall i :: 0 <= i < |items| ==> Wf(items[i])
    ensures forall i :: 0 <= i < |items| ==> CanonItems(items)[i] == Canon(items[i]) && Canonical(Canon(items[i]))
    decreases items, 0
  {
    if items != [] {
      CanonIsCanonical(items[0]);
      CanonItemsAt(items[1..]);
      forall i | 0 <= i < |items| ensures CanonItems(items)[i] == Canon(items[i]) && Canonical(Canon(items[i])) {
        if i > 0 {
          assert items[i] == items[1..][i - 1];
        }
      }
    }
  }

  /** The value that an object has under a key, in canonical form. */
  function CanonAt(ms: seq<Member>, key: Text): Value {
    var i := Find(ms, key);
    if i == |ms| then Undefined else Canon(ms[i].value)
  }

  lemma {:induction false} CanonMembersAt(keys: seq<Text>, ms: seq<Member>)
    requires forall i :: 0 <= i < |ms| ==> Wf(ms[i].value)
    ensures forall i :: 0 <= i < |keys| ==> CanonMembers(keys, ms)[i] == Member(keys[i], CanonAt(ms, keys[i]))
    ensures forall i :: 0 <= i < |keys| ==> Canonical(CanonMembers(keys, ms)[i].value)
    decreases ms, |keys|
  {
    if keys != [] {
      var j := Find(ms, keys[0]);
      if j < |ms| {
        CanonIsCanonical(ms[j].value);
      }
      CanonMembersAt(keys[1..], ms);
      var all := CanonMembers(keys, ms);
      forall i | 0 <= i < |keys| ensures all[i] == Member(keys[i], CanonAt(ms, keys[i])) && Canonical(all[i].value) {
        if i > 0 {
          assert all[i] == CanonMembers(keys[1..], ms)[i - 1] && keys[i] == keys[1..][i - 1];
        }
      }
    }
  }

  predicate Blank(items: seq<Value>) {
    items == [] || items == [Undefined]
  }

  predicate HasKey(ms: seq<Member>, key: Text) {
    Find(ms, key) < |ms|
  }

  /**
   * Equality up to the order of object keys. Beyond JSON, a non-finite number counts as
   * null, and a list of one `undefined` counts as the empty list.
   */
  ghost predicate Same(v: Value, w: Value)
    decreases v
  {
    match v
    case Null => w.Null? || w.NonFinite?
    case NonFinite => w.Null? || w.NonFinite?
    case Arr(items) =>
      && w.Arr?
      && ((Blank(items) && Blank(w.items))
          || (|items| == |w.items| && forall i :: 0 <= i < |items| ==> Same(items[i], w.items[i])))
    case Obj(ms) =>
      && w.Obj?
      && (forall key :: HasKey(ms, key) <==> HasKey(w.members, key))
      && (forall i, j :: 0 <= i < |ms| && 0 <= j < |w.members| && ms[i].key == w.members[j].key ==>
            Same(ms[i].value, w.members[j].value))
    case _ => v == w
  }

  lemma {:induction false} KeysOfMembers(ms: seq<Member>, key: Text)
    ensures key in Keys(ms) <==> HasKey(ms, key)
  {
    if ms != [] {
      KeysOfMembers(ms[1..], key);
    }
  }

  lemma {:induction false} KeysAreDistinct(ms: seq<Member>)
    requires DistinctKeys(ms)
    ensures |Keys(ms)| == |ms| && forall i :: 0 <= i < |ms| ==> Keys(ms)[i] == ms[i].key
  {
    if ms != [] {
      KeysAreDistinct(ms[1..]);
    }
  }

  lemma {:induction false} GroupOfDistinct(keys: seq<Text>, key: seq<int>)
    requires forall i, j :: 0 <= i < j < |keys| ==> keys[i] != keys[j]
    ensures Group(keys, Itself(), key) == if (exists i :: 0 <= i < |keys| && keys[i] == key) then [key] else []
  {
    if keys != [] {
      GroupOfDistinct(keys[1..], key);
      assert forall i :: 1 <= i < |keys| ==> keys[i] == keys[1..][i - 1];
      assert (exists i :: 0 <= i < |keys[1..]| && keys[1..][i] == key) ==> (exists i :: 0 <= i < |keys| && keys[i] == key);
      assert keys[0] == key ==> !(exists i :: 0 <= i < |keys[1..]| && keys[1..][i] == key);
    }
  }

  lemma SortedKeysMembers(ms: seq<Member>, key: Text)
    ensures key in SortedKeys(ms) <==> HasKey(ms, key)
  {
    SortIsStable(Keys(ms), Itself());
    StableSortIsPermutation(Keys(ms), SortedKeys(ms), Itself());
    KeysOfMembers(ms, key);
    assert key in SortedKeys(ms) <==> key in multiset(SortedKeys(ms));
    assert key in Keys(ms) <==> key in multiset(Keys(ms));
  }

  /** Sorting leaves nothing of the insertion order: only which keys there are. */
  lemma SortedKeysAgree(ms: seq<Member>, ns: seq<Member>)
    requires DistinctKeys(ms) && DistinctKeys(ns)
    requires forall key :: HasKey(ms, key) <==> HasKey(ns, key)
    ensures SortedKeys(ms) == SortedKeys(ns)
  {
    KeysAreDistinct(ms);
    KeysAreDistinct(ns);
    SortIsStable(Keys(ms), Itself());
    SortIsStable(Keys(ns), Itself());
    forall k: seq<int> ensures Group(SortedKeys(ms), Itself(), k) == Group(SortedKeys(ns), Itself(), k) {
      GroupOfDistinct(Keys(ms), k);
      GroupOfDistinct(Keys(ns), k);
      OccursAlike(ms, ns, k);
      assert Group(SortedKeys(ms), Itself(), k) == Group(Keys(ms), Itself(), k);
      assert Group(SortedKeys(ns), Itself(), k) == Group(Keys(ns), Itself(), k);
    }
    SameGroupsSameList(SortedKeys(ms), SortedKeys(ns), Itself());
  }

  lemma OccursAlike(ms: seq<Member>, ns: seq<Member>, k: seq<int>)
    requires forall key :: HasKey(ms, key) <==> HasKey(ns, key)
    ensures (exists i :: 0 <= i < |Keys(ms)| && Keys(ms)[i] == k) <==> (exists i :: 0 <= i < |Keys(ns)| && Keys(ns)[i] == k)
  {
    forall i | 0 <= i < |Keys(ms)| && Keys(ms)[i] == k ensures exists j :: 0 <= j < |Keys(ns)| && Keys(ns)[j] == k {
      KeysOfMembers(ms, Keys(ms)[i]);
      KeysOfMembers(ns, Keys(ms)[i]);
    }
    forall i | 0 <= i < |Keys(ns)| && Keys(ns)[i] == k ensures exists j :: 0 <= j < |Keys(ms)| && Keys(ms)[j] == k {
      KeysOfMembers(ns, Keys(ns)[i]);
      KeysOfMembers(ms, Keys(ns)[i]);
    }
  }

  lemma FindDistinct(ms: seq<Member>, i: nat)
    requires DistinctKeys(ms) && i < |ms|
    ensures Find(ms, ms[i].key) == i
  {
  }

  lemma CanonObjectsDiffer(ms: seq<Member>, ns: seq<Member>)
    requires Wf(Obj(ms)) && Wf(Obj(ns)) && Canon(Obj(ms)) == Canon(Obj(ns))
    ensures SortedKeys(ms) == SortedKeys(ns)
    ensures forall key :: HasKey(ms, key) <==> HasKey(ns, key)
    ensures forall key :: HasKey(ms, key) ==> CanonAt(ms, key) == CanonAt(ns, key)
  {
    var ks, ls := SortedKeys(ms), SortedKeys(ns);
    CanonMembersAt(ks, ms);
    CanonMembersAt(ls, ns);
    var cs := CanonMembers(ks, ms);
    assert cs == CanonMembers(ls, ns) && |ks| == |ls|;
    forall i | 0 <= i < |ks| ensures ks[i] == ls[i] {
      assert cs[i].key == ks[i] && cs[i].key == ls[i];
    }
    forall key ensures HasKey(ms, key) <==> HasKey(ns, key) {
      SortedKeysMembers(ms, key);
      SortedKeysMembers(ns, key);
    }
    forall key | HasKey(ms, key) ensures CanonAt(ms, key) == CanonAt(ns, key) {
      SortedKeysMembers(ms, key);
      var i :| 0 <= i < |ks| && ks[i] == key;
      assert cs[i] == Member(key, CanonAt(ms, key)) && cs[i] == Member(key, CanonAt(ns, key));
    }
  }

  lemma CanonObjectsAgree(ms: seq<Member>, ns: seq<Member>)
    requires Wf(Obj(ms)) && Wf(Obj(ns))
    requires forall key :: HasKey(ms, key) <==> HasKey(ns, key)
    requires forall key :: HasKey(ms, key) ==> CanonAt(ms, key) == CanonAt(ns, key)
    ensures Canon(Obj(ms)) == Canon(Obj(ns))
  {
    SortedKeysAgree(ms, ns);
    var ks := SortedKeys(ms);
    CanonMembersAt(ks, ms);
    CanonMembersAt(ks, ns);
    var cs, ds := CanonMembers(ks, ms), CanonMembers(ks, ns);
    forall i | 0 <= i < |ks| ensures cs[i] == ds[i] {
      SortedKeysMembers(ms, ks[i]);
    }
  }

  /** Canonical forms coincide exactly for values that are the same up to key order. */
  lemma {:induction false} SameIsCanon(v: Value, w: Value)
    requires Wf(v) && Wf(w)
    ensures Same(v, w) <==> Canon(v) == Canon(w)
    decreases v
  {
    if v.Arr? && w.Arr? {
      SameLists(v.items, w.items);
    } else if v.Obj? && w.Obj? {
      SameObjects(v.members, w.members);
    }
  }

  lemma {:induction false} SameLists(vs: seq<Value>, ws: seq<Value>)
    requires Wf(Arr(vs)) && Wf(Arr(ws))
    ensures Same(Arr(vs), Arr(ws)) <==> Canon(Arr(vs)) == Canon(Arr(ws))
    decreases vs
  {
    CanonItemsAt(vs);
    CanonItemsAt(ws);
    var cs, ds := CanonItems(vs), CanonItems(ws);
    if |vs| == |ws| {
      forall i | 0 <= i < |vs| ensures Same(vs[i], ws[i]) <==> cs[i] == ds[i] {
        SameIsCanon(vs[i], ws[i]);
      }
      assert (forall i :: 0 <= i < |vs| ==> Same(vs[i], ws[i])) <==> cs == ds;
    }
    assert vs == [Undefined] <==> |vs| == 1 && cs[0] == Undefined;
    assert ws == [Undefined] <==> |ws| == 1 && ds[0] == Undefined;
  }

  lemma {:induction false} SameObjects(ms: seq<Member>, ns: seq<Member>)
    requires Wf(Obj(ms)) && Wf(Obj(ns))
    ensures Same(Obj(ms), Obj(ns)) <==> Canon(Obj(ms)) == Canon(Obj(ns))
    decreases ms
  {
    forall i, j | 0 <= i < |ms| && 0 <= j < |ns| && ms[i].key == ns[j].key
      ensures Same(ms[i].value, ns[j].value) <==> CanonAt(ms, ms[i].key) == CanonAt(ns, ms[i].key)
    {
      FindDistinct(ms, i);
      FindDistinct(ns, j);
      SameIsCanon(ms[i].value, ns[j].value);
    }
    if Canon(Obj(ms)) == Canon(Obj(ns)) {
      CanonObjectsDiffer(ms, ns);
    } else if Same(Obj(ms), Obj(ns)) {
      forall key | HasKey(ms, key) ensures CanonAt(ms, key) == CanonAt(ns, key) {
        assert ms[Find(ms, key)].key == ns[Find(ns, key)].key;
      }
      CanonObjectsAgree(ms, ns);
    }
  }

  /** Two values have the same text exactly when they are the same up to key order. */
  lemma SameTextExactlyWhenSame(v: Value, w: Value)
    requires Wf(v) && Wf(w)
    ensures Stringify(v) == Stringify(w) <==> Same(v, w)
  {
    StringifyIsPrintOfCanon(v);
    StringifyIsPrintOfCanon(w);
    SameIsCanon(v, w);
    CanonIsCanonical(v);
    CanonIsCanonical(w);
    if Stringify(v) == Stringify(w) {
      assert Print(Canon(v)) + [] == Print(Canon(w)) + [];
      PrintUnique(Canon(v), [], Canon(w), []);
    }
  }

  /** JSON proper: no `undefined`, no non-finite number. */
  ghost predicate IsJson(v: Value) {
    match v
    case Undefined => false
    case NonFinite => false
    case Arr(items) => forall i :: 0 <= i < |items| ==> IsJson(items[i])
    case Obj(ms) => forall i :: 0 <= i < |ms| ==> IsJson(ms[i].value)
    case _ => true
  }

  /** Equality of JSON values up to the order of object keys, and nothing else. */
  ghost predicate Reordered(v: Value, w: Value)
    decreases v
  {
    match v
    case Arr(items) => w.Arr? && |items| == |w.items| && forall i :: 0 <= i < |items| ==> Reordered(items[i], w.items[i])
    case Obj(ms) =>
      && w.Obj?
      && (forall key :: HasKey(ms, key) <==> HasKey(w.members, key))
      && (forall i, j :: 0 <= i < |ms| && 0 <= j < |w.members| && ms[i].key == w.members[j].key ==>
            Reordered(ms[i].value, w.members[j].value))
    case _ => v == w
  }

  lemma {:induction false} SameIsReordered(v: Value, w: Value)
    requires IsJson(v) && IsJson(w)
    ensures Same(v, w) <==> Reordered(v, w)
    decreases v
  {
    if v.Arr? && w.Arr? {
      assert |v.items| > 0 ==> IsJson(v.items[0]);
      assert |w.items| > 0 ==> IsJson(w.items[0]);
      forall i | 0 <= i < |v.items| && |v.items| == |w.items| ensures Same(v.items[i], w.items[i]) <==> Reordered(v.items[i], w.items[i]) {
        SameIsReordered(v.items[i], w.items[i]);
      }
    } else if v.Obj? && w.Obj? {
      forall i, j | 0 <= i < |v.members| && 0 <= j < |w.members|
        ensures Same(v.members[i].value, w.members[j].value) <==> Reordered(v.members[i].value, w.members[j].value)
      {
        SameIsReordered(v.members[i].value, w.members[j].value);
      }
    }
  }

  /** On JSON values the text depends on nothing but the value, and forgets only key order. */
  lemma SameTextExactlyWhenReordered(v: Value, w: Value)
    requires Wf(v) && Wf(w) && IsJson(v) && IsJson(w)
    ensures Stringify(v) == Stringify(w) <==> Reordered(v, w)
  {
    SameTextExactlyWhenSame(v, w);
    SameIsReordered(v, w);
  }

  /** With `undefined` that fails: a list of one `undefined` has the text of the empty list. */
  lemma UndefinedListPrintsEmpty()
    ensures Stringify(Arr([Undefined])) == Stringify(Arr([]))
  {
    assert StringifyItems([Undefined]) == [];
  }
}
