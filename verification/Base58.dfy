/** Positional notation, most significant digit first, in any base. */
module Radix {

  ghost predicate DigitsBelow(ds: seq<nat>, base: nat) {
    forall i :: 0 <= i < |ds| ==> ds[i] < base
  }

  function Value(ds: seq<nat>, base: nat): nat {
    if ds == [] then 0 else Value(ds[..|ds| - 1], base) * base + ds[|ds| - 1]
  }

  /** The digits of a number, none for zero. */
  function Digits(n: nat, base: nat): (ds: seq<nat>)
    requires base >= 2
  {
    if n == 0 then [] else
      Shrinks(n, base);
      Digits(n / base, base) + [n % base]
  }

  function LeadingZeros(ds: seq<nat>): (k: nat)
    ensures k <= |ds|
    ensures forall i :: 0 <= i < k ==> ds[i] == 0
    ensures k < |ds| ==> ds[k] != 0
  {
    if ds == [] || ds[0] != 0 then 0 else 1 + LeadingZeros(ds[1..])
  }

  function Zeros(k: nat): (z: seq<nat>)
    ensures |z| == k && forall i :: 0 <= i < k ==> z[i] == 0
  {
    if k == 0 then [] else [0] + Zeros(k - 1)
  }

  /** The same number in another base, with as many leading zeros. */
  function Convert(ds: seq<nat>, base: nat, to: nat): seq<nat>
    requires to >= 2
  {
    Zeros(LeadingZeros(ds)) + Digits(Value(ds, base), to)
  }

  lemma MulGrows(a: nat, b: nat, c: nat)
    requires a >= b
    ensures a * c >= b * c
  {
    assert a * c == b * c + (a - b) * c;
  }

  lemma Shrinks(n: nat, base: nat)
    requires n > 0 && base >= 2
    ensures n / base < n
  {
    var q := n / base;
    assert n == q * base + n % base;
    MulGrows(base, 2, q);
  }

  lemma QuotientUnique(q: nat, r: nat, e: nat, s: nat, base: nat)
    requires q * base + r == e * base + s && r < base && s < base
    ensures q <= e
  {
    assert (e + 1) * base == e * base + base;
    if q > e {
      MulGrows(q, e + 1, base);
    }
  }

  lemma DivMod(q: nat, base: nat, d: nat)
    requires d < base
    ensures (q * base + d) / base == q && (q * base + d) % base == d
  {
    var n := q * base + d;
    var e, r := n / base, n % base;
    assert n == e * base + r;
    QuotientUnique(q, d, e, r, base);
    QuotientUnique(e, r, q, d, base);
  }

  lemma {:induction false} DigitsAreBelow(n: nat, base: nat)
    requires base >= 2
    ensures DigitsBelow(Digits(n, base), base)
    ensures n > 0 ==> |Digits(n, base)| > 0 && Digits(n, base)[0] != 0
  {
    if n > 0 {
      Shrinks(n, base);
      DigitsAreBelow(n / base, base);
      assert n / base == 0 ==> Digits(n, base) == [n % base] && n % base == n;
    }
  }

  lemma ValueSnoc(ds: seq<nat>, d: nat, base: nat)
    ensures Value(ds + [d], base) == Value(ds, base) * base + d
  {
    assert (ds + [d])[..|ds|] == ds;
  }

  lemma Division(n: nat, base: nat)
    requires base >= 2
    ensures n / base * base + n % base == n
  {
  }

  lemma ValueStep(n: nat, base: nat, ds: seq<nat>)
    requires base >= 2 && Value(ds, base) == n / base
    ensures Value(ds + [n % base], base) == n
  {
    ValueSnoc(ds, n % base, base);
    Division(n, base);
  }

  lemma DigitsStep(n: nat, base: nat)
    requires base >= 2 && n > 0
    ensures Digits(n, base) == Digits(n / base, base) + [n % base]
  {
  }

  lemma {:induction false} ValueOfDigits(n: nat, base: nat)
    requires base >= 2
    ensures Value(Digits(n, base), base) == n
  {
    if n > 0 {
      var q, all := n / base, Digits(n, base);
      Shrinks(n, base);
      ValueOfDigits(q, base);
      var ds := Digits(q, base);
      DigitsStep(n, base);
      ValueStep(n, base, ds);
    }
  }

  lemma {:induction false} ValuePositive(ds: seq<nat>, base: nat)
    requires base >= 2 && ds != [] && ds[0] != 0
    ensures Value(ds, base) > 0
  {
    if |ds| > 1 {
      ValuePositive(ds[..|ds| - 1], base);
      assert Value(ds[..|ds| - 1], base) * base >= 1;
    }
  }

  /** A numeral without leading zeros is what the digits of its value are. */
  lemma {:induction false} DigitsOfValue(ds: seq<nat>, base: nat)
    requires base >= 2 && DigitsBelow(ds, base) && (ds != [] ==> ds[0] != 0)
    ensures Digits(Value(ds, base), base) == ds
  {
    if ds != [] {
      var init := ds[..|ds| - 1];
      DigitsOfValue(init, base);
      ValuePositive(ds, base);
      DivMod(Value(init, base), base, ds[|ds| - 1]);
      assert ds == init + [ds[|ds| - 1]];
    }
  }

  lemma {:induction false} ValueSkipsZeros(k: nat, ds: seq<nat>, base: nat)
    ensures Value(Zeros(k) + ds, base) == Value(ds, base)
    decreases k + |ds|
  {
    if ds == [] {
      assert Zeros(k) + ds == Zeros(k);
      if k > 0 {
        assert Zeros(k)[..k - 1] == Zeros(k - 1) + [];
        ValueSkipsZeros(k - 1, [], base);
      }
    } else {
      var all := Zeros(k) + ds;
      assert all[..|all| - 1] == Zeros(k) + ds[..|ds| - 1];
      ValueSkipsZeros(k, ds[..|ds| - 1], base);
    }
  }

  lemma SplitZeros(ds: seq<nat>)
    ensures ds == Zeros(LeadingZeros(ds)) + ds[LeadingZeros(ds)..]
  {
  }

  lemma ZerosThenDigits(k: nat, ds: seq<nat>)
    requires ds != [] ==> ds[0] != 0
    ensures LeadingZeros(Zeros(k) + ds) == k
  {
    var all := Zeros(k) + ds;
    assert |all| > k ==> all[k] == ds[0];
    assert forall i :: 0 <= i < k ==> all[i] == 0;
  }

  lemma ConvertIsBelow(ds: seq<nat>, base: nat, to: nat)
    requires to >= 2
    ensures DigitsBelow(Convert(ds, base, to), to)
  {
    DigitsAreBelow(Value(ds, base), to);
  }

  /** Converting there and back gives the numeral itself, leading zeros included. */
  lemma ConvertBack(ds: seq<nat>, base: nat, to: nat)
    requires base >= 2 && to >= 2 && DigitsBelow(ds, base)
    ensures Convert(Convert(ds, base, to), to, base) == ds
  {
    var k, n := LeadingZeros(ds), Value(ds, base);
    var there := Digits(n, to);
    SplitZeros(ds);
    ValueSkipsZeros(k, ds[k..], base);
    DigitsOfValue(ds[k..], base);
    DigitsAreBelow(n, to);
    assert n == 0 ==> there == [];
    ZerosThenDigits(k, there);
    ValueSkipsZeros(k, there, to);
    ValueOfDigits(n, to);
  }
}

/** Base58, as the connect command writes public keys and signatures. */
module Base58 {
  import opened Wrappers
  import opened Radix

  /** `n` characters in a row. */
  function Row(first: char, n: nat): string
    requires first as int + n < 128
  {
    seq(n, i requires 0 <= i < n => (first as int + i) as char)
  }

  /** The alphabet: digits, capitals and small letters without 0, I, O and l. */
  const CH: string := Row('1', 9) + Row('A', 8) + Row('J', 5) + Row('P', 11) + Row('a', 11) + Row('m', 14)

  function Symbol(d: nat): char
    requires d < 58
  {
    CH[d]
  }

  /** The digit of a symbol, if it is one. */
  function DigitOf(c: char): Option<nat> {
    if '1' <= c <= '9' then Some((c - '1') as int)
    else if 'A' <= c <= 'H' then Some(9 + (c - 'A') as int)
    else if 'J' <= c <= 'N' then Some(17 + (c - 'J') as int)
    else if 'P' <= c <= 'Z' then Some(22 + (c - 'P') as int)
    else if 'a' <= c <= 'k' then Some(33 + (c - 'a') as int)
    else if 'm' <= c <= 'z' then Some(44 + (c - 'm') as int)
    else None
  }

  lemma DigitOfSymbol(d: nat)
    requires d < 58
    ensures DigitOf(Symbol(d)) == Some(d)
  {
  }

  lemma SymbolOfDigit(c: char)
    requires DigitOf(c).Some?
    ensures DigitOf(c).value < 58 && Symbol(DigitOf(c).value) == c
  {
  }

  type Byte = b: nat | b < 256

  function Symbols(ds: seq<nat>): (s: string)
    requires DigitsBelow(ds, 58)
    ensures |s| == |ds| && forall i :: 0 <= i < |ds| ==> s[i] == Symbol(ds[i])
  {
    seq(|ds|, i requires 0 <= i < |ds| && DigitsBelow(ds, 58) => Symbol(ds[i]))
  }

  predicate IsBase58(s: string) {
    forall i :: 0 <= i < |s| ==> DigitOf(s[i]).Some?
  }

  function DigitsOf(s: string): (ds: seq<nat>)
    requires IsBase58(s)
    ensures |ds| == |s| && forall i :: 0 <= i < |s| ==> ds[i] == DigitOf(s[i]).value
  {
    seq(|s|, i requires 0 <= i < |s| && IsBase58(s) => DigitOf(s[i]).value)
  }

  /** The base58 text of bytes: their big-endian number in base 58, one `1` for each leading zero byte. */
  function Encode(bytes: seq<Byte>): string {
    ConvertIsBelow(bytes, 256, 58);
    Symbols(Convert(bytes, 256, 58))
  }

  /** Standard base58 decoding; refused when a character is outside the alphabet. */
  function Decode(s: string): Option<seq<Byte>> {
    if !IsBase58(s) then None
    else
      var ds := Convert(DigitsOf(s), 58, 256);
      ConvertIsBelow(DigitsOf(s), 58, 256);
      Some(ds)
  }

  lemma DigitsOfSymbols(ds: seq<nat>)
    requires DigitsBelow(ds, 58)
    ensures IsBase58(Symbols(ds)) && DigitsOf(Symbols(ds)) == ds
  {
    forall i | 0 <= i < |ds| ensures DigitOf(Symbols(ds)[i]) == Some(ds[i]) {
      DigitOfSymbol(ds[i]);
    }
  }

  /** Decoding undoes encoding on every byte sequence, the empty and the all-zero ones included. */
  lemma DecodeOfEncode(bytes: seq<Byte>)
    ensures Decode(Encode(bytes)) == Some(bytes)
  {
    ConvertIsBelow(bytes, 256, 58);
    DigitsOfSymbols(Convert(bytes, 256, 58));
    ConvertBack(bytes, 256, 58);
  }

  /** Encoding undoes decoding on every text over the alphabet: no two texts decode alike. */
  lemma EncodeOfDecode(s: string)
    requires IsBase58(s)
    ensures Encode(Decode(s).value) == s
  {
    forall i | 0 <= i < |s| ensures DigitOf(s[i]).value < 58 && Symbol(DigitOf(s[i]).value) == s[i] {
      SymbolOfDigit(s[i]);
    }
    ConvertBack(DigitsOf(s), 58, 256);
    assert Decode(s).value == Convert(DigitsOf(s), 58, 256);
    assert Encode(Decode(s).value) == Symbols(DigitsOf(s));
  }

  lemma EncodeIsInjective(a: seq<Byte>, b: seq<Byte>)
    ensures Encode(a) == Encode(b) <==> a == b
  {
    DecodeOfEncode(a);
    DecodeOfEncode(b);
  }

  // ----- the source's loops ------------------------------------------------------------------

  lemma SymbolsConcat(a: seq<nat>, b: seq<nat>)
    requires DigitsBelow(a + b, 58) && DigitsBelow(a, 58) && DigitsBelow(b, 58)
    ensures Symbols(a + b) == Symbols(a) + Symbols(b)
  {
  }

  /** The digits of a number, least significant first, each put in front of what is there. */
  method DigitLoop(n: nat) returns (s: string)
    ensures DigitsBelow(Digits(n, 58), 58) && s == Symbols(Digits(n, 58))
  {
    var left := n;
    s := "";
    ghost var done: seq<nat> := [];
    while left > 0
      invariant Digits(n, 58) == Digits(left, 58) + done
      invariant DigitsBelow(done, 58) && s == Symbols(done)
      decreases left
    {
      var digit := left % 58;
      Shrinks(left, 58);
      assert Digits(left, 58) + done == Digits(left / 58, 58) + ([digit] + done);
      SymbolsConcat([digit], done);
      assert Symbols([digit]) == [CH[digit]];
      s := [CH[digit]] + s;
      left := left / 58;
      done := [digit] + done;
    }
    assert Digits(0, 58) + done == done;
  }

  /** The bytes as one big-endian number, a shift and an or for each. */
  method NumberLoop(input: seq<Byte>) returns (n: nat)
    ensures n == Value(input, 256)
  {
    n := 0;
    for i := 0 to |input|
      invariant n == Value(input[..i], 256)
    {
      assert input[..i + 1] == input[..i] + [input[i]];
      ValueSnoc(input[..i], input[i], 256);
      n := n * 256 + input[i];
    }
    assert input[..|input|] == input;
  }

  lemma AnotherZero(k: nat, ds: seq<nat>)
    ensures Zeros(k + 1) + ds == [0] + (Zeros(k) + ds)
  {
  }

  /** A `1` in front for each zero byte at the front, up to the first other byte. */
  method OnesLoop(input: seq<Byte>, text: string, ghost digits: seq<nat>) returns (s: string)
    requires DigitsBelow(digits, 58) && text == Symbols(digits)
    ensures DigitsBelow(Zeros(LeadingZeros(input)) + digits, 58)
    ensures s == Symbols(Zeros(LeadingZeros(input)) + digits)
  {
    var i := 0;
    s := text;
    ghost var done := digits;
    assert Zeros(0) + digits == digits;
    while i < |input| && input[i] == 0
      invariant i <= LeadingZeros(input)
      invariant done == Zeros(i) + digits
      invariant DigitsBelow(done, 58) && s == Symbols(done)
    {
      AnotherOne(done);
      AnotherZero(i, digits);
      s := ['1'] + s;
      i := i + 1;
      done := [0] + done;
    }
  }

  method B58(input: seq<Byte>) returns (s: string)
    ensures s == Encode(input)
    ensures Decode(s) == Some(input)
  {
    var n := NumberLoop(input);
    s := DigitLoop(n);
    s := OnesLoop(input, s, Digits(n, 58));
    DecodeOfEncode(input);
  }

  /** A zero digit is written as `1`. */
  lemma AnotherOne(ds: seq<nat>)
    requires DigitsBelow(ds, 58)
    ensures DigitsBelow([0] + ds, 58) && Symbols([0] + ds) == ['1'] + Symbols(ds)
  {
    SymbolsConcat([0], ds);
    assert Symbols([0]) == ['1'];
  }
}
