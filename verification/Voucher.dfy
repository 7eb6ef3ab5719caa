/**
 * The signed voucher message of a payment channel: two magic bytes, the 32-byte channel,
 * the cumulative amount as a little-endian u64 and the expiry as a little-endian i64.
 */
module Voucher {
  import opened Wrappers
  import opened Base58
  import Radix

  datatype Error = NotBase58 | WrongChannelLength(length: nat)

  datatype Result<T> = Ok(value: T) | Err(error: Error)

  const TWO_64 := 0x1_0000_0000_0000_0000
  const TWO_63 := 0x8000_0000_0000_0000

  function Power256(k: nat): (p: nat)
    ensures p >= 1
  {
    if k == 0 then 1 else 256 * Power256(k - 1)
  }

  /** `k` low bytes of an integer, least significant first; negative numbers as in two's complement. */
  function LittleEndian(c: int, k: nat): (bytes: seq<Byte>)
    ensures |bytes| == k
    decreases k
  {
    if k == 0 then [] else [c % 256] + LittleEndian(c / 256, k - 1)
  }

  function FromLittleEndian(bytes: seq<Byte>): nat {
    if bytes == [] then 0 else bytes[0] + 256 * FromLittleEndian(bytes[1..])
  }

  /** `BigInt.asIntN(64, c)`. */
  function AsInt64(c: int): int {
    var m := c % TWO_64;
    if m < TWO_63 then m else m - TWO_64
  }

  function Joined(channel: seq<Byte>, amount: seq<Byte>, expiry: seq<Byte>): seq<Byte> {
    [0x56, 0x01] + channel + amount + expiry
  }

  function MessageBytes(channel: seq<Byte>, amount: int, expiresAt: int): seq<Byte> {
    Joined(channel, LittleEndian(amount, 8), LittleEndian(AsInt64(expiresAt), 8))
  }

  /** What the on-chain program reads: channel, unsigned amount, signed expiry. */
  datatype Fields = Fields(channel: seq<Byte>, amount: int, expiresAt: int)

  function ReadMessage(bytes: seq<Byte>): Fields
    requires |bytes| == 50
  {
    Fields(bytes[2..34], FromLittleEndian(bytes[34..42]), AsInt64(FromLittleEndian(bytes[42..50])))
  }

  method EncodeVoucherMessageBytes(channelId: string, cumulativeAmount: int, expiresAt: int) returns (r: Result<seq<Byte>>)
    ensures r == match Decode(channelId)
                 case None => Err(NotBase58)
                 case Some(channel) =>
                   if |channel| != 32 then Err(WrongChannelLength(|channel|))
                   else Ok(MessageBytes(channel, cumulativeAmount, expiresAt))
  {
    var message := new Byte[50](_ => 0);
    message[0] := 0x56;
    message[1] := 0x01;
    var decoded := Decode(channelId);
    if decoded == None {
      return Err(NotBase58);
    }
    var channel := decoded.value;
    if |channel| != 32 {
      return Err(WrongChannelLength(|channel|));
    }
    Set(message, channel, 2);
    WriteLittleEndian(message, 34, cumulativeAmount);
    WriteLittleEndian(message, 42, AsInt64(expiresAt));
    assert message[2..34] == channel;
    assert message[34..42] == LittleEndian(cumulativeAmount, 8);
    JoinedOfSlices(message[..], channel, message[34..42], message[42..50]);
    return Ok(message[..]);
  }

  lemma JoinedOfSlices(bytes: seq<Byte>, channel: seq<Byte>, amount: seq<Byte>, expiry: seq<Byte>)
    requires |bytes| == 50 && bytes[0] == 0x56 && bytes[1] == 0x01
    requires bytes[2..34] == channel && bytes[34..42] == amount && bytes[42..50] == expiry
    ensures bytes == Joined(channel, amount, expiry)
  {
    assert bytes[..2] == [0x56, 0x01];
    assert bytes == bytes[..2] + bytes[2..34] + bytes[34..42] + bytes[42..50];
  }

  lemma SlicesOfJoined(channel: seq<Byte>, amount: seq<Byte>, expiry: seq<Byte>)
    requires |channel| == 32 && |amount| == 8 && |expiry| == 8
    ensures var bytes := Joined(channel, amount, expiry);
            |bytes| == 50 && bytes[2..34] == channel && bytes[34..42] == amount && bytes[42..50] == expiry
  {
  }

  /** `Uint8Array.set`: copies bytes in at an offset. */
  method Set(message: array<Byte>, bytes: seq<Byte>, offset: nat)
    requires offset + |bytes| <= message.Length
    modifies message
    ensures message[offset..offset + |bytes|] == bytes
    ensures forall j :: 0 <= j < message.Length && !(offset <= j < offset + |bytes|) ==> message[j] == old(message[j])
  {
    for i := 0 to |bytes|
      invariant forall j :: 0 <= j < i ==> message[offset + j] == bytes[j]
      invariant forall j :: 0 <= j < message.Length && !(offset <= j < offset + i) ==> message[j] == old(message[j])
    {
      message[offset + i] := bytes[i];
    }
  }

  /** Eight bytes in place: the low byte, then an arithmetic shift, eight times. */
  method WriteLittleEndian(message: array<Byte>, offset: nat, number: int)
    requires offset + 8 <= message.Length
    modifies message
    ensures message[offset..offset + 8] == LittleEndian(number, 8)
    ensures forall j :: 0 <= j < message.Length && !(offset <= j < offset + 8) ==> message[j] == old(message[j])
  {
    var c := number;
    for i := 0 to 8
      invariant LittleEndian(number, 8) == message[offset..offset + i] + LittleEndian(c, 8 - i)
      invariant forall j :: 0 <= j < message.Length && !(offset <= j < offset + i) ==> message[j] == old(message[j])
    {
      ghost var written := message[offset..offset + i];
      OneMoreByte(written, c, 8 - i);
      message[offset + i] := c % 256;
      assert message[offset..offset + i + 1] == written + [c % 256];
      c := c / 256;
    }
  }

  lemma OneMoreByte(written: seq<Byte>, c: int, k: nat)
    requires k > 0
    ensures written + LittleEndian(c, k) == written + [c % 256] + LittleEndian(c / 256, k - 1)
  {
  }

  // ----- what a message says -------------------------------------------------------------------

  lemma ModUnique(c: int, n: nat, q: int, r: int)
    requires n > 0 && c == q * n + r && 0 <= r < n
    ensures c % n == r
  {
    var e, s := c / n, c % n;
    assert c == e * n + s && (e - q) * n == r - s;
    if e > q {
      Radix.MulGrows(e - q, 1, n);
    } else if e < q {
      Radix.MulGrows(q - e, 1, n);
    }
  }

  /** One byte more. */
  lemma ModStep(c: int, p: nat)
    requires p > 0
    ensures c % (256 * p) == c % 256 + 256 * (c / 256 % p)
  {
    var rest := c / 256;
    var q, m := rest / p, rest % p;
    assert rest == q * p + m;
    assert 256 * (q * p) == q * (256 * p);
    assert c == q * (256 * p) + (256 * m + c % 256);
    ModUnique(c, 256 * p, q, 256 * m + c % 256);
  }

  lemma {:induction false} FromLittleEndianIsMod(c: int, k: nat)
    ensures FromLittleEndian(LittleEndian(c, k)) == c % Power256(k)
    decreases k
  {
    if k > 0 {
      FromLittleEndianIsMod(c / 256, k - 1);
      assert LittleEndian(c, k)[1..] == LittleEndian(c / 256, k - 1);
      ModStep(c, Power256(k - 1));
    }
  }

  lemma Power256Of8()
    ensures Power256(8) == TWO_64
  {
    assert Power256(4) == 0x1_0000_0000 && Power256(6) == 0x1_0000_0000_0000;
  }

  /** Reading a message gives the channel, the amount modulo 2^64, and the expiry as a signed 64-bit number. */
  lemma ReadOfMessage(channel: seq<Byte>, amount: int, expiresAt: int)
    requires |channel| == 32
    ensures |MessageBytes(channel, amount, expiresAt)| == 50
    ensures ReadMessage(MessageBytes(channel, amount, expiresAt)) == Fields(channel, amount % TWO_64, AsInt64(expiresAt))
  {
    var a, e := LittleEndian(amount, 8), LittleEndian(AsInt64(expiresAt), 8);
    SlicesOfJoined(channel, a, e);
    FromLittleEndianIsMod(amount, 8);
    FromLittleEndianIsMod(AsInt64(expiresAt), 8);
    Power256Of8();
    AsInt64IsStable(expiresAt);
  }

  lemma AsInt64IsStable(c: int)
    ensures -TWO_63 <= AsInt64(c) < TWO_63
    ensures AsInt64(AsInt64(c) % TWO_64) == AsInt64(c)
    ensures AsInt64(c) == c <==> -TWO_63 <= c < TWO_63
  {
  }

  /** The fields come back unchanged exactly when they fit: an unsigned amount, a signed expiry. */
  lemma FieldsComeBackExactlyWhenTheyFit(channel: seq<Byte>, amount: int, expiresAt: int)
    requires |channel| == 32
    ensures |MessageBytes(channel, amount, expiresAt)| == 50
    ensures ReadMessage(MessageBytes(channel, amount, expiresAt)) == Fields(channel, amount, expiresAt)
        <==> 0 <= amount < TWO_64 && -TWO_63 <= expiresAt < TWO_63
  {
    ReadOfMessage(channel, amount, expiresAt);
    AsInt64IsStable(expiresAt);
    FitsUnsigned(amount);
  }

  lemma FitsUnsigned(amount: int)
    ensures amount % TWO_64 == amount <==> 0 <= amount < TWO_64
  {
  }

  lemma LittleEndianOfMod(c: int, d: int, k: nat)
    requires c % Power256(k) == d % Power256(k)
    ensures LittleEndian(c, k) == LittleEndian(d, k)
    decreases k
  {
    FromLittleEndianIsMod(c, k);
    FromLittleEndianIsMod(d, k);
    BytesUnique(LittleEndian(c, k), LittleEndian(d, k));
  }

  lemma {:induction false} BytesUnique(a: seq<Byte>, b: seq<Byte>)
    requires |a| == |b| && FromLittleEndian(a) == FromLittleEndian(b)
    ensures a == b
  {
    if a != [] {
      assert a[0] == FromLittleEndian(a) % 256 && b[0] == FromLittleEndian(b) % 256;
      BytesUnique(a[1..], b[1..]);
      assert a == [a[0]] + a[1..] && b == [b[0]] + b[1..];
    }
  }

  /** Two vouchers sign the same bytes exactly when they agree on the channel and on both numbers modulo 2^64. */
  lemma SameBytesExactlyWhenSameVoucher(c1: seq<Byte>, a1: int, e1: int, c2: seq<Byte>, a2: int, e2: int)
    requires |c1| == 32 && |c2| == 32
    ensures MessageBytes(c1, a1, e1) == MessageBytes(c2, a2, e2)
        <==> c1 == c2 && a1 % TWO_64 == a2 % TWO_64 && e1 % TWO_64 == e2 % TWO_64
  {
    ReadOfMessage(c1, a1, e1);
    ReadOfMessage(c2, a2, e2);
    Power256Of8();
    assert AsInt64(e1) == AsInt64(e2) <==> e1 % TWO_64 == e2 % TWO_64;
    if c1 == c2 && a1 % TWO_64 == a2 % TWO_64 && e1 % TWO_64 == e2 % TWO_64 {
      LittleEndianOfMod(a1, a2, 8);
    }
  }

  /** From a base58 channel id of 32 bytes, different ids give different messages. */
  lemma DifferentChannelIdsDiffer(id1: string, id2: string, a1: int, e1: int, a2: int, e2: int)
    requires Decode(id1).Some? && |Decode(id1).value| == 32 && Decode(id2).Some? && |Decode(id2).value| == 32
    requires MessageBytes(Decode(id1).value, a1, e1) == MessageBytes(Decode(id2).value, a2, e2)
    ensures id1 == id2
  {
    SameBytesExactlyWhenSameVoucher(Decode(id1).value, a1, e1, Decode(id2).value, a2, e2);
    EncodeOfDecode(id1);
    EncodeOfDecode(id2);
  }
}
