/**
 Minecraft VarInts: unsigned LEB128 (section 7.6 of the DWARF 5 standard) capped at
 five bytes, the 32-bit result read as a two's-complement integer.
 */
module VarInt {
  import opened Wrappers
  import opened Streams
  import opened Powers

  const TWO_TO_31: int := 0x8000_0000
  const TWO_TO_32: int := 0x1_0000_0000

  type int32 = n: int | -TWO_TO_31 <= n < TWO_TO_31
  /** The 32 bits of an int32, as the unsigned number they spell. */
  type uint32 = n: nat | n < TWO_TO_32

  /** The int32 a bit pattern stands for, and back. */
  function Signed(u: uint32): int32 {
    if u < TWO_TO_31 then u else u - TWO_TO_32
  }

  function Unsigned(v: int32): uint32 {
    if v >= 0 then v else v + TWO_TO_32
  }

  /** Reduction of an integer to the signed 32-bit range. */
  function Wrap32(n: int): (w: int32)
    ensures (n - w) % TWO_TO_32 == 0
  {
    (n + TWO_TO_31) % TWO_TO_32 - TWO_TO_31
  }

  // ---- What a VarInt means --------------------------------------------------------

  /** The high bit: more bytes follow. */
  predicate Continues(b: byte) {
    b >= 0x80
  }

  /** The sum of (s[i] & 0x7F) * 2^(7i): the value of an unsigned LEB128 byte sequence. */
  function LebSum(s: seq<byte>): nat {
    if s == [] then 0 else s[0] % 128 + 128 * LebSum(s[1..])
  }

  /** `k` is the position of the first byte whose high bit is clear, among the first five. */
  predicate EndsAt(s: seq<byte>, k: nat) {
    && k < 5 && k < |s|
    && !Continues(s[k])
    && forall i: nat :: i < k ==> Continues(s[i])
  }

  /** Where the number ends, looking from byte `i` on. */
  function FindEnd(s: seq<byte>, i: nat): (r: Option<nat>)
    requires i <= 5
    requires forall j: nat :: j < i && j < |s| ==> Continues(s[j])
    ensures r.Some? ==> EndsAt(s, r.value)
    ensures r.None? ==> forall k: nat :: !EndsAt(s, k)
    decreases 5 - i
  {
    if i == 5 || i >= |s| then None
    else if !Continues(s[i]) then Some(i)
    else FindEnd(s, i + 1)
  }

  /**
   A VarInt is a number exactly when one of the first five bytes ends it; the number is
   the signed 32-bit wrap of the LEB128 sum, and everything after that byte is left over.
   */
  function Decode(s: seq<byte>): (p: Parse<int32>)
    ensures p.Parsed? <==> exists k: nat :: EndsAt(s, k)
    ensures forall k: nat :: EndsAt(s, k) ==> p == Parsed(Wrap32(LebSum(s[..k + 1])), s[k + 1..])
  {
    match FindEnd(s, 0)
    case None => Malformed
    case Some(k) => Parsed(Wrap32(LebSum(s[..k + 1])), s[k + 1..])
  }

  // ---- The decoder ------------------------------------------------------------------

  /** x | y, bit by bit. */
  function BitOr(x: nat, y: nat): nat
    decreases x + y
  {
    if x == 0 && y == 0 then 0
    else (if x % 2 == 1 || y % 2 == 1 then 1 else 0) + 2 * BitOr(x / 2, y / 2)
  }

  /** x << n in 32 bits. */
  function ShiftLeft(x: nat, n: nat): uint32 {
    x * Pow2(n) % TWO_TO_32
  }

  /**
   readVarInt: OR-ing seven bits at a time into 32 bits computes Decode of the stream,
   and consumes the number's bytes and no more.
   */
  method ReadVarInt(r: BufReader) returns (res: Option<int32>)
    requires r.Valid()
    modifies r, r.conn
    ensures r.Valid()
    ensures match Decode(old(r.Remaining()))
            case Parsed(v, rest) => res == Some(v) && r.Remaining() == rest
            case Malformed => res.None?
  {
    ghost var whole, got := r.Remaining(), [];
    var value: uint32 := 0;
    var position: nat := 0;
    while true
      invariant r.Valid() && position == 7 * |got|
      invariant Reading(whole, got, r.Remaining(), value)
      decreases 5 - |got|
    {
      ghost var rest := r.Remaining();
      var next := r.ReadByte();
      if next.None? {
        NoEnd(whole, got, rest, value);
        return None;
      }
      var b := next.value;
      var now := BitOr(value, ShiftLeft(b % 128, position));
      ReadOne(whole, got, rest, value, b, now);
      value := now;
      got := got + [b];
      if b < 0x80 {
        return Some(Signed(value));
      }
      position := position + 7;
      if position >= 32 {
        return None;
      }
    }
  }

  /** The loop before a byte: `got` is read, none of it ends the number, and `value` is its sum. */
  ghost predicate Reading(whole: seq<byte>, got: seq<byte>, rest: seq<byte>, value: uint32) {
    && whole == got + rest && |got| < 5
    && (forall i: nat :: i < |got| ==> Continues(got[i]))
    && value == LebSum(got)
  }

  /** The stream is at its end inside the number. */
  lemma NoEnd(whole: seq<byte>, got: seq<byte>, rest: seq<byte>, value: uint32)
    requires Reading(whole, got, rest, value) && rest == []
    ensures Decode(whole).Malformed?
  {
    forall k: nat ensures !EndsAt(whole, k) {
      if k < |got| {
        assert whole[k] == got[k];
      }
    }
  }

  /** One byte more: the number ends here, goes on, or is too big. */
  lemma ReadOne(whole: seq<byte>, got: seq<byte>, rest: seq<byte>, value: uint32, b: byte, now: nat)
    requires Reading(whole, got, rest, value) && rest != [] && rest[0] == b
    requires now == BitOr(value, ShiftLeft(b % 128, 7 * |got|))
    ensures now < TWO_TO_32
    ensures !Continues(b) ==> Decode(whole) == Parsed(Signed(now), rest[1..])
    ensures Continues(b) && |got| < 4 ==> Reading(whole, got + [b], rest[1..], now)
    ensures Continues(b) && |got| == 4 ==> Decode(whole).Malformed?
  {
    OrAddsGroup(got, b);
    Shift(got, b, rest);
    if !Continues(b) {
      NumberEnds(whole, got, rest[1..], b);
      SignedWraps(now, LebSum(got + [b]));
    } else if |got| == 4 {
      TooBig(whole, got, rest[1..], b);
    }
  }

  lemma Shift(got: seq<byte>, b: byte, rest: seq<byte>)
    requires rest != [] && rest[0] == b
    ensures got + rest == (got + [b]) + rest[1..]
  {}

  lemma NumberEnds(whole: seq<byte>, got: seq<byte>, rest: seq<byte>, b: byte)
    requires whole == (got + [b]) + rest && |got| < 5 && !Continues(b)
    requires forall i: nat :: i < |got| ==> Continues(got[i])
    ensures Decode(whole) == Parsed(Wrap32(LebSum(got + [b])), rest)
  {
    SplitAt(got + [b], rest);
    assert forall i: nat :: i < |got| ==> whole[i] == got[i];
    assert EndsAt(whole, |got|);
  }

  lemma TooBig(whole: seq<byte>, got: seq<byte>, rest: seq<byte>, b: byte)
    requires whole == (got + [b]) + rest && |got| == 4 && Continues(b)
    requires forall i: nat :: i < |got| ==> Continues(got[i])
    ensures Decode(whole).Malformed?
  {
    forall k: nat ensures !EndsAt(whole, k) {
      if k < 4 {
        assert whole[k] == got[k];
      }
    }
  }

  // ---- Why OR-ing computes the sum -----------------------------------------------------

  lemma {:induction false} OrZero(y: nat)
    ensures BitOr(0, y) == y
    decreases y
  {
    if y > 0 {
      OrZero(y / 2);
    }
  }

  /** Where the bits of x end, OR-ing and adding are the same. */
  lemma {:induction false} OrAdds(x: nat, g: nat, n: nat)
    requires x < Pow2(n)
    ensures BitOr(x, g * Pow2(n)) == x + g * Pow2(n)
    decreases n
  {
    if n == 0 {
      OrZero(g);
    } else {
      var y := g * Pow2(n - 1);
      assert g * Pow2(n) == 2 * y;
      OrAdds(x / 2, g, n - 1);
    }
  }

  lemma PowersUsed()
    ensures Pow2(7) == 0x80 && Pow2(14) == 0x4000 && Pow2(21) == 0x20_0000 && Pow2(28) == 0x1000_0000
  {
    assert Pow2(4) == 16;
    assert Pow2(8) == 256;
    assert Pow2(12) == 0x1000;
    assert Pow2(16) == 0x1_0000;
    assert Pow2(20) == 0x10_0000;
    assert Pow2(24) == 0x100_0000;
  }

  lemma {:induction false} LebSumAppend(s: seq<byte>, b: byte)
    ensures LebSum(s) < Pow2(7 * |s|)
    ensures LebSum(s + [b]) == LebSum(s) + b % 128 * Pow2(7 * |s|)
  {
    if s == [] {
      assert ([] + [b])[1..] == [];
    } else {
      assert (s + [b])[1..] == s[1..] + [b];
      LebSumAppend(s[1..], b);
      Pow2Seven(7 * (|s| - 1));
      Scaled(b % 128, Pow2(7 * (|s| - 1)));
    }
  }

  lemma Scaled(g: nat, p: nat)
    ensures 128 * (g * p) == g * (128 * p)
  {}

  lemma SmallProduct(g: nat, p: nat)
    requires g < 128 && p <= 0x20_0000
    ensures g * p <= 127 * 0x20_0000
    ensures g * p % TWO_TO_32 == g * p
  {
    var w := g * p;
    assert w <= 127 * p;
    assert w % TWO_TO_32 == w;
  }

  lemma SmallGroup(x: nat, g: nat, n: nat)
    requires g < 128 && x < Pow2(n) <= 0x20_0000
    ensures BitOr(x, ShiftLeft(g, n)) == x + g * Pow2(n)
    ensures (x + g * Pow2(n)) % TWO_TO_32 == x + g * Pow2(n)
  {
    SmallProduct(g, Pow2(n));
    OrAdds(x, g, n);
    NoWrap(x + g * Pow2(n));
  }

  lemma NoWrap(w: nat)
    requires w < TWO_TO_32
    ensures w % TWO_TO_32 == w
  {}

  lemma TopProduct(x: nat, g: nat)
    requires x < 0x1000_0000 && g < 128
    ensures g * 0x1000_0000 % TWO_TO_32 == g % 16 * 0x1000_0000
    ensures x + g % 16 * 0x1000_0000 == (x + g * 0x1000_0000) % TWO_TO_32
  {
    var q := g / 16;
    assert g * 0x1000_0000 == q * TWO_TO_32 + g % 16 * 0x1000_0000;
  }

  lemma TopGroup(x: nat, g: nat, n: nat)
    requires g < 128 && x < Pow2(n) == 0x1000_0000
    ensures BitOr(x, ShiftLeft(g, n)) == (x + g * Pow2(n)) % TWO_TO_32
  {
    TopProduct(x, g);
    OrAdds(x, g % 16, n);
  }

  lemma GroupWeight(n: nat)
    requires n <= 4
    ensures n < 4 ==> Pow2(7 * n) <= 0x20_0000
    ensures n == 4 ==> Pow2(7 * n) == 0x1000_0000
  {
    PowersUsed();
  }

  /** One turn of the loop adds one group to the sum; the fifth keeps only what fits in 32 bits. */
  lemma OrAddsGroup(got: seq<byte>, b: byte)
    requires |got| < 5
    ensures var v := BitOr(LebSum(got), ShiftLeft(b % 128, 7 * |got|));
            && v == LebSum(got + [b]) % TWO_TO_32
            && (|got| < 4 ==> v == LebSum(got + [b]))
  {
    LebSumAppend(got, b);
    GroupWeight(|got|);
    OrGroup(LebSum(got), b % 128, |got|, 7 * |got|);
  }

  lemma OrGroup(x: nat, g: nat, k: nat, n: nat)
    requires k < 5 && g < 128 && x < Pow2(n)
    requires k < 4 ==> Pow2(n) <= 0x20_0000
    requires k == 4 ==> Pow2(n) == 0x1000_0000
    ensures BitOr(x, ShiftLeft(g, n)) == (x + g * Pow2(n)) % TWO_TO_32
    ensures k < 4 ==> BitOr(x, ShiftLeft(g, n)) == x + g * Pow2(n)
  {
    if k < 4 {
      SmallGroup(x, g, n);
    } else {
      TopGroup(x, g, n);
    }
  }

  lemma SignedWraps(u: uint32, n: int)
    requires u == n % TWO_TO_32
    ensures Signed(u) == Wrap32(n)
  {
    var q := n / TWO_TO_32;
    assert n == TWO_TO_32 * q + u;
  }

  // ---- The encoder -------------------------------------------------------------------------

  /** The minimal encoding: seven bits a byte, low group first, high bit set on all but the last. */
  function EncodeUnsigned(u: nat): (s: seq<byte>)
    ensures s != []
  {
    if u / 128 == 0 then [u % 128] else [u % 128 + 0x80] + EncodeUnsigned(u / 128)
  }

  function Encode(v: int32): seq<byte> {
    EncodeUnsigned(Unsigned(v))
  }

  /** Only the last byte of an encoding ends it, and its groups sum to the number. */
  lemma {:induction false} EncodeSums(u: nat)
    ensures var s := EncodeUnsigned(u);
            && LebSum(s) == u
            && !Continues(s[|s| - 1])
            && forall i: nat :: i < |s| - 1 ==> Continues(s[i])
  {
    var s := EncodeUnsigned(u);
    if u / 128 == 0 {
      assert s[1..] == [];
    } else {
      EncodeSums(u / 128);
      assert s[1..] == EncodeUnsigned(u / 128);
    }
  }

  /** n bytes are enough for a number exactly if it has at most 7n bits. */
  lemma {:induction false} EncodeLength(u: nat, n: nat)
    requires 1 <= n
    ensures |EncodeUnsigned(u)| <= n <==> u < Pow2(7 * n)
  {
    Pow2Seven(7 * (n - 1));
    if u / 128 != 0 {
      if n == 1 {
        assert EncodeUnsigned(u / 128) != [];
      } else {
        EncodeLength(u / 128, n - 1);
      }
    }
  }

  lemma UnsignedFits(u: uint32)
    ensures |EncodeUnsigned(u)| <= 5
  {
    PowersUsed();
    Pow2Seven(28);
    EncodeLength(u, 5);
  }

  /** Decoding inverts encoding for every int32, negatives included, and leaves any tail untouched. */
  lemma RoundTrip(v: int32, tail: seq<byte>)
    ensures Decode(Encode(v) + tail) == Parsed(v, tail)
    ensures |Encode(v)| <= 5
  {
    var s := Encode(v);
    UnsignedFits(Unsigned(v));
    EncodeSums(Unsigned(v));
    EncodingEnds(s, tail);
    SignedWraps(Unsigned(v), Unsigned(v));
  }

  lemma EncodingEnds(s: seq<byte>, tail: seq<byte>)
    requires 1 <= |s| <= 5 && !Continues(s[|s| - 1])
    requires forall i: nat :: i < |s| - 1 ==> Continues(s[i])
    ensures Decode(s + tail) == Parsed(Wrap32(LebSum(s)), tail)
  {
    SplitAt(s, tail);
    assert forall i: nat :: i < |s| ==> (s + tail)[i] == s[i];
    assert EndsAt(s + tail, |s| - 1);
  }

  /** No shorter sequence of bytes stands for the same number. */
  lemma EncodingIsMinimal(s: seq<byte>, k: nat)
    requires EndsAt(s, k)
    ensures |Encode(Decode(s).value)| <= k + 1
  {
    var sum := LebSum(s[..k + 1]);
    if k == 4 {
      UnsignedFits(Unsigned(Wrap32(sum)));
    } else {
      LebSumBound(s[..k + 1]);
      SmallIsItself(sum, k);
      EncodeLength(sum, k + 1);
    }
  }

  lemma LebSumBound(s: seq<byte>)
    ensures LebSum(s) < Pow2(7 * |s|)
  {
    LebSumAppend(s, 0);
  }

  lemma SmallIsItself(n: nat, k: nat)
    requires k < 4 && n < Pow2(7 * (k + 1))
    ensures Unsigned(Wrap32(n)) == n
  {
    PowersUsed();
    Pow2Mono(7 * (k + 1), 28);
    assert (n + TWO_TO_31) % TWO_TO_32 == n + TWO_TO_31;
  }
}
