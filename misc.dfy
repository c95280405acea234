/** The numeric helpers of the test utilities: the marketplace's price
    bounds and fee, the split of a 256-bit value into two 128-bit limbs, and
    the reading of a short string as one field element. */
module Misc {
  import opened Wrappers

  /** Lowest price an offer may carry, inclusive (10^13). */
  const MIN_PRICE: nat := 10_000_000_000_000
  /** Highest price an offer may carry, inclusive (10^26). */
  const MAX_PRICE: nat := 100_000_000_000_000_000_000_000_000
  /** The fee rate, in parts per million of the settled amount (5%). */
  const TAX_PERCENT: nat := 50_000
  const TAX_SCALE: nat := 1_000_000

  /** 2^128, the modulus of one limb of a uint256. */
  const LIMB: nat := 0x1_0000_0000_0000_0000_0000_0000_0000_0000

  // ---------------------------------------------------------------------
  // Prices and fee
  // ---------------------------------------------------------------------

  /** The bounds check an offer price must pass. On every price it lets
      through, both the fee and the seller's share are positive. */
  predicate ValidPrice(price: int): (ok: bool)
    ensures ok ==> price > 0 && 0 < Tax(price) < price
  {
    MIN_PRICE <= price <= MAX_PRICE
  }

  /** The fee taken on a settlement of `amount`, rounded down. */
  function Tax(amount: nat): (fee: nat)
    ensures fee * TAX_SCALE <= amount * TAX_PERCENT < (fee + 1) * TAX_SCALE
  {
    amount * TAX_PERCENT / TAX_SCALE
  }

  /** The fee is exactly 5% rounded down, and the seller's share and the fee
      add back up to the amount. */
  lemma TaxIsFivePercent(amount: nat)
    ensures Tax(amount) == amount / 20
    ensures 20 * Tax(amount) <= amount < 20 * Tax(amount) + 20
    ensures Tax(amount) <= amount
    ensures (amount - Tax(amount)) + Tax(amount) == amount
  {
    var f := Tax(amount);
    assert f * 1_000_000 <= amount * 50_000 < (f + 1) * 1_000_000;
    assert 20 * f <= amount < 20 * f + 20;
  }

  /** Paying more never yields a smaller fee. */
  lemma TaxMonotonic(a: nat, b: nat)
    requires a <= b
    ensures Tax(a) <= Tax(b)
  {
    TaxIsFivePercent(a);
    TaxIsFivePercent(b);
  }

  /** Both bounds are inclusive: the prices the tests try just outside
      them are refused, the bounds themselves accepted. */
  lemma PriceRange()
    ensures MIN_PRICE < MAX_PRICE
    ensures ValidPrice(MIN_PRICE) && ValidPrice(MAX_PRICE)
    ensures !ValidPrice(MIN_PRICE - 1) && !ValidPrice(MAX_PRICE + 1)
  {
  }

  /** The fees the tests compute: at MIN_PRICE and at the "tricky" price
      MIN_PRICE + 19, whose extra 19 units are lost to rounding. */
  lemma TaxAtTestedPrices()
    ensures Tax(MIN_PRICE) == 500_000_000_000
    ensures Tax(MIN_PRICE + 19) == 500_000_000_000
    ensures (MIN_PRICE + 19) - Tax(MIN_PRICE + 19) == 9_500_000_000_019
  {
    TaxIsFivePercent(MIN_PRICE);
    TaxIsFivePercent(MIN_PRICE + 19);
  }

  // ---------------------------------------------------------------------
  // uint256 as two 128-bit limbs
  // ---------------------------------------------------------------------

  /** A uint256 as the two felts `low` and `high` it travels as. */
  datatype Uint256 = Uint256(low: int, high: int)

  /** `to_uint`: the low 128 bits (`a & (2^128 - 1)`) and the rest
      (`a >> 128`). Python's `&` and `>>` on a negative integer agree with
      Euclidean `%` and `/` by a positive divisor, so this holds for every
      integer. */
  function ToUint(a: int): (u: Uint256)
    ensures 0 <= u.low < LIMB
    ensures u.low + u.high * LIMB == a
  {
    Uint256(a % LIMB, a / LIMB)
  }

  /** `from_uint`: `low + (high << 128)`. Splitting the result again
      gives back the pair whenever its low limb is a 128-bit value. */
  function FromUint(u: Uint256): (a: int)
    ensures 0 <= u.low < LIMB ==> ToUint(a) == u
  {
    u.low + u.high * LIMB
  }

  /** `uint(a, b=0)`: the pair built from its limbs as given. It stands
      for `a + b * 2^128`, and it is what `to_uint` makes of that value
      whenever `a` is a 128-bit value; so `uint(a)` is `to_uint(a)` there. */
  function Uint(a: int, b: int := 0): (u: Uint256)
    ensures FromUint(u) == a + b * LIMB
    ensures 0 <= a < LIMB ==> u == ToUint(a + b * LIMB)
  {
    Uint256(a, b)
  }

  /** Joining the limbs of a split value gives the value back. */
  lemma FromToUint(a: int)
    ensures FromUint(ToUint(a)) == a
  {
  }

  /** Both limbs of a value in [0, 2^256) are 128-bit values. */
  lemma ToUintBounds(a: int)
    requires 0 <= a < LIMB * LIMB
    ensures 0 <= ToUint(a).high < LIMB
  {
  }

  // ---------------------------------------------------------------------
  // str_to_felt
  // ---------------------------------------------------------------------

  newtype byte = b: int | 0 <= b < 256

  /** The UTF-8 encoding of one Unicode scalar value. */
  function Utf8Char(c: char): (bs: seq<byte>)
    ensures 1 <= |bs| <= 4
    ensures |bs| == 1 <==> c as int < 0x80
    ensures forall i :: 1 <= i < |bs| ==> 0x80 <= bs[i] < 0xC0
    ensures LeadLength(bs[0]) == |bs|
  {
    var n := c as int;
    if n < 0x80 then [n as byte]
    else if n < 0x800 then
      [(0xC0 + n / 64) as byte, (0x80 + n % 64) as byte]
    else if n < 0x1_0000 then
      [(0xE0 + n / 4096) as byte, (0x80 + n / 64 % 64) as byte, (0x80 + n % 64) as byte]
    else
      [(0xF0 + n / 262144) as byte, (0x80 + n / 4096 % 64) as byte,
       (0x80 + n / 64 % 64) as byte, (0x80 + n % 64) as byte]
  }

  /** The length of a UTF-8 sequence, read off its leading byte. */
  function LeadLength(b: byte): nat
  {
    if b < 0x80 then 1 else if b < 0xE0 then 2 else if b < 0xF0 then 3 else 4
  }

  /** The scalar value a one- to four-byte UTF-8 sequence stands for: the
      payload bits of its leading byte followed by six bits per
      continuation byte. */
  function Utf8Scalar(bs: seq<byte>): int
    requires 1 <= |bs| <= 4
  {
    if |bs| == 1 then bs[0] as int
    else if |bs| == 2 then (bs[0] as int - 0xC0) * 64 + (bs[1] as int - 0x80)
    else if |bs| == 3 then
      ((bs[0] as int - 0xE0) * 64 + (bs[1] as int - 0x80)) * 64 + (bs[2] as int - 0x80)
    else
      (((bs[0] as int - 0xF0) * 64 + (bs[1] as int - 0x80)) * 64 + (bs[2] as int - 0x80)) * 64
      + (bs[3] as int - 0x80)
  }

  /** Decoding the encoding of a character gives the character back. */
  lemma Utf8CharRoundTrip(c: char)
    ensures Utf8Scalar(Utf8Char(c)) == c as int
  {
    var n := c as int;
    if n < 0x80 {
    } else if n < 0x800 {
      assert n == n / 64 * 64 + n % 64;
    } else if n < 0x1_0000 {
      assert n / 64 == n / 4096 * 64 + n / 64 % 64;
      assert n == n / 64 * 64 + n % 64;
    } else {
      assert n / 4096 == n / 262144 * 64 + n / 4096 % 64;
      assert n / 64 == n / 4096 * 64 + n / 64 % 64;
      assert n == n / 64 * 64 + n % 64;
    }
  }

  /** `bytes(text, 'UTF-8')`. */
  function Utf8(s: string): (bs: seq<byte>)
    ensures |s| <= |bs| <= 4 * |s|
  {
    if s == [] then [] else Utf8Char(s[0]) + Utf8(s[1..])
  }

  /** Reads UTF-8 bytes back into text: each leading byte says how many
      bytes its character takes; a truncated sequence or a value that is
      no Unicode scalar value is refused. */
  function Utf8Decode(bs: seq<byte>): Option<string>
    decreases |bs|
  {
    if bs == [] then Some([])
    else
      var k := LeadLength(bs[0]);
      if |bs| < k then None
      else
        var v := Utf8Scalar(bs[..k]);
        if !(0 <= v < 0xD800 || 0xE000 <= v < 0x11_0000) then None
        else
          match Utf8Decode(bs[k..])
          case None => None
          case Some(rest) => Some([v as char] + rest)
  }

  /** Decoding the UTF-8 encoding of a text gives the text back. */
  lemma {:induction false} Utf8RoundTrip(s: string)
    ensures Utf8Decode(Utf8(s)) == Some(s)
    decreases |s|
  {
    if s != [] {
      var bs := Utf8(s);
      var head := Utf8Char(s[0]);
      assert bs[..|head|] == head;
      assert bs[|head|..] == Utf8(s[1..]);
      Utf8CharRoundTrip(s[0]);
      Utf8RoundTrip(s[1..]);
      assert [s[0]] + s[1..] == s;
    }
  }

  /** Distinct texts have distinct encodings. */
  lemma Utf8Injective(s: string, t: string)
    requires Utf8(s) == Utf8(t)
    ensures s == t
  {
    Utf8RoundTrip(s);
    Utf8RoundTrip(t);
  }

  /** `int.from_bytes(bs, "big")`: a number of k bytes is below 256^k. */
  function BigEndian(bs: seq<byte>): (n: nat)
    ensures n < Pow256(|bs|)
  {
    if bs == [] then 0
    else
      var init := bs[..|bs| - 1];
      assert (BigEndian(init) + 1) * 256 <= Pow256(|init|) * 256;
      BigEndian(init) * 256 + bs[|bs| - 1] as nat
  }

  /** `n.to_bytes(len, "big")` for an `n` that fits in `len` bytes. */
  function ToBigEndian(n: nat, len: nat): seq<byte>
  {
    if len == 0 then [] else ToBigEndian(n / 256, len - 1) + [(n % 256) as byte]
  }

  function Pow256(k: nat): nat
  {
    if k == 0 then 1 else 256 * Pow256(k - 1)
  }

  /** `str_to_felt`: the UTF-8 bytes of the text read as one big-endian
      number. Nothing is lost: written back in as many bytes as the text
      encodes to, the number gives those bytes, and they decode to the
      text. */
  function StrToFelt(text: string): (n: nat)
    ensures n < Pow256(|Utf8(text)|)
    ensures ToBigEndian(n, |Utf8(text)|) == Utf8(text)
    ensures Utf8Decode(ToBigEndian(n, |Utf8(text)|)) == Some(text)
  {
    BigEndianRoundTrip(Utf8(text));
    Utf8RoundTrip(text);
    BigEndian(Utf8(text))
  }

  /** Writing a number back with as many bytes as it was read from gives
      the same bytes: reading is injective on byte strings of one length. */
  lemma {:induction false} BigEndianRoundTrip(bs: seq<byte>)
    ensures ToBigEndian(BigEndian(bs), |bs|) == bs
  {
    if bs != [] {
      var init := bs[..|bs| - 1];
      var n := BigEndian(bs);
      assert n / 256 == BigEndian(init);
      assert n % 256 == bs[|bs| - 1] as int;
      BigEndianRoundTrip(init);
      assert init + [bs[|bs| - 1]] == bs;
    }
  }

  /** Reading the bytes a number was written with gives the number back. */
  lemma {:induction false} ToBigEndianRoundTrip(n: nat, len: nat)
    requires n < Pow256(len)
    ensures |ToBigEndian(n, len)| == len
    ensures BigEndian(ToBigEndian(n, len)) == n
  {
    if len > 0 {
      ToBigEndianRoundTrip(n / 256, len - 1);
      var bs := ToBigEndian(n, len);
      assert bs[..|bs| - 1] == ToBigEndian(n / 256, len - 1);
    }
  }

  /** Each character of an ASCII text is one byte, its code. */
  lemma {:induction false} Utf8OfAscii(s: string)
    requires forall i :: 0 <= i < |s| ==> s[i] as int < 0x80
    ensures |Utf8(s)| == |s|
    ensures forall i :: 0 <= i < |s| ==> Utf8(s)[i] as int == s[i] as int
  {
    if s != [] {
      Utf8OfAscii(s[1..]);
    }
  }

  /** An ASCII short string of at most 31 characters encodes to at most 31
      bytes, so its `str_to_felt` fits in 248 bits. */
  lemma StrToFeltBound(s: string)
    ensures (forall i :: 0 <= i < |s| ==> s[i] as int < 0x80) && |s| <= 31 ==>
      StrToFelt(s) < Pow256(31)
  {
    if (forall i :: 0 <= i < |s| ==> s[i] as int < 0x80) && |s| <= 31 {
      Utf8OfAscii(s);
      Pow256Monotonic(|s|, 31);
    }
  }

  lemma {:induction false} Pow256Monotonic(j: nat, k: nat)
    requires j <= k
    ensures Pow256(j) <= Pow256(k)
  {
    if j < k {
      Pow256Monotonic(j, k - 1);
    }
  }

  /** Reading one more byte shifts the number by a byte. */
  lemma BigEndianSnoc(bs: seq<byte>, b: byte)
    ensures BigEndian(bs + [b]) == BigEndian(bs) * 256 + b as nat
  {
    assert (bs + [b])[..|bs|] == bs;
  }

  /** The version tag the marketplace tests read: "0.2.0" is the bytes
      0x30 0x2e 0x32 0x2e 0x30. */
  lemma VersionFelt()
    ensures StrToFelt("0.2.0") == 0x30_2e_32_2e_30
  {
    VersionBytes();
    VersionNumber();
  }

  lemma VersionBytes()
    ensures Utf8("0.2.0") == [0x30, 0x2e, 0x32, 0x2e, 0x30]
  {
    Utf8OfAscii("0.2.0");
  }

  lemma VersionNumber()
    ensures BigEndian([0x30, 0x2e, 0x32, 0x2e, 0x30]) == 0x30_2e_32_2e_30
  {
    BigEndianSnoc([], 0x30);
    assert [] + [0x30 as byte] == [0x30];
    BigEndianSnoc([0x30], 0x2e);
    assert [0x30 as byte] + [0x2e] == [0x30, 0x2e];
    BigEndianSnoc([0x30, 0x2e], 0x32);
    assert [0x30 as byte, 0x2e] + [0x32] == [0x30, 0x2e, 0x32];
    BigEndianSnoc([0x30, 0x2e, 0x32], 0x2e);
    assert [0x30 as byte, 0x2e, 0x32] + [0x2e] == [0x30, 0x2e, 0x32, 0x2e];
    BigEndianSnoc([0x30, 0x2e, 0x32, 0x2e], 0x30);
    assert [0x30 as byte, 0x2e, 0x32, 0x2e] + [0x30] == [0x30, 0x2e, 0x32, 0x2e, 0x30];
  }
}
