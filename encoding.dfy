/** Value encodings the tool relies on: Rust's machine integers, the decimal
    rendering of `{}` in format strings, `u32::from_be_bytes`, and the
    lowercase hexadecimal of the `hex` crate (Base16 of RFC 4648, section 8,
    with the lowercase alphabet). */
module Encoding {

  datatype Option<+T> = None | Some(value: T)

  /** Rust's `i32`. */
  type i32 = x: int | -0x8000_0000 <= x < 0x8000_0000

  /** Rust's `u8`. */
  type byte = x: int | 0 <= x < 0x100

  /** Rust's `u32`, where it is used as a number rather than a bit mask. */
  type u32 = x: int | 0 <= x < 0x1_0000_0000

  // ---------------------------------------------------------------------
  // Decimal rendering (`{}` of an integer)
  // ---------------------------------------------------------------------

  predicate IsDigit(c: char) {
    '0' <= c <= '9'
  }

  function DigitChar(d: nat): (c: char)
    requires d < 10
    ensures IsDigit(c) && c as int - '0' as int == d
  {
    ('0' as int + d) as char
  }

  /** The decimal digits of `n`, most significant first, without leading zeros. */
  function NatToDecimal(n: nat): (s: string)
    ensures |s| >= 1
    ensures forall k :: 0 <= k < |s| ==> IsDigit(s[k])
    ensures s[0] == '0' ==> n == 0 && |s| == 1
    decreases n
  {
    if n < 10 then [DigitChar(n)] else NatToDecimal(n / 10) + [DigitChar(n % 10)]
  }

  /** `{}` of a signed integer: a minus sign before a negative value. */
  function IntToDecimal(i: int): (s: string)
    ensures |s| >= 1
    ensures (s[0] == '-') == (i < 0)
  {
    if i < 0 then "-" + NatToDecimal(-i) else NatToDecimal(i)
  }

  /** Reference reading of a digit string, least significant digit last. */
  function DecimalValue(s: string): nat
    requires forall k :: 0 <= k < |s| ==> IsDigit(s[k])
  {
    if |s| == 0 then 0
    else
      assert IsDigit(s[|s| - 1]);
      10 * DecimalValue(s[..|s| - 1]) + (s[|s| - 1] as int - '0' as int)
  }

  /** Reading back the rendering of a natural number gives the number. */
  lemma {:induction false} NatToDecimalRoundTrip(n: nat)
    ensures DecimalValue(NatToDecimal(n)) == n
    decreases n
  {
    if n >= 10 {
      var s := NatToDecimal(n);
      assert s[..|s| - 1] == NatToDecimal(n / 10);
      NatToDecimalRoundTrip(n / 10);
    }
  }

  /** The rendering of an integer determines the integer. */
  lemma IntToDecimalInjective(i: int, j: int)
    requires IntToDecimal(i) == IntToDecimal(j)
    ensures i == j
  {
    if i < 0 {
      assert j < 0;
      SameTail("-", NatToDecimal(-i), NatToDecimal(-j));
      NatToDecimalInjective(-i, -j);
    } else {
      assert j >= 0;
      NatToDecimalInjective(i, j);
    }
  }

  /** The rendering of a natural number determines the number. */
  lemma NatToDecimalInjective(a: nat, b: nat)
    requires NatToDecimal(a) == NatToDecimal(b)
    ensures a == b
  {
    NatToDecimalRoundTrip(a);
    NatToDecimalRoundTrip(b);
  }

  /** Strings that agree after a common prefix agree. */
  lemma SameTail(c: string, a: string, b: string)
    requires c + a == c + b
    ensures a == b
  {
    assert a == (c + a)[|c|..];
    assert b == (c + b)[|c|..];
  }

  // ---------------------------------------------------------------------
  // Big-endian 32-bit words (`u32::from_be_bytes`, `u32::to_be_bytes`)
  // ---------------------------------------------------------------------

  /** The value base 256 of four bytes, most significant byte first. */
  function FromBeBytes(b: seq<byte>): (w: u32)
    requires |b| == 4
  {
    ((b[0] as int * 0x100 + b[1] as int) * 0x100 + b[2] as int) * 0x100 + b[3] as int
  }

  function ToBeBytes(w: u32): (b: seq<byte>)
    ensures |b| == 4
  {
    [w / 0x100_0000, w / 0x1_0000 % 0x100, w / 0x100 % 0x100, w % 0x100]
  }

  lemma BeRoundTripWord(w: u32)
    ensures FromBeBytes(ToBeBytes(w)) == w
  {
    var q1, q2, q3 := w / 0x100, w / 0x1_0000, w / 0x100_0000;
    NestedQuotients(w);
    ByteSplitOf(q2);
    ByteSplitOf(q1);
    ByteSplitOf(w);
    assert q3 * 0x100 + q2 % 0x100 == q2;
  }

  lemma BeRoundTripBytes(b: seq<byte>)
    requires |b| == 4
    ensures ToBeBytes(FromBeBytes(b)) == b
  {
    var x1 := b[0] as int * 0x100 + b[1] as int;
    var x2 := x1 * 0x100 + b[2] as int;
    var w := FromBeBytes(b);
    assert w == x2 * 0x100 + b[3] as int;
    ByteSplit(x2, b[3]);
    ByteSplit(x1, b[2]);
    ByteSplit(b[0], b[1]);
    NestedQuotients(w);
  }

  /** Appending a byte below a number is undone by a division by 256. */
  lemma ByteSplit(q: nat, r: byte)
    ensures (q * 0x100 + r) / 0x100 == q && (q * 0x100 + r) % 0x100 == r
  {
  }

  /** A number is its quotient by 256, shifted up a byte, plus its last byte. */
  lemma ByteSplitOf(n: nat)
    ensures (n / 0x100) * 0x100 + n % 0x100 == n
  {
  }

  /** Dividing by 256 twice or three times is dividing by 2^16 or 2^24. */
  lemma NestedQuotients(w: nat)
    ensures w / 0x1_0000 == w / 0x100 / 0x100
    ensures w / 0x100_0000 == w / 0x1_0000 / 0x100
  {
  }

  // ---------------------------------------------------------------------
  // Lowercase hexadecimal (`hex::encode`)
  // ---------------------------------------------------------------------

  predicate IsLowerHex(c: char) {
    '0' <= c <= '9' || 'a' <= c <= 'f'
  }

  /** The lowercase hexadecimal digit of a nibble. */
  function HexDigit(n: nat): (c: char)
    requires n < 16
    ensures IsLowerHex(c)
  {
    if n < 10 then ('0' as int + n) as char else ('a' as int + n - 10) as char
  }

  /** The nibble a lowercase hexadecimal digit stands for. */
  function HexValue(c: char): (r: Option<nat>)
    ensures r.Some? <==> IsLowerHex(c)
    ensures r.Some? ==> r.value < 16
  {
    if '0' <= c <= '9' then Some(c as int - '0' as int)
    else if 'a' <= c <= 'f' then Some(c as int - 'a' as int + 10)
    else None
  }

  lemma HexDigitValue(n: nat)
    requires n < 16
    ensures HexValue(HexDigit(n)) == Some(n)
  {
  }

  /** Two digits per byte, high nibble first, no separators. */
  function HexEncode(bs: seq<byte>): (s: string)
    ensures |s| == 2 * |bs|
    ensures forall k :: 0 <= k < |s| ==> IsLowerHex(s[k])
    ensures forall i :: 0 <= i < |bs| ==> s[2 * i] == HexDigit(bs[i] / 16) && s[2 * i + 1] == HexDigit(bs[i] % 16)
  {
    if bs == [] then ""
    else [HexDigit(bs[0] / 16), HexDigit(bs[0] % 16)] + HexEncode(bs[1..])
  }

  /** Reads pairs of lowercase digits back into bytes; `None` on an odd length
      or a character outside the alphabet. */
  function HexDecode(s: string): (r: Option<seq<byte>>)
    ensures r.Some? ==> 2 * |r.value| == |s|
    decreases |s|
  {
    if |s| == 0 then Some([])
    else if |s| == 1 then None
    else match (HexValue(s[0]), HexValue(s[1]), HexDecode(s[2..]))
      case (Some(hi), Some(lo), Some(rest)) => Some([hi * 16 + lo] + rest)
      case _ => None
  }

  lemma {:induction false} HexRoundTrip(bs: seq<byte>)
    ensures HexDecode(HexEncode(bs)) == Some(bs)
  {
    if bs != [] {
      var s := HexEncode(bs);
      assert s[2..] == HexEncode(bs[1..]);
      HexRoundTrip(bs[1..]);
      HexDigitValue(bs[0] / 16);
      HexDigitValue(bs[0] % 16);
      assert [bs[0]] + bs[1..] == bs;
    }
  }
}
