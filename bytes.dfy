/** Fixed-width unsigned integers and the byte encodings the code relies on:
    UTF-8 (`str::as_bytes`) and hexadecimal (`hex::decode`, `format!("{:02x}")`). */
module Bytes {
  import opened Wrappers

  type byte = x: int | 0 <= x < 0x100
  type u16 = x: int | 0 <= x < 0x1_0000
  type u32 = x: int | 0 <= x < 0x1_0000_0000

  /** The UTF-8 bytes of one Unicode scalar value. */
  function Utf8Char(c: char): (r: seq<byte>)
    ensures 1 <= |r| <= 4
    ensures (c as int < 0x80) == (|r| == 1)
  {
    var n := c as int;
    if n < 0x80 then [n]
    else if n < 0x800 then [0xC0 + n / 0x40, 0x80 + n % 0x40]
    else if n < 0x1_0000 then [0xE0 + n / 0x1000, 0x80 + (n / 0x40) % 0x40, 0x80 + n % 0x40]
    else [0xF0 + n / 0x4_0000, 0x80 + (n / 0x1000) % 0x40, 0x80 + (n / 0x40) % 0x40, 0x80 + n % 0x40]
  }

  /** `str::as_bytes`. */
  function Utf8(s: string): seq<byte> {
    if s == [] then [] else Utf8Char(s[0]) + Utf8(s[1..])
  }

  /** The value of one hexadecimal digit, either case. */
  function HexDigitValue(c: char): (r: Option<nat>)
    ensures r.Some? ==> r.value < 16
  {
    if '0' <= c <= '9' then Some(c as int - '0' as int)
    else if 'a' <= c <= 'f' then Some(c as int - 'a' as int + 10)
    else if 'A' <= c <= 'F' then Some(c as int - 'A' as int + 10)
    else None
  }

  /** `hex::decode`: pairs of hexadecimal digits; an odd length or another character is an error. */
  function HexDecode(s: string): (r: Option<seq<byte>>)
    ensures r.Some? ==> |s| == 2 * |r.value|
    decreases |s|
  {
    if |s| == 0 then Some([])
    else if |s| == 1 then None
    else
      var hi :- HexDigitValue(s[0]);
      var lo :- HexDigitValue(s[1]);
      var rest :- HexDecode(s[2..]);
      Some([hi * 16 + lo] + rest)
  }

  const HEX_DIGITS := "0123456789abcdef"

  /** `format!("{:02x}")` of every byte, concatenated: lowercase hexadecimal. */
  function HexLower(b: seq<byte>): (r: string)
    ensures |r| == 2 * |b|
  {
    if b == [] then [] else [HEX_DIGITS[b[0] / 16], HEX_DIGITS[b[0] % 16]] + HexLower(b[1..])
  }

  /** Lowercase hexadecimal uses only the digits and `a` to `f`. */
  lemma {:induction false} HexLowerDigits(b: seq<byte>)
    ensures forall i :: 0 <= i < |HexLower(b)| ==> '0' <= HexLower(b)[i] <= '9' || 'a' <= HexLower(b)[i] <= 'f'
  {
    if b != [] {
      HexDigitRoundTrip(b[0] / 16);
      HexDigitRoundTrip(b[0] % 16);
      HexLowerDigits(b[1..]);
    }
  }

  lemma HexDigitRoundTrip(d: nat)
    requires d < 16
    ensures HexDigitValue(HEX_DIGITS[d]) == Some(d)
    ensures '0' <= HEX_DIGITS[d] <= '9' || 'a' <= HEX_DIGITS[d] <= 'f'
  {
    var c := HEX_DIGITS[d];
    if d < 10 {
      assert c as int == '0' as int + d;
    } else {
      assert c as int == 'a' as int + d - 10;
    }
  }

  /** Decoding lowercase hexadecimal gives the bytes back. */
  lemma {:induction false} HexRoundTrip(b: seq<byte>)
    ensures HexDecode(HexLower(b)) == Some(b)
  {
    if b != [] {
      var hi, lo := b[0] / 16, b[0] % 16;
      HexLowerHead(b);
      HexDigitRoundTrip(hi);
      HexDigitRoundTrip(lo);
      HexRoundTrip(b[1..]);
      HexDecodePair(HexLower(b), hi, lo, b[1..]);
      assert [hi * 16 + lo] + b[1..] == b;
    }
  }

  lemma HexLowerHead(b: seq<byte>)
    requires b != []
    ensures var s := HexLower(b);
      && s[0] == HEX_DIGITS[b[0] / 16] && s[1] == HEX_DIGITS[b[0] % 16]
      && s[2..] == HexLower(b[1..])
  {
  }

  lemma HexDecodePair(s: string, hi: nat, lo: nat, rest: seq<byte>)
    requires |s| >= 2 && hi < 16 && lo < 16
    requires HexDigitValue(s[0]) == Some(hi) && HexDigitValue(s[1]) == Some(lo)
    requires HexDecode(s[2..]) == Some(rest)
    ensures HexDecode(s) == Some([hi * 16 + lo] + rest)
  {
  }

  /** An odd number of characters is never valid hexadecimal. */
  lemma OddLengthIsNotHex(s: string)
    requires |s| % 2 == 1
    ensures HexDecode(s).None?
  {
  }
}
