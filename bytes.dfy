/** Bytes and their two-digit lowercase hexadecimal spelling (`String(format: "%02x", byte)`). */
module Bytes {
  import opened Wrappers

  type Byte = b: int | 0 <= b < 256

  predicate IsLowerHexDigit(c: char) {
    ('0' <= c <= '9') || ('a' <= c <= 'f')
  }

  /** The digit for a value below 16. */
  function HexDigit(n: int): (c: char)
    requires 0 <= n < 16
    ensures IsLowerHexDigit(c)
  {
    if n < 10 then ('0' as int + n) as char else ('a' as int + n - 10) as char
  }

  /** The value of a lowercase hexadecimal digit. */
  function HexDigitValue(c: char): (r: Option<int>)
    ensures r.Some? <==> IsLowerHexDigit(c)
    ensures r.Some? ==> 0 <= r.value < 16 && HexDigit(r.value) == c
  {
    if '0' <= c <= '9' then Some(c as int - '0' as int)
    else if 'a' <= c <= 'f' then Some(c as int - 'a' as int + 10)
    else None
  }

  /** One byte as two digits, high nibble first, zero-padded. */
  function ByteHex(b: Byte): string {
    [HexDigit(b / 16), HexDigit(b % 16)]
  }

  /** Every byte's two digits, concatenated in order. */
  function HexEncode(data: seq<Byte>): (r: string)
    ensures |r| == 2 * |data|
    ensures forall k :: 0 <= k < |r| ==> IsLowerHexDigit(r[k])
  {
    if data == [] then [] else ByteHex(data[0]) + HexEncode(data[1..])
  }

  /** Reads pairs of lowercase hex digits back into bytes; anything else is refused. */
  function HexDecode(s: string): (r: Option<seq<Byte>>)
    decreases |s|
  {
    if s == [] then Some([])
    else if |s| == 1 then None
    else
      match (HexDigitValue(s[0]), HexDigitValue(s[1]), HexDecode(s[2..]))
      case (Some(hi), Some(lo), Some(rest)) => Some([hi * 16 + lo] + rest)
      case _ => None
  }

  /** Decoding the hex spelling of some bytes gives those bytes back. */
  lemma {:induction false} HexRoundTrip(data: seq<Byte>)
    ensures HexDecode(HexEncode(data)) == Some(data)
  {
    if data != [] {
      var s := HexEncode(data);
      var b := data[0];
      assert s == ByteHex(b) + HexEncode(data[1..]);
      assert s[2..] == HexEncode(data[1..]);
      HexRoundTrip(data[1..]);
      assert HexDigitValue(s[0]) == Some(b / 16);
      assert HexDigitValue(s[1]) == Some(b % 16);
      assert [b] + data[1..] == data;
    }
  }

  /** Different bytes never share a spelling, so the token identifies the device's bytes. */
  lemma HexEncodeInjective(a: seq<Byte>, b: seq<Byte>)
    requires HexEncode(a) == HexEncode(b)
    ensures a == b
  {
    HexRoundTrip(a);
    HexRoundTrip(b);
  }
}
