/**
 * `Color.init(hex:)` up to the integer channels. Which characters count as
 * alphanumeric is an input (Foundation's `CharacterSet.alphanumerics`), and
 * `Scanner.scanHexInt64` is read as the value of the leading run of hex
 * digits, 0 when there is none.
 */
module ColorHex {
  import opened Wrappers
  import opened Strings
  import opened Bytes

  /** Alpha, red, green and blue, each a byte. */
  datatype Rgba = Rgba(a: int, r: int, g: int, b: int)

  const OpaqueBlack: Rgba := Rgba(255, 0, 0, 0)

  /** A hexadecimal digit's value, in either case. */
  function DigitValue(c: char): (r: Option<int>)
    ensures r.Some? ==> 0 <= r.value < 16
  {
    if '0' <= c <= '9' then Some(c as int - '0' as int)
    else if 'a' <= c <= 'f' then Some(c as int - 'a' as int + 10)
    else if 'A' <= c <= 'F' then Some(c as int - 'A' as int + 10)
    else None
  }

  predicate AllDigits(s: string) {
    forall k :: 0 <= k < |s| ==> DigitValue(s[k]).Some?
  }

  /** The longest prefix made of hex digits. */
  function HexPrefix(s: string): (r: string)
    ensures |r| <= |s| && r == s[..|r|] && AllDigits(r)
    ensures |r| < |s| ==> DigitValue(s[|r|]).None?
  {
    if s == [] || DigitValue(s[0]).None? then []
    else
      var rest := HexPrefix(s[1..]);
      assert [s[0]] + rest == s[..|rest| + 1];
      [s[0]] + rest
  }

  /** The number a run of hex digits spells, most significant first. */
  function HexValue(digits: string): (v: nat)
    requires AllDigits(digits)
  {
    if digits == [] then 0 else HexValue(digits[..|digits| - 1]) * 16 + DigitValue(digits[|digits| - 1]).value
  }

  /** What `scanHexInt64` leaves in `int`. */
  function ScanHex(s: string): nat {
    HexValue(HexPrefix(s))
  }

  /** The string the channels are read from: a three-character string followed by itself, anything else as it is. */
  function Expanded(s: string): (r: string)
    ensures |s| == 3 ==> |r| == 6 && r[..3] == s && r[3..] == s
    ensures |s| != 3 ==> r == s
  {
    if |s| == 3 then s + s else s
  }

  /**
   * The three-character expansion loop. It walks the enumerated characters of
   * the original string and appends each one to the end of the growing
   * string; the guard `index < cleaned.count` reads the growing string and so
   * never stops it.
   */
  method ExpandShortForm(s: string) returns (cleaned: string)
    ensures cleaned == Expanded(s)
  {
    cleaned := s;
    if |cleaned| == 3 {
      var original := cleaned;
      var index := 0;
      while index < |original|
        invariant 0 <= index <= |original| == 3
        invariant cleaned == original + original[..index]
      {
        if index < |cleaned| {
          cleaned := cleaned + [original[index]];
        }
        index := index + 1;
      }
    }
  }

  /** The channels for the cleaned string: `rrggbb` opaque, `aarrggbb` with its alpha, anything else opaque black. */
  function Channels(cleaned: string): (c: Rgba)
    ensures 0 <= c.a < 256 && 0 <= c.r < 256 && 0 <= c.g < 256 && 0 <= c.b < 256
    ensures |cleaned| != 6 && |cleaned| != 8 ==> c == OpaqueBlack
    ensures |cleaned| == 6 ==> c.a == 255
  {
    var v := ScanHex(cleaned);
    if |cleaned| == 6 then Rgba(255, (v / 0x1_0000) % 256, (v / 0x100) % 256, v % 256)
    else if |cleaned| == 8 then Rgba((v / 0x100_0000) % 256, (v / 0x1_0000) % 256, (v / 0x100) % 256, v % 256)
    else OpaqueBlack
  }

  /** `Color.init(hex:)`: trims non-alphanumerics from both ends, expands the short form, reads the channels. */
  method ColorFromHex(hex: string, alphanumeric: char -> bool) returns (c: Rgba)
    ensures c == Channels(Expanded(Trim(hex, x => !alphanumeric(x))))
  {
    var cleaned := Trim(hex, x => !alphanumeric(x));
    cleaned := ExpandShortForm(cleaned);
    c := Channels(cleaned);
  }

  // ---------------------------------------------------------------- round trips

  lemma AllDigitsConcat(a: string, b: string)
    requires AllDigits(a) && AllDigits(b)
    ensures AllDigits(a + b)
  {
    forall k | 0 <= k < |a + b| ensures DigitValue((a + b)[k]).Some? {
      if k >= |a| { assert (a + b)[k] == b[k - |a|]; }
    }
  }

  lemma ShiftDigit(x: int, p: int, y: int, d: int)
    ensures (x * p + y) * 16 + d == x * (p * 16) + (y * 16 + d)
  {
  }

  lemma {:induction false} HexValueConcat(a: string, b: string)
    requires AllDigits(a) && AllDigits(b)
    ensures AllDigits(a + b)
    ensures HexValue(a + b) == HexValue(a) * Pow16(|b|) + HexValue(b)
    decreases |b|
  {
    AllDigitsConcat(a, b);
    if b == [] {
      assert a + b == a;
    } else {
      var b' := b[..|b| - 1];
      var d := DigitValue(b[|b| - 1]).value;
      assert (a + b)[..|a + b| - 1] == a + b';
      assert (a + b)[|a + b| - 1] == b[|b| - 1];
      HexValueConcat(a, b');
      assert HexValue(a + b) == HexValue(a + b') * 16 + d;
      assert HexValue(b) == HexValue(b') * 16 + d;
      ShiftDigit(HexValue(a), Pow16(|b'|), HexValue(b'), d);
    }
  }

  function Pow16(n: nat): nat {
    if n == 0 then 1 else Pow16(n - 1) * 16
  }

  /** A byte's two lowercase digits read back as the byte. */
  lemma ByteHexValue(x: Byte)
    ensures AllDigits(ByteHex(x)) && HexValue(ByteHex(x)) == x
  {
    var s := ByteHex(x);
    assert DigitValue(HexDigit(x / 16)) == Some(x / 16);
    assert DigitValue(HexDigit(x % 16)) == Some(x % 16);
    assert s[..1] == [HexDigit(x / 16)];
    assert s[..1][..0] == [];
    assert HexValue(s[..1]) == x / 16;
    assert HexValue(s) == (x / 16) * 16 + x % 16;
  }

  /** Hex spellings of bytes read as the big-endian number they make. */
  lemma {:induction false} HexEncodeValue(data: seq<Byte>)
    ensures AllDigits(HexEncode(data))
    ensures HexValue(HexEncode(data)) == BigEndian(data)
    decreases |data|
  {
    if data != [] {
      var last := data[|data| - 1];
      var init := data[..|data| - 1];
      HexEncodeSnoc(init, last);
      assert init + [last] == data;
      HexEncodeValue(init);
      ByteHexValue(last);
      HexValueConcat(HexEncode(init), ByteHex(last));
      assert Pow16(2) == 256;
    }
  }

  lemma {:induction false} HexEncodeSnoc(init: seq<Byte>, last: Byte)
    ensures HexEncode(init + [last]) == HexEncode(init) + ByteHex(last)
    decreases |init|
  {
    if init == [] {
      assert [] + [last] == [last];
    } else {
      assert (init + [last])[1..] == init[1..] + [last];
      HexEncodeSnoc(init[1..], last);
    }
  }

  function BigEndian(data: seq<Byte>): nat {
    if data == [] then 0 else BigEndian(data[..|data| - 1]) * 256 + data[|data| - 1]
  }

  lemma PrefixOfDigits(s: string)
    requires AllDigits(s)
    ensures HexPrefix(s) == s
  {
    if s != [] {
      PrefixOfDigits(s[1..]);
    }
  }

  lemma Div256(q: int, lo: int)
    requires 0 <= lo < 256
    ensures (q * 256 + lo) / 256 == q && (q * 256 + lo) % 256 == lo
  {
  }

  lemma Div65536(q: int, lo: int)
    requires 0 <= lo < 0x1_0000
    ensures (q * 0x1_0000 + lo) / 0x1_0000 == q
  {
  }

  lemma Div16777216(q: int, lo: int)
    requires 0 <= lo < 0x100_0000
    ensures (q * 0x100_0000 + lo) / 0x100_0000 == q
  {
  }

  /** Six digits spelling `r`, `g`, `b` give that opaque colour. */
  lemma RgbRoundTrip(r: Byte, g: Byte, b: Byte)
    ensures Channels(HexEncode([r, g, b])) == Rgba(255, r, g, b)
  {
    RgbValue(r, g, b);
    RgbChannels(ScanHex(HexEncode([r, g, b])), r, g, b);
  }

  lemma RgbValue(r: Byte, g: Byte, b: Byte)
    ensures |HexEncode([r, g, b])| == 6
    ensures ScanHex(HexEncode([r, g, b])) == (r * 256 + g) * 256 + b
  {
    var s := HexEncode([r, g, b]);
    HexEncodeValue([r, g, b]);
    PrefixOfDigits(s);
    assert [r, g, b][..2] == [r, g] && [r, g][..1] == [r] && [r][..0] == [];
    assert BigEndian([r]) == r;
    assert BigEndian([r, g]) == r * 256 + g;
  }

  lemma RgbChannels(v: int, r: Byte, g: Byte, b: Byte)
    requires v == (r * 256 + g) * 256 + b
    ensures (v / 0x1_0000) % 256 == r && (v / 0x100) % 256 == g && v % 256 == b
  {
    Div256((r * 256 + g), b);
    Div256(r, g);
    assert v == r * 0x1_0000 + (g * 256 + b);
    Div65536(r, g * 256 + b);
  }

  /** Eight digits spelling `a`, `r`, `g`, `b` give that colour: alpha comes first. */
  lemma ArgbRoundTrip(a: Byte, r: Byte, g: Byte, b: Byte)
    ensures Channels(HexEncode([a, r, g, b])) == Rgba(a, r, g, b)
  {
    ArgbValue(a, r, g, b);
    ArgbChannels(ScanHex(HexEncode([a, r, g, b])), a, r, g, b);
  }

  lemma ArgbValue(a: Byte, r: Byte, g: Byte, b: Byte)
    ensures |HexEncode([a, r, g, b])| == 8
    ensures ScanHex(HexEncode([a, r, g, b])) == ((a * 256 + r) * 256 + g) * 256 + b
  {
    var s := HexEncode([a, r, g, b]);
    HexEncodeValue([a, r, g, b]);
    PrefixOfDigits(s);
    assert [a, r, g, b][..3] == [a, r, g] && [a, r, g][..2] == [a, r] && [a, r][..1] == [a] && [a][..0] == [];
    assert BigEndian([a]) == a;
    assert BigEndian([a, r]) == a * 256 + r;
    assert BigEndian([a, r, g]) == (a * 256 + r) * 256 + g;
  }

  lemma ArgbChannels(v: int, a: Byte, r: Byte, g: Byte, b: Byte)
    requires v == ((a * 256 + r) * 256 + g) * 256 + b
    ensures (v / 0x100_0000) % 256 == a && (v / 0x1_0000) % 256 == r && (v / 0x100) % 256 == g && v % 256 == b
  {
    Div256((a * 256 + r) * 256 + g, b);
    Div256(a * 256 + r, g);
    assert v == (a * 256 + r) * 0x1_0000 + (g * 256 + b);
    Div65536(a * 256 + r, g * 256 + b);
    Div256(a, r);
    assert v == a * 0x100_0000 + ((r * 256 + g) * 256 + b);
    Div16777216(a, (r * 256 + g) * 256 + b);
  }

  /** A three-digit colour repeats the whole string, so `abc` reads as `abcabc`, not `aabbcc`. */
  lemma ShortFormRepeatsWhole(x: char, y: char, z: char)
    ensures Expanded([x, y, z]) == [x, y, z, x, y, z]
  {
  }
}
