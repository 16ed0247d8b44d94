/**
 * The hex step of `getHexHash`: each digest byte is written with
 * `Number.prototype.toString(16)`, left-padded to two characters with '0',
 * and the pieces are joined with no separator.
 */
module HexEncoding {
  import opened Wrappers

  /** One element of a `Uint8Array`. */
  newtype Byte = x: int | 0 <= x < 256

  /** The lowercase digits `toString(16)` emits. */
  predicate IsHexDigit(c: char)
  {
    '0' <= c <= '9' || 'a' <= c <= 'f'
  }

  function DigitChar(d: nat): (c: char)
    requires d < 16
    ensures IsHexDigit(c)
  {
    if d < 10 then ('0' as int + d) as char else ('a' as int + d - 10) as char
  }

  /** The value of a lowercase hex digit; `None` for any other character. */
  function DigitValue(c: char): (r: Option<nat>)
    ensures r.Some? <==> IsHexDigit(c)
    ensures r.Some? ==> r.value < 16 && DigitChar(r.value) == c
  {
    if '0' <= c <= '9' then Some(c as int - '0' as int)
    else if 'a' <= c <= 'f' then Some(c as int - 'a' as int + 10)
    else None
  }

  lemma DigitValueOfChar(d: nat)
    requires d < 16
    ensures DigitValue(DigitChar(d)) == Some(d)
  {
  }

  /** `n.toString(16)`: the base-16 digits of `n`, most significant first, without leading zeros. */
  function ToRadix16(n: nat): (s: string)
    ensures 1 <= |s|
    ensures n < 16 ==> s == [DigitChar(n)]
    decreases n
  {
    if n < 16 then [DigitChar(n)] else ToRadix16(n / 16) + [DigitChar(n % 16)]
  }

  /** `s.padStart(width, pad)` for a one-character pad string: pad characters in front up to `width`. */
  function PadStart(s: string, width: nat, pad: char): (r: string)
    ensures |r| == if |s| < width then width else |s|
    ensures r[|r| - |s|..] == s
    ensures forall k :: 0 <= k < |r| - |s| ==> r[k] == pad
  {
    if width <= |s| then s else seq(width - |s|, _ => pad) + s
  }

  /** The two nibbles of a byte, and the byte they make. */
  lemma Nibbles(hi: nat, lo: nat)
    requires hi < 16 && lo < 16
    ensures hi * 16 + lo < 256
    ensures (hi * 16 + lo) / 16 == hi && (hi * 16 + lo) % 16 == lo
  {
  }

  /** A digit below 16 is padded with one '0'. */
  lemma PaddedSmall(n: nat)
    requires n < 16
    ensures PadStart(ToRadix16(n), 2, '0') == [DigitChar(n / 16), DigitChar(n % 16)]
  {
    var r := PadStart(ToRadix16(n), 2, '0');
    assert r[1..] == [DigitChar(n)];
    assert DigitChar(0) == '0';
    assert r == [r[0]] + r[1..];
  }

  /** Two digits need no padding. */
  lemma PaddedLarge(n: nat)
    requires 16 <= n < 256
    ensures PadStart(ToRadix16(n), 2, '0') == [DigitChar(n / 16), DigitChar(n % 16)]
  {
    assert ToRadix16(n / 16) == [DigitChar(n / 16)];
    assert ToRadix16(n) == [DigitChar(n / 16)] + [DigitChar(n % 16)];
  }

  function HighNibble(b: Byte): (d: nat)
    ensures d < 16
  {
    b as nat / 16
  }

  function LowNibble(b: Byte): (d: nat)
    ensures d < 16
  {
    b as nat % 16
  }

  /** The two digits of a byte: the high nibble's, then the low nibble's. */
  function ByteHex(b: Byte): (s: string)
    ensures |s| == 2 && IsHexDigit(s[0]) && IsHexDigit(s[1])
  {
    [DigitChar(HighNibble(b)), DigitChar(LowNibble(b))]
  }

  /** `ByteHex` is what `b.toString(16).padStart(2, '0')` gives. */
  lemma ByteHexIsPaddedRadix16(b: Byte)
    ensures ByteHex(b) == PadStart(ToRadix16(b as nat), 2, '0')
  {
    if b < 16 {
      PaddedSmall(b as nat);
    } else {
      PaddedLarge(b as nat);
    }
  }

  /**
   * `bytes.map(b => b.toString(16).padStart(2, '0')).join('')`; each piece is
   * `ByteHex` by `ByteHexIsPaddedRadix16`.
   */
  function HexEncode(bytes: seq<Byte>): (s: string)
    ensures |s| == 2 * |bytes|
  {
    if bytes == [] then "" else ByteHex(bytes[0]) + HexEncode(bytes[1..])
  }

  /**
   * Byte `i` occupies characters `2i` and `2i + 1` of the encoding: its high
   * nibble's digit (a '0' when the byte is below 16), then its low nibble's.
   */
  lemma {:induction false} HexEncodeAt(bytes: seq<Byte>, i: nat)
    requires i < |bytes|
    ensures HexEncode(bytes)[2 * i] == DigitChar(HighNibble(bytes[i]))
    ensures HexEncode(bytes)[2 * i + 1] == DigitChar(LowNibble(bytes[i]))
  {
    var s, head, rest := HexEncode(bytes), ByteHex(bytes[0]), HexEncode(bytes[1..]);
    assert s == head + rest && |head| == 2;
    if i == 0 {
      assert s[0] == head[0] && s[1] == head[1];
    } else {
      HexEncodeAt(bytes[1..], i - 1);
      assert bytes[1..][i - 1] == bytes[i];
      var j := 2 * (i - 1);
      assert s[j + 2] == rest[j] && s[j + 3] == rest[j + 1];
    }
  }

  /** The encoding contains only the characters `0-9a-f`. */
  lemma {:induction false} HexEncodeAlphabet(bytes: seq<Byte>)
    ensures forall k :: 0 <= k < |HexEncode(bytes)| ==> IsHexDigit(HexEncode(bytes)[k])
  {
    var s := HexEncode(bytes);
    forall k | 0 <= k < |s|
      ensures IsHexDigit(s[k])
    {
      var i := k / 2;
      HexEncodeAt(bytes, i);
      assert k == 2 * i || k == 2 * i + 1;
    }
  }

  /** The byte two hex digits spell, high nibble first. */
  function DecodePair(high: char, low: char): Option<Byte>
  {
    match (DigitValue(high), DigitValue(low))
    case (Some(hi), Some(lo)) => Nibbles(hi, lo); Some((hi * 16 + lo) as Byte)
    case _ => None
  }

  /** The two digits of a byte spell that byte. */
  lemma DecodePairOfByteHex(b: Byte)
    ensures DecodePair(ByteHex(b)[0], ByteHex(b)[1]) == Some(b)
  {
    var hi, lo := HighNibble(b), LowNibble(b);
    DigitValueOfChar(hi);
    DigitValueOfChar(lo);
    assert hi * 16 + lo == b as nat;
  }

  /** Two digits that spell a byte are that byte's digits. */
  lemma DecodePairSound(high: char, low: char)
    requires DecodePair(high, low).Some?
    ensures ByteHex(DecodePair(high, low).value) == [high, low]
  {
    var hi, lo := DigitValue(high).value, DigitValue(low).value;
    Nibbles(hi, lo);
    var b := (hi * 16 + lo) as Byte;
    assert HighNibble(b) == hi && LowNibble(b) == lo;
  }

  /** Reads a string of lowercase hex digit pairs back into bytes. */
  function HexDecode(s: string): (r: Option<seq<Byte>>)
    ensures r.Some? ==> 2 * |r.value| == |s|
    decreases |s|
  {
    if s == [] then Some([])
    else if |s| == 1 then None
    else
      match (DecodePair(s[0], s[1]), HexDecode(s[2..]))
      case (Some(b), Some(rest)) => Some([b] + rest)
      case _ => None
  }

  /** Decoding undoes encoding. */
  lemma {:induction false} HexRoundTrip(bytes: seq<Byte>)
    ensures HexDecode(HexEncode(bytes)) == Some(bytes)
  {
    if bytes != [] {
      var s := HexEncode(bytes);
      var head := ByteHex(bytes[0]);
      assert s == head + HexEncode(bytes[1..]);
      assert s[0] == head[0] && s[1] == head[1];
      assert s[2..] == HexEncode(bytes[1..]);
      DecodePairOfByteHex(bytes[0]);
      HexRoundTrip(bytes[1..]);
      assert bytes == [bytes[0]] + bytes[1..];
    }
  }

  /** A string decodes only if it is the encoding of what it decodes to. */
  lemma {:induction false} HexDecodeSound(s: string)
    requires HexDecode(s).Some?
    ensures HexEncode(HexDecode(s).value) == s
  {
    if s != [] {
      var b := DecodePair(s[0], s[1]).value;
      var rest := HexDecode(s[2..]).value;
      HexDecodeSound(s[2..]);
      DecodePairSound(s[0], s[1]);
      var bytes := HexDecode(s).value;
      assert bytes == [b] + rest;
      assert bytes[1..] == rest;
      assert HexEncode(bytes) == [s[0], s[1]] + s[2..];
      assert s == [s[0], s[1]] + s[2..];
    }
  }

  /** Distinct byte sequences have distinct encodings. */
  lemma HexEncodeInjective(a: seq<Byte>, b: seq<Byte>)
    ensures HexEncode(a) == HexEncode(b) <==> a == b
  {
    HexRoundTrip(a);
    HexRoundTrip(b);
  }
}
