/**
 * The lookup key of an uploaded file: the SHA-256 digest written as lowercase
 * hexadecimal, `hashArray.map(b => b.toString(16).padStart(2, '0')).join('')`
 * in src/App.tsx.
 */
module Hex {
  import opened Wrappers
  import Classify

  type Byte = b: int | 0 <= b < 256

  const LowerHexDigits: string := "0123456789abcdef"

  function Digit(n: int): (c: char)
    requires 0 <= n < 16
  {
    LowerHexDigits[n]
  }

  /** `Number.prototype.toString(16)` on a natural number: its base-16 digits,
      most significant first, with no leading zeros. */
  function ToRadix16(n: nat): (s: string)
    ensures |s| >= 1
  {
    if n < 16 then [Digit(n)] else ToRadix16(n / 16) + [Digit(n % 16)]
  }

  /** `String.prototype.padStart(width, fill)` with a one-character fill. */
  function PadStart(s: string, width: nat, fill: char): string {
    if |s| >= width then s else seq(width - |s|, _ => fill) + s
  }

  /** One byte as the source writes it: exactly two lowercase digits, zero-padded. */
  function ByteToHex(b: Byte): (r: string)
    ensures r == [Digit(b / 16), Digit(b % 16)]
  {
    assert b < 16 ==> ToRadix16(b) == [Digit(b)];
    assert b >= 16 ==> ToRadix16(b) == [Digit(b / 16), Digit(b % 16)] by {
      if b >= 16 { assert ToRadix16(b / 16) == [Digit(b / 16)]; }
    }
    PadStart(ToRadix16(b), 2, '0')
  }

  /** The digest key: the hex of each byte, joined without a separator. */
  function HexEncode(bytes: seq<Byte>): string {
    if bytes == [] then [] else ByteToHex(bytes[0]) + HexEncode(bytes[1..])
  }

  /** The value of a lowercase hexadecimal digit, the inverse of `Digit`. */
  function DigitValue(c: char): (r: Option<int>)
    ensures r.Some? ==> 0 <= r.value < 16 && Digit(r.value) == c
  {
    if '0' <= c <= '9' then Some(c as int - '0' as int)
    else if 'a' <= c <= 'f' then Some(c as int - 'a' as int + 10)
    else None
  }

  /** Reads a digest key back into bytes, two digits per byte. */
  function HexDecode(s: string): Option<seq<Byte>>
    decreases |s|
  {
    if s == [] then Some([])
    else if |s| == 1 then None
    else
      match (DigitValue(s[0]), DigitValue(s[1]), HexDecode(s[2..]))
      case (Some(hi), Some(lo), Some(rest)) => Some([hi * 16 + lo] + rest)
      case _ => None
  }

  // ---------------------------------------------------------------------------

  lemma DigitValueOfDigit(n: int)
    requires 0 <= n < 16
    ensures DigitValue(Digit(n)) == Some(n)
  {
  }

  /** The key has two characters per byte: 64 for a 32-byte SHA-256 digest. */
  lemma {:induction false} HexEncodeLength(bytes: seq<Byte>)
    ensures |HexEncode(bytes)| == 2 * |bytes|
  {
    if bytes != [] {
      HexEncodeLength(bytes[1..]);
    }
  }

  /** Byte `i` occupies characters `2i` and `2i + 1` of the key, high digit first. */
  lemma {:induction false} HexEncodeAt(bytes: seq<Byte>, i: nat)
    requires i < |bytes|
    ensures |HexEncode(bytes)| == 2 * |bytes|
    ensures HexEncode(bytes)[2 * i] == Digit(bytes[i] / 16)
    ensures HexEncode(bytes)[2 * i + 1] == Digit(bytes[i] % 16)
  {
    HexEncodeLength(bytes);
    var s, rest := HexEncode(bytes), bytes[1..];
    assert s == ByteToHex(bytes[0]) + HexEncode(rest);
    if i > 0 {
      HexEncodeAt(rest, i - 1);
      assert rest[i - 1] == bytes[i];
      assert s[2 * i] == HexEncode(rest)[2 * (i - 1)];
      assert s[2 * i + 1] == HexEncode(rest)[2 * (i - 1) + 1];
    }
  }

  /** Every character of the key is a lowercase hexadecimal digit. */
  lemma HexEncodeIsLowercaseHex(bytes: seq<Byte>)
    ensures forall k :: 0 <= k < |HexEncode(bytes)| ==> HexEncode(bytes)[k] in LowerHexDigits
  {
    HexEncodeLength(bytes);
    forall k | 0 <= k < |HexEncode(bytes)|
      ensures HexEncode(bytes)[k] in LowerHexDigits
    {
      HexEncodeAt(bytes, k / 2);
      assert k == 2 * (k / 2) || k == 2 * (k / 2) + 1;
    }
  }

  /** Decoding two digits in front of a decodable rest. */
  lemma HexDecodePair(hi: int, lo: int, t: string, rest: seq<Byte>)
    requires 0 <= hi < 16 && 0 <= lo < 16
    requires HexDecode(t) == Some(rest)
    ensures HexDecode([Digit(hi), Digit(lo)] + t) == Some([hi * 16 + lo] + rest)
  {
    var s := [Digit(hi), Digit(lo)] + t;
    assert s[2..] == t;
    DigitValueOfDigit(hi);
    DigitValueOfDigit(lo);
  }

  /** Decoding the key gives the digest back. */
  lemma {:induction false} HexDecodeEncode(bytes: seq<Byte>)
    ensures HexDecode(HexEncode(bytes)) == Some(bytes)
  {
    if bytes != [] {
      var b, rest := bytes[0], bytes[1..];
      HexDecodeEncode(rest);
      assert HexEncode(bytes) == [Digit(b / 16), Digit(b % 16)] + HexEncode(rest);
      HexDecodePair(b / 16, b % 16, HexEncode(rest), rest);
      assert (b / 16) * 16 + b % 16 == b;
      assert bytes == [b] + rest;
    }
  }

  /** Different digests give different keys. */
  lemma HexEncodeInjective(a: seq<Byte>, b: seq<Byte>)
    requires HexEncode(a) == HexEncode(b)
    ensures a == b
  {
    HexDecodeEncode(a);
    HexDecodeEncode(b);
  }

  /** The key of a SHA-256 digest is 64 hex digits, which the classifier reads as a hash. */
  lemma DigestKeyIsHashQuery(digest: seq<Byte>)
    requires |digest| == 32
    ensures |HexEncode(digest)| == 64
    ensures Classify.GetSearchType(HexEncode(digest)) == Some(Classify.Hash)
  {
    HexEncodeLength(digest);
    HexEncodeIsLowercaseHex(digest);
    var s := HexEncode(digest);
    forall k | 0 <= k < |s| ensures Classify.IsHexDigit(s[k]) {
      assert s[k] in LowerHexDigits;
    }
    Classify.HashLengthBoundary(s);
  }

  lemma PaddingExample()
    ensures HexEncode([0, 10, 255]) == "000aff"
  {
    var b: seq<Byte> := [0, 10, 255];
    assert ByteToHex(0) == "00" && ByteToHex(10) == "0a" && ByteToHex(255) == "ff";
    assert b[1..] == [10, 255] && b[1..][1..] == [255] && b[1..][1..][1..] == [];
    assert HexEncode(b) == ByteToHex(0) + (ByteToHex(10) + (ByteToHex(255) + []));
  }
}
