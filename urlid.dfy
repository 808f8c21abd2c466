/**
 * The identifier under which a scanned URL's report is fetched:
 *   btoa(urlToScan).replace(/\+/g, '-').replace(/\//g, '_').replace(/=+$/, '')
 * in src/App.tsx. `btoa` is the standard base64 encoding with padding of
 * section 4 of RFC 4648; the chain of replacements turns it into the
 * "base64url" encoding of section 5 of RFC 4648 with the padding omitted, as
 * section 3.2 of RFC 4648 permits. The URL is taken as the bytes `btoa` reads.
 */
module UrlId {
  import opened Hex

  /** The two alphabets: table 1 in section 4 and table 2 in section 5 of RFC 4648. */
  datatype Alphabet = Standard | UrlSafe

  /** The letter that encodes the 6-bit value `v`; the alphabets differ only at 62 and 63. */
  function Letter(alphabet: Alphabet, v: int): char
    requires 0 <= v < 64
  {
    if v < 26 then ('A' as int + v) as char
    else if v < 52 then ('a' as int + (v - 26)) as char
    else if v < 62 then ('0' as int + (v - 52)) as char
    else if v == 62 then (if alphabet == Standard then '+' else '-')
    else (if alphabet == Standard then '/' else '_')
  }

  predicate IsAlphanumeric(c: char) {
    'A' <= c <= 'Z' || 'a' <= c <= 'z' || '0' <= c <= '9'
  }

  /** `[A-Za-z0-9_-]`, the characters a URL identifier may contain. */
  predicate IsUrlSafe(c: char) { IsAlphanumeric(c) || c == '-' || c == '_' }

  /** The 6-bit values of the encoding, most significant bits first, for every
      complete or partial group of three bytes; no padding. */
  function Sextets(bytes: seq<Byte>): (r: seq<int>)
    ensures forall i :: 0 <= i < |r| ==> 0 <= r[i] < 64
    decreases |bytes|
  {
    if |bytes| == 0 then []
    else if |bytes| == 1 then [bytes[0] / 4, (bytes[0] % 4) * 16]
    else if |bytes| == 2 then [bytes[0] / 4, (bytes[0] % 4) * 16 + bytes[1] / 16, (bytes[1] % 16) * 4]
    else
      [bytes[0] / 4, (bytes[0] % 4) * 16 + bytes[1] / 16, (bytes[1] % 16) * 4 + bytes[2] / 64, bytes[2] % 64]
      + Sextets(bytes[3..])
  }

  /** The letters of an alphabet for a sequence of 6-bit values. */
  function Spell(alphabet: Alphabet, values: seq<int>): (r: string)
    requires forall i :: 0 <= i < |values| ==> 0 <= values[i] < 64
    ensures |r| == |values|
  {
    seq(|values|, i requires 0 <= i < |values| => Letter(alphabet, values[i]))
  }

  /** '=' padding that fills the last group of four characters. */
  function Padding(n: nat): string {
    if n % 3 == 1 then "==" else if n % 3 == 2 then "=" else ""
  }

  /** `btoa`: the standard padded base64 encoding of section 4 of RFC 4648. */
  function Btoa(bytes: seq<Byte>): string {
    Spell(Standard, Sextets(bytes)) + Padding(|bytes|)
  }

  /** The unpadded base64url encoding of sections 5 and 3.2 of RFC 4648. */
  function Base64Url(bytes: seq<Byte>): string {
    Spell(UrlSafe, Sextets(bytes))
  }

  /** `s.replace(/x/g, y)` for a one-character pattern `x`. */
  function ReplaceAll(s: string, x: char, y: char): (r: string)
    ensures |r| == |s|
  {
    seq(|s|, i requires 0 <= i < |s| => if s[i] == x then y else s[i])
  }

  /** `s.replace(/c+$/, '')`: the string without its trailing run of `c`. */
  function StripTrailing(s: string, c: char): string
    decreases |s|
  {
    if |s| > 0 && s[|s| - 1] == c then StripTrailing(s[..|s| - 1], c) else s
  }

  /** The URL identifier of the source. */
  function UrlId(url: seq<Byte>): string {
    StripTrailing(ReplaceAll(ReplaceAll(Btoa(url), '+', '-'), '/', '_'), '=')
  }

  /** `k` padding characters. */
  function Fill(k: nat): string {
    seq(k, _ => '=')
  }

  /** Puts back the padding and the two standard letters that the identifier replaced. */
  function Repad(id: string): string {
    ReplaceAll(ReplaceAll(id, '-', '+'), '_', '/') + Fill((4 - |id| % 4) % 4)
  }

  // ---------------------------------------------------------------------------

  /** Renaming '+' and '/' in a standard spelling gives the base64url spelling. */
  lemma ReplaceSpellsUrl(values: seq<int>, tail: string)
    requires forall i :: 0 <= i < |values| ==> 0 <= values[i] < 64
    requires '+' !in tail && '/' !in tail
    ensures ReplaceAll(ReplaceAll(Spell(Standard, values) + tail, '+', '-'), '/', '_')
         == Spell(UrlSafe, values) + tail
  {
    var s := Spell(Standard, values) + tail;
    var r := ReplaceAll(ReplaceAll(s, '+', '-'), '/', '_');
    var u := Spell(UrlSafe, values) + tail;
    forall i | 0 <= i < |s| ensures r[i] == u[i] {
      if i < |values| {
        var v := values[i];
        assert s[i] == Letter(Standard, v) && u[i] == Letter(UrlSafe, v);
        if v < 62 { assert IsAlphanumeric(Letter(Standard, v)); }
      } else {
        assert s[i] == tail[i - |values|] == u[i];
      }
    }
  }

  /** The reverse renaming on a base64url spelling gives the standard spelling. */
  lemma ReplaceSpellsStd(values: seq<int>)
    requires forall i :: 0 <= i < |values| ==> 0 <= values[i] < 64
    ensures ReplaceAll(ReplaceAll(Spell(UrlSafe, values), '-', '+'), '_', '/')
         == Spell(Standard, values)
  {
    var s := Spell(UrlSafe, values);
    var r := ReplaceAll(ReplaceAll(s, '-', '+'), '_', '/');
    var t := Spell(Standard, values);
    forall i | 0 <= i < |s| ensures r[i] == t[i] {
      var v := values[i];
      if v < 62 { assert IsAlphanumeric(Letter(Standard, v)); }
    }
  }

  /** Dropping a trailing run of `c` added to a string that does not end in `c`. */
  lemma {:induction false} StripAddedRun(s: string, c: char, k: nat)
    requires s == [] || s[|s| - 1] != c
    ensures StripTrailing(s + seq(k, _ => c), c) == s
  {
    if k > 0 {
      var t := s + seq(k, _ => c);
      assert t[..|t| - 1] == s + seq(k - 1, _ => c);
      StripAddedRun(s, c, k - 1);
    }
  }

  lemma PaddingIsRun(n: nat)
    ensures Padding(n) == Fill((3 - n % 3) % 3)
  {
  }

  /** The number of base64 characters before padding is ceil(4n/3). */
  lemma {:induction false} SextetsLength(bytes: seq<Byte>)
    ensures |Sextets(bytes)| == (4 * |bytes| + 2) / 3
    decreases |bytes|
  {
    if |bytes| >= 3 {
      SextetsLength(bytes[3..]);
    }
  }

  /** The identifier is exactly the unpadded base64url encoding of the URL. */
  lemma UrlIdIsBase64Url(url: seq<Byte>)
    ensures UrlId(url) == Base64Url(url)
  {
    var values := Sextets(url);
    var n := |url|;
    PaddingIsRun(n);
    ReplaceSpellsUrl(values, Padding(n));
    var u := Spell(UrlSafe, values);
    assert u == [] || u[|u| - 1] != '=' by {
      if u != [] {
        var v := values[|u| - 1];
        if v < 62 { assert IsAlphanumeric(Letter(Standard, v)); }
      }
    }
    StripAddedRun(u, '=', (3 - n % 3) % 3);
  }

  /** The identifier uses only `[A-Za-z0-9_-]`: never '+', '/' or '='. */
  lemma UrlIdIsUrlSafe(url: seq<Byte>)
    ensures forall k :: 0 <= k < |UrlId(url)| ==> IsUrlSafe(UrlId(url)[k])
    ensures '+' !in UrlId(url) && '/' !in UrlId(url) && '=' !in UrlId(url)
  {
    UrlIdIsBase64Url(url);
    var values := Sextets(url);
    var u := Base64Url(url);
    forall k | 0 <= k < |u| ensures IsUrlSafe(u[k]) {
      var v := values[k];
      if v < 62 { assert IsAlphanumeric(Letter(Standard, v)); }
    }
    forall k | 0 <= k < |u| ensures u[k] != '+' && u[k] != '/' && u[k] != '=' {
      assert IsUrlSafe(u[k]);
    }
  }

  /** The identifier of n bytes has ceil(4n/3) characters. */
  lemma UrlIdLength(url: seq<Byte>)
    ensures |UrlId(url)| == (4 * |url| + 2) / 3
  {
    UrlIdIsBase64Url(url);
    SextetsLength(url);
  }

  /** The padding `btoa` adds to n bytes is the padding that completes the
      last group of four of an identifier of ceil(4n/3) characters. */
  lemma PaddingCount(n: nat, m: nat)
    requires m == (4 * n + 2) / 3
    ensures (4 - m % 4) % 4 == (3 - n % 3) % 3
  {
    var q, r := n / 3, n % 3;
    assert n == 3 * q + r;
    assert m == 4 * q + (4 * r + 2) / 3;
  }

  /** Re-padding a base64url spelling gives the standard spelling with the
      padding that completes its last group of four. */
  lemma RepadSpelling(values: seq<int>)
    requires forall i :: 0 <= i < |values| ==> 0 <= values[i] < 64
    ensures Repad(Spell(UrlSafe, values)) == Spell(Standard, values) + Fill((4 - |values| % 4) % 4)
  {
    ReplaceSpellsStd(values);
  }

  /** Re-padding the identifier and undoing the two replacements gives back
      the standard base64 encoding that `btoa` produced. */
  lemma RepadGivesBtoa(url: seq<Byte>)
    ensures Repad(UrlId(url)) == Btoa(url)
  {
    var values := Sextets(url);
    UrlIdIsBase64Url(url);
    SextetsLength(url);
    RepadSpelling(values);
    PaddingCount(|url|, |values|);
    PaddingIsRun(|url|);
  }

  lemma FoobarSextets()
    ensures Sextets([102, 111, 111, 98, 97, 114]) == [25, 38, 61, 47, 24, 38, 5, 50]
  {
    var b: seq<Byte> := [102, 111, 111, 98, 97, 114];
    assert b[3..] == [98, 97, 114];
    assert Sextets(b[3..]) == [24, 38, 5, 50];
  }

  lemma FoobarVector()
    ensures UrlId([102, 111, 111, 98, 97, 114]) == "Zm9vYmFy"  // "foobar"
  {
    UrlIdIsBase64Url([102, 111, 111, 98, 97, 114]);
    FoobarSextets();
    var u := Spell(UrlSafe, [25, 38, 61, 47, 24, 38, 5, 50]);
    assert u[0] == 'Z' && u[1] == 'm' && u[2] == '9' && u[3] == 'v';
    assert u[4] == 'Y' && u[5] == 'm' && u[6] == 'F' && u[7] == 'y';
    assert u == "Zm9vYmFy";
  }

  lemma ShortVector()
    ensures UrlId([102, 111]) == "Zm8"  // "fo", "Zm8=" in base64
  {
    UrlIdIsBase64Url([102, 111]);
    assert Sextets([102, 111]) == [25, 38, 60];
    assert Spell(UrlSafe, [25, 38, 60]) == "Zm8";
  }

  lemma SubstitutedVector()
    ensures UrlId([251, 255]) == "-_8"  // "+/8=" in base64
  {
    UrlIdIsBase64Url([251, 255]);
    assert Sextets([251, 255]) == [62, 63, 60];
    assert Spell(UrlSafe, [62, 63, 60]) == "-_8";
  }
}
