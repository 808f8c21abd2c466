/**
 * The indicator classifier `getSearchType` of src/App.tsx.
 *
 * The source tests three anchored regular expressions in a fixed order:
 *   IP      ^(\d{1,3}\.){3}\d{1,3}$
 *   DOMAIN  ^([a-zA-Z0-9-]+\.)+[a-zA-Z]{2,}$
 *   HASH    ^[a-fA-F0-9]{32,64}$
 * Here the IP and domain patterns are hand-written recognisers over the
 * dot-separated fields of the query, each proved equal to a predicate that
 * reads like its regular expression (dot-terminated groups followed by a last
 * group); the hash pattern is written directly as its length bound and
 * character class.
 */
module Classify {
  import opened Wrappers

  datatype SearchType = Domain | Ip | Hash

  // Character classes of the three patterns (ASCII only, as in a JavaScript
  // regular expression without the `u` flag).

  predicate IsDigit(c: char) { '0' <= c <= '9' }

  predicate IsAsciiLetter(c: char) { 'a' <= c <= 'z' || 'A' <= c <= 'Z' }

  predicate IsHexDigit(c: char) { IsDigit(c) || 'a' <= c <= 'f' || 'A' <= c <= 'F' }

  /** `[a-zA-Z0-9-]` */
  predicate IsLabelChar(c: char) { IsAsciiLetter(c) || IsDigit(c) || c == '-' }

  /** `\d{1,3}` */
  predicate DigitGroup(g: string) {
    1 <= |g| <= 3 && forall i :: 0 <= i < |g| ==> IsDigit(g[i])
  }

  /** `[a-zA-Z0-9-]+` */
  predicate Label(l: string) {
    1 <= |l| && forall i :: 0 <= i < |l| ==> IsLabelChar(l[i])
  }

  /** `[a-zA-Z]{2,}` */
  predicate TopLabel(t: string) {
    2 <= |t| && forall i :: 0 <= i < |t| ==> IsAsciiLetter(t[i])
  }

  /** The fields of `s` between its dots; a string with k dots has k + 1 fields. */
  function Fields(s: string): (r: seq<string>)
    ensures |r| >= 1
  {
    if s == [] then [[]]
    else
      var rest := Fields(s[1..]);
      if s[0] == '.' then [[]] + rest else [[s[0]] + rest[0]] + rest[1..]
  }

  /** Recogniser for the IP pattern: exactly four fields, each 1 to 3 digits. */
  predicate MatchesIp(s: string) {
    var f := Fields(s);
    |f| == 4 && forall i :: 0 <= i < 4 ==> DigitGroup(f[i])
  }

  /** Recogniser for the domain pattern: at least two fields, all but the last
      non-empty runs of label characters, the last at least two letters. */
  predicate MatchesDomain(s: string) {
    var f := Fields(s);
    |f| >= 2 && (forall i :: 0 <= i < |f| - 1 ==> Label(f[i])) && TopLabel(f[|f| - 1])
  }

  /** Recogniser for the hash pattern: 32 to 64 hexadecimal digits, either case. */
  predicate MatchesHash(s: string) {
    32 <= |s| <= 64 && forall i :: 0 <= i < |s| ==> IsHexDigit(s[i])
  }

  /** `getSearchType`: the first pattern that matches, in the order IP, domain, hash. */
  function GetSearchType(query: string): Option<SearchType> {
    if MatchesIp(query) then Some(Ip)
    else if MatchesDomain(query) then Some(Domain)
    else if MatchesHash(query) then Some(Hash)
    else None
  }

  // ---------------------------------------------------------------------------
  // The regular expressions, read literally

  /** `g[0] + "." + g[1] + "." + ... + g[k-1] + "."`: the repeated `(X\.)` part. */
  function Dotted(g: seq<string>): string {
    if g == [] then [] else g[0] + "." + Dotted(g[1..])
  }

  /** `^(\d{1,3}\.){3}\d{1,3}$` */
  ghost predicate IpRegex(s: string) {
    exists g: seq<string>, last: string ::
      |g| == 3 && (forall i :: 0 <= i < 3 ==> DigitGroup(g[i])) && DigitGroup(last) &&
      s == Dotted(g) + last
  }

  /** `^([a-zA-Z0-9-]+\.)+[a-zA-Z]{2,}$` */
  ghost predicate DomainRegex(s: string) {
    exists g: seq<string>, last: string ::
      |g| >= 1 && (forall i :: 0 <= i < |g| ==> Label(g[i])) && TopLabel(last) &&
      s == Dotted(g) + last
  }

  // ---------------------------------------------------------------------------
  // Fields and Dotted are inverse to each other

  predicate DotFree(s: string) { '.' !in s }

  /** Reassembling the fields of `s` with dots gives `s` back. */
  lemma {:induction false} FieldsReassemble(s: string)
    ensures var f := Fields(s); s == Dotted(f[..|f| - 1]) + f[|f| - 1]
  {
    if s != [] {
      var rest := Fields(s[1..]);
      FieldsReassemble(s[1..]);
      assert s == [s[0]] + s[1..];
      if s[0] == '.' {
        ReassembleAfterDot(s[1..], rest);
      } else if |rest| > 1 {
        ReassembleInField(s[0], s[1..], rest);
      }
    }
  }

  lemma DottedCons(x: string, g: seq<string>)
    ensures Dotted([x] + g) == x + "." + Dotted(g)
  {
    assert ([x] + g)[1..] == g;
  }

  /** The step of `FieldsReassemble` for a leading '.': an empty first field. */
  lemma ReassembleAfterDot(t: string, rest: seq<string>)
    requires |rest| >= 1 && t == Dotted(rest[..|rest| - 1]) + rest[|rest| - 1]
    ensures var f := [[]] + rest; "." + t == Dotted(f[..|f| - 1]) + f[|f| - 1]
  {
    var f := [[]] + rest;
    assert f[..|f| - 1] == [[]] + rest[..|rest| - 1];
    DottedCons([], rest[..|rest| - 1]);
  }

  /** The step of `FieldsReassemble` for a leading character other than '.',
      which joins the first field. */
  lemma ReassembleInField(c: char, t: string, rest: seq<string>)
    requires |rest| > 1 && t == Dotted(rest[..|rest| - 1]) + rest[|rest| - 1]
    ensures var f := [[c] + rest[0]] + rest[1..]; [c] + t == Dotted(f[..|f| - 1]) + f[|f| - 1]
  {
    var m := |rest|;
    var f := [[c] + rest[0]] + rest[1..];
    assert rest[..m - 1] == [rest[0]] + rest[1..m - 1];
    DottedCons(rest[0], rest[1..m - 1]);
    assert f[..|f| - 1] == [[c] + rest[0]] + rest[1..m - 1];
    DottedCons([c] + rest[0], rest[1..m - 1]);
  }


  /** A dot-free string is a single field. */
  lemma {:induction false} FieldsOfDotFree(s: string)
    requires DotFree(s)
    ensures Fields(s) == [s]
  {
    if s != [] {
      assert DotFree(s[1..]) by {
        forall c | c in s[1..] ensures c != '.' { assert c in s; }
      }
      FieldsOfDotFree(s[1..]);
      assert s[0] in s;
      assert s == [s[0]] + s[1..];
    }
  }

  /** A dot-free prefix followed by a dot is a field of its own. */
  lemma {:induction false} FieldsAfterDot(a: string, t: string)
    requires DotFree(a)
    ensures Fields(a + "." + t) == [a] + Fields(t)
  {
    if a == [] {
      assert a + "." + t == ['.'] + t;
      assert (['.'] + t)[1..] == t;
    } else {
      assert DotFree(a[1..]) by {
        forall c | c in a[1..] ensures c != '.' { assert c in a; }
      }
      FieldsAfterDot(a[1..], t);
      var s := a + "." + t;
      assert s[0] == a[0] && a[0] in a;
      assert s[1..] == a[1..] + "." + t;
      assert a == [a[0]] + a[1..];
    }
  }

  /** Splitting dot-free groups joined by dots gives the groups back. */
  lemma {:induction false} FieldsOfDotted(g: seq<string>, last: string)
    requires forall i :: 0 <= i < |g| ==> DotFree(g[i])
    requires DotFree(last)
    ensures Fields(Dotted(g) + last) == g + [last]
  {
    if g == [] {
      assert Dotted(g) + last == last;
      FieldsOfDotFree(last);
    } else {
      FieldsOfDotted(g[1..], last);
      assert Dotted(g) + last == g[0] + "." + (Dotted(g[1..]) + last);
      FieldsAfterDot(g[0], Dotted(g[1..]) + last);
      assert g == [g[0]] + g[1..];
    }
  }

  lemma DigitGroupDotFree(g: string)
    requires DigitGroup(g)
    ensures DotFree(g)
  {
    forall i | 0 <= i < |g| ensures g[i] != '.' { assert IsDigit(g[i]); }
  }

  lemma LabelDotFree(l: string)
    requires Label(l)
    ensures DotFree(l)
  {
    forall i | 0 <= i < |l| ensures l[i] != '.' { assert IsLabelChar(l[i]); }
  }

  lemma TopLabelDotFree(t: string)
    requires TopLabel(t)
    ensures DotFree(t)
  {
    forall i | 0 <= i < |t| ensures t[i] != '.' { assert IsAsciiLetter(t[i]); }
  }

  // ---------------------------------------------------------------------------
  // The recognisers are exactly the regular expressions

  /** The IP recogniser accepts exactly the strings of `^(\d{1,3}\.){3}\d{1,3}$`. */
  lemma IpRecogniserIsRegex(s: string)
    ensures MatchesIp(s) <==> IpRegex(s)
  {
    var f := Fields(s);
    if MatchesIp(s) {
      FieldsReassemble(s);
      var g := f[..3];
      assert forall i :: 0 <= i < 3 ==> DigitGroup(g[i]) by {
        forall i | 0 <= i < 3 ensures DigitGroup(g[i]) { assert g[i] == f[i]; }
      }
      assert DigitGroup(f[3]);
      assert s == Dotted(g) + f[3];
    }
    if IpRegex(s) {
      var g: seq<string>, last: string :|
        |g| == 3 && (forall i :: 0 <= i < 3 ==> DigitGroup(g[i])) && DigitGroup(last) &&
        s == Dotted(g) + last;
      forall i | 0 <= i < |g| ensures DotFree(g[i]) { DigitGroupDotFree(g[i]); }
      DigitGroupDotFree(last);
      FieldsOfDotted(g, last);
      assert f == g + [last];
      assert forall i :: 0 <= i < 4 ==> DigitGroup(f[i]) by {
        forall i | 0 <= i < 4 ensures DigitGroup(f[i]) {
          if i < 3 { assert f[i] == g[i]; } else { assert f[i] == last; }
        }
      }
    }
  }

  /** The domain recogniser accepts exactly the strings of `^([a-zA-Z0-9-]+\.)+[a-zA-Z]{2,}$`. */
  lemma DomainRecogniserIsRegex(s: string)
    ensures MatchesDomain(s) <==> DomainRegex(s)
  {
    var f := Fields(s);
    if MatchesDomain(s) {
      FieldsReassemble(s);
      var g := f[..|f| - 1];
      assert forall i :: 0 <= i < |g| ==> Label(g[i]) by {
        forall i | 0 <= i < |g| ensures Label(g[i]) { assert g[i] == f[i]; }
      }
      assert s == Dotted(g) + f[|f| - 1];
    }
    if DomainRegex(s) {
      var g: seq<string>, last: string :|
        |g| >= 1 && (forall i :: 0 <= i < |g| ==> Label(g[i])) && TopLabel(last) &&
        s == Dotted(g) + last;
      forall i | 0 <= i < |g| ensures DotFree(g[i]) { LabelDotFree(g[i]); }
      TopLabelDotFree(last);
      FieldsOfDotted(g, last);
      assert f == g + [last];
      assert forall i :: 0 <= i < |f| - 1 ==> Label(f[i]) by {
        forall i | 0 <= i < |f| - 1 ensures Label(f[i]) { assert f[i] == g[i]; }
      }
      assert f[|f| - 1] == last;
    }
  }

  // ---------------------------------------------------------------------------
  // The three classes are disjoint, so the order of the tests does not matter

  /** A hash has no dot, so it is a single field and neither an IP nor a domain. */
  lemma HashIsNeitherIpNorDomain(s: string)
    requires MatchesHash(s)
    ensures !MatchesIp(s) && !MatchesDomain(s)
  {
    forall i | 0 <= i < |s| ensures s[i] != '.' { assert IsHexDigit(s[i]); }
    FieldsOfDotFree(s);
  }

  /** The last field of an IP is digits, that of a domain is letters: no string is both. */
  lemma IpIsNotDomain(s: string)
    requires MatchesIp(s)
    ensures !MatchesDomain(s)
  {
    var f := Fields(s);
    assert DigitGroup(f[3]);
    assert !IsAsciiLetter(f[3][0]);
  }

  /** Each query matches at most one pattern, and `getSearchType` returns exactly
      the pattern the query matches (or nothing): the IP, domain, hash order of
      the tests never changes the outcome. */
  lemma SearchTypeIsTheUniqueMatch(query: string)
    ensures !(MatchesIp(query) && MatchesDomain(query))
    ensures !(MatchesIp(query) && MatchesHash(query))
    ensures !(MatchesDomain(query) && MatchesHash(query))
    ensures GetSearchType(query) == Some(Ip) <==> IpRegex(query)
    ensures GetSearchType(query) == Some(Domain) <==> DomainRegex(query)
    ensures GetSearchType(query) == Some(Hash) <==> MatchesHash(query)
    ensures GetSearchType(query) == None <==>
      !IpRegex(query) && !DomainRegex(query) && !MatchesHash(query)
  {
    IpRecogniserIsRegex(query);
    DomainRecogniserIsRegex(query);
    if MatchesHash(query) { HashIsNeitherIpNorDomain(query); }
    if MatchesIp(query) { IpIsNotDomain(query); }
  }

  // ---------------------------------------------------------------------------
  // Acceptance boundaries

  /** Any four groups of one to three digits form an IP; there is no 0-255 range check. */
  lemma AnyFourDigitGroupsAreIp(a: string, b: string, c: string, d: string)
    requires DigitGroup(a) && DigitGroup(b) && DigitGroup(c) && DigitGroup(d)
    ensures GetSearchType(a + "." + b + "." + c + "." + d) == Some(Ip)
  {
    var g := [a, b, c];
    assert Dotted(g[2..]) == c + ".";
    assert Dotted(g[1..]) == b + "." + (c + ".");
    assert Dotted(g) + d == a + "." + b + "." + c + "." + d;
    IpRecogniserIsRegex(a + "." + b + "." + c + "." + d);
  }

  lemma PermissiveIpExample()
    ensures GetSearchType("999.999.999.999") == Some(Ip)
  {
    assert DigitGroup("999");
    AnyFourDigitGroupsAreIp("999", "999", "999", "999");
    assert "999" + "." + "999" + "." + "999" + "." + "999" == "999.999.999.999";
  }

  /** A string without a dot is never an IP or a domain; among such strings
      exactly the hex strings of length 32 to 64 are hashes. */
  lemma DotFreeQuery(s: string)
    requires DotFree(s)
    ensures GetSearchType(s) == (if MatchesHash(s) then Some(Hash) else None)
  {
    FieldsOfDotFree(s);
  }

  /** Hex strings of 31 or 65 digits are rejected; 32 and 64 are accepted. */
  lemma HashLengthBoundary(s: string)
    requires forall i :: 0 <= i < |s| ==> IsHexDigit(s[i])
    ensures GetSearchType(s) == Some(Hash) <==> 32 <= |s| <= 64
    ensures |s| == 31 || |s| == 65 ==> GetSearchType(s) == None
  {
    forall i | 0 <= i < |s| ensures s[i] != '.' { assert IsHexDigit(s[i]); }
    DotFreeQuery(s);
  }

  /** A label, a dot and a top-level label of letters make a domain. */
  lemma TwoLabelDomain(l: string, t: string)
    requires Label(l) && TopLabel(t)
    ensures GetSearchType(l + "." + t) == Some(Domain)
  {
    LabelDotFree(l);
    TopLabelDotFree(t);
    assert Dotted([l]) + t == l + "." + t by {
      assert [l][1..] == [];
    }
    FieldsOfDotted([l], t);
  }

  lemma DomainExample()
    ensures GetSearchType("example.com") == Some(Domain)
  {
    assert Label("example") && TopLabel("com");
    TwoLabelDomain("example", "com");
    assert "example" + "." + "com" == "example.com";
  }

  lemma HashExample()
    ensures GetSearchType("d41d8cd98f00b204e9800998ecf8427e") == Some(Hash)
  {
    var s := "d41d8cd98f00b204e9800998ecf8427e";
    assert MatchesHash(s);
    SearchTypeIsTheUniqueMatch(s);
  }

  lemma InvalidExample()
    ensures GetSearchType("not a valid @@ string") == None
  {
    var s := "not a valid @@ string";
    assert DotFree(s);
    assert !IsHexDigit(s[3]);
    DotFreeQuery(s);
  }
}
