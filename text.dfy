/** The three pieces of Python's text handling the OAuth flow relies on:
    `str(int)` as used in an f-string, `urllib.parse.quote` with its default
    `safe='/'`, and `string.Template.substitute`. */
module Strings {
  import opened Wrappers
  import opened Errors

  // ---------------------------------------------------------------------
  // Decimal rendering of integers
  // ---------------------------------------------------------------------

  predicate IsDigit(c: char) { '0' <= c <= '9' }

  function DigitChar(d: nat): (c: char)
    requires d < 10
    ensures IsDigit(c) && c as int - '0' as int == d
  {
    "0123456789"[d]
  }

  /** The decimal digits of `n`, most significant first, without leading zeros. */
  function NatToString(n: nat): (s: string)
    ensures 1 <= |s|
    ensures forall k :: 0 <= k < |s| ==> IsDigit(s[k])
    ensures |s| > 1 ==> s[0] != '0'
  {
    if n < 10 then [DigitChar(n)] else NatToString(n / 10) + [DigitChar(n % 10)]
  }

  /** What `f"{i}"` renders for an integer `i`. */
  function IntToString(i: int): string
  {
    if i < 0 then "-" + NatToString(-i) else NatToString(i)
  }

  /** The number a string of decimal digits denotes (the reading `int(s)`). */
  function DigitsValue(s: string): nat
    requires forall k :: 0 <= k < |s| ==> IsDigit(s[k])
  {
    if s == [] then 0
    else
      assert IsDigit(s[|s| - 1]);
      10 * DigitsValue(s[..|s| - 1]) + (s[|s| - 1] as int - '0' as int)
  }

  /** Reading back the rendering of a natural number gives the number. */
  lemma {:induction false} NatToStringRoundTrip(n: nat)
    ensures DigitsValue(NatToString(n)) == n
  {
    if n >= 10 {
      var s := NatToString(n / 10);
      NatToStringRoundTrip(n / 10);
      assert (s + [DigitChar(n % 10)])[..|s|] == s;
    }
  }

  /** Distinct natural numbers render differently. */
  lemma NatToStringInjective(m: nat, n: nat)
    requires NatToString(m) == NatToString(n)
    ensures m == n
  {
    NatToStringRoundTrip(m);
    NatToStringRoundTrip(n);
  }

  // ---------------------------------------------------------------------
  // Percent-encoding: urllib.parse.quote(s) with safe='/'
  // ---------------------------------------------------------------------

  /** Characters quote never encodes: ASCII letters, digits and `_.-~`. */
  predicate AlwaysSafe(c: char)
  {
    'A' <= c <= 'Z' || 'a' <= c <= 'z' || '0' <= c <= '9' || c == '_' || c == '.' || c == '-' || c == '~'
  }

  /** The characters left as they are with the default `safe='/'`. */
  predicate QuoteSafe(c: char) { AlwaysSafe(c) || c == '/' }

  predicate IsUpperHex(c: char) { '0' <= c <= '9' || 'A' <= c <= 'F' }

  function HexDigit(d: nat): (c: char)
    requires d < 16
    ensures IsUpperHex(c)
  {
    "0123456789ABCDEF"[d]
  }

  /** The UTF-8 encoding of one Unicode scalar value. */
  function Utf8(c: char): (bs: seq<nat>)
    ensures 1 <= |bs| <= 4
    ensures forall k :: 0 <= k < |bs| ==> bs[k] < 256
    ensures (c as int < 0x80) <==> bs == [c as int]
  {
    var v := c as int;
    if v < 0x80 then [v]
    else if v < 0x800 then [0xC0 + v / 0x40, 0x80 + v % 0x40]
    else if v < 0x1_0000 then [0xE0 + v / 0x1000, 0x80 + (v / 0x40) % 0x40, 0x80 + v % 0x40]
    else [0xF0 + v / 0x4_0000, 0x80 + (v / 0x1000) % 0x40, 0x80 + (v / 0x40) % 0x40, 0x80 + v % 0x40]
  }

  /** `%XX` for every byte, in upper-case hexadecimal. */
  function PercentEncode(bs: seq<nat>): (s: string)
    requires forall k :: 0 <= k < |bs| ==> bs[k] < 256
    ensures |s| == 3 * |bs|
  {
    if bs == [] then []
    else ['%', HexDigit(bs[0] / 16), HexDigit(bs[0] % 16)] + PercentEncode(bs[1..])
  }

  function QuoteChar(c: char): (s: string)
    ensures QuoteSafe(c) ==> s == [c]
    ensures !QuoteSafe(c) ==> 3 <= |s| && s[0] == '%'
  {
    if QuoteSafe(c) then [c] else PercentEncode(Utf8(c))
  }

  /** urllib.parse.quote(s): every character outside the safe set is replaced
      by the percent-encoding of its UTF-8 bytes. */
  function Quote(s: string): (q: string)
    ensures |q| >= |s|
  {
    if s == [] then [] else QuoteChar(s[0]) + Quote(s[1..])
  }

  /** Quoting works character by character, so it distributes over concatenation. */
  lemma {:induction false} QuoteConcat(a: string, b: string)
    ensures Quote(a + b) == Quote(a) + Quote(b)
  {
    if a != [] {
      assert (a + b)[1..] == a[1..] + b;
      QuoteConcat(a[1..], b);
    } else {
      assert a + b == b;
    }
  }

  lemma QuoteCons(c: char, s: string)
    ensures Quote([c] + s) == QuoteChar(c) + Quote(s)
  {
    assert ([c] + s)[1..] == s;
  }

  /** A prefix made of safe characters is copied through. */
  lemma QuoteSafePrefix(p: string, s: string)
    requires forall k :: 0 <= k < |p| ==> QuoteSafe(p[k])
    ensures Quote(p + s) == p + Quote(s)
  {
    QuoteConcat(p, s);
    QuoteIdentity(p);
  }

  /** A string is left unchanged by quoting exactly when all its characters are safe. */
  lemma {:induction false} QuoteIdentity(s: string)
    ensures Quote(s) == s <==> forall k :: 0 <= k < |s| ==> QuoteSafe(s[k])
  {
    if s != [] {
      QuoteIdentity(s[1..]);
      if !QuoteSafe(s[0]) {
        assert |Quote(s)| >= 3 + |s[1..]| > |s|;
      } else if Quote(s) == s {
        assert Quote(s[1..]) == Quote(s)[1..];
      }
    }
  }

  /** Quoting yields only safe characters, `%` and upper-case hexadecimal digits. */
  lemma {:induction false} QuoteOutputIsUrlSafe(s: string)
    ensures forall k :: 0 <= k < |Quote(s)| ==> QuoteSafe(Quote(s)[k]) || Quote(s)[k] == '%'
  {
    if s != [] {
      QuoteOutputIsUrlSafe(s[1..]);
      PercentEncodeAlphabet(Utf8(s[0]));
    }
  }

  lemma {:induction false} PercentEncodeAlphabet(bs: seq<nat>)
    requires forall k :: 0 <= k < |bs| ==> bs[k] < 256
    ensures forall k :: 0 <= k < |PercentEncode(bs)| ==> QuoteSafe(PercentEncode(bs)[k]) || PercentEncode(bs)[k] == '%'
  {
    if bs != [] {
      PercentEncodeAlphabet(bs[1..]);
    }
  }

  // ---------------------------------------------------------------------
  // string.Template(t).substitute(mapping)
  // ---------------------------------------------------------------------

  /** The first character of a placeholder name, `[_a-z]` under IGNORECASE. */
  predicate IdStart(c: char) { c == '_' || 'a' <= c <= 'z' || 'A' <= c <= 'Z' }

  predicate IdChar(c: char) { IdStart(c) || IsDigit(c) }

  predicate IsIdentifier(s: string)
  {
    |s| >= 1 && IdStart(s[0]) && forall k :: 1 <= k < |s| ==> IdChar(s[k])
  }

  /** The length of the longest prefix of `s` made of identifier characters. */
  function IdCharRun(s: string): (n: nat)
    ensures n <= |s|
    ensures forall k :: 0 <= k < n ==> IdChar(s[k])
    ensures n < |s| ==> !IdChar(s[n])
  {
    if s == [] || !IdChar(s[0]) then 0 else 1 + IdCharRun(s[1..])
  }

  const InvalidPlaceholder: string := "Invalid placeholder in string"

  /** Template substitution, scanning left to right: `$$` is a dollar sign,
      `$name` and `${name}` are replaced by the mapping's value for the greedy
      longest name, an unknown name raises KeyError and any other `$` raises
      ValueError. */
  function Substitute(t: string, mapping: map<string, string>): Result<string, Error>
    decreases |t|
  {
    if t == [] then Success([])
    else if t[0] != '$' then
      var rest :- Substitute(t[1..], mapping);
      Success([t[0]] + rest)
    else if |t| >= 2 && t[1] == '$' then
      var rest :- Substitute(t[2..], mapping);
      Success("$" + rest)
    else if |t| >= 2 && IdStart(t[1]) then
      var n := 1 + IdCharRun(t[2..]);
      var name := t[1..1 + n];
      if name !in mapping then Failure(KeyError(name))
      else
        var rest :- Substitute(t[1 + n..], mapping);
        Success(mapping[name] + rest)
    else if |t| >= 3 && t[1] == '{' && IdStart(t[2]) && 3 + IdCharRun(t[3..]) < |t| && t[3 + IdCharRun(t[3..])] == '}' then
      var n := 1 + IdCharRun(t[3..]);
      var name := t[2..2 + n];
      if name !in mapping then Failure(KeyError(name))
      else
        var rest :- Substitute(t[3 + n..], mapping);
        Success(mapping[name] + rest)
    else Failure(ValueError(InvalidPlaceholder))
  }

  /** `p` put in front of a successful result; a failure passes through. */
  function Prefixed(p: string, r: Result<string, Error>): Result<string, Error>
  {
    if r.Success? then Success(p + r.value) else r
  }

  /** Text without a dollar sign is copied as it is. */
  lemma {:induction false} SubstituteLiteral(lit: string, rest: string, mapping: map<string, string>)
    requires '$' !in lit
    ensures Substitute(lit + rest, mapping) == Prefixed(lit, Substitute(rest, mapping))
  {
    if lit != [] {
      assert (lit + rest)[0] == lit[0];
      assert (lit + rest)[1..] == lit[1..] + rest;
      SubstituteLiteral(lit[1..], rest, mapping);
      assert [lit[0]] + lit[1..] == lit;
      var r := Substitute(rest, mapping);
      if r.Success? {
        assert [lit[0]] + (lit[1..] + r.value) == lit + r.value;
      }
    } else {
      assert lit + rest == rest;
      var r := Substitute(rest, mapping);
      if r.Success? {
        assert lit + r.value == r.value;
      }
    }
  }

  /** A known `$name` not followed by a name character is replaced by its value. */
  lemma SubstitutePlaceholder(name: string, rest: string, mapping: map<string, string>)
    requires IsIdentifier(name) && name in mapping
    requires rest == [] || !IdChar(rest[0])
    ensures Substitute("$" + name + rest, mapping) == Prefixed(mapping[name], Substitute(rest, mapping))
  {
    var t := "$" + name + rest;
    assert t[1] == name[0];
    IdCharRunOf(name[1..], rest);
    assert t[2..] == name[1..] + rest;
    assert t[1..|name| + 1] == name;
    assert t[|name| + 1..] == rest;
  }

  lemma {:induction false} IdCharRunOf(run: string, rest: string)
    requires forall k :: 0 <= k < |run| ==> IdChar(run[k])
    requires rest == [] || !IdChar(rest[0])
    ensures IdCharRun(run + rest) == |run|
  {
    if run != [] {
      assert (run + rest)[1..] == run[1..] + rest;
      IdCharRunOf(run[1..], rest);
    } else {
      assert run + rest == rest;
    }
  }

  /** An unknown `$name` raises KeyError naming it. */
  lemma SubstituteUnknown(name: string, rest: string, mapping: map<string, string>)
    requires IsIdentifier(name) && name !in mapping
    requires rest == [] || !IdChar(rest[0])
    ensures Substitute("$" + name + rest, mapping) == Failure(KeyError(name))
  {
    var t := "$" + name + rest;
    assert t[1] == name[0];
    IdCharRunOf(name[1..], rest);
    assert t[2..] == name[1..] + rest;
    assert t[1..|name| + 1] == name;
  }

  /** A dollar sign at the very end is an invalid placeholder. */
  lemma SubstituteTrailingDollar(lit: string, mapping: map<string, string>)
    requires '$' !in lit
    ensures Substitute(lit + "$", mapping) == Failure(ValueError(InvalidPlaceholder))
  {
    SubstituteLiteral(lit, "$", mapping);
  }

  /** Literal text, then one known placeholder: both are copied or replaced. */
  lemma SubstituteLiteralThenPlaceholder(lit: string, placeholder: string, name: string, rest: string, m: map<string, string>)
    requires '$' !in lit && IsIdentifier(name) && name in m && placeholder == "$" + name
    requires rest == [] || !IdChar(rest[0])
    ensures Substitute(lit + (placeholder + rest), m) == Prefixed(lit + m[name], Substitute(rest, m))
  {
    SubstitutePlaceholder(name, rest, m);
    SubstituteLiteral(lit, placeholder + rest, m);
    var r := Substitute(rest, m);
    if r.Success? {
      Assoc(lit, m[name], r.value);
    }
  }

  /** Two known placeholders among literal text are both replaced. */
  lemma SubstituteTwo(before: string, p1: string, n1: string, between: string, p2: string, n2: string,
                      after: string, m: map<string, string>)
    requires '$' !in before && '$' !in between && '$' !in after
    requires IsIdentifier(n1) && n1 in m && p1 == "$" + n1
    requires IsIdentifier(n2) && n2 in m && p2 == "$" + n2
    requires between == [] || !IdChar(between[0])
    requires after == [] || !IdChar(after[0])
    ensures Substitute(before + p1 + between + p2 + after, m) == Success(before + m[n1] + between + m[n2] + after)
  {
    SubstituteLiteral(after, [], m);
    assert after + [] == after;
    var t2 := between + (p2 + after);
    SubstituteLiteralThenPlaceholder(between, p2, n2, after, m);
    assert Substitute(t2, m) == Success((between + m[n2]) + after);
    assert t2 == [] || !IdChar(t2[0]) by {
      if between == [] { assert t2[0] == '$'; } else { assert t2[0] == between[0]; }
    }
    SubstituteLiteralThenPlaceholder(before, p1, n1, t2, m);
    Regroup(before, p1, between, p2, after);
    Assoc(before + m[n1], between + m[n2], after);
    Assoc(before + m[n1], between, m[n2]);
  }

  // ---------------------------------------------------------------------
  // Regrouping concatenations
  // ---------------------------------------------------------------------

  lemma Regroup<T>(a: seq<T>, b: seq<T>, c: seq<T>, d: seq<T>, e: seq<T>)
    ensures a + (b + (c + (d + e))) == a + b + c + d + e
  {
  }

  lemma Assoc<T>(a: seq<T>, b: seq<T>, c: seq<T>)
    ensures a + b + c == a + (b + c)
  {
  }
}
