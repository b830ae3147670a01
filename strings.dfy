/** The JavaScript string built-ins the handlers rely on, modelled on
    `seq<char>`: `trim`, `startsWith`, `split(' ')`, `replace` with a
    one-character pattern (first occurrence only), `parseInt(_, 10)` and
    the decimal rendering of integers. */
module Strings {
  import opened Common

  /** The characters JavaScript counts as white space or line terminators
      (what `trim` strips and `parseInt` skips). */
  predicate IsSpace(c: char) {
    c in SpaceChars || ('\U{2000}' <= c <= '\U{200A}')
  }

  const SpaceChars: set<char> := {'\t', '\n', '\U{000B}', '\U{000C}', '\r', ' ', '\U{00A0}', '\U{1680}',
    '\U{2028}', '\U{2029}', '\U{202F}', '\U{205F}', '\U{3000}', '\U{FEFF}'}

  predicate IsDigit(c: char) { '0' <= c <= '9' }

  predicate StartsWith(s: string, prefix: string) {
    |prefix| <= |s| && s[..|prefix|] == prefix
  }

  /** `s` without its leading white space. */
  function TrimStart(s: string): (r: string)
    ensures |r| <= |s| && r == s[|s| - |r|..]
    ensures forall k :: 0 <= k < |s| - |r| ==> IsSpace(s[k])
    ensures r == [] || !IsSpace(r[0])
  {
    if |s| > 0 && IsSpace(s[0]) then TrimStart(s[1..]) else s
  }

  /** `s` without its trailing white space. */
  function TrimEnd(s: string): (r: string)
    ensures |r| <= |s| && r == s[..|r|]
    ensures forall k :: |r| <= k < |s| ==> IsSpace(s[k])
    ensures r == [] || !IsSpace(r[|r| - 1])
  {
    if |s| > 0 && IsSpace(s[|s| - 1]) then TrimEnd(s[..|s| - 1]) else s
  }

  /** How many white-space characters `s` starts with. */
  function LeadingSpaces(s: string): (n: nat)
    ensures n <= |s|
  {
    |s| - |TrimStart(s)|
  }

  /** `String.prototype.trim`: the result neither starts nor ends with
      white space (`TrimCutsOnlySpace` says what was cut). */
  function Trim(s: string): (r: string)
    ensures |r| <= |s|
    ensures r == [] || (!IsSpace(r[0]) && !IsSpace(r[|r| - 1]))
  {
    var t := TrimStart(s);
    var r := TrimEnd(t);
    assert r == [] || r[0] == t[0];
    r
  }

  /** What `trim` cuts is white space at both ends: the result is the
      slice of `s` after its leading white space. */
  lemma TrimCutsOnlySpace(s: string)
    ensures LeadingSpaces(s) + |Trim(s)| <= |s|
    ensures Trim(s) == s[LeadingSpaces(s)..LeadingSpaces(s) + |Trim(s)|]
    ensures forall k :: 0 <= k < LeadingSpaces(s) ==> IsSpace(s[k])
    ensures forall k :: LeadingSpaces(s) + |Trim(s)| <= k < |s| ==> IsSpace(s[k])
  {
    var t := TrimStart(s);
    var r := TrimEnd(t);
    var n := |s| - |t|;
    assert Trim(s) == r;
    assert LeadingSpaces(s) == n;
    assert t == s[n..];
    assert r == t[..|r|];
    assert s[n..n + |r|] == s[n..][..|r|];
    forall k | n + |r| <= k < |s| ensures IsSpace(s[k]) {
      assert s[k] == t[k - n];
    }
  }

  /** Trimming twice is trimming once. */
  lemma TrimIdempotent(s: string)
    ensures Trim(Trim(s)) == Trim(s)
  {
    var r := Trim(s);
    assert TrimStart(r) == r;
    assert TrimEnd(r) == r;
  }

  /** The position of the first `c` in `s`, or -1 (`indexOf`). */
  function IndexOf(s: string, c: char): (r: int)
    ensures -1 <= r < |s|
    ensures r == -1 <==> c !in s
    ensures r >= 0 ==> s[r] == c && c !in s[..r]
  {
    if |s| == 0 then -1
    else if s[0] == c then 0
    else
      var k := IndexOf(s[1..], c);
      if k == -1 then -1 else k + 1
  }

  /** `s.replace(from, to)` with one-character strings: only the FIRST
      occurrence of `from` is replaced; every other character stays. */
  function ReplaceFirst(s: string, from: char, to: char): (r: string)
    ensures |r| == |s|
    ensures IndexOf(s, from) == -1 ==> r == s
    ensures IndexOf(s, from) >= 0 ==> r == s[..IndexOf(s, from)] + [to] + s[IndexOf(s, from) + 1..]
  {
    if |s| == 0 then s
    else if s[0] == from then [to] + s[1..]
    else [s[0]] + ReplaceFirst(s[1..], from, to)
  }

  /** `s.split(sep)` with a one-character separator: the pieces between
      separators, always at least one. */
  function Split(s: string, sep: char): (r: seq<string>)
    ensures |r| >= 1
    ensures forall k :: 0 <= k < |r| ==> sep !in r[k]
    ensures Join(r, sep) == s
    ensures r[0] == s[..if sep in s then IndexOf(s, sep) else |s|]
  {
    var i := IndexOf(s, sep);
    if i == -1 then [s]
    else
      var rest := Split(s[i + 1..], sep);
      assert s == s[..i] + [sep] + s[i + 1..];
      [s[..i]] + rest
  }

  /** `parts.join(sep)`. */
  function Join(parts: seq<string>, sep: char): string {
    if |parts| == 0 then ""
    else if |parts| == 1 then parts[0]
    else parts[0] + [sep] + Join(parts[1..], sep)
  }

  /** A character in neither part is not in their concatenation. */
  lemma PrefixAvoids(a: string, b: string, c: char)
    requires c !in a && c !in b
    ensures c !in a + b
  {
    forall k | 0 <= k < |a + b| ensures (a + b)[k] != c {
      if k < |a| { assert (a + b)[k] == a[k]; } else { assert (a + b)[k] == b[k - |a|]; }
    }
  }

  /** The first `c` in `a + [c] + b` is the one after `a` when `a` has none. */
  lemma IndexOfAfter(a: string, c: char, b: string)
    requires c !in a
    ensures IndexOf(a + [c] + b, c) == |a|
  {
    var s := a + [c] + b;
    assert s[|a|] == c;
    assert s[..|a|] == a;
  }

  /** Splitting a join gives back the parts when no part holds the
      separator. */
  lemma {:induction false} SplitJoin(parts: seq<string>, sep: char)
    requires |parts| >= 1
    requires forall k :: 0 <= k < |parts| ==> sep !in parts[k]
    ensures Split(Join(parts, sep), sep) == parts
  {
    if |parts| == 1 {
      assert Split(parts[0], sep) == [parts[0]];
    } else {
      var rest := Join(parts[1..], sep);
      var s := parts[0] + [sep] + rest;
      assert Join(parts, sep) == s;
      IndexOfAfter(parts[0], sep, rest);
      assert s[..|parts[0]|] == parts[0];
      assert s[|parts[0]| + 1..] == rest;
      SplitJoin(parts[1..], sep);
      assert Split(s, sep) == [parts[0]] + Split(rest, sep);
      assert parts == [parts[0]] + parts[1..];
    }
  }

  /** The longest prefix of `s` made of decimal digits. */
  function DigitPrefix(s: string): (r: string)
    ensures |r| <= |s| && r == s[..|r|]
    ensures forall k :: 0 <= k < |r| ==> IsDigit(r[k])
    ensures |r| == |s| || !IsDigit(s[|r|])
  {
    if |s| > 0 && IsDigit(s[0]) then [s[0]] + DigitPrefix(s[1..]) else ""
  }

  function DigitValue(c: char): nat
    requires IsDigit(c)
  {
    (c as int) - ('0' as int)
  }

  /** The number a string of decimal digits denotes. */
  function DigitsValue(ds: string): nat
    requires forall k :: 0 <= k < |ds| ==> IsDigit(ds[k])
  {
    if |ds| == 0 then 0
    else 10 * DigitsValue(ds[..|ds| - 1]) + DigitValue(ds[|ds| - 1])
  }

  /** `parseInt(s, 10)`: leading white space is skipped, one optional sign
      is read, then the longest run of digits; no digits gives NaN (None).
      A result of -0 is reported as 0. Precision loss on very long digit
      runs is not modelled. */
  function ParseInt(s: string): (r: Option<int>)
    ensures r.None? <==> DigitPrefix(SignStripped(TrimStart(s))) == ""
  {
    ParseSigned(TrimStart(s))
  }

  /** `parseInt` once the leading white space is gone. */
  function ParseSigned(t: string): (r: Option<int>)
    ensures r.None? <==> DigitPrefix(SignStripped(t)) == ""
  {
    var ds := DigitPrefix(SignStripped(t));
    if ds == "" then None
    else
      var v: int := DigitsValue(ds);
      if |t| > 0 && t[0] == '-' then Some(-v) else Some(v)
  }

  /** `t` without one leading '+' or '-'. */
  function SignStripped(t: string): string {
    if |t| > 0 && (t[0] == '-' || t[0] == '+') then t[1..] else t
  }

  function DigitChar(d: nat): (c: char)
    requires d < 10
    ensures IsDigit(c) && DigitValue(c) == d
  {
    (('0' as int) + d) as char
  }

  /** The decimal rendering of a natural number, as `String(n)` gives it. */
  function NatToString(n: nat): (r: string)
    ensures |r| >= 1
    ensures forall k :: 0 <= k < |r| ==> IsDigit(r[k])
    ensures DigitsValue(r) == n
  {
    if n < 10 then [DigitChar(n)]
    else
      var r := NatToString(n / 10) + [DigitChar(n % 10)];
      assert r[..|r| - 1] == NatToString(n / 10);
      r
  }

  /** The decimal rendering of an integer, with '-' for negatives. */
  function IntToString(n: int): string {
    if n < 0 then "-" + NatToString(-n) else NatToString(n)
  }

  /** Reading back the rendering of a natural number gives the number,
      whatever non-digit text follows it (`parseInt("2abc", 10)` is 2). */
  lemma ParseNatToString(n: nat, tail: string)
    requires tail == [] || !IsDigit(tail[0])
    ensures ParseInt(NatToString(n) + tail) == Some(n)
  {
    var d := NatToString(n);
    var s := d + tail;
    assert s[0] == d[0] && IsDigit(s[0]) && !IsSpace(s[0]);
    assert TrimStart(s) == s;
    assert SignStripped(s) == s;
    DigitPrefixOfDigits(d, tail);
  }

  /** Reading back the rendering of an integer gives the integer. */
  lemma ParseIntToString(n: int)
    ensures ParseInt(IntToString(n)) == Some(n)
  {
    if n < 0 {
      var d := NatToString(-n);
      var s := "-" + d;
      assert s[0] == '-' && !IsSpace(s[0]);
      assert TrimStart(s) == s;
      assert s[1..] == d + [];
      assert SignStripped(s) == d + [];
      DigitPrefixOfDigits(d, []);
    } else {
      ParseNatToString(n, []);
      assert NatToString(n) + [] == NatToString(n);
    }
  }

  /** Leading white space does not change what `parseInt` reads. */
  lemma ParseSkipsSpace(c: char, s: string)
    requires IsSpace(c)
    ensures ParseInt([c] + s) == ParseInt(s)
  {
    var cs := [c] + s;
    assert cs[0] == c && cs[1..] == s;
    assert TrimStart(cs) == TrimStart(s);
  }

  lemma {:induction false} DigitPrefixOfDigits(d: string, tail: string)
    requires forall k :: 0 <= k < |d| ==> IsDigit(d[k])
    requires tail == [] || !IsDigit(tail[0])
    ensures DigitPrefix(d + tail) == d
  {
    if |d| > 0 {
      assert (d + tail)[1..] == d[1..] + tail;
      DigitPrefixOfDigits(d[1..], tail);
    } else {
      assert d + tail == tail;
    }
  }
}
