/** Python `str` operations the repository relies on. A Python string is a
  * sequence of code points, so it is modelled as `seq<char>` and every index,
  * length and slice below counts code points, as Python does. */
module Text {
  import opened Wrappers

  type String = seq<char>

  /** The characters for which Python's `str.isspace()` holds, which are also
    * the characters that `\s` matches in a `str` regular expression and that
    * `str.strip()` removes. */
  const Whitespace: set<char> := {
    '\t', '\n', '\U{000B}', '\U{000C}', '\r', '\U{001C}', '\U{001D}', '\U{001E}', '\U{001F}', ' ',
    '\U{0085}', '\U{00A0}', '\U{1680}',
    '\U{2000}', '\U{2001}', '\U{2002}', '\U{2003}', '\U{2004}', '\U{2005}', '\U{2006}', '\U{2007}',
    '\U{2008}', '\U{2009}', '\U{200A}', '\U{2028}', '\U{2029}', '\U{202F}', '\U{205F}', '\U{3000}'}

  /** Python's `str.isspace()` on one character. */
  predicate IsSpace(c: char) {
    c in Whitespace
  }

  predicate IsDigit(c: char) { '0' <= c <= '9' }

  lemma DigitIsNotSpace(c: char)
    requires IsDigit(c) || c == '-'
    ensures !IsSpace(c)
  {
  }

  predicate IsAsciiLetter(c: char) { 'a' <= c <= 'z' || 'A' <= c <= 'Z' }

  /** The index of the first non-whitespace character of `s` at or after `i`,
    * or `|s|` when there is none. */
  function SkipSpaces(s: String, i: nat): (j: nat)
    requires i <= |s|
    ensures i <= j <= |s|
    ensures j == |s| || !IsSpace(s[j])
    ensures forall k :: i <= k < j ==> IsSpace(s[k])
    decreases |s| - i
  {
    if i == |s| || !IsSpace(s[i]) then i else SkipSpaces(s, i + 1)
  }

  /** The index just past the last non-whitespace character of `s` in
    * `[lo, j)`, or `lo` when there is none. */
  function TrimSpaces(s: String, lo: nat, j: nat): (e: nat)
    requires lo <= j <= |s|
    ensures lo <= e <= j
    ensures e == lo || !IsSpace(s[e - 1])
    ensures forall k :: e <= k < j ==> IsSpace(s[k])
    decreases j
  {
    if j == lo || !IsSpace(s[j - 1]) then j else TrimSpaces(s, lo, j - 1)
  }

  /** `r` is the part of `s` that starts at `a` and is preceded and followed
    * only by whitespace, and neither end of `r` is whitespace. */
  predicate StrippedAt(s: String, a: int, r: String) {
    && 0 <= a && a + |r| <= |s| && r == s[a..a + |r|]
    && (forall i :: 0 <= i < a ==> IsSpace(s[i]))
    && (forall i :: a + |r| <= i < |s| ==> IsSpace(s[i]))
    && (r == [] || (!IsSpace(r[0]) && !IsSpace(r[|r| - 1])))
  }

  /** `str.strip()`: the part of `s` between a run of leading and a run of
    * trailing whitespace. */
  function Strip(s: String): (r: String)
    ensures StrippedAt(s, SkipSpaces(s, 0), r)
  {
    var a := SkipSpaces(s, 0);
    s[a..TrimSpaces(s, a, |s|)]
  }

  /** A string with no whitespace at either end strips to itself. */
  lemma StripOfTrimmed(s: String)
    requires s == [] || (!IsSpace(s[0]) && !IsSpace(s[|s| - 1]))
    ensures Strip(s) == s
  {
    if s != [] {
      assert SkipSpaces(s, 0) == 0;
      assert TrimSpaces(s, 0, |s|) == |s|;
    }
  }

  /** Stripping twice changes nothing more than stripping once. */
  lemma StripIdempotent(s: String)
    ensures Strip(Strip(s)) == Strip(s)
  {
    StripOfTrimmed(Strip(s));
  }

  /** A string made only of whitespace strips to the empty string. */
  lemma StripAllSpace(s: String)
    requires forall i :: 0 <= i < |s| ==> IsSpace(s[i])
    ensures Strip(s) == []
  {
  }

  /** Stripping never brings in a character. */
  lemma StripNoChar(s: String, c: char)
    requires c !in s
    ensures c !in Strip(s)
  {
  }

  /** ASCII-only `str.lower()` on one character. */
  function LowerChar(c: char): char {
    if 'A' <= c <= 'Z' then (c as int + 32) as char else c
  }

  /** ASCII-only `str.upper()` on one character. */
  function UpperChar(c: char): char {
    if 'a' <= c <= 'z' then (c as int - 32) as char else c
  }

  /** `str.lower()` restricted to ASCII letters: every other code point is kept. */
  function Lower(s: String): (r: String)
    ensures |r| == |s|
    ensures forall i :: 0 <= i < |s| ==> r[i] == LowerChar(s[i])
    ensures forall i :: 0 <= i < |r| ==> !('A' <= r[i] <= 'Z')
  {
    seq(|s|, i requires 0 <= i < |s| => LowerChar(s[i]))
  }

  /** `str.upper()` restricted to ASCII letters. */
  function Upper(s: String): (r: String)
    ensures |r| == |s|
    ensures forall i :: 0 <= i < |s| ==> r[i] == UpperChar(s[i])
    ensures forall i :: 0 <= i < |r| ==> !('a' <= r[i] <= 'z')
  {
    seq(|s|, i requires 0 <= i < |s| => UpperChar(s[i]))
  }

  lemma LowerSlice(s: String, i: int, j: int)
    requires 0 <= i <= j <= |s|
    ensures Lower(s[i..j]) == Lower(s)[i..j]
  {
  }

  /** `sub` occurs in `s` starting at index `i`. */
  predicate ContainsAt(s: String, sub: String, i: int) {
    0 <= i <= |s| - |sub| && s[i..i + |sub|] == sub
  }

  /** Python's `sub in s` for strings. */
  predicate Contains(s: String, sub: String) {
    exists i | 0 <= i <= |s| - |sub| :: ContainsAt(s, sub, i)
  }

  /** Substring containment is transitive: a text that contains `long` contains
    * every substring of `long`. */
  lemma ContainsTransitive(s: String, long: String, short: String)
    requires Contains(s, long) && Contains(long, short)
    ensures Contains(s, short)
  {
    var i :| 0 <= i <= |s| - |long| && ContainsAt(s, long, i);
    var j :| 0 <= j <= |long| - |short| && ContainsAt(long, short, j);
    forall k | 0 <= k < |short|
      ensures s[i + j + k] == short[k]
    {
      assert long[j + k] == short[k];
      assert s[i + (j + k)] == long[j + k];
    }
    assert ContainsAt(s, short, i + j);
  }

  /** Lowering both sides keeps a substring relation. */
  lemma LowerKeepsContains(s: String, sub: String)
    requires Contains(s, sub)
    ensures Contains(Lower(s), Lower(sub))
  {
    var i :| 0 <= i <= |s| - |sub| && ContainsAt(s, sub, i);
    LowerSlice(s, i, i + |sub|);
    assert ContainsAt(Lower(s), Lower(sub), i);
  }

  /** A string containing an upper-case ASCII letter never occurs inside a lowered text. */
  lemma LowerNeverContainsUpper(s: String, sub: String, k: int)
    requires 0 <= k < |sub| && 'A' <= sub[k] <= 'Z'
    ensures !Contains(Lower(s), sub)
  {
  }

  /** A string lacking one of `sub`'s characters does not contain `sub`. */
  lemma MissingCharNotContained(s: String, sub: String, k: int)
    requires 0 <= k < |sub| && sub[k] !in s
    ensures !Contains(s, sub)
  {
    forall i | 0 <= i <= |s| - |sub|
      ensures !ContainsAt(s, sub, i)
    {
      assert s[i..i + |sub|][k] == s[i + k];
    }
  }

  /** The first index at or after `from` where `p` occurs. */
  function FindFrom(s: String, p: String, from: nat): (r: Option<nat>)
    ensures r.Some? ==> from <= r.value && ContainsAt(s, p, r.value)
    ensures forall k :: from <= k && (r.None? || k < r.value) ==> !ContainsAt(s, p, k)
    decreases |s| + 1 - from
  {
    if from + |p| > |s| then None
    else if ContainsAt(s, p, from) then Some(from)
    else FindFrom(s, p, from + 1)
  }

  /** `s.find(p)`, with `None` for -1. */
  function Find(s: String, p: String): (r: Option<nat>)
    ensures r.Some? ==> ContainsAt(s, p, r.value)
    ensures r.None? <==> !Contains(s, p)
  {
    FindFrom(s, p, 0)
  }

  /** `s.startswith(p)` */
  predicate StartsWith(s: String, p: String) {
    |p| <= |s| && s[..|p|] == p
  }

  /** `s[:n]` for a non-negative `n`. */
  function Take<T>(s: seq<T>, n: nat): (r: seq<T>)
    ensures |r| == if n <= |s| then n else |s|
    ensures r == s[..|r|]
  {
    if n <= |s| then s[..n] else s
  }

  /** A Python slice bound (`s[i:]`, `s[:j]`) normalised against a length:
    * negative values count from the end, and the result is clamped to `[0, len]`. */
  function SliceBound(i: int, len: nat): (r: nat)
    ensures r <= len
    ensures 0 <= i <= len ==> r == i
    ensures i > len ==> r == len
  {
    if i < 0 then (if i + len < 0 then 0 else i + len) else if i > len then len else i
  }

  /** Python's `s[i:j]` with any integers `i` and `j`. */
  function Slice<T>(s: seq<T>, i: int, j: int): (r: seq<T>)
    ensures |r| <= |s|
    ensures 0 <= i <= j ==> |r| <= j - i
    ensures 0 <= i <= j <= |s| ==> r == s[i..j]
  {
    var a := SliceBound(i, |s|);
    var b := SliceBound(j, |s|);
    if a < b then s[a..b] else []
  }

  /** Index of the first `c` in `s`, or `|s|` when there is none (Python's
    * `str.find` answers -1 in that case). */
  function IndexOfChar(s: String, c: char): (r: nat)
    ensures r <= |s|
    ensures r < |s| ==> s[r] == c
    ensures forall k :: 0 <= k < r ==> s[k] != c
    ensures r == |s| <==> c !in s
  {
    if s == [] then 0 else if s[0] == c then 0 else 1 + IndexOfChar(s[1..], c)
  }

  /** Index of the last `c` in `s`, or -1 when there is none (Python's `str.rfind`). */
  function LastIndexOfChar(s: String, c: char): (r: int)
    ensures -1 <= r < |s|
    ensures r >= 0 ==> s[r] == c
    ensures forall k :: r < k < |s| ==> s[k] != c
    ensures r == -1 <==> c !in s
  {
    if s == [] then -1 else if s[|s| - 1] == c then |s| - 1 else LastIndexOfChar(s[..|s| - 1], c)
  }

  /** `sep.join(xs)` */
  function Join(sep: String, xs: seq<String>): String {
    if |xs| == 0 then "" else if |xs| == 1 then xs[0] else xs[0] + sep + Join(sep, xs[1..])
  }

  /** `s.split(c)` for a one-character separator: the pieces between the
    * occurrences of `c`, so there is always at least one piece and joining them
    * with `c` gives `s` back. */
  function Split(s: String, c: char): (r: seq<String>)
    ensures |r| >= 1
    ensures Join([c], r) == s
    ensures forall k :: 0 <= k < |r| ==> c !in r[k]
    ensures r[0] == s[..IndexOfChar(s, c)]
    decreases |s|
  {
    var i := IndexOfChar(s, c);
    if i == |s| then [s]
    else
      var rest := Split(s[i + 1..], c);
      assert ([s[..i]] + rest)[1..] == rest;
      assert s == s[..i] + [c] + s[i + 1..];
      [s[..i]] + rest
  }

  function DigitChar(d: nat): char
    requires d < 10
  {
    ('0' as int + d) as char
  }

  /** Python's `str(n)` for a non-negative integer. */
  function NatToString(n: nat): (r: String)
    ensures |r| >= 1
    ensures forall k :: 0 <= k < |r| ==> IsDigit(r[k])
    ensures |r| > 1 ==> r[0] != '0'
  {
    if n < 10 then [DigitChar(n)] else NatToString(n / 10) + [DigitChar(n % 10)]
  }

  /** Python's `str(n)` (and `f"{n}"`) for an integer. */
  function IntToString(n: int): (r: String)
    ensures |r| >= 1
    ensures n >= 0 <==> IsDigit(r[0])
  {
    if n < 0 then "-" + NatToString(-n) else NatToString(n)
  }

  /** The value of the ASCII digits of `b`, read in base 10; any other
    * character (in a numeral, an underscore) is skipped. */
  function DigitsValue(b: String): nat
  {
    if b == [] then 0
    else if IsDigit(b[|b| - 1]) then DigitsValue(b[..|b| - 1]) * 10 + (b[|b| - 1] as int - '0' as int)
    else DigitsValue(b[..|b| - 1])
  }

  /** The digits that Python's `int()` accepts in base 10: digits, with single
    * underscores allowed only between two digits. Only ASCII digits are modelled. */
  predicate IsNumeral(b: String) {
    |b| >= 1 && IsDigit(b[0]) && IsDigit(b[|b| - 1])
    && (forall k :: 0 <= k < |b| ==> IsDigit(b[k]) || b[k] == '_')
    && (forall j, k :: 0 <= j < |b| && 0 <= k < |b| && k == j + 1 && b[j] == '_' ==> IsDigit(b[k]))
  }

  /** Python's `int(s)`: surrounding whitespace is ignored, an optional sign
    * comes first, and the rest must be a numeral; anything else raises
    * `ValueError` (here `None`). */
  function ParseInt(s: String): (r: Option<int>)
    ensures r.Some? ==> Strip(s) != []
  {
    var t := Strip(s);
    if t == [] then None
    else
      var signed := t[0] == '+' || t[0] == '-';
      var body := if signed then t[1..] else t;
      if !IsNumeral(body) then None
      else
        var v: int := DigitsValue(body);
        Some(if t[0] == '-' then -v else v)
  }

  /** `str(n)` of a natural number is a numeral whose value is `n`. */
  lemma {:induction false} NatToStringValue(n: nat)
    ensures IsNumeral(NatToString(n)) && DigitsValue(NatToString(n)) == n
  {
    if n >= 10 {
      NatToStringValue(n / 10);
      var r := NatToString(n);
      assert r[..|r| - 1] == NatToString(n / 10);
    }
  }

  /** A numeral with an optional minus sign and no surrounding whitespace
    * parses to its value. */
  lemma ParseIntOfSignedNumeral(sign: String, d: String)
    requires sign == "" || sign == "-"
    requires IsNumeral(d)
    ensures ParseInt(sign + d) == Some(if sign == "-" then -(DigitsValue(d) as int) else DigitsValue(d) as int)
  {
    var s := sign + d;
    assert s[|s| - 1] == d[|d| - 1];
    DigitIsNotSpace(s[0]);
    DigitIsNotSpace(s[|s| - 1]);
    StripOfTrimmed(s);
    var body := if s[0] == '+' || s[0] == '-' then s[1..] else s;
    assert body == d by {
      if sign == "-" {
        assert s[1..] == d;
      } else {
        assert s == d;
      }
    }
  }

  /** `int(str(n)) == n` for every integer. */
  lemma ParseIntOfIntToString(n: int)
    ensures ParseInt(IntToString(n)) == Some(n)
  {
    var m: nat := if n < 0 then -n else n;
    NatToStringValue(m);
    if n < 0 {
      ParseIntOfSignedNumeral("-", NatToString(m));
    } else {
      assert IntToString(n) == "" + NatToString(m);
      ParseIntOfSignedNumeral("", NatToString(m));
    }
  }

}
