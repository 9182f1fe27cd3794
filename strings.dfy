/** Text helpers shared by the modules: ASCII case folding and trimming, substring,
    prefix and suffix tests, line splitting and joining, and decimal rendering of
    naturals. JavaScript's Unicode-aware `toLowerCase` and `trim` are abstracted to
    their ASCII behaviour. */
module Strings {

  /** ASCII `toLowerCase` of one character. */
  function LowerChar(c: char): char {
    if 'A' <= c <= 'Z' then (c as int + 32) as char else c
  }

  /** ASCII `toLowerCase` of a string. */
  function Lower(s: string): (r: string)
    ensures |r| == |s|
    ensures forall i :: 0 <= i < |s| ==> r[i] == LowerChar(s[i])
  {
    if s == [] then [] else [LowerChar(s[0])] + Lower(s[1..])
  }

  /** The white-space characters JavaScript's `trim` removes, restricted to ASCII. */
  predicate IsSpace(c: char) {
    c == ' ' || c == '\t' || c == '\n' || c == '\r' || c == '\U{000B}' || c == '\U{000C}'
  }

  lemma LowerCharKeepsSpace(c: char)
    ensures IsSpace(LowerChar(c)) == IsSpace(c)
  {
  }

  /** `s.trim() === ''`: every character is white space. */
  predicate IsBlank(s: string) {
    forall i :: 0 <= i < |s| ==> IsSpace(s[i])
  }

  function TrimStart(s: string): (r: string)
    ensures |r| <= |s| && r == s[|s| - |r|..]
    ensures r == [] || !IsSpace(r[0])
    ensures IsBlank(s[..|s| - |r|])
  {
    if s != [] && IsSpace(s[0]) then TrimStart(s[1..]) else s
  }

  function TrimEnd(s: string): (r: string)
    ensures |r| <= |s| && r == s[..|r|]
    ensures r == [] || !IsSpace(r[|r| - 1])
    ensures IsBlank(s[|r|..])
  {
    if s != [] && IsSpace(s[|s| - 1]) then TrimEnd(s[..|s| - 1]) else s
  }

  /** `s.trim()`: leading and trailing white space removed. */
  function Trim(s: string): (r: string)
    ensures exists i, j :: 0 <= i <= j <= |s| && r == s[i..j] && IsBlank(s[..i]) && IsBlank(s[j..])
    ensures r == [] || (!IsSpace(r[0]) && !IsSpace(r[|r| - 1]))
  {
    var t := TrimStart(s);
    var r := TrimEnd(t);
    var i := |s| - |t|;
    var j := i + |r|;
    assert s[i..j] == r && s[j..] == t[|r|..];
    r
  }

  lemma {:induction false} TrimEmptyIffBlank(s: string)
    ensures Trim(s) == [] <==> IsBlank(s)
  {
    var t := TrimStart(s);
    assert s == s[..|s| - |t|] + t;
    if Trim(s) == [] {
      assert t[0..] == t;
    }
  }

  predicate StartsWith(s: string, prefix: string) {
    |prefix| <= |s| && s[..|prefix|] == prefix
  }

  predicate EndsWith(s: string, suffix: string) {
    |suffix| <= |s| && s[|s| - |suffix|..] == suffix
  }

  /** `needle` occurs in `hay` starting at index `i`. */
  predicate OccursAt(needle: string, hay: string, i: int) {
    0 <= i <= |hay| - |needle| && hay[i..i + |needle|] == needle
  }

  /** `needle` occurs as a contiguous block of `hay`. */
  ghost predicate IsSubstring(needle: string, hay: string) {
    exists i :: OccursAt(needle, hay, i)
  }

  /** The executable search behind `IsSubstring`. */
  function FindFrom(needle: string, hay: string, from: nat): (r: bool)
    requires from <= |hay| + 1
    decreases |hay| + 1 - from
    ensures r <==> exists i :: from <= i && OccursAt(needle, hay, i)
  {
    if from + |needle| > |hay| then false
    else if hay[from..from + |needle|] == needle then
      assert OccursAt(needle, hay, from);
      true
    else
      assert !OccursAt(needle, hay, from);
      FindFrom(needle, hay, from + 1)
  }

  function Contains(hay: string, needle: string): (r: bool)
    ensures r <==> IsSubstring(needle, hay)
  {
    FindFrom(needle, hay, 0)
  }

  /** The text of `s` before its first `sep`, or all of `s`. */
  function UpTo(s: string, sep: char): (r: string)
    ensures sep !in r
    ensures StartsWith(s, r)
    ensures |r| < |s| ==> s[|r|] == sep
  {
    if s == [] || s[0] == sep then [] else [s[0]] + UpTo(s[1..], sep)
  }

  /** JavaScript `s.split(sep)` for a one-character separator: the pieces between
      separators, always at least one. */
  function Split(s: string, sep: char): (r: seq<string>)
    decreases |s|
    ensures |r| >= 1
    ensures forall k :: 0 <= k < |r| ==> sep !in r[k]
  {
    var head := UpTo(s, sep);
    if |head| == |s| then [s] else [head] + Split(s[|head| + 1..], sep)
  }

  /** JavaScript `parts.join(sep)`. */
  function Join(parts: seq<string>, sep: char): string {
    if parts == [] then []
    else if |parts| == 1 then parts[0]
    else parts[0] + [sep] + Join(parts[1..], sep)
  }

  lemma {:induction false} UpToJoin(parts: seq<string>, sep: char)
    requires |parts| >= 1
    requires sep !in parts[0]
    ensures UpTo(Join(parts, sep), sep) == parts[0]
  {
    var p := parts[0];
    var rest := if |parts| == 1 then [] else [sep] + Join(parts[1..], sep);
    assert Join(parts, sep) == p + rest;
    UpToOfPrefix(p, rest, sep);
  }

  lemma {:induction false} UpToOfPrefix(p: string, rest: string, sep: char)
    requires sep !in p
    requires rest == [] || rest[0] == sep
    ensures UpTo(p + rest, sep) == p
  {
    if p == [] {
    } else {
      assert (p + rest)[1..] == p[1..] + rest;
      UpToOfPrefix(p[1..], rest, sep);
    }
  }

  /** Splitting a joined list gives the list back when no part holds the separator. */
  lemma {:induction false} SplitJoin(parts: seq<string>, sep: char)
    requires |parts| >= 1
    requires forall k :: 0 <= k < |parts| ==> sep !in parts[k]
    ensures Split(Join(parts, sep), sep) == parts
  {
    var j := Join(parts, sep);
    UpToJoin(parts, sep);
    if |parts| == 1 {
    } else {
      var rest := Join(parts[1..], sep);
      assert j == parts[0] + [sep] + rest;
      assert j[|parts[0]| + 1..] == rest;
      SplitJoin(parts[1..], sep);
    }
  }

  /** Joining the pieces of a split gives the text back. */
  lemma {:induction false} JoinSplit(s: string, sep: char)
    decreases |s|
    ensures Join(Split(s, sep), sep) == s
  {
    var head := UpTo(s, sep);
    if |head| == |s| {
      assert s[..|head|] == s;
    } else {
      var tail := s[|head| + 1..];
      JoinSplit(tail, sep);
      var parts := Split(s, sep);
      assert parts == [head] + Split(tail, sep);
      assert parts[1..] == Split(tail, sep);
      assert Join(parts, sep) == head + [sep] + Join(Split(tail, sep), sep);
      assert s[..|head|] == head;
      assert s == s[..|head|] + [s[|head|]] + tail;
    }
  }

  function DigitChar(d: nat): char
    requires d < 10
  {
    ('0' as int + d) as char
  }

  predicate IsDigit(c: char) {
    '0' as int <= c as int <= '9' as int
  }

  /** `String(n)` for a natural number: its decimal digits, most significant first. */
  function NatToString(n: nat): (r: string)
    ensures |r| >= 1
    ensures forall i :: 0 <= i < |r| ==> IsDigit(r[i])
  {
    if n < 10 then [DigitChar(n)] else NatToString(n / 10) + [DigitChar(n % 10)]
  }

  /** The value of a string of decimal digits. */
  function ParseNat(s: string): nat
    requires forall i :: 0 <= i < |s| ==> IsDigit(s[i])
  {
    if s == [] then 0
    else
      assert IsDigit(s[|s| - 1]);
      ParseNat(s[..|s| - 1]) * 10 + (s[|s| - 1] as int - '0' as int)
  }

  lemma {:induction false} ParseNatToString(n: nat)
    ensures ParseNat(NatToString(n)) == n
  {
    if n >= 10 {
      var s := NatToString(n);
      assert s[..|s| - 1] == NatToString(n / 10);
      ParseNatToString(n / 10);
    }
  }

  /** Distinct numbers render to distinct strings. */
  lemma NatToStringInjective(m: nat, n: nat)
    requires NatToString(m) == NatToString(n)
    ensures m == n
  {
    ParseNatToString(m);
    ParseNatToString(n);
  }

  /** Byte-wise (code point) lexicographic order, SQLite's BINARY collation. */
  predicate StrLe(a: string, b: string) {
    if a == [] then true
    else if b == [] then false
    else if a[0] != b[0] then a[0] < b[0]
    else StrLe(a[1..], b[1..])
  }

  lemma {:induction false} StrLeTotal(a: string, b: string)
    ensures StrLe(a, b) || StrLe(b, a)
  {
    if a != [] && b != [] && a[0] == b[0] {
      StrLeTotal(a[1..], b[1..]);
    }
  }

  lemma {:induction false} StrLeTransitive(a: string, b: string, c: string)
    requires StrLe(a, b) && StrLe(b, c)
    ensures StrLe(a, c)
  {
    if a != [] && b != [] && c != [] && a[0] == b[0] && b[0] == c[0] {
      StrLeTransitive(a[1..], b[1..], c[1..]);
    }
  }
}
