/**
 * String operations with the semantics of the JavaScript built-ins the
 * system relies on: `trim`, `includes`, `replace` with a string pattern,
 * `split`, `join`, `padStart`, `toLowerCase`/`toUpperCase`, `String(n)`
 * and the `<`/`>` comparison of strings.
 */
module Strings {

  /** The characters JavaScript's `trim` and the regular-expression class `\s` treat as white space. */
  predicate IsJsSpace(c: char) {
    c == ' ' || c == '\t' || c == '\n' || c == '\r' || c == '\U{000B}' || c == '\U{000C}'
    || c == '\U{00A0}' || c == '\U{1680}' || ('\U{2000}' <= c <= '\U{200A}')
    || c == '\U{2028}' || c == '\U{2029}' || c == '\U{202F}' || c == '\U{205F}'
    || c == '\U{3000}' || c == '\U{FEFF}'
  }

  predicate IsAsciiDigit(c: char) { '0' <= c <= '9' }

  /** A character that the regular-expression class `\w` matches. */
  predicate IsWordChar(c: char) {
    ('a' <= c <= 'z') || ('A' <= c <= 'Z') || IsAsciiDigit(c) || c == '_'
  }

  predicate StartsWith(s: string, p: string) { |p| <= |s| && s[..|p|] == p }

  predicate EndsWith(s: string, p: string) { |p| <= |s| && s[|s| - |p|..] == p }

  /** `sub` occurs in `s` at position `i`. */
  predicate MatchAt(s: string, sub: string, i: int) {
    0 <= i && i + |sub| <= |s| && s[i..i + |sub|] == sub
  }

  /** Position of the first occurrence of `sub` in `s` at or after `from`, or -1 (`indexOf`). */
  function IndexOfFrom(s: string, sub: string, from: nat): (r: int)
    requires from <= |s|
    ensures r == -1 || (from <= r && MatchAt(s, sub, r))
    ensures forall j :: from <= j < (if r == -1 then |s| + 1 else r) ==> !MatchAt(s, sub, j)
    decreases |s| - from
  {
    if MatchAt(s, sub, from) then from
    else if from == |s| then -1
    else IndexOfFrom(s, sub, from + 1)
  }

  function IndexOf(s: string, sub: string): int { IndexOfFrom(s, sub, 0) }

  /** `s.includes(sub)` */
  predicate Contains(s: string, sub: string) { IndexOf(s, sub) != -1 }

  lemma ContainsIffMatch(s: string, sub: string)
    ensures Contains(s, sub) <==> exists i :: MatchAt(s, sub, i)
  {
    if !Contains(s, sub) {
      forall i ensures !MatchAt(s, sub, i) {
        if 0 <= i <= |s| {
        }
      }
    }
  }

  /** A string that contains `a + b` contains `a` and contains `b`. */
  lemma ContainsParts(s: string, a: string, b: string)
    requires Contains(s, a + b)
    ensures Contains(s, a) && Contains(s, b)
  {
    var i := IndexOf(s, a + b);
    var ab := s[i..i + |a| + |b|];
    assert ab == a + b;
    assert MatchAt(s, a, i) by { assert s[i..i + |a|] == ab[..|a|]; }
    assert MatchAt(s, b, i + |a|) by { assert s[i + |a|..i + |a| + |b|] == ab[|a|..]; }
    ContainsIffMatch(s, a);
    ContainsIffMatch(s, b);
  }

  /** A string without the character `c` contains no string that has it. */
  lemma MissingChar(s: string, sub: string, c: char, j: nat)
    requires j < |sub| && sub[j] == c && c !in s
    ensures !Contains(s, sub)
  {
    forall i: int ensures !MatchAt(s, sub, i) {
      if 0 <= i && i + |sub| <= |s| {
        assert s[i..i + |sub|][j] == s[i + j];
      }
    }
    ContainsIffMatch(s, sub);
  }

  /** `s.replace(pat, rep)` with a string pattern: only the first occurrence is replaced. */
  function ReplaceFirst(s: string, pat: string, rep: string): string {
    var i := IndexOf(s, pat);
    if i == -1 then s else s[..i] + rep + s[i + |pat|..]
  }

  /** `s.replace(/c/g, d)` for a single character. */
  function ReplaceAllChar(s: string, c: char, d: char): (r: string)
    ensures |r| == |s|
    ensures forall i :: 0 <= i < |s| ==> r[i] == (if s[i] == c then d else s[i])
  {
    if s == [] then [] else [if s[0] == c then d else s[0]] + ReplaceAllChar(s[1..], c, d)
  }

  function TrimStart(s: string): (r: string)
    ensures |r| <= |s| && r == s[|s| - |r|..]
    ensures r == [] || !IsJsSpace(r[0])
  {
    if s != [] && IsJsSpace(s[0]) then TrimStart(s[1..]) else s
  }

  function TrimEnd(s: string): (r: string)
    ensures |r| <= |s| && r == s[..|r|]
    ensures r == [] || !IsJsSpace(r[|r| - 1])
  {
    if s != [] && IsJsSpace(s[|s| - 1]) then TrimEnd(s[..|s| - 1]) else s
  }

  /** `s.trim()` */
  function Trim(s: string): string { TrimEnd(TrimStart(s)) }

  /**
   * `toLowerCase` on one character: ASCII letters and the basic Cyrillic
   * capitals U+0400..U+042F (the alphabet of the names this system shows).
   */
  function LowerChar(c: char): char {
    if 'A' <= c <= 'Z' then (c as int + 32) as char
    else if '\U{0410}' <= c <= '\U{042F}' then (c as int + 32) as char
    else if '\U{0400}' <= c <= '\U{040F}' then (c as int + 80) as char
    else c
  }

  function UpperChar(c: char): char {
    if 'a' <= c <= 'z' then (c as int - 32) as char
    else if '\U{0430}' <= c <= '\U{044F}' then (c as int - 32) as char
    else if '\U{0450}' <= c <= '\U{045F}' then (c as int - 80) as char
    else c
  }

  function ToLower(s: string): (r: string)
    ensures |r| == |s| && forall i :: 0 <= i < |s| ==> r[i] == LowerChar(s[i])
  {
    if s == [] then [] else [LowerChar(s[0])] + ToLower(s[1..])
  }

  function ToUpper(s: string): (r: string)
    ensures |r| == |s| && forall i :: 0 <= i < |s| ==> r[i] == UpperChar(s[i])
  {
    if s == [] then [] else [UpperChar(s[0])] + ToUpper(s[1..])
  }

  /** `parts.join(sep)` */
  function Join(sep: string, parts: seq<string>): string {
    if parts == [] then ""
    else if |parts| == 1 then parts[0]
    else parts[0] + sep + Join(sep, parts[1..])
  }

  /** A join starts with its first part. */
  lemma JoinFirst(sep: string, parts: seq<string>)
    requires parts != []
    ensures StartsWith(Join(sep, parts), parts[0])
  {
    if |parts| > 1 {
      assert Join(sep, parts) == parts[0] + (sep + Join(sep, parts[1..]));
    }
  }

  /** A join of two or more parts ends with the separator and the last part. */
  lemma {:induction false} JoinLast(sep: string, parts: seq<string>)
    requires |parts| >= 2
    ensures EndsWith(Join(sep, parts), sep + parts[|parts| - 1])
  {
    var rest := parts[1..];
    assert rest[|rest| - 1] == parts[|parts| - 1];
    if |rest| == 1 {
      assert Join(sep, parts) == parts[0] + (sep + rest[0]);
    } else {
      JoinLast(sep, rest);
      assert Join(sep, parts) == parts[0] + sep + Join(sep, rest);
    }
  }

  /** What a string contains, any string ending with it contains. */
  lemma ContainsInSuffix(a: string, b: string, sub: string)
    requires Contains(b, sub)
    ensures Contains(a + b, sub)
  {
    var i := IndexOf(b, sub);
    assert (a + b)[|a| + i..|a| + i + |sub|] == b[i..i + |sub|];
    assert MatchAt(a + b, sub, |a| + i);
    ContainsIffMatch(a + b, sub);
  }

  /** Every part after the first appears in the join right after a separator. */
  lemma {:induction false} JoinHasPart(sep: string, parts: seq<string>, i: nat)
    requires 0 < i < |parts|
    ensures Contains(Join(sep, parts), sep + parts[i])
  {
    var rest := Join(sep, parts[1..]);
    var whole := Join(sep, parts);
    assert whole == (parts[0] + sep) + rest;
    if i == 1 {
      JoinFirst(sep, parts[1..]);
      var at := |parts[0]|;
      assert whole[at..at + |sep| + |parts[1]|] == sep + parts[1] by {
        assert whole[at..at + |sep|] == sep;
        assert whole[at + |sep|..at + |sep| + |parts[1]|] == rest[..|parts[1]|];
      }
      assert MatchAt(whole, sep + parts[1], at);
      ContainsIffMatch(whole, sep + parts[1]);
    } else {
      JoinHasPart(sep, parts[1..], i - 1);
      ContainsInSuffix(parts[0] + sep, rest, sep + parts[i]);
    }
  }

  /** `s.split(c)` for a single-character separator. */
  function Split(s: string, c: char): (r: seq<string>)
    ensures |r| >= 1
    ensures forall k :: 0 <= k < |r| ==> c !in r[k]
    decreases |s|
  {
    var i := IndexOf(s, [c]);
    if i == -1 then
      assert forall j :: 0 <= j < |s| ==> !MatchAt(s, [c], j);
      assert forall j :: 0 <= j < |s| ==> s[j] != c by {
        forall j | 0 <= j < |s| ensures s[j] != c {
          assert !MatchAt(s, [c], j);
          assert s[j..j + 1] == [s[j]];
        }
      }
      [s]
    else
      assert s[i..i + 1] == [c];
      assert forall j :: 0 <= j < i ==> s[j] != c by {
        forall j | 0 <= j < i ensures s[j] != c {
          assert !MatchAt(s, [c], j);
          assert s[j..j + 1] == [s[j]];
        }
      }
      [s[..i]] + Split(s[i + 1..], c)
  }

  /** A string without `c` splits into itself alone. */
  lemma SplitWhole(s: string, c: char)
    requires c !in s
    ensures Split(s, c) == [s]
  {
    forall j | 0 <= j < |s| ensures !MatchAt(s, [c], j) {
      assert s[j..j + 1] == [s[j]];
    }
  }

  /** The first part of a split is the text before the first separator. */
  lemma SplitAtFirst(a: string, c: char, b: string)
    requires c !in a
    ensures Split(a + [c] + b, c) == [a] + Split(b, c)
  {
    var s := a + [c] + b;
    assert MatchAt(s, [c], |a|) by {
      assert s[|a|..|a| + 1] == [c];
    }
    forall j | 0 <= j < |a| ensures !MatchAt(s, [c], j) {
      assert s[j] == a[j];
      assert s[j..j + 1] == [s[j]];
    }
    assert IndexOf(s, [c]) == |a|;
    assert s[..|a|] == a && s[|a| + 1..] == b;
  }

  /** Splitting on `c` and joining with `c` gives the string back. */
  lemma {:induction false} SplitJoin(s: string, c: char)
    ensures Join([c], Split(s, c)) == s
    decreases |s|
  {
    var i := IndexOf(s, [c]);
    if i != -1 {
      var rest := s[i + 1..];
      assert s[i..i + 1] == [c];
      SplitJoin(rest, c);
      assert Split(s, c) == [s[..i]] + Split(rest, c);
      JoinCons([c], s[..i], Split(rest, c));
      assert s == s[..i] + [c] + rest;
    } else {
      assert Split(s, c) == [s];
    }
  }

  /** Joining a part in front of more parts puts it and the separator in front. */
  lemma JoinCons(sep: string, a: string, parts: seq<string>)
    requires parts != []
    ensures Join(sep, [a] + parts) == a + sep + Join(sep, parts)
  {
    assert ([a] + parts)[1..] == parts;
  }

  function DigitChar(d: nat): char
    requires d < 10
  {
    "0123456789"[d]
  }

  /** `String(n)` for a non-negative integer. */
  function NatToString(n: nat): (r: string)
    ensures 1 <= |r| && forall i :: 0 <= i < |r| ==> IsAsciiDigit(r[i])
    ensures n < 10 <==> |r| == 1
  {
    if n < 10 then [DigitChar(n)] else NatToString(n / 10) + [DigitChar(n % 10)]
  }

  lemma {:induction false} NatToStringLength(n: nat, k: nat)
    requires Pow10(k) <= n < Pow10(k + 1)
    ensures |NatToString(n)| == k + 1
  {
    if k > 0 {
      NatToStringLength(n / 10, k - 1);
    }
  }

  function Pow10(k: nat): (r: nat)
    ensures r >= 1
  {
    if k == 0 then 1 else 10 * Pow10(k - 1)
  }

  /** `String(n)` for any integer. */
  function IntToString(n: int): string {
    if n < 0 then "-" + NatToString(-n) else NatToString(n)
  }

  /** `s.padStart(2, "0")` */
  function PadStart2(s: string): (r: string)
    ensures |r| == if |s| >= 2 then |s| else 2
    ensures |s| >= 2 ==> r == s
    ensures r[|r| - |s|..] == s
  {
    if |s| >= 2 then s else if |s| == 1 then "0" + s else "00"
  }

  /** JavaScript's `a < b` on strings: lexicographic order of the characters. */
  predicate Less(a: string, b: string) {
    if a == [] then b != []
    else if b == [] then false
    else if a[0] != b[0] then a[0] < b[0]
    else Less(a[1..], b[1..])
  }

  lemma {:induction false} LessIrreflexive(a: string)
    ensures !Less(a, a)
  {
    if a != [] {
      LessIrreflexive(a[1..]);
    }
  }

  lemma {:induction false} LessTransitive(a: string, b: string, c: string)
    requires Less(a, b) && Less(b, c)
    ensures Less(a, c)
  {
    if a != [] && b != [] && c != [] && a[0] == b[0] && b[0] == c[0] {
      LessTransitive(a[1..], b[1..], c[1..]);
    }
  }

  lemma {:induction false} LessTotal(a: string, b: string)
    requires a != b
    ensures Less(a, b) || Less(b, a)
  {
    if a != [] && b != [] && a[0] == b[0] {
      assert a == [a[0]] + a[1..] && b == [b[0]] + b[1..];
      LessTotal(a[1..], b[1..]);
    }
  }

  lemma {:induction false} LessAsymmetric(a: string, b: string)
    ensures Less(a, b) ==> !Less(b, a)
  {
    if a != [] && b != [] && a[0] == b[0] {
      LessAsymmetric(a[1..], b[1..]);
    }
  }
}
