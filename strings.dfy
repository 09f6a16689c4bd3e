/** The Python string operations the core relies on, with their CPython
    behaviour written out: `rfind`, `split`/`join`, `replace`, `strip`,
    `str(int)` and the `{n:0Wd}` format. */
module Strings {

  /** `s.rfind(c)`: the index of the last occurrence of `c`, or -1. */
  function LastIndexOf(s: string, c: char): (r: int)
    ensures -1 <= r < |s|
    ensures r == -1 <==> c !in s
  {
    if |s| == 0 then -1
    else if s[|s| - 1] == c then |s| - 1
    else LastIndexOf(s[..|s| - 1], c)
  }

  /** What `rfind` answers when `c` occurs: a position holding `c` with no
      `c` after it. */
  lemma {:induction false} LastIndexOfMeaning(s: string, c: char)
    ensures var r := LastIndexOf(s, c);
            r >= 0 ==> s[r] == c && forall k :: r < k < |s| ==> s[k] != c
    decreases |s|
  {
    if |s| > 0 && s[|s| - 1] != c {
      var init := s[..|s| - 1];
      LastIndexOfMeaning(init, c);
      assert s == init + [s[|s| - 1]];
    }
  }

  predicate EndsWith(s: string, suffix: string) {
    |suffix| <= |s| && s[|s| - |suffix|..] == suffix
  }

  predicate StartsWith(s: string, prefix: string) {
    |prefix| <= |s| && s[..|prefix|] == prefix
  }

  /** `s.split(sep)` for a one-character separator: always at least one part,
      and empty parts are kept ("a__b" gives "a", "", "b"). */
  function Split(s: string, sep: char): (parts: seq<string>)
    ensures |parts| >= 1
    ensures |parts| == 1 <==> sep !in s
  {
    if |s| == 0 then [""]
    else if s[0] == sep then [""] + Split(s[1..], sep)
    else
      var p := Split(s[1..], sep);
      [[s[0]] + p[0]] + p[1..]
  }

  /** No part holds the separator. */
  lemma {:induction false} SplitParts(s: string, sep: char)
    ensures forall i :: 0 <= i < |Split(s, sep)| ==> sep !in Split(s, sep)[i]
    decreases |s|
  {
    if |s| > 0 {
      var rest := s[1..];
      var p := Split(rest, sep);
      SplitParts(rest, sep);
      var parts := Split(s, sep);
      forall i | 0 <= i < |parts| ensures sep !in parts[i] {
        if s[0] == sep {
          if i > 0 {
            assert parts[i] == p[i - 1];
          }
        } else if i == 0 {
          assert parts[0] == [s[0]] + p[0];
          assert sep !in p[0];
        } else {
          assert parts[i] == p[i];
        }
      }
    }
  }

  /** `sep.join(parts)`. */
  function Join(sep: string, parts: seq<string>): string {
    if |parts| == 0 then ""
    else if |parts| == 1 then parts[0]
    else parts[0] + sep + Join(sep, parts[1..])
  }

  lemma {:induction false} JoinConsHead(sep: string, c: char, parts: seq<string>)
    requires |parts| >= 1
    ensures Join(sep, [[c] + parts[0]] + parts[1..]) == [c] + Join(sep, parts)
  {
    var q := [[c] + parts[0]] + parts[1..];
    if |parts| > 1 {
      assert q[1..] == parts[1..];
    }
  }

  /** Dropping the last part of a split and joining the rest back gives the
      text before the last separator. */
  lemma {:induction false} JoinAllButLast(s: string, sep: char)
    requires sep in s
    ensures var parts := Split(s, sep);
            Join([sep], parts[..|parts| - 1]) == s[..LastIndexOf(s, sep)]
  {
    var parts := Split(s, sep);
    var rest := s[1..];
    LastIndexRest(s, sep);
    if s[0] == sep {
      var p := Split(rest, sep);
      assert parts == [""] + p;
      if sep !in rest {
        assert parts[..|parts| - 1] == [""];
      } else {
        JoinAllButLast(rest, sep);
        assert parts[..|parts| - 1] == [""] + p[..|p| - 1];
        assert ([""] + p[..|p| - 1])[1..] == p[..|p| - 1];
        assert s[..LastIndexOf(s, sep)] == [sep] + rest[..LastIndexOf(rest, sep)];
      }
    } else {
      var p := Split(rest, sep);
      assert parts == [[s[0]] + p[0]] + p[1..];
      assert sep in rest;
      JoinAllButLast(rest, sep);
      var init := p[..|p| - 1];
      assert parts[..|parts| - 1] == [[s[0]] + init[0]] + init[1..];
      JoinConsHead([sep], s[0], init);
      assert s[..LastIndexOf(s, sep)] == [s[0]] + rest[..LastIndexOf(rest, sep)];
    }
  }

  lemma LastIndexRest(s: string, c: char)
    requires |s| > 0
    ensures c in s[1..] ==> LastIndexOf(s, c) == 1 + LastIndexOf(s[1..], c)
    ensures c !in s[1..] && s[0] == c ==> LastIndexOf(s, c) == 0
  {
    var r := LastIndexOf(s, c);
    LastIndexOfMeaning(s, c);
    LastIndexOfMeaning(s[1..], c);
    if c in s[1..] {
      var r' := LastIndexOf(s[1..], c);
      assert s[1 + r'] == c;
    }
  }

  /** `s.replace(target, replacement)` for a non-empty `target`: occurrences are replaced
      left to right without overlapping. */
  function Replace(s: string, target: string, replacement: string): string
    requires |target| > 0
    decreases |s|
  {
    if |s| < |target| then s
    else if s[..|target|] == target then replacement + Replace(s[|target|..], target, replacement)
    else [s[0]] + Replace(s[1..], target, replacement)
  }

  predicate OccursAt(s: string, part: string, i: int) {
    0 <= i <= |s| - |part| && s[i..i + |part|] == part
  }

  predicate Contains(s: string, part: string) {
    exists i :: 0 <= i <= |s| && OccursAt(s, part, i)
  }

  /** Without an occurrence of `target`, `replace` changes nothing. */
  lemma {:induction false} ReplaceAbsent(s: string, target: string, replacement: string)
    requires |target| > 0
    requires !Contains(s, target)
    ensures Replace(s, target, replacement) == s
    decreases |s|
  {
    if |s| >= |target| {
      assert !OccursAt(s, target, 0);
      assert s[0..|target|] == s[..|target|];
      forall i | OccursAt(s[1..], target, i) ensures false {
        assert s[i + 1..i + 1 + |target|] == s[1..][i..i + |target|];
        assert OccursAt(s, target, i + 1);
      }
      ReplaceAbsent(s[1..], target, replacement);
    }
  }

  /** A prefix without the target's first character is copied unchanged. */
  lemma {:induction false} ReplaceAfterPlainPrefix(a: string, rest: string, target: string, replacement: string)
    requires |target| > 0 && target[0] !in a
    ensures Replace(a + rest, target, replacement) == a + Replace(rest, target, replacement)
    decreases |a|
  {
    if |a| > 0 {
      var s := a + rest;
      assert s[0] == a[0] && s[1..] == a[1..] + rest;
      if |s| >= |target| {
        assert s[..|target|][0] != target[0];
      }
      ReplaceAfterPlainPrefix(a[1..], rest, target, replacement);
    } else {
      assert a + rest == rest;
    }
  }

  /** One occurrence between two stretches that cannot begin one is
      replaced, and nothing else changes. */
  lemma {:induction false} ReplaceSingle(before: string, target: string, after: string, replacement: string)
    requires |target| > 0 && target[0] !in before && target[0] !in after
    ensures Replace(before + target + after, target, replacement) == before + replacement + after
  {
    ReplaceAfterPlainPrefix(before, target + after, target, replacement);
    assert before + target + after == before + (target + after);
    assert (target + after)[..|target|] == target && (target + after)[|target|..] == after;
    ReplaceAfterPlainPrefix(after, [], target, replacement);
    assert after + [] == after;
  }

  /** The characters for which Python's `str.isspace()` is true. */
  predicate IsSpace(c: char) {
    c == ' ' || c == '\t' || c == '\n' || c == '\r' || c == '\U{0B}' || c == '\U{0C}'
    || ('\U{1C}' <= c <= '\U{1F}') || c == '\U{85}' || c == '\U{A0}' || c == '\U{1680}'
    || ('\U{2000}' <= c <= '\U{200A}') || c == '\U{2028}' || c == '\U{2029}'
    || c == '\U{202F}' || c == '\U{205F}' || c == '\U{3000}'
  }

  function StripLeft(s: string): (r: string)
    ensures |r| <= |s| && r == s[|s| - |r|..]
    ensures r == [] || !IsSpace(r[0])
    ensures forall k :: 0 <= k < |s| - |r| ==> IsSpace(s[k])
  {
    if s != [] && IsSpace(s[0]) then StripLeft(s[1..]) else s
  }

  function StripRight(s: string): (r: string)
    ensures |r| <= |s| && r == s[..|r|]
    ensures r == [] || !IsSpace(r[|r| - 1])
    ensures forall k :: |r| <= k < |s| ==> IsSpace(s[k])
  {
    if s != [] && IsSpace(s[|s| - 1]) then StripRight(s[..|s| - 1]) else s
  }

  /** `s.strip()`: leading and trailing whitespace removed. */
  function Strip(s: string): (r: string)
    ensures r == [] || (!IsSpace(r[0]) && !IsSpace(r[|r| - 1]))
    ensures (s == [] || (!IsSpace(s[0]) && !IsSpace(s[|s| - 1]))) ==> r == s
  {
    StripRight(StripLeft(s))
  }

  function DigitChar(d: nat): char
    requires d < 10
  {
    ('0' as int + d) as char
  }

  /** `str(n)` for a natural number: decimal, no leading zeros. */
  function NatToString(n: nat): (r: string)
    ensures |r| >= 1
    ensures forall k :: 0 <= k < |r| ==> '0' <= r[k] <= '9'
    decreases n
  {
    if n < 10 then [DigitChar(n)] else NatToString(n / 10) + [DigitChar(n % 10)]
  }

  /** `str(n)` for any integer. */
  function IntToString(n: int): string {
    var magnitude: nat := if n < 0 then -n else n;
    (if n < 0 then "-" else "") + NatToString(magnitude)
  }

  /** Left-pads with '0' up to `width` characters. */
  function ZeroPad(s: string, width: int): (r: string)
    ensures |r| == if width > |s| then width else |s|
    ensures EndsWith(r, s)
    decreases width - |s|
  {
    if width > |s| then ZeroPad("0" + s, width) else s
  }

  /** Python's `f"{n:0{width}d}"`: the zero fill goes after the sign and the
      width counts the sign (`f"{-5:04d}"` is "-005"). */
  function FormatZeroPadded(n: int, width: nat): string {
    var magnitude: nat := if n < 0 then -n else n;
    var sign := if n < 0 then "-" else "";
    sign + ZeroPad(NatToString(magnitude), width - |sign|)
  }

  /** ASCII lower-casing. */
  function LowerChar(c: char): char {
    if 'A' <= c <= 'Z' then (c as int + 32) as char else c
  }

  function Lower(s: string): (r: string)
    ensures |r| == |s|
    ensures forall k :: 0 <= k < |s| ==> r[k] == LowerChar(s[k])
  {
    if |s| == 0 then [] else [LowerChar(s[0])] + Lower(s[1..])
  }
}
