/**
  String operations of the JavaScript runtime that the modelled code relies
  on: `includes`, `indexOf`, `lastIndexOf`, `startsWith`/`endsWith`,
  `split`/`join` on one separator character, the decimal rendering of
  integers, and the regular-expression class `\s`.
  Strings are sequences of Unicode scalar values.
*/
module Text {

  /** `p` occurs in `s` starting at index `i`. */
  predicate IsAt(s: string, p: string, i: nat) {
    i + |p| <= |s| && s[i..i + |p|] == p
  }

  predicate StartsWith(s: string, p: string) {
    |p| <= |s| && s[..|p|] == p
  }

  predicate EndsWith(s: string, p: string) {
    |p| <= |s| && s[|s| - |p|..] == p
  }

  /** `s.includes(p)` */
  predicate Contains(s: string, p: string) {
    exists i :: 0 <= i <= |s| - |p| && IsAt(s, p, i)
  }

  lemma ContainsAt(s: string, p: string, i: nat)
    requires IsAt(s, p, i)
    ensures Contains(s, p)
  {
  }

  /** A piece glued between two others is contained in the whole. */
  lemma ContainsMiddle(a: string, b: string, c: string)
    ensures IsAt(a + b + c, b, |a|)
    ensures Contains(a + b + c, b)
  {
    assert (a + b + c)[|a|..|a| + |b|] == b;
    ContainsAt(a + b + c, b, |a|);
  }

  lemma StartsWithContains(s: string, p: string)
    requires StartsWith(s, p)
    ensures Contains(s, p)
  {
    assert IsAt(s, p, 0);
  }

  lemma IsAtPrefix(s: string, pre: string, p: string, i: nat)
    requires StartsWith(s, pre) && IsAt(pre, p, i)
    ensures IsAt(s, p, i)
  {
    assert s[i..i + |p|] == pre[i..i + |p|];
  }

  lemma StartsWithTrans(s: string, p: string, q: string)
    requires StartsWith(s, p) && StartsWith(p, q)
    ensures StartsWith(s, q)
  {
    assert s[..|q|] == p[..|q|];
  }

  lemma StartsWithAppend(a: string, b: string)
    ensures StartsWith(a + b, a)
  {
    assert (a + b)[..|a|] == a;
  }

  lemma EndsWithAppend(a: string, b: string)
    ensures EndsWith(a + b, b)
  {
    assert (a + b)[|a|..] == b;
  }

  /** `s.indexOf(p, from)`: the first occurrence at or after `from`, or -1. */
  function IndexOf(s: string, p: string, from: nat): (r: int)
    ensures r == -1 || (from <= r && IsAt(s, p, r))
    ensures forall k :: from <= k && (r == -1 || k < r) ==> !IsAt(s, p, k)
    decreases |s| - from
  {
    if from + |p| > |s| then -1
    else if IsAt(s, p, from) then from
    else IndexOf(s, p, from + 1)
  }

  /** `s.lastIndexOf(c)` for a one-character pattern. */
  function LastIndexOf(s: string, c: char): (r: int)
    ensures -1 <= r < |s|
    ensures r >= 0 ==> s[r] == c
    ensures forall k :: r < k < |s| ==> s[k] != c
  {
    if |s| == 0 then -1
    else if s[|s| - 1] == c then |s| - 1
    else LastIndexOf(s[..|s| - 1], c)
  }

  /** `s.indexOf(c)` for a one-character pattern. */
  function FirstIndexOf(s: string, c: char): (r: int)
    ensures -1 <= r < |s|
    ensures r >= 0 ==> s[r] == c
    ensures forall k :: 0 <= k < |s| && (r == -1 || k < r) ==> s[k] != c
  {
    var i := IndexOf(s, [c], 0);
    assert forall k :: 0 <= k < |s| && (i == -1 || k < i) ==> !IsAt(s, [c], k);
    assert forall k :: 0 <= k < |s| ==> (IsAt(s, [c], k) <==> s[k] == c) by {
      forall k | 0 <= k < |s| ensures IsAt(s, [c], k) <==> s[k] == c {
        assert s[k..k + 1] == [s[k]];
      }
    }
    if i >= 0 then assert s[i..i + 1] == [s[i]]; i else i
  }

  /** The characters matched by `\s` in a JavaScript regular expression:
      the ECMAScript WhiteSpace and LineTerminator code points. */
  predicate IsJsWhitespace(c: char) {
    c == '\t' || c == '\n' || c == '\U{000B}' || c == '\U{000C}' || c == '\r' || c == ' ' ||
    c == '\U{00A0}' || c == '\U{1680}' || ('\U{2000}' <= c <= '\U{200A}') ||
    c == '\U{2028}' || c == '\U{2029}' || c == '\U{202F}' || c == '\U{205F}' ||
    c == '\U{3000}' || c == '\U{FEFF}'
  }

  predicate AllWhitespace(s: string, lo: nat, hi: nat)
    requires lo <= hi <= |s|
  {
    forall k :: lo <= k < hi ==> IsJsWhitespace(s[k])
  }

  /** The end of the longest run of whitespace starting at `i` (greedy `\s*`). */
  function SkipWhitespace(s: string, i: nat): (r: nat)
    requires i <= |s|
    ensures i <= r <= |s|
    ensures AllWhitespace(s, i, r)
    ensures r == |s| || !IsJsWhitespace(s[r])
    decreases |s| - i
  {
    if i == |s| || !IsJsWhitespace(s[i]) then i else SkipWhitespace(s, i + 1)
  }

  /** The start of the longest run of whitespace that ends at `hi` and does
      not reach below `lo`. */
  function TrimWhitespaceBack(s: string, lo: nat, hi: nat): (r: nat)
    requires lo <= hi <= |s|
    ensures lo <= r <= hi
    ensures AllWhitespace(s, r, hi)
    ensures r == lo || !IsJsWhitespace(s[r - 1])
    decreases hi - lo
  {
    if hi == lo || !IsJsWhitespace(s[hi - 1]) then hi else TrimWhitespaceBack(s, lo, hi - 1)
  }

  /** `parts.join(sep)` */
  function Join(parts: seq<string>, sep: string): (r: string)
  {
    if |parts| == 0 then ""
    else if |parts| == 1 then parts[0]
    else parts[0] + sep + Join(parts[1..], sep)
  }

  /** `s.split(sep)` for a one-character separator: the maximal pieces
      between separators, so there is always at least one piece. */
  function Split(s: string, sep: char): (parts: seq<string>)
    ensures |parts| >= 1
  {
    if |s| == 0 then [""]
    else
      var rest := Split(s[1..], sep);
      if s[0] == sep then [""] + rest
      else [[s[0]] + rest[0]] + rest[1..]
  }

  lemma {:induction false} SplitNoSeparator(s: string, sep: char)
    requires sep !in s
    ensures Split(s, sep) == [s]
  {
    if |s| > 0 {
      SplitNoSeparator(s[1..], sep);
      assert [s[0]] + s[1..] == s;
    }
  }

  lemma {:induction false} SplitAtSeparator(a: string, sep: char, b: string)
    requires sep !in a
    ensures Split(a + [sep] + b, sep) == [a] + Split(b, sep)
    decreases |a|
  {
    var s := a + [sep] + b;
    if |a| == 0 {
      assert s[0] == sep && s[1..] == b;
    } else {
      assert s[0] == a[0] && s[1..] == a[1..] + [sep] + b;
      SplitAtSeparator(a[1..], sep, b);
      assert [a[0]] + a[1..] == a;
    }
  }

  /** Splitting undoes joining when no piece contains the separator. */
  lemma {:induction false} SplitJoin(parts: seq<string>, sep: char)
    requires |parts| >= 1
    requires forall i :: 0 <= i < |parts| ==> sep !in parts[i]
    ensures Split(Join(parts, [sep]), sep) == parts
  {
    if |parts| == 1 {
      SplitNoSeparator(parts[0], sep);
    } else {
      SplitJoin(parts[1..], sep);
      SplitAtSeparator(parts[0], sep, Join(parts[1..], [sep]));
      assert [parts[0]] + parts[1..] == parts;
    }
  }

  /** Joining pieces that are free of a character with a separator free of
      it never introduces it. */
  lemma {:induction false} JoinFree(parts: seq<string>, sep: string, c: char)
    requires c !in sep
    requires forall i :: 0 <= i < |parts| ==> c !in parts[i]
    ensures c !in Join(parts, sep)
  {
    if |parts| > 1 {
      JoinFree(parts[1..], sep, c);
    }
  }

  lemma {:induction false} JoinStartsWithFirst(parts: seq<string>, sep: string)
    requires |parts| >= 1
    ensures StartsWith(Join(parts, sep), parts[0])
  {
    if |parts| > 1 {
      StartsWithAppend(parts[0], sep + Join(parts[1..], sep));
      assert parts[0] + sep + Join(parts[1..], sep) == parts[0] + (sep + Join(parts[1..], sep));
    }
  }

  /** Every part of a joined list occurs in the joined text. */
  lemma {:induction false} JoinContains(parts: seq<string>, sep: string, i: nat)
    requires i < |parts|
    ensures Contains(Join(parts, sep), parts[i])
  {
    var joined := Join(parts, sep);
    if i == 0 {
      JoinStartsWithFirst(parts, sep);
      ContainsAt(joined, parts[0], 0);
    } else {
      var rest := Join(parts[1..], sep);
      JoinContains(parts[1..], sep, i - 1);
      assert parts[1..][i - 1] == parts[i];
      var k :| 0 <= k <= |rest| - |parts[i]| && IsAt(rest, parts[i], k);
      var offset := |parts[0]| + |sep|;
      assert joined == (parts[0] + sep) + rest;
      assert joined[offset + k..offset + k + |parts[i]|] == rest[k..k + |parts[i]|];
      ContainsAt(joined, parts[i], offset + k);
    }
  }

  function DigitChar(d: nat): (c: char)
    requires d < 10
    ensures '0' <= c <= '9'
  {
    "0123456789"[d]
  }

  predicate IsDigits(s: string) {
    forall i :: 0 <= i < |s| ==> '0' <= s[i] <= '9'
  }

  /** The decimal rendering of a natural number, as `String(n)` gives it. */
  function NatToString(n: nat): (r: string)
    ensures |r| >= 1 && IsDigits(r)
    ensures |r| == 1 <==> n < 10
  {
    if n < 10 then [DigitChar(n)] else NatToString(n / 10) + [DigitChar(n % 10)]
  }

  /** The decimal rendering of an integer-valued number, as `${n}` gives it. */
  function IntToString(n: int): (r: string)
    ensures |r| >= 1
    ensures forall i :: 0 <= i < |r| ==> ('0' <= r[i] <= '9') || (i == 0 && r[i] == '-')
    ensures r[0] == '-' <==> n < 0
  {
    if n < 0 then "-" + NatToString(-n) else NatToString(n)
  }

  /** Number of occurrences of `c` in `s`. */
  function CountChar(s: string, c: char): nat {
    if |s| == 0 then 0 else CountChar(s[..|s| - 1], c) + (if s[|s| - 1] == c then 1 else 0)
  }

  lemma {:induction false} CountCharConcat(a: string, b: string, c: char)
    ensures CountChar(a + b, c) == CountChar(a, c) + CountChar(b, c)
    decreases |b|
  {
    if |b| > 0 {
      assert (a + b)[..|a + b| - 1] == a + b[..|b| - 1];
      CountCharConcat(a, b[..|b| - 1], c);
    } else {
      assert a + b == a;
    }
  }

  lemma {:induction false} CountCharAbsent(s: string, c: char)
    requires c !in s
    ensures CountChar(s, c) == 0
  {
    if |s| > 0 {
      assert c !in s[..|s| - 1];
      CountCharAbsent(s[..|s| - 1], c);
    }
  }
}
