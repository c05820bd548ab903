/** The string operations the application relies on, restricted to ASCII:
    `toUpperCase`, `toLowerCase`, `includes`, `trim() === ''`,
    `replace(c, d)` with a one-character pattern and `split(' ')[0]`. */
module Text {

  function UpperChar(c: char): char {
    if 'a' <= c <= 'z' then (c as int - 32) as char else c
  }

  function LowerChar(c: char): char {
    if 'A' <= c <= 'Z' then (c as int + 32) as char else c
  }

  function Upper(s: string): (r: string)
    ensures |r| == |s|
    ensures forall i :: 0 <= i < |s| ==> r[i] == UpperChar(s[i])
  {
    seq(|s|, i requires 0 <= i < |s| => UpperChar(s[i]))
  }

  function Lower(s: string): (r: string)
    ensures |r| == |s|
    ensures forall i :: 0 <= i < |s| ==> r[i] == LowerChar(s[i])
  {
    seq(|s|, i requires 0 <= i < |s| => LowerChar(s[i]))
  }

  predicate IsPrefix(p: string, s: string) {
    |p| <= |s| && s[..|p|] == p
  }

  /** `s.includes(sub)`. */
  predicate Contains(s: string, sub: string)
    decreases |s|
  {
    IsPrefix(sub, s) || (s != [] && Contains(s[1..], sub))
  }

  /** Every string contains the empty string, so an empty search term
      matches everything. */
  lemma ContainsEmpty(s: string)
    ensures Contains(s, "")
  {
  }

  /** The characters that `String.prototype.trim` removes: tab, vertical
      tab, form feed, the byte order mark, the four line terminators and
      every space separator (general category Zs). */
  predicate IsWhitespace(c: char) {
    || c == '\t' || c == '\U{000B}' || c == '\U{000C}' || c == '\U{FEFF}'
    || c == '\n' || c == '\r' || c == '\U{2028}' || c == '\U{2029}'
    || c == ' ' || c == '\U{00A0}' || c == '\U{1680}' || ('\U{2000}' <= c <= '\U{200A}')
    || c == '\U{202F}' || c == '\U{205F}' || c == '\U{3000}'
  }

  /** `s.trim() === ''`, which holds for the empty string too. */
  predicate IsBlank(s: string) {
    forall i :: 0 <= i < |s| ==> IsWhitespace(s[i])
  }

  /** `s.replace(from, to)` with single-character strings: only the first
      occurrence is replaced. */
  function ReplaceFirst(s: string, from: char, to: char): (r: string)
    ensures |r| == |s|
    decreases |s|
  {
    if s == [] then []
    else if s[0] == from then [to] + s[1..]
    else [s[0]] + ReplaceFirst(s[1..], from, to)
  }

  /** The first occurrence is the one replaced; what precedes it and all
      that follows it, later occurrences included, is kept. */
  lemma {:induction false} ReplaceFirstAt(head: string, from: char, to: char, tail: string)
    requires from !in head
    ensures ReplaceFirst(head + [from] + tail, from, to) == head + [to] + tail
    decreases |head|
  {
    if head != [] {
      assert (head + [from] + tail)[1..] == head[1..] + [from] + tail;
      assert from !in head[1..] by {
        forall k | 0 <= k < |head[1..]|
          ensures head[1..][k] != from
        {
          assert head[1..][k] == head[k + 1];
        }
      }
      ReplaceFirstAt(head[1..], from, to, tail);
      assert head + [to] + tail == [head[0]] + (head[1..] + [to] + tail);
    }
  }

  /** Without an occurrence nothing is replaced. */
  lemma {:induction false} ReplaceFirstAbsent(s: string, from: char, to: char)
    requires from !in s
    ensures ReplaceFirst(s, from, to) == s
    decreases |s|
  {
    if s != [] {
      assert from !in s[1..] by {
        forall k | 0 <= k < |s[1..]|
          ensures s[1..][k] != from
        {
          assert s[1..][k] == s[k + 1];
        }
      }
      ReplaceFirstAbsent(s[1..], from, to);
      assert s == [s[0]] + s[1..];
    }
  }

  /** `s.split(' ')[0]`: everything before the first space. */
  function FirstToken(s: string): (r: string)
    ensures IsPrefix(r, s)
    ensures ' ' !in r
    ensures |r| < |s| ==> s[|r|] == ' '
    decreases |s|
  {
    if s == [] || s[0] == ' ' then [] else [s[0]] + FirstToken(s[1..])
  }

  /** `s.substring(0, n)`. */
  function Substring(s: string, n: nat): (r: string)
    ensures IsPrefix(r, s) && |r| <= n
  {
    if |s| <= n then s else s[..n]
  }
}
