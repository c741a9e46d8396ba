/**
 * The few pieces of Python string and POSIX path behaviour the embedding
 * loader relies on: `str.split(sep)` with an explicit separator, `str.isspace`,
 * `os.path.basename` and `os.path.join` for two components.
 */
module Strings {

  /** Number of occurrences of `c` in `s`. */
  function Count(s: string, c: char): nat
  {
    if s == [] then 0 else (if s[0] == c then 1 else 0) + Count(s[1..], c)
  }

  /**
   * `s.split(sep)` for a single-character separator: every occurrence of the
   * separator splits, empty pieces are kept, and `"".split(sep) == [""]`.
   */
  function Split(s: string, sep: char): (parts: seq<string>)
    ensures |parts| == Count(s, sep) + 1
    ensures forall i :: 0 <= i < |parts| ==> sep !in parts[i]
    ensures |parts[0]| <= |s| && s[..|parts[0]|] == parts[0]
    ensures |parts[0]| < |s| ==> s[|parts[0]|] == sep
    decreases |s|
  {
    if s == [] then [[]]
    else if s[0] == sep then [[]] + Split(s[1..], sep)
    else
      var rest := Split(s[1..], sep);
      assert s[..|rest[0]| + 1] == [s[0]] + s[1..][..|rest[0]|];
      [[s[0]] + rest[0]] + rest[1..]
  }

  /** `sep.join(parts)`. */
  function JoinWith(parts: seq<string>, sep: char): string
    requires |parts| >= 1
  {
    if |parts| == 1 then parts[0] else parts[0] + [sep] + JoinWith(parts[1..], sep)
  }

  /** Splitting loses nothing: joining the pieces with the separator gives back the string. */
  lemma {:induction false} JoinSplit(s: string, sep: char)
    ensures JoinWith(Split(s, sep), sep) == s
    decreases |s|
  {
    if s == [] {
    } else if s[0] == sep {
      JoinSplit(s[1..], sep);
      assert Split(s, sep)[1..] == Split(s[1..], sep);
      assert s == [] + [sep] + s[1..];
    } else {
      var rest := Split(s[1..], sep);
      JoinSplit(s[1..], sep);
      var parts := Split(s, sep);
      assert parts[1..] == rest[1..];
      if |rest| == 1 {
        assert parts == [[s[0]] + rest[0]];
      } else {
        assert JoinWith(rest, sep) == rest[0] + [sep] + JoinWith(rest[1..], sep);
      }
    }
  }

  /**
   * Python's `str.isspace` on one character: the characters of bidirectional
   * class WS, B or S and those of general category Zs.
   */
  predicate IsSpace(c: char)
  {
    || c == ' ' || c == '\t' || c == '\n' || c == '\r' || c == '\U{000B}' || c == '\U{000C}'
    || ('\U{001C}' <= c <= '\U{001F}') || c == '\U{0085}' || c == '\U{00A0}' || c == '\U{1680}'
    || ('\U{2000}' <= c <= '\U{200A}') || c == '\U{2028}' || c == '\U{2029}' || c == '\U{202F}'
    || c == '\U{205F}' || c == '\U{3000}'
  }

  /** `s.isspace()`: true only for a non-empty string made entirely of whitespace. */
  predicate IsSpaceString(s: string): (b: bool)
    ensures b <==> |s| > 0 && forall i :: 0 <= i < |s| ==> IsSpace(s[i])
  {
    if s == [] then false
    else IsSpace(s[0]) && (|s| == 1 || IsSpaceString(s[1..]))
  }

  /** Index one past the last `'/'` in `p`, or 0 when there is none (`p.rfind('/') + 1`). */
  function AfterLastSlash(p: string): (i: nat)
    ensures i <= |p|
    ensures i > 0 ==> p[i - 1] == '/'
    ensures forall j :: i <= j < |p| ==> p[j] != '/'
  {
    if p == [] then 0
    else if p[|p| - 1] == '/' then |p|
    else AfterLastSlash(p[..|p| - 1])
  }

  /** `os.path.basename(p)`: what follows the last `'/'`. */
  function Basename(p: string): (name: string)
    ensures |name| <= |p| && p[|p| - |name|..] == name
    ensures '/' !in name
    ensures |name| < |p| ==> p[|p| - |name| - 1] == '/'
  {
    p[AfterLastSlash(p)..]
  }

  /** `os.path.dirname(p)` with its trailing separator kept. */
  function DirPrefix(p: string): string
  {
    p[..AfterLastSlash(p)]
  }

  /**
   * The base name is the slash-free tail of the path, and the rest is empty
   * or ends at a separator.
   */
  lemma BasenameSplitsPath(p: string)
    ensures DirPrefix(p) + Basename(p) == p
    ensures '/' !in Basename(p)
    ensures DirPrefix(p) == [] || DirPrefix(p)[|DirPrefix(p)| - 1] == '/'
  {
    var i := AfterLastSlash(p);
    assert p[..i] + p[i..] == p;
  }

  /**
   * `os.path.join(a, b)` for POSIX paths: an absolute `b` replaces `a`; a
   * separator is inserted unless `a` is empty or already ends with one.
   */
  function PathJoin(a: string, b: string): (r: string)
    ensures |b| > 0 && b[0] == '/' ==> r == b
    ensures !(|b| > 0 && b[0] == '/') && (a == [] || a[|a| - 1] == '/') ==> r == a + b
    ensures !(|b| > 0 && b[0] == '/') && a != [] && a[|a| - 1] != '/' ==> r == a + "/" + b
    ensures |r| >= |b| && r[|r| - |b|..] == b
  {
    if |b| > 0 && b[0] == '/' then b
    else if a == [] || a[|a| - 1] == '/' then a + b
    else a + "/" + b
  }
}
