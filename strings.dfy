/** The few Foundation string services the commands use, on strings as sequences
    of characters. */
module Strings {

  /** `URL(fileURLWithPath: path).lastPathComponent` for a path that does not end
      in '/': the longest suffix without a '/'. */
  function LastPathComponent(path: string): (r: string)
    ensures '/' !in r
    ensures |r| <= |path| && r == path[|path| - |r|..]
    ensures |r| < |path| ==> path[|path| - |r| - 1] == '/'
  {
    if |path| == 0 || path[|path| - 1] == '/' then ""
    else LastPathComponent(path[..|path| - 1]) + [path[|path| - 1]]
  }

  /** `s.hasSuffix(suffix)` */
  predicate HasSuffix(s: string, suffix: string) {
    |suffix| <= |s| && s[|s| - |suffix|..] == suffix
  }

  predicate OccursAt(s: string, needle: string, i: nat) {
    i + |needle| <= |s| && s[i..i + |needle|] == needle
  }

  /** `s.contains(needle)`, read as plain substring search. */
  predicate Contains(s: string, needle: string) {
    exists i: nat | i <= |s| :: OccursAt(s, needle, i)
  }

  /** No string contains a longer one. */
  lemma ContainsBounds(s: string, needle: string)
    ensures Contains(s, needle) ==> |needle| <= |s|
  {
    if Contains(s, needle) {
      var i: nat :| i <= |s| && OccursAt(s, needle, i);
    }
  }

  function LowerChar(c: char): char {
    if 'A' <= c <= 'Z' then (c as int - 'A' as int + 'a' as int) as char else c
  }

  /** `lowercased()`, for the ASCII letters. */
  function Lower(s: string): (r: string)
    ensures |r| == |s|
    ensures forall i :: 0 <= i < |s| ==> r[i] == LowerChar(s[i])
  {
    seq(|s|, i requires 0 <= i < |s| => LowerChar(s[i]))
  }

  /** Lexicographic order on strings, character by character: `!(b < a)` for Swift's `<`. */
  predicate NotAfter(a: string, b: string) {
    if |a| == 0 then true
    else if |b| == 0 then false
    else if a[0] != b[0] then a[0] < b[0]
    else NotAfter(a[1..], b[1..])
  }

  lemma {:induction false} NotAfterTotal(a: string, b: string)
    ensures NotAfter(a, b) || NotAfter(b, a)
  {
    if |a| > 0 && |b| > 0 && a[0] == b[0] {
      NotAfterTotal(a[1..], b[1..]);
    }
  }

  lemma {:induction false} NotAfterTransitive(a: string, b: string, c: string)
    requires NotAfter(a, b) && NotAfter(b, c)
    ensures NotAfter(a, c)
  {
    if |a| > 0 && |b| > 0 && |c| > 0 && a[0] == b[0] && b[0] == c[0] {
      NotAfterTransitive(a[1..], b[1..], c[1..]);
    }
  }
}
