/**
 The few string primitives the log page relies on: the global backslash
 replacement used to canonicalise image paths, lower-casing, and substring
 search (`String.prototype.includes`).
 */
module Strings {

  /** `p.replace(/\\/g, '/')`: every backslash becomes a forward slash. */
  function ReplaceBackslashes(p: string): (r: string)
    ensures |r| == |p|
    ensures forall i :: 0 <= i < |p| ==> r[i] == (if p[i] == '\\' then '/' else p[i])
    ensures '\\' !in r
  {
    if p == [] then []
    else [if p[0] == '\\' then '/' else p[0]] + ReplaceBackslashes(p[1..])
  }

  /** A string that already uses forward slashes only is left as it is. */
  lemma ReplaceBackslashesFixedPoint(p: string)
    requires '\\' !in p
    ensures ReplaceBackslashes(p) == p
  {
  }

  /** Replacing twice is the same as replacing once. */
  lemma ReplaceBackslashesIdempotent(p: string)
    ensures ReplaceBackslashes(ReplaceBackslashes(p)) == ReplaceBackslashes(p)
  {
  }

  /** Lower-casing of one character (ASCII letters only). */
  function LowerChar(c: char): char
  {
    if 'A' <= c <= 'Z' then (c as int + 32) as char else c
  }

  /** `s.toLowerCase()`, restricted to ASCII letters. */
  function ToLower(s: string): (r: string)
    ensures |r| == |s|
    ensures forall i :: 0 <= i < |s| ==> r[i] == LowerChar(s[i])
  {
    if s == [] then [] else [LowerChar(s[0])] + ToLower(s[1..])
  }

  /** `t` occurs in `s` starting at index `i`. */
  ghost predicate OccursAt(s: string, t: string, i: int)
  {
    0 <= i && i + |t| <= |s| && s[i..i + |t|] == t
  }

  /** An occurrence in `s` at a positive index is an occurrence in `s[1..]` one index earlier. */
  lemma OccursAtShift(s: string, t: string)
    requires s != []
    ensures (exists i :: OccursAt(s, t, i)) <==> OccursAt(s, t, 0) || exists j :: OccursAt(s[1..], t, j)
  {
    forall i | OccursAt(s, t, i) && i > 0
      ensures OccursAt(s[1..], t, i - 1)
    {
      assert s[1..][i - 1..i - 1 + |t|] == s[i..i + |t|];
    }
    forall j | OccursAt(s[1..], t, j)
      ensures OccursAt(s, t, j + 1)
    {
      assert s[1..][j..j + |t|] == s[j + 1..j + 1 + |t|];
    }
  }

  /** `s.includes(t)`: true exactly when `t` occurs somewhere in `s`
      (so the empty string is found in every string). */
  function Contains(s: string, t: string): (r: bool)
    ensures r <==> exists i :: OccursAt(s, t, i)
    decreases |s|
  {
    if |t| <= |s| && s[..|t|] == t then
      assert OccursAt(s, t, 0);
      true
    else if s == [] then
      assert forall i :: !OccursAt(s, t, i);
      false
    else
      OccursAtShift(s, t);
      Contains(s[1..], t)
  }

  /** Every string contains the empty string. */
  lemma ContainsEmpty(s: string)
    ensures Contains(s, "")
  {
  }
}
