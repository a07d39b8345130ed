/** The few JavaScript string operations the dispatcher uses. JavaScript
    strings are UTF-16 code units; here they are Dafny `char`s, which are
    Unicode scalar values, so a lone surrogate code unit is not
    representable. */
module JsString {

  /** `s.substr(start)` for a non-negative `start`: the suffix from `start`,
      or "" when `start` is past the end. */
  function SubstrFrom(s: string, start: nat): (r: string)
    ensures start <= |s| ==> s == s[..start] + r
    ensures start >= |s| ==> r == ""
  {
    if start <= |s| then s[start..] else ""
  }

  /** `s.substr(0, length)`: the first `length` code units of `s`, all of `s`
      when it is shorter, and "" for a length that is not positive. */
  function SubstrTo(s: string, length: int): (r: string)
    ensures r <= s
    ensures |r| == if length <= 0 then 0 else if length <= |s| then length else |s|
  {
    if length <= 0 then "" else if length <= |s| then s[..length] else s
  }

  /** `pat` occurs in `s` at position `j`. */
  predicate OccursAt(s: string, pat: string, j: nat) {
    j + |pat| <= |s| && s[j..j + |pat|] == pat
  }

  /** `s.indexOf(pat, from)` for a non-empty `pat`: the first position at or
      after `from` where `pat` occurs, or -1 when there is none. */
  function IndexOf(s: string, pat: string, from: nat): (r: int)
    requires pat != ""
    ensures r == -1 || (from <= r && OccursAt(s, pat, r))
    ensures forall j: nat :: from <= j && (r == -1 || j < r) ==> !OccursAt(s, pat, j)
    decreases |s| - from
  {
    if from + |pat| > |s| then -1
    else if s[from..from + |pat|] == pat then from
    else IndexOf(s, pat, from + 1)
  }

  /** A single code unit occurs at `j` exactly when `s[j]` is that unit. */
  lemma OccursAtUnit(s: string, c: char, j: nat)
    ensures OccursAt(s, [c], j) <==> j < |s| && s[j] == c
  {
    if j < |s| {
      assert s[j..j + 1] == [s[j]];
    }
  }

  /** `toLowerCase` on one code unit, for the ASCII letters only. */
  function LowerChar(c: char): char {
    if 'A' <= c <= 'Z' then (c as int + 32) as char else c
  }

  /** `s.toLowerCase()`, restricted to ASCII case mapping (so the length is kept). */
  function Lower(s: string): (r: string)
    ensures |r| == |s|
    ensures forall i :: 0 <= i < |s| ==> r[i] == LowerChar(s[i])
  {
    seq(|s|, i requires 0 <= i < |s| => LowerChar(s[i]))
  }

  /** Lower-casing leaves exactly the non-letters alone: a character lower-cases
      to '/', '.' or '?' only when it is that character. */
  lemma LowerCharFixesPunctuation(c: char)
    ensures LowerChar(c) == '/' <==> c == '/'
    ensures LowerChar(c) == '.' <==> c == '.'
    ensures LowerChar(c) == '?' <==> c == '?'
  {
  }

  /** Lower-casing commutes with concatenation and slicing. */
  lemma LowerAppend(a: string, b: string)
    ensures Lower(a + b) == Lower(a) + Lower(b)
  {
  }

  lemma LowerSlice(s: string, i: nat, j: nat)
    requires i <= j <= |s|
    ensures Lower(s[i..j]) == Lower(s)[i..j]
  {
  }
}
