/**
 * String helpers used by the column classifier and the file-name filters:
 * ASCII case mapping (`str.lower` / `str.upper`), substring search
 * (Python's `in` on strings), `str.endswith` and the position of the last
 * occurrence of a character (what `str.rsplit(c, 1)` splits at).
 */
module Text {
  import opened Base

  function LowerChar(c: char): char
  {
    if 'A' <= c <= 'Z' then (c as int + 32) as char else c
  }

  function UpperChar(c: char): char
  {
    if 'a' <= c <= 'z' then (c as int - 32) as char else c
  }

  /** `s.lower()`, on ASCII letters. */
  function Lower(s: string): (r: string)
    ensures |r| == |s|
    ensures forall i :: 0 <= i < |s| ==> r[i] == LowerChar(s[i])
  {
    seq(|s|, i requires 0 <= i < |s| => LowerChar(s[i]))
  }

  /** `s.upper()`, on ASCII letters. */
  function Upper(s: string): (r: string)
    ensures |r| == |s|
    ensures forall i :: 0 <= i < |s| ==> r[i] == UpperChar(s[i])
  {
    seq(|s|, i requires 0 <= i < |s| => UpperChar(s[i]))
  }

  /** Upper-casing forgets any earlier lower-casing, and the other way round. */
  lemma CaseFolding(s: string)
    ensures Upper(Lower(s)) == Upper(s)
    ensures Lower(Upper(s)) == Lower(s)
  {
    assert forall i :: 0 <= i < |s| ==> Upper(Lower(s))[i] == Upper(s)[i];
    assert forall i :: 0 <= i < |s| ==> Lower(Upper(s))[i] == Lower(s)[i];
  }

  /** `p` occurs in `s` starting at index `k`. */
  ghost predicate OccursAt(p: string, s: string, k: int)
  {
    0 <= k <= |s| - |p| && s[k..k + |p|] == p
  }

  /** `p` occurs in `s` at some position: the meaning of Python's `p in s`. */
  ghost predicate Occurs(p: string, s: string)
  {
    exists k :: OccursAt(p, s, k)
  }

  lemma OccursInTail(p: string, s: string)
    requires |p| <= |s| && s[..|p|] != p
    ensures Occurs(p, s) <==> Occurs(p, s[1..])
  {
    if Occurs(p, s) {
      var k :| OccursAt(p, s, k);
      assert k != 0;
      assert s[1..][k - 1..k - 1 + |p|] == s[k..k + |p|];
      assert OccursAt(p, s[1..], k - 1);
    }
    if Occurs(p, s[1..]) {
      var k :| OccursAt(p, s[1..], k);
      assert s[k + 1..k + 1 + |p|] == s[1..][k..k + |p|];
      assert OccursAt(p, s, k + 1);
    }
  }

  /** A pattern holding a character absent from `s` does not occur in it. */
  lemma AbsentCharNotOccurs(p: string, s: string, j: nat)
    requires j < |p| && p[j] !in s
    ensures !Occurs(p, s)
  {
  }

  /** Substring test, scanning `s` from the left. */
  function Contains(s: string, p: string): (r: bool)
    ensures r <==> Occurs(p, s)
    decreases |s|
  {
    if |s| < |p| then false
    else if s[..|p|] == p then assert OccursAt(p, s, 0); true
    else OccursInTail(p, s); Contains(s[1..], p)
  }

  /** `s.endswith(suffix)`. */
  predicate EndsWith(s: string, suffix: string)
  {
    |suffix| <= |s| && s[|s| - |suffix|..] == suffix
  }

  /** Index of the last `c` in `s`, or None when `c` does not occur. */
  function LastIndexOf(s: string, c: char): (r: Option<nat>)
    ensures r.None? <==> c !in s
    ensures r.Some? ==> r.value < |s| && s[r.value] == c && c !in s[r.value + 1..]
  {
    if |s| == 0 then None
    else if s[|s| - 1] == c then Some(|s| - 1)
    else
      var r := LastIndexOf(s[..|s| - 1], c);
      assert s == s[..|s| - 1] + [s[|s| - 1]];
      r
  }
}
