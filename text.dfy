/**
 * String primitives the pages rely on: `trim`, `toLowerCase`, `includes`,
 * `startsWith`, `endsWith`, the collation behind `localeCompare`, and `||`
 * on strings.
 * Whitespace and case are ASCII only; the collation is the code-point
 * lexicographic order.
 */
module Text {

  /** JavaScript's `s || fallback` on a string: the empty string is the one falsy string. */
  function OrElse(s: string, fallback: string): (r: string)
    ensures s == "" ==> r == fallback
    ensures s != "" ==> r == s
  {
    if s == "" then fallback else s
  }

  /** The ASCII characters that `trim` removes and that `\s` matches. */
  predicate IsSpace(c: char) {
    c == ' ' || c == '\t' || c == '\n' || c == '\r' || c == '\U{000B}' || c == '\U{000C}'
  }

  predicate AllSpace(s: string) {
    forall i :: 0 <= i < |s| ==> IsSpace(s[i])
  }

  /** The index of the first non-space character at or after `i`, or `|s|`. */
  function SpacesFrom(s: string, i: nat): (n: nat)
    requires i <= |s|
    decreases |s| - i
    ensures i <= n <= |s|
    ensures forall k :: i <= k < n ==> IsSpace(s[k])
    ensures n < |s| ==> !IsSpace(s[n])
  {
    if i < |s| && IsSpace(s[i]) then SpacesFrom(s, i + 1) else i
  }

  /** The end of `s[lo..j]` once its trailing whitespace is dropped. */
  function SpacesBefore(s: string, lo: nat, j: nat): (m: nat)
    requires lo <= j <= |s|
    ensures lo <= m <= j
    ensures forall k :: m <= k < j ==> IsSpace(s[k])
    ensures m > lo ==> !IsSpace(s[m - 1])
  {
    if j > lo && IsSpace(s[j - 1]) then SpacesBefore(s, lo, j - 1) else j
  }

  /**
   * `s.trim()`: the slice of `s` left once whitespace is cut off on either
   * side; empty exactly when `s` is all whitespace, otherwise bounded by
   * non-space characters.
   */
  function Trim(s: string): (r: string)
    ensures |r| <= |s|
    ensures exists i, j ::
      && 0 <= i <= j <= |s| && r == s[i..j]
      && (forall k :: 0 <= k < i ==> IsSpace(s[k]))
      && (forall k :: j <= k < |s| ==> IsSpace(s[k]))
    ensures r == [] <==> AllSpace(s)
    ensures r != [] ==> !IsSpace(r[0]) && !IsSpace(r[|r| - 1])
  {
    var i := SpacesFrom(s, 0);
    var j := SpacesBefore(s, i, |s|);
    s[i..j]
  }

  function LowerChar(c: char): char {
    if 'A' <= c <= 'Z' then (c as int + 32) as char else c
  }

  function UpperChar(c: char): char {
    if 'a' <= c <= 'z' then (c as int - 32) as char else c
  }

  /** `s.toLowerCase()` on ASCII letters. */
  function Lower(s: string): (r: string)
    ensures |r| == |s|
    ensures forall i :: 0 <= i < |r| ==> !('A' <= r[i] <= 'Z')
    ensures forall i :: 0 <= i < |s| && 'A' <= s[i] <= 'Z' ==> r[i] as int == s[i] as int + 32
    ensures forall i :: 0 <= i < |s| && !('A' <= s[i] <= 'Z') ==> r[i] == s[i]
  {
    seq(|s|, i requires 0 <= i < |s| => LowerChar(s[i]))
  }

  /** `t` occurs in `s` starting at index `k`. */
  predicate OccursAt(s: string, t: string, k: nat) {
    k + |t| <= |s| && s[k..k + |t|] == t
  }

  /** `s.includes(t)`. */
  predicate Contains(s: string, t: string) {
    exists k: nat | k <= |s| :: OccursAt(s, t, k)
  }

  lemma ContainsEmpty(s: string)
    ensures Contains(s, "")
  {
    assert OccursAt(s, "", 0);
  }

  /** `s.startsWith(p)`. */
  predicate StartsWith(s: string, p: string) {
    |p| <= |s| && s[..|p|] == p
  }

  /** `s.endsWith(p)`. */
  predicate EndsWith(s: string, p: string) {
    |p| <= |s| && s[|s| - |p|..] == p
  }

  /** Lexicographic order on code points: `a` sorts no later than `b`. */
  predicate LexLeq(a: string, b: string) {
    a == [] || (b != [] && (a[0] < b[0] || (a[0] == b[0] && LexLeq(a[1..], b[1..]))))
  }

  lemma {:induction false} LexLeqTotal(a: string, b: string)
    ensures LexLeq(a, b) || LexLeq(b, a)
  {
    if a != [] && b != [] && a[0] == b[0] {
      LexLeqTotal(a[1..], b[1..]);
    }
  }

  lemma {:induction false} LexLeqTransitive(a: string, b: string, c: string)
    requires LexLeq(a, b) && LexLeq(b, c)
    ensures LexLeq(a, c)
  {
    if a != [] && b != [] && c != [] && a[0] == b[0] && b[0] == c[0] {
      LexLeqTransitive(a[1..], b[1..], c[1..]);
    }
  }

  lemma {:induction false} LexLeqAntisymmetric(a: string, b: string)
    requires LexLeq(a, b) && LexLeq(b, a)
    ensures a == b
  {
    if a != [] && b != [] {
      LexLeqAntisymmetric(a[1..], b[1..]);
      assert a == [a[0]] + a[1..] && b == [b[0]] + b[1..];
    }
  }
}
