/**
  The two string queries the engine uses: `String.prototype.startsWith` with
  a one-character prefix and `String.prototype.includes`.
 */
module Text {

  predicate StartsWithChar(s: string, c: char) {
    |s| > 0 && s[0] == c
  }

  /** `sub` occurs in `s` starting at index `i`. */
  predicate OccursAt(s: string, sub: string, i: int) {
    0 <= i && i + |sub| <= |s| && s[i..i + |sub|] == sub
  }

  /** `s.includes(sub)`, searched left to right. */
  function Includes(s: string, sub: string): (r: bool)
    ensures r <==> exists i :: OccursAt(s, sub, i)
    decreases |s|
  {
    if |sub| > |s| then false
    else if sub <= s then (assert OccursAt(s, sub, 0); true)
    else
      var r := Includes(s[1..], sub);
      ShiftOccurrence(s, sub);
      r
  }

  /** An occurrence past index 0 is an occurrence in the tail, and back. */
  lemma ShiftOccurrence(s: string, sub: string)
    requires |s| > 0 && !(sub <= s)
    ensures (exists i :: OccursAt(s, sub, i)) <==> (exists j :: OccursAt(s[1..], sub, j))
  {
    if i :| OccursAt(s, sub, i) {
      assert i != 0;
      assert s[1..][i - 1..i - 1 + |sub|] == s[i..i + |sub|];
      assert OccursAt(s[1..], sub, i - 1);
    }
    if j :| OccursAt(s[1..], sub, j) {
      assert s[j + 1..j + 1 + |sub|] == s[1..][j..j + |sub|];
      assert OccursAt(s, sub, j + 1);
    }
  }

  /** `x` immediately followed by `y` somewhere in `s`. */
  predicate HasPair(s: string, x: char, y: char) {
    exists i :: 0 <= i < |s| - 1 && s[i] == x && s[i + 1] == y
  }

  /** A string lacking either character has no such pair. */
  lemma AbsentCharNoPair(s: string, x: char, y: char)
    requires x !in s || y !in s
    ensures !HasPair(s, x, y)
  {
  }

  /** A pair occurs in a concatenation only inside one half or across the seam. */
  lemma HasPairAppend(a: string, b: string, x: char, y: char)
    ensures HasPair(a + b, x, y) <==>
      HasPair(a, x, y) || HasPair(b, x, y) || (|a| > 0 && |b| > 0 && a[|a| - 1] == x && b[0] == y)
  {
    var s := a + b;
    if HasPair(a, x, y) {
      var i :| 0 <= i < |a| - 1 && a[i] == x && a[i + 1] == y;
      assert s[i] == x && s[i + 1] == y;
    }
    if HasPair(b, x, y) {
      var i :| 0 <= i < |b| - 1 && b[i] == x && b[i + 1] == y;
      assert s[|a| + i] == x && s[|a| + i + 1] == y;
    }
    if |a| > 0 && |b| > 0 && a[|a| - 1] == x && b[0] == y {
      assert s[|a| - 1] == x && s[|a|] == y;
    }
    if HasPair(s, x, y) {
      var i :| 0 <= i < |s| - 1 && s[i] == x && s[i + 1] == y;
      if i + 1 < |a| {
        assert a[i] == x && a[i + 1] == y;
      } else if i >= |a| {
        assert b[i - |a|] == x && b[i - |a| + 1] == y;
      }
    }
  }

  /** A string lacking one of the characters of `sub` does not include it. */
  lemma ExcludedByChar(s: string, sub: string, k: int)
    requires 0 <= k < |sub| && sub[k] !in s
    ensures !Includes(s, sub)
  {
  }

  /** A string lacking one of the adjacent pairs of `sub` does not include it. */
  lemma ExcludedByPair(s: string, sub: string, k: int)
    requires 0 <= k && k + 1 < |sub| && !HasPair(s, sub[k], sub[k + 1])
    ensures !Includes(s, sub)
  {
  }
}
