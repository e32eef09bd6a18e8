/** Facts about strings that the handler relies on: the `includes` test used
    to label a response, prefixes and suffixes, and the length JavaScript
    reports for a string. */
module Text {

  /** `s.startsWith(p)`. */
  predicate StartsWith(s: string, p: string)
  {
    |p| <= |s| && s[..|p|] == p
  }

  /** `s.endsWith(p)`. */
  predicate EndsWith(s: string, p: string)
  {
    |p| <= |s| && s[|s| - |p|..] == p
  }

  /** `s.includes(t)`: `t` occurs in `s` at some offset (the empty string
      occurs everywhere). */
  predicate Contains(s: string, t: string)
  {
    exists i | 0 <= i <= |s| - |t| :: OccursAt(s, t, i)
  }

  /** `t` is the slice of `s` that starts at offset `i`. */
  predicate OccursAt(s: string, t: string, i: int)
  {
    0 <= i <= |s| - |t| && s[i..i + |t|] == t
  }

  /** A string occurs in any string that has it in the middle. */
  lemma ContainsInfix(a: string, t: string, b: string)
    ensures Contains(a + t + b, t)
  {
    var s := a + t + b;
    assert OccursAt(s, t, |a|);
  }

  /** A string that starts with `t` contains `t`. */
  lemma ContainsPrefix(t: string, b: string)
    ensures Contains(t + b, t)
  {
    ContainsInfix([], t, b);
    assert [] + t + b == t + b;
  }

  /** Containment is transitive. */
  lemma ContainsTrans(s: string, m: string, t: string)
    requires Contains(s, m) && Contains(m, t)
    ensures Contains(s, t)
  {
    var i :| 0 <= i <= |s| - |m| && OccursAt(s, m, i);
    var j :| 0 <= j <= |m| - |t| && OccursAt(m, t, j);
    forall k | 0 <= k < |t|
      ensures s[i + j + k] == t[k]
    {
      assert s[i..i + |m|][j + k] == m[j..j + |t|][k];
    }
    assert s[i + j..i + j + |t|] == t;
    assert OccursAt(s, t, i + j);
  }

  /** A non-empty `t` cannot occur in a string that lacks its first
      character. */
  lemma NoFirstCharNoContains(s: string, t: string)
    requires |t| > 0 && t[0] !in s
    ensures !Contains(s, t)
  {
    forall i | 0 <= i <= |s| - |t|
      ensures !OccursAt(s, t, i)
    {
      assert s[i..i + |t|][0] == s[i];
    }
  }

  /** The strings of `ls` one after the other. */
  function Concat(ls: seq<string>): string
  {
    if ls == [] then "" else ls[0] + Concat(ls[1..])
  }

  /** A character that none of the strings holds is absent from their
      concatenation. */
  lemma {:induction false} ConcatAvoids(ls: seq<string>, c: char)
    requires forall i | 0 <= i < |ls| :: c !in ls[i]
    ensures c !in Concat(ls)
    decreases |ls|
  {
    if ls != [] {
      assert c !in ls[0];
      assert forall i | 0 <= i < |ls| - 1 :: ls[1..][i] == ls[i + 1];
      ConcatAvoids(ls[1..], c);
    }
  }

  /** Whether a character is encoded as a surrogate pair in UTF-16. */
  predicate Astral(c: char)
  {
    c as int >= 0x1_0000
  }

  /** JavaScript's `s.length`: the number of UTF-16 code units, so every
      character outside the Basic Multilingual Plane counts twice (most
      emoji, such as 🍽, 🍌 and 🟢; ✅, ✨, ⚠ and ⏱ count once). */
  function Utf16Length(s: string): (n: nat)
    ensures |s| <= n <= 2 * |s|
    ensures n == |s| <==> forall i :: 0 <= i < |s| ==> !Astral(s[i])
  {
    if s == [] then 0
    else
      var rest := Utf16Length(s[1..]);
      assert forall i :: 1 <= i < |s| ==> s[i] == s[1..][i - 1];
      (if Astral(s[0]) then 2 else 1) + rest
  }
}
