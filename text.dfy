/**
 * The string operations the components use: ASCII lower-casing
 * (`String.prototype.toLowerCase` on ASCII text), prefixes and
 * substring search (`String.prototype.includes`).
 */
module Text {

  predicate IsUpperAscii(c: char) {
    'A' <= c <= 'Z'
  }

  predicate IsLowerAscii(c: char) {
    'a' <= c <= 'z'
  }

  predicate IsDigit(c: char) {
    '0' <= c <= '9'
  }

  /** Lower-cases an ASCII capital; every other character is kept. */
  function LowerChar(c: char): (r: char)
    ensures IsUpperAscii(c) ==> r as int == c as int + 32
    ensures !IsUpperAscii(c) ==> r == c
    ensures !IsUpperAscii(r)
  {
    if IsUpperAscii(c) then (c as int + 32) as char else c
  }

  function ToLower(s: string): (r: string)
    ensures |r| == |s|
    ensures forall i :: 0 <= i < |s| ==> r[i] == LowerChar(s[i])
  {
    if s == [] then [] else [LowerChar(s[0])] + ToLower(s[1..])
  }

  predicate IsPrefix(p: string, s: string) {
    |p| <= |s| && s[..|p|] == p
  }

  /** `sub` occurs in `s` starting at offset `i`. */
  predicate OccursAt(s: string, sub: string, i: int) {
    0 <= i <= |s| - |sub| && s[i..i + |sub|] == sub
  }

  /**
   * `s.includes(sub)`: `sub` occurs in `s` at some offset.  The empty string
   * and every prefix of `s` are included; nothing longer than `s` is.
   */
  predicate Contains(s: string, sub: string): (b: bool)
    ensures sub == [] ==> b
    ensures IsPrefix(sub, s) ==> b
    ensures |sub| > |s| ==> !b
  {
    assert IsPrefix(sub, s) ==> OccursAt(s, sub, 0);
    exists i | 0 <= i <= |s| - |sub| :: OccursAt(s, sub, i)
  }

  /** Lower-casing both strings keeps every occurrence, so `includes` after `toLowerCase` finds all exact matches. */
  lemma LowerKeepsContains(s: string, sub: string)
    ensures Contains(s, sub) ==> Contains(ToLower(s), ToLower(sub))
  {
    if Contains(s, sub) {
      var i :| 0 <= i <= |s| - |sub| && OccursAt(s, sub, i);
      var ls, lsub := ToLower(s), ToLower(sub);
      forall k | 0 <= k < |sub|
        ensures ls[i..i + |sub|][k] == lsub[k]
      {
        assert s[i..i + |sub|][k] == sub[k];
      }
      assert OccursAt(ls, lsub, i);
    }
  }
}
