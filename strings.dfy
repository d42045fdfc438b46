/**
 * The two string operations of the search filter: `strings.ToLower`,
 * restricted here to ASCII letters, and `strings.Contains`.
 */
module Strings {

  function LowerChar(c: char): char
  {
    if 'A' <= c <= 'Z' then ((c as int) + 32) as char else c
  }

  /** ASCII lower-casing, one character for one character. */
  function ToLower(s: string): (r: string)
    ensures |r| == |s|
    ensures forall i | 0 <= i < |s| :: r[i] == LowerChar(s[i])
    ensures forall i | 0 <= i < |s| :: !('A' <= r[i] <= 'Z')
  {
    seq(|s|, i requires 0 <= i < |s| => LowerChar(s[i]))
  }

  /** `t` occurs in `s` at offset `i`. */
  predicate OccursAt(s: string, t: string, i: int)
  {
    0 <= i && i + |t| <= |s| && s[i..i + |t|] == t
  }

  /** `strings.Contains(s, t)`, scanning `s` from the left. */
  function Contains(s: string, t: string): (r: bool)
    ensures t <= s ==> r
    ensures |s| < |t| ==> !r
  {
    t <= s || (s != [] && Contains(s[1..], t))
  }

  /** Contains holds exactly when `t` occurs somewhere in `s`. */
  lemma {:induction false} ContainsIff(s: string, t: string)
    ensures Contains(s, t) <==> exists i :: OccursAt(s, t, i)
  {
    if t <= s {
      assert OccursAt(s, t, 0);
    } else if s != [] {
      ContainsIff(s[1..], t);
      if exists i :: OccursAt(s[1..], t, i) {
        var i :| OccursAt(s[1..], t, i);
        assert s[1..][i..i + |t|] == s[i + 1..i + 1 + |t|];
        assert OccursAt(s, t, i + 1);
      }
      if exists i :: OccursAt(s, t, i) {
        var i :| OccursAt(s, t, i);
        assert s[1..][i - 1..i - 1 + |t|] == s[i..i + |t|];
        assert OccursAt(s[1..], t, i - 1);
      }
    }
  }
}
