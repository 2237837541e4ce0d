/** The JavaScript string operations the listers rely on. */
module Strings {

  /** `pat` occurs in `s` at index `k`. */
  predicate Occurs(s: string, pat: string, k: int) {
    0 <= k && k + |pat| <= |s| && s[k..k + |pat|] == pat
  }

  /** `s.indexOf(pat, from)` for a non-empty `pat`: the first index at or after
      `from` where `pat` occurs, or -1 when there is none (also when `from`
      lies beyond the end of `s`). */
  function IndexOf(s: string, pat: string, from: nat): (r: int)
    requires |pat| > 0
    ensures r == -1 || (from <= r && Occurs(s, pat, r))
    ensures r == -1 ==> forall k :: from <= k ==> !Occurs(s, pat, k)
    ensures r >= 0 ==> forall k :: from <= k < r ==> !Occurs(s, pat, k)
    decreases |s| - from
  {
    if from + |pat| > |s| then -1
    else if s[from..from + |pat|] == pat then from
    else IndexOf(s, pat, from + 1)
  }

  /** A one-character pattern occurs exactly where that character stands. */
  lemma OccursChar(s: string, c: char, k: int)
    ensures Occurs(s, [c], k) <==> 0 <= k < |s| && s[k] == c
  {
    if 0 <= k < |s| {
      assert s[k..k + 1] == [s[k]];
    }
  }

  /** `s.indexOf(c)` for a single character: -1 exactly when `c` is absent,
      otherwise the position of its first occurrence. */
  lemma IndexOfChar(s: string, c: char)
    ensures IndexOf(s, [c], 0) == -1 <==> c !in s
    ensures IndexOf(s, [c], 0) >= 0 ==>
      var i := IndexOf(s, [c], 0); i < |s| && s[i] == c && c !in s[..i]
  {
    var i := IndexOf(s, [c], 0);
    if i == -1 {
      forall k | 0 <= k < |s| ensures s[k] != c {
        OccursChar(s, c, k);
      }
    } else {
      OccursChar(s, c, i);
      forall k | 0 <= k < i ensures s[k] != c {
        OccursChar(s, c, k);
      }
    }
  }
}
