/** The two string operations the catalogue searches rely on:
    `toLowerCase` and `includes`. Lower-casing is modelled on the ASCII
    letters only. */
module Text {

  function LowerChar(c: char): char
  {
    if 'A' <= c <= 'Z' then (c as int + 32) as char else c
  }

  /** `s.toLowerCase()`: each upper-case ASCII letter becomes its lower-case
      letter (32 code points on), so none is left; every other character is
      kept. */
  function Lower(s: string): (r: string)
    ensures |r| == |s|
    ensures forall i :: 0 <= i < |r| ==> !('A' <= r[i] <= 'Z')
    ensures forall i :: 0 <= i < |s| && 'A' <= s[i] <= 'Z' ==> r[i] == (s[i] as int + 32) as char
    ensures forall i :: 0 <= i < |s| && !('A' <= s[i] <= 'Z') ==> r[i] == s[i]
  {
    seq(|s|, i requires 0 <= i < |s| => LowerChar(s[i]))
  }

  /** Lower-casing twice is lower-casing once. */
  lemma LowerIdempotent(s: string)
    ensures Lower(Lower(s)) == Lower(s)
  {
    assert forall i :: 0 <= i < |s| ==> Lower(Lower(s))[i] == Lower(s)[i];
  }

  /** `s.includes(t)`: `t` occurs in `s` as a contiguous block. */
  predicate Includes(s: string, t: string)
  {
    t <= s || (s != [] && Includes(s[1..], t))
  }

  /** `t` occurs in `s` starting at position `k`. */
  predicate OccursAt(s: string, t: string, k: nat)
  {
    k + |t| <= |s| && s[k..k + |t|] == t
  }

  /** `Includes` holds exactly when `t` occurs somewhere in `s`. */
  lemma {:induction false} IncludesIff(s: string, t: string)
    ensures Includes(s, t) <==> exists k: nat :: OccursAt(s, t, k)
  {
    if t <= s {
      assert OccursAt(s, t, 0);
    } else if s == [] {
      forall k: nat ensures !OccursAt(s, t, k) {
      }
    } else {
      IncludesIff(s[1..], t);
      forall k: nat | OccursAt(s[1..], t, k) ensures OccursAt(s, t, k + 1) {
        assert s[k + 1..k + 1 + |t|] == s[1..][k..k + |t|];
      }
      forall k: nat | OccursAt(s, t, k) ensures k >= 1 && OccursAt(s[1..], t, k - 1) {
        assert s[1..][k - 1..k - 1 + |t|] == s[k..k + |t|];
      }
    }
  }
}
