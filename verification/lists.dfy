/** Operations on ordered lists of records that every collection of the
    marketplace is built from: the `filter`, `find`/`findIndex` and
    `new Set(...)` of JavaScript arrays, stated once and proved once. */
module Lists {

  datatype Option<+T> = None | Some(value: T)

  /** `r` is obtained from `s` by deleting elements, keeping the order of the rest. */
  predicate IsSubsequence<T(==)>(r: seq<T>, s: seq<T>)
  {
    if r == [] then true
    else if s == [] then false
    else if r[0] == s[0] then IsSubsequence(r[1..], s[1..])
    else IsSubsequence(r, s[1..])
  }

  /** The elements of `s` satisfying `p`, in their original order
      (`Array.prototype.filter`): every copy of a kept element survives, and
      nothing else does. */
  function Filter<T(==)>(s: seq<T>, p: T -> bool): (r: seq<T>)
    ensures |r| <= |s|
    ensures forall i :: 0 <= i < |r| ==> r[i] in s && p(r[i])
    ensures forall i :: 0 <= i < |s| && p(s[i]) ==> s[i] in r
    ensures forall i :: 0 <= i < |s| && p(s[i]) ==> multiset(r)[s[i]] == multiset(s)[s[i]]
    ensures IsSubsequence(r, s)
  {
    if s == [] then []
    else
      var rest := Filter(s[1..], p);
      FilterCountStep(s[0], s[1..], rest, p);
      assert s == [s[0]] + s[1..];
      if p(s[0]) then [s[0]] + rest else rest
  }

  /** One step of `Filter`'s count: if `rest` keeps every copy of the
      elements of `t` that satisfy `p` (and nothing else), then putting `x`
      in front when it satisfies `p` keeps every copy of those of `[x] + t`. */
  lemma FilterCountStep<T>(x: T, t: seq<T>, rest: seq<T>, p: T -> bool)
    requires forall i :: 0 <= i < |rest| ==> rest[i] in t
    requires forall i :: 0 <= i < |t| && p(t[i]) ==> multiset(rest)[t[i]] == multiset(t)[t[i]]
    ensures var s, r := [x] + t, if p(x) then [x] + rest else rest;
      forall i :: 0 <= i < |s| && p(s[i]) ==> multiset(r)[s[i]] == multiset(s)[s[i]]
  {
    var s := [x] + t;
    var r := if p(x) then [x] + rest else rest;
    forall i | 0 <= i < |s| && p(s[i])
      ensures multiset(r)[s[i]] == multiset(s)[s[i]]
    {
      if s[i] in t {
        var j :| 0 <= j < |t| && t[j] == s[i];
      } else {
        assert s[i] !in rest;
        assert multiset(t)[s[i]] == 0;
      }
    }
  }

  /** Filtering distributes over concatenation: together with the one-element
      case this fixes the result, multiplicities and order included. */
  lemma {:induction false} FilterConcat<T>(a: seq<T>, b: seq<T>, p: T -> bool)
    ensures Filter(a + b, p) == Filter(a, p) + Filter(b, p)
  {
    if a != [] {
      assert (a + b)[0] == a[0];
      assert (a + b)[1..] == a[1..] + b;
      FilterConcat(a[1..], b, p);
    } else {
      assert a + b == b;
    }
  }

  /** A filter that rejects nothing returns its input unchanged. */
  lemma {:induction false} FilterKeepsAll<T>(s: seq<T>, p: T -> bool)
    requires forall i :: 0 <= i < |s| ==> p(s[i])
    ensures Filter(s, p) == s
  {
    if s != [] {
      FilterKeepsAll(s[1..], p);
    }
  }

  /** Two predicates that agree on every element of `s` filter it alike. */
  lemma {:induction false} FilterCongruent<T>(s: seq<T>, p: T -> bool, q: T -> bool)
    requires forall i :: 0 <= i < |s| ==> p(s[i]) == q(s[i])
    ensures Filter(s, p) == Filter(s, q)
  {
    if s != [] {
      FilterCongruent(s[1..], p, q);
    }
  }

  /** Index of the first element satisfying `p` (`findIndex`, with `None`
      standing for -1). */
  function FindIndex<T>(s: seq<T>, p: T -> bool): (r: Option<nat>)
    ensures r.Some? ==> r.value < |s| && p(s[r.value])
    ensures r.Some? ==> forall j :: 0 <= j < r.value ==> !p(s[j])
    ensures r.None? <==> forall j :: 0 <= j < |s| ==> !p(s[j])
  {
    if s == [] then None
    else if p(s[0]) then Some(0)
    else
      match FindIndex(s[1..], p)
      case None => None
      case Some(k) => Some(k + 1)
  }

  /** `s` with the element at position `k` cut out (`splice(k, 1)`). */
  function RemoveAt<T>(s: seq<T>, k: nat): (r: seq<T>)
    requires k < |s|
    ensures |r| == |s| - 1
    ensures forall j :: 0 <= j < k ==> r[j] == s[j]
    ensures forall j :: k <= j < |r| ==> r[j] == s[j + 1]
  {
    s[..k] + s[k + 1..]
  }

  /** The elements of `s` without repetitions (the elements of a
      JavaScript `Set` built from `s`). */
  function Distinct<T(==)>(s: seq<T>): (r: seq<T>)
    ensures forall i :: 0 <= i < |r| ==> r[i] in s
    ensures forall i :: 0 <= i < |s| ==> s[i] in r
    ensures forall i, j :: 0 <= i < j < |r| ==> r[i] != r[j]
  {
    if s == [] then []
    else
      var init := s[..|s| - 1];
      assert s == init + [s[|s| - 1]];
      var rest := Distinct(init);
      if s[|s| - 1] in rest then rest else rest + [s[|s| - 1]]
  }
}
