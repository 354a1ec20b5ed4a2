/**
 * The JavaScript array built-ins the reducers and screens use, over `seq`:
 * `filter`, a `map` that swaps matching elements for a replacement, and
 * `splice(i, 1)`. `IsSubsequence` says "the same elements in the same
 * relative order, possibly with some left out".
 */
module JsArrays {

  /** `r` is obtained from `s` by deleting elements, keeping the order. */
  predicate IsSubsequence<T(==)>(r: seq<T>, s: seq<T>)
    decreases |s|
  {
    if r == [] then true
    else if s == [] then false
    else if r[0] == s[0] then IsSubsequence(r[1..], s[1..])
    else IsSubsequence(r, s[1..])
  }

  /** `s.filter(p)`: the elements satisfying `p`, in order. */
  function Filter<T(!new)>(p: T -> bool, s: seq<T>): (r: seq<T>)
    ensures |r| <= |s|
  {
    if s == [] then []
    else
      var rest := Filter(p, s[1..]);
      if p(s[0]) then [s[0]] + rest else rest
  }

  /** `filter` keeps exactly the elements satisfying `p`, each as often as in
      `s`. */
  lemma {:induction false} FilterSpec<T(!new)>(p: T -> bool, s: seq<T>)
    ensures var r := Filter(p, s);
      && (forall i :: 0 <= i < |r| ==> p(r[i]))
      && (forall x :: x in r <==> x in s && p(x))
      && (forall x :: multiset(r)[x] == if p(x) then multiset(s)[x] else 0)
  {
    if s != [] {
      FilterSpec(p, s[1..]);
      assert s == [s[0]] + s[1..];
    }
  }

  /** What `filter` keeps stays in its original relative order. */
  lemma {:induction false} FilterIsSubsequence<T(!new)>(p: T -> bool, s: seq<T>)
    ensures IsSubsequence(Filter(p, s), s)
  {
    if s != [] {
      FilterIsSubsequence(p, s[1..]);
      var r := Filter(p, s);
      if p(s[0]) {
        assert r[0] == s[0] && r[1..] == Filter(p, s[1..]);
      } else {
        FilterSpec(p, s[1..]);
      }
    }
  }

  /** What `filter` makes of one element: the element itself, or nothing. */
  function Kept<T>(p: T -> bool, x: T): seq<T> {
    if p(x) then [x] else []
  }

  /** Filtering a sequence that starts with `x` keeps `x` in front or drops
      it, and filters the rest. */
  lemma FilterCons<T(!new)>(p: T -> bool, x: T, s: seq<T>)
    ensures Filter(p, [x] + s) == Kept(p, x) + Filter(p, s)
  {
    assert ([x] + s)[1..] == s;
  }

  /** Filtering a sequence that starts with `x`, `y` and `z` handles those
      three one at a time and then filters the rest. */
  lemma FilterThreeThen<T(!new)>(p: T -> bool, x: T, y: T, z: T, s: seq<T>)
    ensures Filter(p, [x] + ([y] + ([z] + s))) == Kept(p, x) + (Kept(p, y) + (Kept(p, z) + Filter(p, s)))
  {
    FilterCons(p, z, s);
    FilterCons(p, y, [z] + s);
    FilterCons(p, x, [y] + ([z] + s));
  }

  /** A six-element display is its elements consed onto one another. */
  lemma SixCons<T>(x0: T, x1: T, x2: T, x3: T, x4: T, x5: T)
    ensures [x0, x1, x2, x3, x4, x5] == [x0] + ([x1] + ([x2] + ([x3] + ([x4] + ([x5] + [])))))
  {
  }

  /** `filter` over a six-element list, one element at a time. */
  lemma FilterSix<T(!new)>(p: T -> bool, x0: T, x1: T, x2: T, x3: T, x4: T, x5: T)
    ensures Filter(p, [x0, x1, x2, x3, x4, x5])
      == Kept(p, x0) + (Kept(p, x1) + (Kept(p, x2) + (Kept(p, x3) + (Kept(p, x4) + Kept(p, x5)))))
  {
    var tail: seq<T> := [x3] + ([x4] + ([x5] + []));
    SixCons(x0, x1, x2, x3, x4, x5);
    FilterThreeThen(p, x3, x4, x5, []);
    FilterThreeThen(p, x0, x1, x2, tail);
    assert Kept(p, x5) + Filter(p, []) == Kept(p, x5);
  }

  /** Filtering with a predicate that every element passes changes nothing. */
  lemma {:induction false} FilterKeepsAll<T(!new)>(p: T -> bool, s: seq<T>)
    requires forall i :: 0 <= i < |s| ==> p(s[i])
    ensures Filter(p, s) == s
  {
    if s != [] {
      FilterKeepsAll(p, s[1..]);
    }
  }

  /** `s.map(x => matches(x) ? v : x)`: same length, each matching element
      replaced by `v`, every other element kept where it was. */
  function ReplaceWhere<T>(s: seq<T>, matches: T -> bool, v: T): (r: seq<T>)
    ensures |r| == |s|
    ensures forall i :: 0 <= i < |s| ==> r[i] == if matches(s[i]) then v else s[i]
  {
    if s == [] then [] else [if matches(s[0]) then v else s[0]] + ReplaceWhere(s[1..], matches, v)
  }

  /** A copy of `s` with `s.splice(i, 1)` applied: element `i` removed, or no
      change when `i` is past the end. */
  function SpliceOne<T>(s: seq<T>, i: nat): (r: seq<T>)
    ensures i < |s| ==> |r| == |s| - 1
    ensures i < |s| ==> forall j :: 0 <= j < |r| ==> r[j] == if j < i then s[j] else s[j + 1]
    ensures i >= |s| ==> r == s
  {
    if i < |s| then s[..i] + s[i + 1..] else s
  }
}
