/** Selection from a sequence in its order: `Array.prototype.filter` and `Array.prototype.find`. */
module Subsequences {
  import opened Wrappers

  /** `a` can be obtained from `b` by deleting elements, without reordering. */
  predicate IsSubsequence<T(==)>(a: seq<T>, b: seq<T>)
    decreases |b|
  {
    if a == [] then true
    else if b == [] then false
    else if a[0] == b[0] then IsSubsequence(a[1..], b[1..])
    else IsSubsequence(a, b[1..])
  }

  /** `s.filter(keep)`: the elements that pass, in their order. */
  function Filter<T(==,!new)>(s: seq<T>, keep: T -> bool): (r: seq<T>)
    ensures |r| <= |s|
    ensures forall x :: x in r <==> x in s && keep(x)
    decreases |s|
  {
    if s == [] then []
    else
      var rest := Filter(s[1..], keep);
      assert s == [s[0]] + s[1..];
      if keep(s[0]) then [s[0]] + rest else rest
  }

  /** What a filter keeps is in its original order. */
  lemma {:induction false} FilterIsSubsequence<T(!new)>(s: seq<T>, keep: T -> bool)
    ensures IsSubsequence(Filter(s, keep), s)
    decreases |s|
  {
    if s != [] {
      var rest := Filter(s[1..], keep);
      FilterIsSubsequence(s[1..], keep);
      if keep(s[0]) {
        assert ([s[0]] + rest)[1..] == rest;
      } else if rest != [] {
        assert rest[0] in s[1..];
      }
    }
  }

  /** Filtering keeps every passing element as often as it occurs, and no other. */
  lemma {:induction false} FilterCounts<T(!new)>(s: seq<T>, keep: T -> bool, x: T)
    ensures multiset(Filter(s, keep))[x] == if keep(x) then multiset(s)[x] else 0
    decreases |s|
  {
    if s != [] {
      FilterCounts(s[1..], keep, x);
      assert s == [s[0]] + s[1..];
      assert multiset(s) == multiset{s[0]} + multiset(s[1..]);
      if keep(s[0]) {
        assert Filter(s, keep) == [s[0]] + Filter(s[1..], keep);
        assert multiset(Filter(s, keep)) == multiset{s[0]} + multiset(Filter(s[1..], keep));
      }
    }
  }

  /** The filter of a sequence is decided head first. */
  lemma FilterCons<T(!new)>(x: T, s: seq<T>, keep: T -> bool)
    ensures Filter([x] + s, keep) == if keep(x) then [x] + Filter(s, keep) else Filter(s, keep)
  {
    assert ([x] + s)[1..] == s;
  }

  /** Filtering distributes over concatenation. */
  lemma {:induction false} FilterAppend<T(!new)>(a: seq<T>, b: seq<T>, keep: T -> bool)
    ensures Filter(a + b, keep) == Filter(a, keep) + Filter(b, keep)
    decreases |a|
  {
    if a == [] {
      assert a + b == b;
    } else {
      var x, tail := a[0], a[1..];
      var head := if keep(x) then [x] else [];
      assert a == [x] + tail;
      calc {
        Filter(a + b, keep);
        { assert a + b == [x] + (tail + b); }
        Filter([x] + (tail + b), keep);
        { FilterCons(x, tail + b, keep); }
        head + Filter(tail + b, keep);
        { FilterAppend(tail, b, keep); }
        head + (Filter(tail, keep) + Filter(b, keep));
        (head + Filter(tail, keep)) + Filter(b, keep);
        { FilterCons(x, tail, keep); }
        Filter(a, keep) + Filter(b, keep);
      }
    }
  }

  /** Filtering keeps a sequence whose every element passes. */
  lemma {:induction false} FilterKeepsAll<T(!new)>(s: seq<T>, keep: T -> bool)
    requires forall i :: 0 <= i < |s| ==> keep(s[i])
    ensures Filter(s, keep) == s
    decreases |s|
  {
    if s != [] {
      FilterKeepsAll(s[1..], keep);
    }
  }

  /** `xs.findIndex(has)`, with `|xs|` in place of `-1`: the first index that passes. */
  function FindIndex<T>(xs: seq<T>, has: T -> bool): (k: nat)
    ensures k <= |xs|
    ensures forall j :: 0 <= j < k ==> !has(xs[j])
    ensures k < |xs| ==> has(xs[k])
    decreases |xs|
  {
    if xs == [] || has(xs[0]) then 0 else 1 + FindIndex(xs[1..], has)
  }

  /** `xs.find(has)`: the first element that passes, `None` for `undefined`. */
  function Find<T>(xs: seq<T>, has: T -> bool): (r: Option<T>)
    ensures r.Some? ==> exists k :: 0 <= k < |xs| && xs[k] == r.value && has(xs[k])
                                    && forall j :: 0 <= j < k ==> !has(xs[j])
    ensures r.None? ==> forall j :: 0 <= j < |xs| ==> !has(xs[j])
  {
    var k := FindIndex(xs, has);
    if k < |xs| then Some(xs[k]) else None
  }
}
