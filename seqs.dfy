/**
 * The two JavaScript array operations the application is built from:
 * `Array.prototype.find` (first element satisfying a predicate) and
 * `Array.prototype.filter` (the order-preserving sub-list of elements
 * satisfying a predicate). Every lookup and view in the model is one of these.
 */
module Seqs {
  import opened Wrappers

  /** `xs` can be obtained from `ys` by deleting elements, keeping the order. */
  predicate IsSubseq<T(==)>(xs: seq<T>, ys: seq<T>)
    decreases |ys|
  {
    if xs == [] then true
    else if ys == [] then false
    else (xs[0] == ys[0] && IsSubseq(xs[1..], ys[1..])) || IsSubseq(xs, ys[1..])
  }

  /** The index of the first element satisfying `p`, if any. */
  function FindIndex<T>(s: seq<T>, p: T -> bool): (r: Option<nat>)
    ensures r.Some? ==> r.value < |s| && p(s[r.value])
    ensures r.Some? ==> forall j :: 0 <= j < r.value ==> !p(s[j])
    ensures r.None? ==> forall j :: 0 <= j < |s| ==> !p(s[j])
  {
    if s == [] then None
    else if p(s[0]) then Some(0)
    else match FindIndex(s[1..], p)
      case None => None
      case Some(k) => Some(k + 1)
  }

  /** `s.find(p)`: the first element satisfying `p`, or none when no element does. */
  function Find<T>(s: seq<T>, p: T -> bool): (r: Option<T>)
    ensures r.None? <==> forall j :: 0 <= j < |s| ==> !p(s[j])
    ensures r.Some? ==> p(r.value)
    ensures r.Some? ==> exists i :: 0 <= i < |s| && s[i] == r.value && forall j :: 0 <= j < i ==> !p(s[j])
  {
    match FindIndex(s, p)
    case None => None
    case Some(i) => Some(s[i])
  }

  /** When exactly one element satisfies `p`, `find` returns that element. */
  lemma FindSole<T>(s: seq<T>, p: T -> bool, i: nat)
    requires i < |s| && p(s[i])
    requires forall j :: 0 <= j < |s| && j != i ==> !p(s[j])
    ensures Find(s, p) == Some(s[i])
  {
    var k := FindIndex(s, p);
    assert k.Some? && k.value == i;
  }

  /** The elements of `s` satisfying `p`, in order. */
  function FilterRaw<T>(s: seq<T>, p: T -> bool): seq<T> {
    if s == [] then []
    else if p(s[0]) then [s[0]] + FilterRaw(s[1..], p)
    else FilterRaw(s[1..], p)
  }

  lemma {:induction false} FilterRawProperties<T(!new)>(s: seq<T>, p: T -> bool)
    ensures var r := FilterRaw(s, p);
      && |r| <= |s|
      && (forall x :: x in r <==> x in s && p(x))
      && (forall x :: multiset(r)[x] == if p(x) then multiset(s)[x] else 0)
      && IsSubseq(r, s)
  {
    if s != [] {
      FilterRawProperties(s[1..], p);
      assert s == [s[0]] + s[1..];
      if p(s[0]) {
        var rest := FilterRaw(s[1..], p);
        assert ([s[0]] + rest)[1..] == rest;
      }
    }
  }

  /** `s.filter(p)`. */
  function Filter<T(!new)>(s: seq<T>, p: T -> bool): (r: seq<T>)
    ensures |r| <= |s|
    ensures forall x :: x in r <==> x in s && p(x)
    ensures forall x :: multiset(r)[x] == if p(x) then multiset(s)[x] else 0
    ensures IsSubseq(r, s)
  {
    FilterRawProperties(s, p);
    FilterRaw(s, p)
  }

  /** Every list is a sub-list of itself. */
  lemma {:induction false} SubseqRefl<T>(xs: seq<T>)
    ensures IsSubseq(xs, xs)
    decreases |xs|
  {
    if xs != [] {
      SubseqRefl(xs[1..]);
    }
  }

  /** A sub-list of a sub-list is a sub-list. */
  lemma {:induction false} SubseqTransitive<T>(xs: seq<T>, ys: seq<T>, zs: seq<T>)
    requires IsSubseq(xs, ys) && IsSubseq(ys, zs)
    ensures IsSubseq(xs, zs)
    decreases |zs|
  {
    if xs != [] {
      assert ys != [] && zs != [];
      if ys[0] == zs[0] && IsSubseq(ys[1..], zs[1..]) {
        if xs[0] == ys[0] && IsSubseq(xs[1..], ys[1..]) {
          SubseqTransitive(xs[1..], ys[1..], zs[1..]);
        } else {
          SubseqTransitive(xs, ys[1..], zs[1..]);
        }
      } else {
        SubseqTransitive(xs, ys, zs[1..]);
      }
    }
  }

  /** Filtering distributes over appending one element. */
  lemma FilterAppend<T(!new)>(s: seq<T>, x: T, p: T -> bool)
    ensures Filter(s + [x], p) == Filter(s, p) + (if p(x) then [x] else [])
  {
    FilterRawAppend(s, x, p);
  }

  lemma {:induction false} FilterRawAppend<T>(s: seq<T>, x: T, p: T -> bool)
    ensures FilterRaw(s + [x], p) == FilterRaw(s, p) + (if p(x) then [x] else [])
  {
    if s == [] {
      assert [] + [x] == [x];
      assert [x][1..] == [];
    } else {
      assert (s + [x])[0] == s[0] && (s + [x])[1..] == s[1..] + [x];
      FilterRawAppend(s[1..], x, p);
    }
  }

  /**
   * `find` gives the same answer on two lists that agree on every position
   * where `p` can hold in the first, and where the second's extra elements fail `p`.
   */
  lemma FindAgrees<T>(s: seq<T>, t: seq<T>, p: T -> bool)
    requires |s| <= |t|
    requires forall j :: 0 <= j < |s| ==> p(s[j]) == p(t[j])
    requires forall j :: 0 <= j < |s| && p(s[j]) ==> s[j] == t[j]
    requires forall j :: |s| <= j < |t| ==> !p(t[j])
    ensures Find(s, p) == Find(t, p)
  {
    var a, b := FindIndex(s, p), FindIndex(t, p);
    if a.Some? {
      assert b.Some? && b.value == a.value;
    } else {
      assert b.None?;
    }
  }
}
