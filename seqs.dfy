/**
 * The array methods the source composes its queries and state updates from:
 * `filter`, `find`/`findIndex` and `map`, as functions on sequences.
 */
module Seqs {
  import opened Wrappers

  /** `s.filter(keep)`: the elements of `s` that satisfy `keep`, in their order in `s`. */
  function Filter<T>(s: seq<T>, keep: T -> bool): (r: seq<T>)
    ensures |r| <= |s|
    ensures forall k :: 0 <= k < |r| ==> r[k] in s && keep(r[k])
    ensures forall k :: 0 <= k < |s| && keep(s[k]) ==> s[k] in r
  {
    if s == [] then [] else (if keep(s[0]) then [s[0]] else []) + Filter(s[1..], keep)
  }

  /** `s.findIndex(p)`, with `None` for the source's `-1`: the FIRST index whose element satisfies `p`. */
  function FindIndex<T>(s: seq<T>, p: T -> bool): (r: Option<nat>)
    ensures r.Some? ==> r.value < |s| && p(s[r.value])
    ensures r.Some? ==> forall j :: 0 <= j < r.value ==> !p(s[j])
    ensures r.None? <==> forall j :: 0 <= j < |s| ==> !p(s[j])
  {
    if s == [] then None
    else if p(s[0]) then Some(0)
    else match FindIndex(s[1..], p)
      case None => None
      case Some(i) => Some(i + 1)
  }

  /** `s.map(f)`. */
  function Map<T, U>(s: seq<T>, f: T -> U): (r: seq<U>)
    ensures |r| == |s|
    ensures forall k :: 0 <= k < |s| ==> r[k] == f(s[k])
  {
    if s == [] then [] else [f(s[0])] + Map(s[1..], f)
  }

  /** Filtering distributes over concatenation: what is kept keeps its relative order. */
  lemma {:induction false} FilterAppend<T>(a: seq<T>, b: seq<T>, keep: T -> bool)
    ensures Filter(a + b, keep) == Filter(a, keep) + Filter(b, keep)
  {
    if a == [] {
      assert a + b == b;
    } else {
      assert (a + b)[1..] == a[1..] + b;
      FilterAppend(a[1..], b, keep);
    }
  }

  /** A filter that rejects nothing returns its input unchanged. */
  lemma {:induction false} FilterKeepsAll<T>(s: seq<T>, keep: T -> bool)
    requires forall k :: 0 <= k < |s| ==> keep(s[k])
    ensures Filter(s, keep) == s
  {
    if s != [] {
      FilterKeepsAll(s[1..], keep);
    }
  }

  /** A filter that keeps nothing returns the empty sequence. */
  lemma {:induction false} FilterKeepsNone<T>(s: seq<T>, keep: T -> bool)
    requires forall k :: 0 <= k < |s| ==> !keep(s[k])
    ensures Filter(s, keep) == []
  {
    if s != [] {
      FilterKeepsNone(s[1..], keep);
    }
  }

  /** Mapping distributes over appending one element. */
  lemma MapAppend<T, U>(s: seq<T>, x: T, f: T -> U)
    ensures Map(s + [x], f) == Map(s, f) + [f(x)]
  {
    assert |Map(s + [x], f)| == |Map(s, f) + [f(x)]|;
  }

  /** Appending one element adds its image, once, to the multiset of images. */
  lemma MapAppendBag<T, U>(s: seq<T>, x: T, f: T -> U)
    ensures multiset(Map(s + [x], f)) == multiset(Map(s, f)) + multiset{f(x)}
  {
    MapAppend(s, x, f);
  }

  /** Replacing an element by one with the same image leaves the mapped sequence unchanged. */
  lemma MapUpdateSameImage<T, U>(s: seq<T>, i: nat, x: T, f: T -> U)
    requires i < |s| && f(x) == f(s[i])
    ensures Map(s[i := x], f) == Map(s, f)
  {
  }

  /** The image of a filtered sequence is contained (with multiplicities) in the image of the sequence. */
  lemma {:induction false} MapFilterSubBag<T, U>(s: seq<T>, keep: T -> bool, f: T -> U)
    ensures multiset(Map(Filter(s, keep), f)) <= multiset(Map(s, f))
  {
    if s != [] {
      var rest := Filter(s[1..], keep);
      MapFilterSubBag(s[1..], keep, f);
      if keep(s[0]) {
        assert Filter(s, keep) == [s[0]] + rest;
        assert ([s[0]] + rest)[1..] == rest;
      } else {
        assert Filter(s, keep) == rest;
      }
    }
  }

  /** An image of an element that the filter keeps is still an image after filtering. */
  lemma {:induction false} MapFilterKeeps<T, U>(s: seq<T>, keep: T -> bool, f: T -> U, k: nat)
    requires k < |s| && keep(s[k])
    ensures f(s[k]) in Map(Filter(s, keep), f)
  {
    var r := Filter(s, keep);
    var j :| 0 <= j < |r| && r[j] == s[k];
    assert Map(r, f)[j] == f(s[k]);
  }
}
