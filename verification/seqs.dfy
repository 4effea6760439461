/** Sequence operations shared by the screens: JavaScript's `Array.prototype.filter`
    and the two ways the screens drop one element by position (`splice(i, 1)` and
    `filter((_, j) => j !== i)`). */
module Seqs {

  /** A value that may be absent (`null`/`undefined` in the screens). */
  datatype Option<T> = None | Some(value: T) {
    /** `x || d` and default parameters: the value when present, otherwise `d`. */
    function GetOr(d: T): T {
      match this
      case Some(v) => v
      case None => d
    }
  }

  /** `xs.filter(p)`: the elements that satisfy `p`, in their original order. */
  function Filter<T>(p: T -> bool, xs: seq<T>): (r: seq<T>)
    ensures |r| <= |xs|
  {
    if xs == [] then [] else (if p(xs[0]) then [xs[0]] else []) + Filter(p, xs[1..])
  }

  /** Every kept element satisfies `p`. */
  lemma {:induction false} FilterSatisfies<T>(p: T -> bool, xs: seq<T>)
    ensures forall i :: 0 <= i < |Filter(p, xs)| ==> p(Filter(p, xs)[i])
    decreases |xs|
  {
    if xs != [] {
      FilterSatisfies(p, xs[1..]);
    }
  }

  /** An element is kept exactly when it is in the sequence and satisfies `p`. */
  lemma {:induction false} FilterMembers<T>(p: T -> bool, xs: seq<T>, x: T)
    ensures x in Filter(p, xs) <==> x in xs && p(x)
    decreases |xs|
  {
    if xs != [] {
      FilterMembers(p, xs[1..], x);
      assert x in xs <==> x == xs[0] || x in xs[1..];
    }
  }

  /** `a` can be obtained from `b` by deleting elements, without reordering. */
  ghost predicate IsSubsequence<T>(a: seq<T>, b: seq<T>)
    decreases |b|
  {
    if a == [] then true
    else if b == [] then false
    else (a[0] == b[0] && IsSubsequence(a[1..], b[1..])) || IsSubsequence(a, b[1..])
  }

  lemma {:induction false} FilterIsSubsequence<T>(p: T -> bool, xs: seq<T>)
    ensures IsSubsequence(Filter(p, xs), xs)
    decreases |xs|
  {
    if xs != [] {
      FilterIsSubsequence(p, xs[1..]);
      var r := Filter(p, xs);
      if p(xs[0]) {
        assert r[0] == xs[0] && r[1..] == Filter(p, xs[1..]);
      } else {
        assert r == Filter(p, xs[1..]);
      }
    }
  }

  lemma {:induction false} FilterConcat<T>(p: T -> bool, xs: seq<T>, ys: seq<T>)
    ensures Filter(p, xs + ys) == Filter(p, xs) + Filter(p, ys)
    decreases |xs|
  {
    if xs == [] {
      assert xs + ys == ys;
    } else {
      var head := if p(xs[0]) then [xs[0]] else [];
      assert (xs + ys)[0] == xs[0];
      assert (xs + ys)[1..] == xs[1..] + ys;
      assert Filter(p, xs + ys) == head + Filter(p, xs[1..] + ys);
      FilterConcat(p, xs[1..], ys);
      assert Filter(p, xs) == head + Filter(p, xs[1..]);
    }
  }

  /** Filtering by a predicate every element satisfies keeps the whole sequence. */
  lemma {:induction false} FilterKeepsAll<T>(p: T -> bool, xs: seq<T>)
    requires forall i :: 0 <= i < |xs| ==> p(xs[i])
    ensures Filter(p, xs) == xs
    decreases |xs|
  {
    if xs != [] {
      FilterKeepsAll(p, xs[1..]);
      assert [xs[0]] + xs[1..] == xs;
    }
  }

  /** `xs.filter(x => key(x) !== k)`: drops every element whose key is `k`. */
  function WithoutKey<T>(xs: seq<T>, key: T -> string, k: string): (r: seq<T>)
    ensures |r| <= |xs|
  {
    Filter((x: T) => key(x) != k, xs)
  }

  /** No element with key `k` is left, every element with another key is kept, in
      the original order, and dropping the same key again changes nothing. */
  lemma WithoutKeyProperties<T>(xs: seq<T>, key: T -> string, k: string)
    ensures forall i :: 0 <= i < |WithoutKey(xs, key, k)| ==> key(WithoutKey(xs, key, k)[i]) != k
    ensures forall i :: 0 <= i < |xs| && key(xs[i]) != k ==> xs[i] in WithoutKey(xs, key, k)
    ensures IsSubsequence(WithoutKey(xs, key, k), xs)
    ensures WithoutKey(WithoutKey(xs, key, k), key, k) == WithoutKey(xs, key, k)
  {
    var p := (x: T) => key(x) != k;
    FilterSatisfies(p, xs);
    FilterIsSubsequence(p, xs);
    forall i | 0 <= i < |xs| && key(xs[i]) != k
      ensures xs[i] in WithoutKey(xs, key, k)
    {
      FilterMembers(p, xs, xs[i]);
    }
    FilterKeepsAll(p, Filter(p, xs));
  }

  /** When no element has key `k`, nothing is dropped. */
  lemma WithoutAbsentKey<T>(xs: seq<T>, key: T -> string, k: string)
    requires forall i :: 0 <= i < |xs| ==> key(xs[i]) != k
    ensures WithoutKey(xs, key, k) == xs
  {
    FilterKeepsAll((x: T) => key(x) != k, xs);
  }

  /** `xs.splice(i, 1)` for an index the screens produce (never negative), and
      `xs.filter((_, j) => j !== i)`: the element at `i` is gone, the others keep
      their order; an index outside the sequence removes nothing. */
  function RemoveAt<T>(xs: seq<T>, i: int): (r: seq<T>)
    ensures 0 <= i < |xs| ==> |r| == |xs| - 1
    ensures 0 <= i < |xs| ==> forall k :: 0 <= k < i ==> r[k] == xs[k]
    ensures 0 <= i < |xs| ==> forall k :: i <= k < |r| ==> r[k] == xs[k + 1]
    ensures !(0 <= i < |xs|) ==> r == xs
  {
    if 0 <= i < |xs| then xs[..i] + xs[i + 1..]
    else xs
  }

  /** The index-filter `xs.filter((_, j) => j !== i)` written out position by position,
      `k` being the position of `xs[0]` in the original array. */
  function ExceptPosition<T>(xs: seq<T>, i: int, k: int): (r: seq<T>)
    decreases |xs|
  {
    if xs == [] then [] else (if k != i then [xs[0]] else []) + ExceptPosition(xs[1..], i, k + 1)
  }

  /** The index-filter and `RemoveAt` are the same operation. */
  lemma {:induction false} ExceptPositionIsRemoveAt<T>(xs: seq<T>, i: int, k: int)
    ensures ExceptPosition(xs, i, k) == RemoveAt(xs, i - k)
    decreases |xs|
  {
    if xs != [] {
      ExceptPositionIsRemoveAt(xs[1..], i, k + 1);
      var j := i - k;
      if j == 0 {
        assert RemoveAt(xs, j) == xs[1..];
      } else if j < 0 || j >= |xs| {
        assert [xs[0]] + xs[1..] == xs;
      } else {
        var tail := xs[1..];
        assert RemoveAt(tail, j - 1) == tail[..j - 1] + tail[j..];
        assert tail[..j - 1] == xs[1..j] && tail[j..] == xs[j + 1..];
        assert RemoveAt(xs, j) == xs[..j] + xs[j + 1..];
        assert xs[..j] == [xs[0]] + xs[1..j];
      }
    }
  }
}
