/**
 * The array methods the edit dialogs call: `map`, `filter`, and the
 * index filter `xs.filter((_, i) => i !== index)` that every "remove"
 * button uses.
 */
module Seqs {

  /** `xs.map(f)`. */
  function Map<T, U>(xs: seq<T>, f: T -> U): (r: seq<U>)
    ensures |r| == |xs|
    ensures forall i :: 0 <= i < |xs| ==> r[i] == f(xs[i])
  {
    if xs == [] then [] else [f(xs[0])] + Map(xs[1..], f)
  }

  /** `xs.filter(keep)`: the kept elements, in their original order. */
  function Filter<T>(xs: seq<T>, keep: T -> bool): (r: seq<T>)
    ensures |r| <= |xs|
    ensures forall i :: 0 <= i < |r| ==> r[i] in xs && keep(r[i])
    ensures forall i :: 0 <= i < |xs| && keep(xs[i]) ==> xs[i] in r
  {
    if xs == [] then []
    else
      var rest := Filter(xs[1..], keep);
      assert forall i :: 0 < i < |xs| ==> xs[i] == xs[1..][i - 1];
      if keep(xs[0]) then [xs[0]] + rest else rest
  }

  /** Whatever holds of every element holds of every kept element. */
  lemma {:induction false} FilterPreserves<T>(xs: seq<T>, keep: T -> bool, holds: T -> bool)
    requires forall i :: 0 <= i < |xs| ==> holds(xs[i])
    ensures forall i :: 0 <= i < |Filter(xs, keep)| ==> holds(Filter(xs, keep)[i]) && keep(Filter(xs, keep)[i])
  {
    if xs != [] {
      FilterPreserves(xs[1..], keep, holds);
    }
  }

  lemma {:induction false} MapAppend<T, U>(a: seq<T>, b: seq<T>, f: T -> U)
    ensures Map(a + b, f) == Map(a, f) + Map(b, f)
  {
    if a != [] {
      assert (a + b)[1..] == a[1..] + b;
      MapAppend(a[1..], b, f);
    } else {
      assert a + b == b;
    }
  }

  /** `filter` keeps the relative order of two concatenated parts. */
  lemma {:induction false} FilterAppend<T>(a: seq<T>, b: seq<T>, keep: T -> bool)
    ensures Filter(a + b, keep) == Filter(a, keep) + Filter(b, keep)
  {
    if a != [] {
      assert (a + b)[0] == a[0];
      assert (a + b)[1..] == a[1..] + b;
      FilterAppend(a[1..], b, keep);
    } else {
      assert a + b == b;
    }
  }

  /** Elements of `xs` whose position (counted from `pos`) is not `index`. */
  function KeepOtherPositions<T>(xs: seq<T>, index: int, pos: int): seq<T>
  {
    if xs == [] then []
    else (if pos == index then [] else [xs[0]]) + KeepOtherPositions(xs[1..], index, pos + 1)
  }

  /** `xs.filter((_, i) => i !== index)`. */
  function RemoveAt<T>(xs: seq<T>, index: int): seq<T>
  {
    KeepOtherPositions(xs, index, 0)
  }

  lemma {:induction false} KeepOtherPositionsSlices<T>(xs: seq<T>, index: int, pos: int)
    ensures KeepOtherPositions(xs, index, pos) ==
      if pos <= index < pos + |xs| then xs[..index - pos] + xs[index - pos + 1..] else xs
  {
    if xs != [] {
      KeepOtherPositionsSlices(xs[1..], index, pos + 1);
      if pos == index {
        assert xs[1..] == xs[..0] + xs[1..];
      } else if pos < index < pos + |xs| {
        assert xs[..index - pos] == [xs[0]] + xs[1..][..index - pos - 1];
        assert xs[index - pos + 1..] == xs[1..][index - pos..];
      } else {
        assert xs == [xs[0]] + xs[1..];
      }
    }
  }

  /**
   * Removing a valid index drops exactly that element: earlier elements keep
   * their positions, later ones shift down by one. Any other index leaves the
   * list as it is.
   */
  lemma RemoveAtShifts<T>(xs: seq<T>, index: int)
    ensures 0 <= index < |xs| ==> RemoveAt(xs, index) == xs[..index] + xs[index + 1..]
    ensures 0 <= index < |xs| ==>
      && |RemoveAt(xs, index)| == |xs| - 1
      && (forall j :: 0 <= j < index ==> RemoveAt(xs, index)[j] == xs[j])
      && (forall j :: index <= j < |xs| - 1 ==> RemoveAt(xs, index)[j] == xs[j + 1])
    ensures !(0 <= index < |xs|) ==> RemoveAt(xs, index) == xs
  {
    KeepOtherPositionsSlices(xs, index, 0);
  }
}
