/** Generic list helpers shared by the stream readers and the list filters. */
module Seqs {
  import opened Wrappers

  function OptionToSeq<T>(o: Option<T>): seq<T> {
    match o
    case None => []
    case Some(v) => [v]
  }

  /** The lists `f` gives for the elements, concatenated in order (defined
      from the last element back, the way a loop extends it). */
  function FlatMap<T, U>(xs: seq<T>, f: T -> seq<U>): seq<U> {
    if xs == [] then [] else FlatMap(xs[..|xs| - 1], f) + f(xs[|xs| - 1])
  }

  lemma {:induction false} FlatMapAppend<T, U>(xs: seq<T>, ys: seq<T>, f: T -> seq<U>)
    ensures FlatMap(xs + ys, f) == FlatMap(xs, f) + FlatMap(ys, f)
    decreases |ys|
  {
    if ys == [] {
      assert xs + ys == xs;
    } else {
      var init := ys[..|ys| - 1];
      FlatMapAppend(xs, init, f);
      assert (xs + ys)[..|xs + ys| - 1] == xs + init;
      assert (xs + ys)[|xs + ys| - 1] == ys[|ys| - 1];
    }
  }

  /** Extending the list by one element extends the result by that
      element's list. */
  lemma FlatMapSnoc<T, U>(xs: seq<T>, i: nat, f: T -> seq<U>)
    requires i < |xs|
    ensures FlatMap(xs[..i + 1], f) == FlatMap(xs[..i], f) + f(xs[i])
  {
    assert xs[..i + 1][..i] == xs[..i];
  }

  /** A loop that has built the lists of the first `i` elements and then
      the list of element `i` has built those of the first `i + 1`. */
  lemma FlatMapStep<T, U>(xs: seq<T>, i: nat, f: T -> seq<U>, before: seq<U>, acc: seq<U>)
    requires i < |xs| && before == FlatMap(xs[..i], f) && acc == before + f(xs[i])
    ensures acc == FlatMap(xs[..i + 1], f)
  {
    FlatMapSnoc(xs, i, f);
  }

  /** An element whose list is empty can be dropped. */
  lemma FlatMapSkip<T, U>(before: seq<T>, x: T, after: seq<T>, f: T -> seq<U>)
    requires f(x) == []
    ensures FlatMap(before + [x] + after, f) == FlatMap(before, f) + FlatMap(after, f)
  {
    FlatMapAppend(before + [x], after, f);
    FlatMapAppend(before, [x], f);
    assert FlatMap([x], f) == [] by {
      assert [x][..0] == [];
    }
  }

  /** `xs.filter(keep)`: the elements `keep` accepts, in their order. */
  function Filter<T>(xs: seq<T>, keep: T -> bool): seq<T> {
    if xs == [] then []
    else if keep(xs[0]) then [xs[0]] + Filter(xs[1..], keep)
    else Filter(xs[1..], keep)
  }

  /** The kept list is no longer than the original and holds only
      accepted elements. */
  lemma {:induction false} FilterKept<T>(xs: seq<T>, keep: T -> bool)
    ensures |Filter(xs, keep)| <= |xs|
    ensures forall k | 0 <= k < |Filter(xs, keep)| :: keep(Filter(xs, keep)[k])
    decreases |xs|
  {
    if xs != [] {
      FilterKept(xs[1..], keep);
    }
  }

  /** Filtering keeps exactly the accepted elements. */
  lemma {:induction false} FilterMembership<T>(xs: seq<T>, keep: T -> bool, x: T)
    ensures x in Filter(xs, keep) <==> x in xs && keep(x)
    decreases |xs|
  {
    if xs != [] {
      FilterMembership(xs[1..], keep, x);
      assert x in xs <==> x == xs[0] || x in xs[1..];
    }
  }

  /** Filtering keeps every copy of an accepted element and no copy of a
      rejected one. */
  lemma {:induction false} FilterCount<T>(xs: seq<T>, keep: T -> bool, x: T)
    ensures multiset(Filter(xs, keep))[x] == if keep(x) then multiset(xs)[x] else 0
    decreases |xs|
  {
    if xs != [] {
      FilterCount(xs[1..], keep, x);
      assert xs == [xs[0]] + xs[1..];
    }
  }

  /** Filtering distributes over concatenation, so the kept elements stay in
      their original order. */
  lemma {:induction false} FilterAppend<T>(xs: seq<T>, ys: seq<T>, keep: T -> bool)
    ensures Filter(xs + ys, keep) == Filter(xs, keep) + Filter(ys, keep)
    decreases |xs|
  {
    if xs == [] {
      assert xs + ys == ys;
    } else {
      FilterAppend(xs[1..], ys, keep);
      assert (xs + ys)[0] == xs[0];
      assert (xs + ys)[1..] == xs[1..] + ys;
    }
  }

  /** A list whose every element is accepted is kept whole. */
  lemma {:induction false} FilterAll<T>(xs: seq<T>, keep: T -> bool)
    requires forall k | 0 <= k < |xs| :: keep(xs[k])
    ensures Filter(xs, keep) == xs
    decreases |xs|
  {
    if xs != [] {
      assert keep(xs[0]);
      FilterAll(xs[1..], keep);
    }
  }

  /** `xs` is `ys` with some elements left out, the rest kept in order. */
  predicate IsSubsequence<T(==)>(xs: seq<T>, ys: seq<T>)
    decreases |ys|
  {
    if xs == [] then true
    else if ys == [] then false
    else (xs[0] == ys[0] && IsSubsequence(xs[1..], ys[1..])) || IsSubsequence(xs, ys[1..])
  }

  /** A filter's result is a subsequence of its input. */
  lemma {:induction false} FilterIsSubsequence<T>(xs: seq<T>, keep: T -> bool)
    ensures IsSubsequence(Filter(xs, keep), xs)
    decreases |xs|
  {
    if xs != [] {
      FilterIsSubsequence(xs[1..], keep);
      var r := Filter(xs, keep);
      if keep(xs[0]) {
        assert r[0] == xs[0] && r[1..] == Filter(xs[1..], keep);
      } else if r != [] {
        assert r == Filter(xs[1..], keep);
      }
    }
  }
}
