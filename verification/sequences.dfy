/** Lists built by appending a list for each element in turn. */
module Sequences {
  function FlatMap<A, B>(xs: seq<A>, f: A -> seq<B>): seq<B> {
    if xs == [] then [] else f(xs[0]) + FlatMap(xs[1..], f)
  }

  lemma {:induction false} FlatMapConcat<A, B>(xs: seq<A>, ys: seq<A>, f: A -> seq<B>)
    ensures FlatMap(xs + ys, f) == FlatMap(xs, f) + FlatMap(ys, f)
  {
    if xs == [] {
      assert xs + ys == ys;
    } else {
      assert (xs + ys)[1..] == xs[1..] + ys;
      FlatMapConcat(xs[1..], ys, f);
    }
  }

  lemma FlatMapAppend<A, B>(xs: seq<A>, x: A, f: A -> seq<B>)
    ensures FlatMap(xs + [x], f) == FlatMap(xs, f) + f(x)
  {
    FlatMapConcat(xs, [x], f);
    assert FlatMap([x], f) == f(x) + FlatMap([], f);
  }

  /** One turn of a loop that appends the list of each element to what it began with. */
  lemma FlatMapStep<A, B>(base: seq<B>, xs: seq<A>, k: nat, f: A -> seq<B>)
    requires k < |xs|
    ensures base + FlatMap(xs[..k], f) + f(xs[k]) == base + FlatMap(xs[..k + 1], f)
  {
    assert xs[..k + 1] == xs[..k] + [xs[k]];
    FlatMapAppend(xs[..k], xs[k], f);
  }

  lemma {:induction false} FlatMapRemove<A, B>(xs: seq<A>, x: A, f: A -> seq<B>) returns (rest: seq<A>)
    requires x in xs
    ensures multiset(rest) == multiset(xs) - multiset{x}
    ensures multiset(FlatMap(xs, f)) == multiset(f(x)) + multiset(FlatMap(rest, f))
  {
    assert xs == [xs[0]] + xs[1..];
    if xs[0] == x {
      rest := xs[1..];
    } else {
      var r := FlatMapRemove(xs[1..], x, f);
      rest := [xs[0]] + r;
    }
  }

  /** Permuting the elements permutes the result. */
  lemma {:induction false} FlatMapPermute<A, B>(xs: seq<A>, ys: seq<A>, f: A -> seq<B>)
    requires multiset(xs) == multiset(ys)
    ensures multiset(FlatMap(xs, f)) == multiset(FlatMap(ys, f))
  {
    if xs == [] {
      assert |multiset(ys)| == 0;
    } else {
      assert xs == [xs[0]] + xs[1..];
      assert xs[0] in multiset(ys);
      var rest := FlatMapRemove(ys, xs[0], f);
      assert multiset(xs[1..]) == multiset(rest);
      FlatMapPermute(xs[1..], rest, f);
    }
  }

  /** Equal lists of a set have the elements of the set, each once. */
  lemma ListOfSet<T>(xs: seq<T>, all: set<T>)
    requires multiset(xs) == multiset(all)
    ensures forall x :: x in xs <==> x in all
    ensures forall i, j :: 0 <= i < j < |xs| ==> xs[i] != xs[j]
  {
    forall x ensures x in xs <==> x in all {
      assert x in xs <==> x in multiset(xs);
    }
    forall i, j | 0 <= i < j < |xs| ensures xs[i] != xs[j] {
      assert xs == xs[..j] + [xs[j]] + xs[j + 1..];
      assert multiset(xs) == multiset(xs[..j]) + multiset{xs[j]} + multiset(xs[j + 1..]);
      assert xs[..j][i] == xs[i] && multiset(xs[..j])[xs[i]] > 0;
      assert multiset(all)[xs[j]] <= 1;
    }
  }
}
