/** In-order images of sequences under a partial function, as a filtering loop builds them. */
module Filtering {
  import opened Basics

  /** At most the first `n` elements. */
  function Capped<T>(xs: seq<T>, n: nat): (ys: seq<T>)
    ensures ys <= xs && |ys| == if |xs| > n then n else |xs|
  {
    if |xs| > n then xs[..n] else xs
  }

  /** The images of the elements that have one, in order. */
  function Images<A, B>(f: A -> Option<B>, xs: seq<A>): seq<B>
  {
    if xs == [] then []
    else
      var last := f(xs[|xs| - 1]);
      Images(f, xs[..|xs| - 1]) + if last.Some? then [last.value] else []
  }

  predicate AllHaveImages<A, B>(f: A -> Option<B>, xs: seq<A>)
  {
    forall i :: 0 <= i < |xs| ==> f(xs[i]).Some?
  }

  predicate All<A>(p: A -> bool, xs: seq<A>)
  {
    forall i :: 0 <= i < |xs| ==> p(xs[i])
  }

  lemma AllSnoc<A>(p: A -> bool, xs: seq<A>, i: nat)
    requires i < |xs|
    ensures All(p, xs[..i + 1]) <==> All(p, xs[..i]) && p(xs[i])
    ensures All(p, xs) ==> All(p, xs[..i])
  {
    var more := xs[..i + 1];
    assert more[i] == xs[i] && forall k :: 0 <= k < i ==> more[k] == xs[..i][k];
  }

  lemma ImagesSnoc<A, B>(f: A -> Option<B>, xs: seq<A>, i: nat)
    requires i < |xs|
    ensures Images(f, xs[..i + 1]) == Images(f, xs[..i]) + if f(xs[i]).Some? then [f(xs[i]).value] else []
  {
    assert xs[..i + 1][..i] == xs[..i];
  }

  /** If every element has an image, nothing is left out. */
  lemma {:induction false} ImagesWhole<A, B>(f: A -> Option<B>, xs: seq<A>)
    requires AllHaveImages(f, xs)
    ensures |Images(f, xs)| == |xs| && forall i :: 0 <= i < |xs| ==> Images(f, xs)[i] == f(xs[i]).value
  {
    if xs != [] { ImagesWhole(f, xs[..|xs| - 1]); }
  }

  lemma {:induction false} ImagesShort<A, B>(f: A -> Option<B>, xs: seq<A>)
    ensures |Images(f, xs)| <= |xs|
  {
    if xs != [] { ImagesShort(f, xs[..|xs| - 1]); }
  }

  lemma {:induction false} ImagesPrefix<A, B>(f: A -> Option<B>, xs: seq<A>, n: nat)
    requires n <= |xs|
    ensures Images(f, xs[..n]) <= Images(f, xs)
  {
    if n == |xs| {
      assert xs[..n] == xs;
    } else {
      ImagesPrefix(f, xs[..|xs| - 1], n);
      assert xs[..|xs| - 1][..n] == xs[..n];
    }
  }
}
