/** Sequence helpers over function values, so that proofs about them never unfold the
    function applied. */
module Seqs {
  import opened Wrappers

  /** One element put in front of a short display, or of a display followed by more. */
  lemma PrependOne<T>(x: T, y: T, z: T, w: seq<T>)
    ensures [x] + [y] == [x, y]
    ensures [x] + [y, z] == [x, y, z]
    ensures [x] + ([y, z] + w) == [x, y, z] + w
  {
    assert [x] + ([y, z] + w) == ([x] + [y, z]) + w;
  }

  /** Concatenation of four pieces, regrouped to the right. */
  lemma FourNested<T>(a: seq<T>, b: seq<T>, c: seq<T>, d: seq<T>)
    ensures a + b + c + d == a + (b + (c + d))
  {
  }

  /** Concatenation of seven pieces, regrouped to the right. */
  lemma SevenNested<T>(a: seq<T>, b: seq<T>, c: seq<T>, d: seq<T>, e: seq<T>, f: seq<T>, g: seq<T>)
    ensures a + b + c + d + e + f + g == a + (b + (c + (d + (e + (f + g)))))
  {
  }

  /** Concatenation of eight pieces, regrouped to the right. */
  lemma RightNested<T>(a: seq<T>, b: seq<T>, c: seq<T>, d: seq<T>, e: seq<T>, f: seq<T>, g: seq<T>, h: seq<T>)
    ensures a + b + c + d + e + f + g + h == a + (b + (c + (d + (e + (f + (g + h))))))
  {
  }

  /** `f` applied to each element, in order. */
  function Map<T, U>(f: T -> U, xs: seq<T>): (ys: seq<U>)
    ensures |ys| == |xs|
  {
    if xs == [] then [] else Map(f, xs[..|xs| - 1]) + [f(xs[|xs| - 1])]
  }

  lemma MapStep<T, U>(f: T -> U, xs: seq<T>, i: nat)
    requires i < |xs|
    ensures Map(f, xs[..i + 1]) == Map(f, xs[..i]) + [f(xs[i])]
  {
    assert xs[..i + 1][..i] == xs[..i];
  }

  lemma {:induction false} MapTail<T, U>(f: T -> U, xs: seq<T>)
    requires xs != []
    ensures Map(f, xs)[0] == f(xs[0])
    ensures Map(f, xs)[1..] == Map(f, xs[1..])
    decreases |xs|
  {
    var init := xs[..|xs| - 1];
    if |xs| == 1 {
      assert init == [] && xs[1..] == [];
    } else {
      MapTail(f, init);
      assert init[0] == xs[0];
      assert xs[1..][..|xs| - 2] == init[1..];
      assert xs[1..][|xs| - 2] == xs[|xs| - 1];
    }
  }

  /** The present results of `f` on the elements, in order. */
  function Somes<T, U>(f: T -> Option<U>, xs: seq<T>): seq<U> {
    if xs == [] then []
    else
      var init := Somes(f, xs[..|xs| - 1]);
      var r := f(xs[|xs| - 1]);
      if r.Some? then init + [r.value] else init
  }

  lemma SomesStep<T, U>(f: T -> Option<U>, xs: seq<T>, i: nat)
    requires i < |xs|
    ensures Somes(f, xs[..i + 1])
         == Somes(f, xs[..i]) + (if f(xs[i]).Some? then [f(xs[i]).value] else [])
  {
    assert xs[..i + 1][..i] == xs[..i];
  }

  /** Every element of `Somes(f, xs)` is the result of `f` on some element of `xs`. */
  lemma {:induction false} SomesFrom<T, U>(f: T -> Option<U>, xs: seq<T>, u: U)
    requires u in Somes(f, xs)
    ensures exists i :: 0 <= i < |xs| && f(xs[i]) == Some(u)
    decreases |xs|
  {
    var n := |xs| - 1;
    if u in Somes(f, xs[..n]) {
      SomesFrom(f, xs[..n], u);
      var i :| 0 <= i < n && f(xs[..n][i]) == Some(u);
      assert xs[..n][i] == xs[i];
    } else {
      assert f(xs[n]) == Some(u);
    }
  }

  lemma {:induction false} SomesLength<T, U>(f: T -> Option<U>, xs: seq<T>)
    ensures |Somes(f, xs)| <= |xs|
    decreases |xs|
  {
    if xs != [] {
      SomesLength(f, xs[..|xs| - 1]);
    }
  }

  lemma {:induction false} SomesAppend<T, U>(f: T -> Option<U>, a: seq<T>, b: seq<T>)
    ensures Somes(f, a + b) == Somes(f, a) + Somes(f, b)
    decreases |b|
  {
    if b == [] {
      assert a + b == a;
    } else {
      var init := b[..|b| - 1];
      SomesAppend(f, a, init);
      assert (a + b)[..|a + b| - 1] == a + init;
      assert (a + b)[|a + b| - 1] == b[|b| - 1];
    }
  }
}
