/** Generic sequence operations the model is written with, and their laws. */
module Sequences {

  /** Concatenation of a sequence of sequences. */
  function Flatten<T>(ss: seq<seq<T>>): (r: seq<T>)
  {
    if ss == [] then [] else ss[0] + Flatten(ss[1..])
  }

  /** `f(xs[0]) + f(xs[1]) + ...`: a loop that appends `f(x)` for every `x`. */
  function ConcatMap<A, B>(f: A -> seq<B>, xs: seq<A>): (r: seq<B>)
  {
    if xs == [] then [] else f(xs[0]) + ConcatMap(f, xs[1..])
  }

  /** `n` copies of `x`. */
  function Repeat<T>(x: T, n: nat): (r: seq<T>)
    ensures |r| == n
    ensures forall i :: 0 <= i < n ==> r[i] == x
  {
    if n == 0 then [] else [x] + Repeat(x, n - 1)
  }

  lemma {:induction false} ConcatMapAppend<A, B>(f: A -> seq<B>, xs: seq<A>, ys: seq<A>)
    ensures ConcatMap(f, xs + ys) == ConcatMap(f, xs) + ConcatMap(f, ys)
  {
    if xs == [] {
      assert xs + ys == ys;
    } else {
      assert (xs + ys)[1..] == xs[1..] + ys;
      ConcatMapAppend(f, xs[1..], ys);
    }
  }

  /** One more element at the end appends its image: the step of an append loop. */
  lemma {:induction false} ConcatMapSnoc<A, B>(f: A -> seq<B>, xs: seq<A>, i: nat)
    requires i < |xs|
    ensures ConcatMap(f, xs[..i + 1]) == ConcatMap(f, xs[..i]) + f(xs[i])
  {
    assert xs[..i + 1] == xs[..i] + [xs[i]];
    ConcatMapAppend(f, xs[..i], [xs[i]]);
    assert ConcatMap(f, [xs[i]]) == f(xs[i]) + ConcatMap(f, []);
  }

  /** Mapping over a flattened sequence is mapping group by group. */
  lemma {:induction false} ConcatMapFlatten<A, B>(f: A -> seq<B>, ss: seq<seq<A>>)
    ensures ConcatMap(f, Flatten(ss)) == ConcatMap((s: seq<A>) => ConcatMap(f, s), ss)
  {
    if ss != [] {
      ConcatMapFlatten(f, ss[1..]);
      ConcatMapAppend(f, ss[0], Flatten(ss[1..]));
    }
  }

  /** Removing the element at `j` removes one occurrence of it from the multiset. */
  lemma {:induction false} RemoveAt<A>(ys: seq<A>, j: nat)
    requires j < |ys|
    ensures multiset(ys[..j] + ys[j + 1..]) == multiset(ys) - multiset{ys[j]}
  {
    assert ys == ys[..j] + [ys[j]] + ys[j + 1..];
  }

  /** Cutting `ys` around position `j` cuts its image the same way. */
  lemma {:induction false} ConcatMapSplitAt<A, B>(f: A -> seq<B>, ys: seq<A>, j: nat)
    requires j < |ys|
    ensures ConcatMap(f, ys) == ConcatMap(f, ys[..j]) + f(ys[j]) + ConcatMap(f, ys[j + 1..])
  {
    var pre, x, post := ys[..j], ys[j], ys[j + 1..];
    var tail := [x] + post;
    assert ys == pre + tail;
    ConcatMapAppend(f, pre, tail);
    assert tail[0] == x && tail[1..] == post;
    assert ConcatMap(f, tail) == f(x) + ConcatMap(f, post);
    AppendAssoc(ConcatMap(f, pre), f(x), ConcatMap(f, post));
  }

  /** The image of `ys` is the image of `ys[j]` plus the image of the rest. */
  lemma {:induction false} ConcatMapRemoveAt<A, B>(f: A -> seq<B>, ys: seq<A>, j: nat)
    requires j < |ys|
    ensures multiset(ConcatMap(f, ys)) == multiset(f(ys[j])) + multiset(ConcatMap(f, ys[..j] + ys[j + 1..]))
  {
    ConcatMapSplitAt(f, ys, j);
    ConcatMapAppend(f, ys[..j], ys[j + 1..]);
    var a, b, c := ConcatMap(f, ys[..j]), f(ys[j]), ConcatMap(f, ys[j + 1..]);
    assert multiset(a + b + c) == multiset(a) + multiset(b) + multiset(c);
    assert multiset(a + c) == multiset(a) + multiset(c);
  }

  /** The multiset of what `ConcatMap` produces does not depend on the order of its input. */
  lemma {:induction false} ConcatMapPermutation<A, B>(f: A -> seq<B>, xs: seq<A>, ys: seq<A>)
    requires multiset(xs) == multiset(ys)
    ensures multiset(ConcatMap(f, xs)) == multiset(ConcatMap(f, ys))
  {
    if xs != [] {
      var x := xs[0];
      var j := IndexOf(ys, x);
      var rest := ys[..j] + ys[j + 1..];
      RemoveAt(ys, j);
      assert xs == [x] + xs[1..];
      assert multiset(xs[1..]) == multiset(xs) - multiset{x};
      ConcatMapPermutation(f, xs[1..], rest);
      ConcatMapRemoveAt(f, ys, j);
      var head, tail := f(x), ConcatMap(f, xs[1..]);
      assert ConcatMap(f, xs) == head + tail;
      assert multiset(head + tail) == multiset(head) + multiset(tail);
    }
  }

  /** A position at which an element of the multiset of `ys` occurs. */
  lemma {:induction false} IndexOf<A>(ys: seq<A>, x: A) returns (j: nat)
    requires x in multiset(ys)
    ensures j < |ys| && ys[j] == x
  {
    assert x in ys;
    j :| 0 <= j < |ys| && ys[j] == x;
  }

  /** Group-wise, if each group's image is permuted, the whole image is permuted. */
  lemma {:induction false} ConcatMapPointwisePermutation<A, B>(f: A -> seq<B>, g: A -> seq<B>, xs: seq<A>)
    requires forall x :: x in xs ==> multiset(f(x)) == multiset(g(x))
    ensures multiset(ConcatMap(f, xs)) == multiset(ConcatMap(g, xs))
  {
    if xs != [] {
      assert xs[0] in xs;
      assert forall x :: x in xs[1..] ==> x in xs;
      ConcatMapPointwisePermutation(f, g, xs[1..]);
    }
  }

  /** Number of occurrences of `x` in a sequence without duplicates. */
  lemma {:induction false} DistinctCount<T>(xs: seq<T>, x: T)
    requires forall i, j :: 0 <= i < j < |xs| ==> xs[i] != xs[j]
    ensures multiset(xs)[x] == if x in xs then 1 else 0
  {
    if xs != [] {
      assert xs == [xs[0]] + xs[1..];
      assert forall i, j :: 0 <= i < j < |xs[1..]| ==> xs[1..][i] == xs[i + 1] && xs[1..][j] == xs[j + 1];
      DistinctCount(xs[1..], x);
    }
  }

  /** Pointwise-equal functions have equal images. */
  lemma {:induction false} ConcatMapCongruence<A, B>(f: A -> seq<B>, g: A -> seq<B>, xs: seq<A>)
    requires forall x :: x in xs ==> f(x) == g(x)
    ensures ConcatMap(f, xs) == ConcatMap(g, xs)
  {
    if xs != [] {
      assert xs[0] in xs;
      assert forall x :: x in xs[1..] ==> x in xs;
      ConcatMapCongruence(f, g, xs[1..]);
    }
  }

  /** Concatenation is associative; stated once so that append loops need not rediscover it. */
  lemma {:induction false} AppendAssoc<T>(a: seq<T>, b: seq<T>, c: seq<T>)
    ensures (a + b) + c == a + (b + c)
  {
  }

  /** Occurrences in a concatenation add up. */
  lemma {:induction false} CountAppend<T>(a: seq<T>, b: seq<T>, x: T)
    ensures multiset(a + b)[x] == multiset(a)[x] + multiset(b)[x]
  {
  }

  /** Occurrences in a non-empty sequence: the head's, plus the tail's. */
  lemma {:induction false} CountCons<T>(xs: seq<T>, x: T)
    requires xs != []
    ensures multiset(xs)[x] == (if xs[0] == x then 1 else 0) + multiset(xs[1..])[x]
  {
    assert xs == [xs[0]] + xs[1..];
  }

  lemma {:induction false} EmptyAppend<T>(a: seq<T>)
    ensures [] + a == a
  {
  }

  /** `ConcatMap` over a list of eight, spelt out. */
  lemma {:induction false} ConcatMapOfEight<A, B>(f: A -> seq<B>, ks: seq<A>)
    requires |ks| == 8
    ensures ConcatMap(f, ks) == f(ks[0]) + f(ks[1]) + f(ks[2]) + f(ks[3]) + f(ks[4]) + f(ks[5]) + f(ks[6]) + f(ks[7])
  {
    ConcatMapOfTwo(f, ks[..2]);
    ConcatMapOfTwo(f, ks[2..4]);
    ConcatMapOfTwo(f, ks[4..6]);
    ConcatMapOfTwo(f, ks[6..]);
    assert ks[..4] == ks[..2] + ks[2..4];
    assert ks[4..] == ks[4..6] + ks[6..];
    assert ks == ks[..4] + ks[4..];
    ConcatMapAppend(f, ks[..2], ks[2..4]);
    ConcatMapAppend(f, ks[4..6], ks[6..]);
    ConcatMapAppend(f, ks[..4], ks[4..]);
    var a, b, c, d := f(ks[0]) + f(ks[1]), f(ks[2]) + f(ks[3]), f(ks[4]) + f(ks[5]), f(ks[6]) + f(ks[7]);
    assert ConcatMap(f, ks) == (a + b) + (c + d);
  }

  lemma {:induction false} ConcatMapOfTwo<A, B>(f: A -> seq<B>, ks: seq<A>)
    requires |ks| == 2
    ensures ConcatMap(f, ks) == f(ks[0]) + f(ks[1])
  {
    assert ConcatMap(f, ks) == f(ks[0]) + ConcatMap(f, ks[1..]);
    assert ConcatMap(f, ks[1..]) == f(ks[1]) + ConcatMap(f, ks[1..][1..]);
    assert ks[1..][1..] == [];
  }
}
