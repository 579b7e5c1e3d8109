/** `grouper`: fixed-size chunking of a list, as `zip_longest(*[iter(xs)] * n, fillvalue=pad)`. */
module Grouping {
  import opened Sequences
  import opened Arithmetic

  /** The groups of `n` consecutive elements of `xs`, the last one filled up with `pad`.
      For `n <= 0` the expression zips no iterators at all and yields nothing. */
  function Grouper<T>(n: int, xs: seq<T>, pad: T): (r: seq<seq<T>>)
    decreases |xs|
  {
    if n <= 0 || xs == [] then []
    else if |xs| <= n then [xs + Repeat(pad, n - |xs|)]
    else [xs[..n]] + Grouper(n, xs[n..], pad)
  }

  /** A non-positive width produces no groups, whatever the input. */
  lemma {:induction false} GrouperNonPositive<T>(n: int, xs: seq<T>, pad: T)
    requires n <= 0
    ensures Grouper(n, xs, pad) == []
  {
  }

  /** The number of groups and of fill values, counted the way `Grouper` consumes its input. */
  function Chunks(len: nat, n: int): (c: nat)
    requires n >= 1
  {
    if len == 0 then 0 else if len <= n then 1 else 1 + Chunks(len - n, n)
  }

  function Fill(len: nat, n: int): (f: nat)
    requires n >= 1
  {
    if len == 0 then 0 else if len <= n then n - len else Fill(len - n, n)
  }

  /** `Chunks` is `ceil(len / n)` and `Fill` is `(n - len % n) % n`. */
  lemma {:induction false} ChunksFillArithmetic(len: nat, n: int)
    requires n >= 1
    ensures Chunks(len, n) == (len + n - 1) / n
    ensures Fill(len, n) == (n - len % n) % n
  {
    ChunksArithmetic(len, n);
    FillArithmetic(len, n);
  }

  lemma {:induction false} ChunksArithmetic(len: nat, n: int)
    requires n >= 1
    ensures Chunks(len, n) == (len + n - 1) / n
    decreases len
  {
    if len == 0 {
      DivModUnique(n - 1, n, 0, n - 1);
    } else if len <= n {
      LastGroupArithmetic(len, n);
    } else {
      var m := len - n;
      ChunksArithmetic(m, n);
      assert Chunks(len, n) == 1 + Chunks(m, n);
      DivModShift(m + n - 1, n);
      assert len + n - 1 == (m + n - 1) + n;
    }
  }

  lemma {:induction false} FillArithmetic(len: nat, n: int)
    requires n >= 1
    ensures Fill(len, n) == (n - len % n) % n
    decreases len
  {
    if len == 0 {
      DivModUnique(0, n, 0, 0);
      DivModUnique(n, n, 1, 0);
    } else if len <= n {
      LastGroupArithmetic(len, n);
    } else {
      var m := len - n;
      FillArithmetic(m, n);
      assert Fill(len, n) == Fill(m, n);
      DivModShift(m, n);
      assert len == m + n;
    }
  }

  lemma {:induction false} LastGroupArithmetic(len: int, n: int)
    requires 0 < len <= n
    ensures (len + n - 1) / n == 1
    ensures (n - len % n) % n == n - len
  {
    DivModUnique(len + n - 1, n, 1, len - 1);
    if len == n {
      DivModUnique(len, n, 1, 0);
      DivModUnique(n - 0, n, 1, 0);
    } else {
      DivModUnique(len, n, 0, len);
      DivModUnique(n - len, n, 0, n - len);
    }
  }

  lemma {:induction false} GrouperShape<T>(n: int, xs: seq<T>, pad: T)
    requires n >= 1
    ensures |Grouper(n, xs, pad)| == Chunks(|xs|, n)
    ensures Flatten(Grouper(n, xs, pad)) == xs + Repeat(pad, Fill(|xs|, n))
    decreases |xs|
  {
    var r := Grouper(n, xs, pad);
    if xs == [] {
      assert xs + Repeat(pad, 0) == [];
    } else if |xs| <= n {
      var g := xs + Repeat(pad, n - |xs|);
      assert r == [g];
      assert Flatten(r) == g + Flatten(r[1..]);
      assert r[1..] == [];
      assert g + [] == g;
    } else {
      var rest := Grouper(n, xs[n..], pad);
      GrouperShape(n, xs[n..], pad);
      var pads := Repeat(pad, Fill(|xs|, n));
      assert r == [xs[..n]] + rest;
      assert r[0] == xs[..n] && r[1..] == rest;
      assert Flatten(r) == xs[..n] + Flatten(rest);
      AppendAssoc(xs[..n], xs[n..], pads);
      assert xs[..n] + xs[n..] == xs;
    }
  }

  /** There are `ceil(|xs| / n)` groups. */
  lemma {:induction false} GrouperCount<T>(n: int, xs: seq<T>, pad: T)
    requires n >= 1
    ensures |Grouper(n, xs, pad)| == (|xs| + n - 1) / n
  {
    GrouperShape(n, xs, pad);
    ChunksFillArithmetic(|xs|, n);
  }

  /** Every group has exactly `n` elements. */
  lemma {:induction false} GrouperWidth<T>(n: int, xs: seq<T>, pad: T)
    requires n >= 1
    ensures forall g :: g in Grouper(n, xs, pad) ==> |g| == n
    decreases |xs|
  {
    if xs != [] && |xs| > n {
      GrouperWidth(n, xs[n..], pad);
    }
  }

  /** Concatenating the groups gives back `xs` followed by the padding that fills the last group. */
  lemma {:induction false} GrouperFlatten<T>(n: int, xs: seq<T>, pad: T)
    requires n >= 1
    ensures Flatten(Grouper(n, xs, pad)) == xs + Repeat(pad, (n - |xs| % n) % n)
  {
    GrouperShape(n, xs, pad);
    ChunksFillArithmetic(|xs|, n);
  }
}
