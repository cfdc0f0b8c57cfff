/**
 * Iterating a step and folding it over a buffer, for any state type.  The laws are
 * stated for arbitrary functions so that the checksum proofs need bit-level reasoning
 * only about a single step.
 */
module Iteration {
  function Iter<T>(f: T -> T, x: T, n: nat): T {
    if n == 0 then x else f(Iter(f, x, n - 1))
  }

  /** A loop that takes the step n times. */
  method Repeat<T>(f: T -> T, x: T, n: nat) returns (r: T)
    ensures r == Iter(f, x, n)
  {
    r := x;
    var i := 0;
    while i < n
      invariant 0 <= i <= n && r == Iter(f, x, i)
    {
      r := f(r);
      i := i + 1;
    }
  }

  function Fold<T, B>(step: (T, B) -> T, x: T, p: seq<B>): T
    decreases p
  {
    if p == [] then x else Fold(step, step(x, p[0]), p[1..])
  }

  /** f maps sums to sums. */
  ghost predicate Linear<T(!new)>(f: T -> T, xor: (T, T) -> T) {
    forall a, b :: f(xor(a, b)) == xor(f(a), f(b))
  }

  lemma {:induction false} IterLinear<T(!new)>(f: T -> T, xor: (T, T) -> T, a: T, b: T, n: nat)
    requires Linear(f, xor)
    ensures Iter(f, xor(a, b), n) == xor(Iter(f, a, n), Iter(f, b, n))
  {
    if n > 0 { IterLinear(f, xor, a, b, n - 1); }
  }

  /** h carries steps of f to steps of g. */
  lemma {:induction false} IterMap<T(!new), U>(f: T -> T, g: U -> U, h: T -> U, x: T, n: nat)
    requires forall a :: h(f(a)) == g(h(a))
    ensures h(Iter(f, x, n)) == Iter(g, h(x), n)
  {
    if n > 0 { IterMap(f, g, h, x, n - 1); }
  }

  lemma {:induction false} FoldConcat<T, B>(step: (T, B) -> T, x: T, p: seq<B>, q: seq<B>)
    ensures Fold(step, x, p + q) == Fold(step, Fold(step, x, p), q)
    decreases p
  {
    if p == [] {
      assert p + q == q;
    } else {
      assert (p + q)[1..] == p[1..] + q;
      FoldConcat(step, step(x, p[0]), p[1..], q);
    }
  }

  /** Steps that agree everywhere fold to the same result. */
  lemma {:induction false} FoldSame<T(!new), B(!new)>(step: (T, B) -> T, step': (T, B) -> T, x: T, p: seq<B>)
    requires forall a, b :: step(a, b) == step'(a, b)
    ensures Fold(step, x, p) == Fold(step', x, p)
    decreases p
  {
    if p != [] { FoldSame(step, step', step(x, p[0]), p[1..]); }
  }

  function Zip<B>(f: (B, B) -> B, p: seq<B>, q: seq<B>): (r: seq<B>)
    requires |p| == |q|
    ensures |r| == |p| && forall i :: 0 <= i < |p| ==> r[i] == f(p[i], q[i])
  {
    seq(|p|, i requires 0 <= i < |p| => f(p[i], q[i]))
  }

  function Map<B, C>(f: B -> C, p: seq<B>): (r: seq<C>)
    ensures |r| == |p| && forall i :: 0 <= i < |p| ==> r[i] == f(p[i])
  {
    seq(|p|, i requires 0 <= i < |p| => f(p[i]))
  }

  lemma {:induction false} FoldLinear<T(!new), B(!new)>(
      step: (T, B) -> T, xor: (T, T) -> T, bxor: (B, B) -> B, c: T, d: T, p: seq<B>, q: seq<B>)
    requires |p| == |q|
    requires forall c, d, a, b :: step(xor(c, d), bxor(a, b)) == xor(step(c, a), step(d, b))
    ensures Fold(step, xor(c, d), Zip(bxor, p, q)) == xor(Fold(step, c, p), Fold(step, d, q))
    decreases p
  {
    if p != [] {
      assert Zip(bxor, p, q)[1..] == Zip(bxor, p[1..], q[1..]);
      FoldLinear(step, xor, bxor, step(c, p[0]), step(d, q[0]), p[1..], q[1..]);
    }
  }

  lemma {:induction false} FoldMap<T(!new), U, B(!new), C>(
      step: (T, B) -> T, step': (U, C) -> U, h: T -> U, g: B -> C, x: T, p: seq<B>)
    requires forall a, b :: h(step(a, b)) == step'(h(a), g(b))
    ensures h(Fold(step, x, p)) == Fold(step', h(x), Map(g, p))
    decreases p
  {
    if p != [] {
      assert Map(g, p)[1..] == Map(g, p[1..]);
      FoldMap(step, step', h, g, step(x, p[0]), p[1..]);
    }
  }

  /** If each step is injective in the state, different states stay different. */
  lemma {:induction false} FoldInjective<T(!new), B(!new)>(step: (T, B) -> T, x: T, y: T, p: seq<B>)
    requires forall a, a', b :: step(a, b) == step(a', b) ==> a == a'
    requires x != y
    ensures Fold(step, x, p) != Fold(step, y, p)
    decreases p
  {
    if p != [] { FoldInjective(step, step(x, p[0]), step(y, p[0]), p[1..]); }
  }

  lemma {:induction false} IterAdd<T>(f: T -> T, x: T, m: nat, n: nat)
    ensures Iter(f, Iter(f, x, m), n) == Iter(f, x, m + n)
  {
    if n > 0 { IterAdd(f, x, m, n - 1); }
  }

  lemma {:induction false} IterInjective<T(!new)>(f: T -> T, x: T, y: T, n: nat)
    requires forall a, b :: f(a) == f(b) ==> a == b
    requires x != y
    ensures Iter(f, x, n) != Iter(f, y, n)
  {
    if n > 0 { IterInjective(f, x, y, n - 1); }
  }

  /** The first of n steps, taken first. */
  lemma {:induction false} IterFirst<T>(f: T -> T, x: T, n: nat)
    requires n > 0
    ensures Iter(f, x, n) == Iter(f, f(x), n - 1)
  {
    if n > 1 { IterFirst(f, x, n - 1); }
  }
}
