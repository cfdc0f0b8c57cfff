/** FIFO lists of distinct tasks: what list_add_tail, list_del and the bitmap scan need. */
module Fifo {
  predicate Distinct<T(==)>(q: seq<T>) {
    forall i, j :: 0 <= i < j < |q| ==> q[i] != q[j]
  }

  /** list_del: the list without its first occurrence of `p`. */
  function Without<T(==)>(q: seq<T>, p: T): (r: seq<T>)
    ensures p in q ==> |r| == |q| - 1
    ensures p !in q ==> r == q
    ensures forall x :: x in r ==> x in q
    ensures forall x :: x in q && x != p ==> x in r
  {
    if q == [] then [] else if q[0] == p then q[1..] else [q[0]] + Without(q[1..], p)
  }

  lemma {:induction false} WithoutDistinct<T>(q: seq<T>, p: T)
    requires Distinct(q)
    ensures Distinct(Without(q, p)) && p !in Without(q, p)
  {
    if q != [] && q[0] != p {
      WithoutDistinct(q[1..], p);
      var r := Without(q[1..], p);
      forall i, j | 0 <= i < j < |r| + 1 ensures ([q[0]] + r)[i] != ([q[0]] + r)[j] {
        if i == 0 { assert r[j - 1] in q[1..]; }
      }
    }
  }

  lemma WithoutHead<T>(q: seq<T>)
    requires q != []
    ensures Without(q, q[0]) == q[1..]
  {
  }

  function Total<T>(qs: seq<seq<T>>): nat {
    if qs == [] then 0 else |qs[0]| + Total(qs[1..])
  }

  lemma {:induction false} TotalUpdate<T>(qs: seq<seq<T>>, b: nat, q: seq<T>)
    requires b < |qs|
    ensures Total(qs[b := q]) == Total(qs) - |qs[b]| + |q|
  {
    if b == 0 {
      assert qs[b := q][1..] == qs[1..];
    } else {
      assert qs[b := q][1..] == qs[1..][b - 1 := q];
      TotalUpdate(qs[1..], b - 1, q);
    }
  }

  lemma {:induction false} TotalZero<T>(qs: seq<seq<T>>)
    ensures Total(qs) == 0 <==> forall b :: 0 <= b < |qs| ==> qs[b] == []
  {
    if qs != [] {
      TotalZero(qs[1..]);
      if forall b :: 0 <= b < |qs| ==> qs[b] == [] {
        assert forall b :: 0 <= b < |qs[1..]| ==> qs[1..][b] == qs[b + 1];
      }
      if Total(qs) == 0 {
        forall b | 0 <= b < |qs| ensures qs[b] == [] {
          if b > 0 { assert qs[b] == qs[1..][b - 1]; }
        }
      }
    }
  }

  /** find_first_bit: the least set position, or the size of the map. */
  method FindFirstBit(bits: seq<bool>, size: nat) returns (b: nat)
    requires size <= |bits|
    ensures b == FirstSet(bits, size)
  {
    b := 0;
    while b < size && !bits[b]
      invariant 0 <= b <= size
      invariant forall i :: 0 <= i < b ==> !bits[i]
    {
      b := b + 1;
    }
    FirstSetIs(bits, size, b);
  }

  function FirstSet(bits: seq<bool>, size: nat): (b: nat)
    requires size <= |bits|
    ensures b <= size
  {
    if exists i :: 0 <= i < size && bits[i] then Least(bits, 0, size) else size
  }

  function Least(bits: seq<bool>, from: nat, size: nat): (b: nat)
    requires from < size <= |bits| && exists i :: from <= i < size && bits[i]
    ensures from <= b < size && bits[b] && forall i :: from <= i < b ==> !bits[i]
    decreases size - from
  {
    if bits[from] then from else Least(bits, from + 1, size)
  }

  lemma FirstSetIs(bits: seq<bool>, size: nat, b: nat)
    requires b <= size <= |bits|
    requires (b < size ==> bits[b]) && forall i :: 0 <= i < b ==> !bits[i]
    ensures FirstSet(bits, size) == b
  {
  }

  /** Moving or adding p to the tail keeps a list free of repetitions. */
  lemma AtTailDistinct<T>(q: seq<T>, p: T)
    requires Distinct(q)
    ensures Distinct(Without(q, p) + [p])
  {
    WithoutDistinct(q, p);
  }

  /** u stands in the list, ahead of v if v does too. */
  predicate Ahead<T(==)>(q: seq<T>, u: T, v: T) {
    u in q && forall i, j :: 0 <= i < |q| && 0 <= j < |q| && q[i] == u && q[j] == v ==> i < j
  }

  lemma AheadAppend<T>(q: seq<T>, u: T, v: T, p: T)
    requires Ahead(q, u, v) && p != u
    ensures Ahead(q + [p], u, v)
  {
  }

  lemma {:induction false} AheadWithout<T>(q: seq<T>, u: T, v: T, p: T)
    requires Ahead(q, u, v) && p != u && u != v && Distinct(q)
    ensures Ahead(Without(q, p), u, v)
  {
    if q[0] != p {
      var r := Without(q[1..], p);
      if q[0] == u {
        assert u !in q[1..];
      } else {
        assert v != q[0] by {
          var i :| 0 <= i < |q| && q[i] == u;
        }
        assert Ahead(q[1..], u, v);
        AheadWithout(q[1..], u, v, p);
        assert Without(q, p) == [q[0]] + r;
      }
    } else {
      assert Ahead(q[1..], u, v);
    }
  }
}
