/**
 * Arithmetic of a rotation: k positions, each held for S steps in turn.  The lemmas are
 * about any system whose state after n steps is described by at(n, position, used).
 */
module Rotation {
  /** m * S, by addition. */
  function Times(m: nat, S: nat): nat {
    if m == 0 then 0 else Times(m - 1, S) + S
  }

  lemma {:induction false} TimesIsProduct(m: nat, S: nat)
    ensures Times(m, S) == m * S
  {
    if m > 0 {
      TimesIsProduct(m - 1, S);
      assert m * S == (m - 1) * S + S;
    }
  }

  /** at(n, pos, used), as a term of its own for the quantifiers below to match on. */
  ghost predicate Holds(at: (nat, nat, nat) -> bool, n: nat, pos: nat, used: nat) {
    at(n, pos, used)
  }

  /** Each step uses up one unit of the current position; after S units the next position follows. */
  ghost predicate Rotates(at: (nat, nat, nat) -> bool, k: nat, S: nat) {
    && k >= 1 && S >= 1 && at(0, 0, 0)
    && (forall n: nat, pos: nat, used: nat {:trigger Holds(at, n, pos, used)} ::
          Holds(at, n, pos, used) && pos < k && used < S ==>
            if used + 1 < S then at(n + 1, pos, used + 1)
            else at(n + 1, if pos + 1 == k then 0 else pos + 1, 0))
  }

  /** The state after m full turns and u more steps. */
  lemma {:induction false} After(at: (nat, nat, nat) -> bool, k: nat, S: nat, m: nat, u: nat)
    requires Rotates(at, k, S) && m < k && u < S
    ensures at(Times(m, S) + u, m, u)
    decreases m, u
  {
    if u > 0 {
      After(at, k, S, m, u - 1);
      assert Holds(at, Times(m, S) + u - 1, m, u - 1);
    } else if m > 0 {
      After(at, k, S, m - 1, S - 1);
      assert Holds(at, Times(m, S) - 1, m - 1, S - 1);
    }
  }

  lemma Round(at: (nat, nat, nat) -> bool, k: nat, S: nat)
    requires Rotates(at, k, S)
    ensures at(Times(k, S), 0, 0)
  {
    After(at, k, S, k - 1, S - 1);
    assert Holds(at, Times(k, S) - 1, k - 1, S - 1);
  }

  /** How many of the first n steps were taken while `who` was t. */
  ghost function Share<T>(who: nat -> T, n: nat, t: T): nat {
    if n == 0 then 0 else Share(who, n - 1, t) + (if who(n - 1) == t then 1 else 0)
  }

  /** The share of position i after m full turns and u more steps. */
  lemma {:induction false} ShareAfter<T>(at: (nat, nat, nat) -> bool, who: nat -> T, name: seq<T>, S: nat,
                                         i: nat, m: nat, u: nat)
    requires Rotates(at, |name|, S) && i < |name| && m < |name| && u <= S
    requires forall n: nat, pos: nat, used: nat :: at(n, pos, used) && pos < |name| ==> who(n) == name[pos]
    requires forall x, y :: 0 <= x < y < |name| ==> name[x] != name[y]
    ensures Share(who, Times(m, S) + u, name[i]) == if i < m then S else if i == m then u else 0
    decreases m, u
  {
    if u > 0 {
      ShareAfter(at, who, name, S, i, m, u - 1);
      After(at, |name|, S, m, u - 1);
    } else if m > 0 {
      ShareAfter(at, who, name, S, i, m - 1, S);
    }
  }
}
