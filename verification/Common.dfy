/** Options, step outcomes and sums over ranks shared by the other modules. */
module Common {

  datatype Option<+T> = None | Some(value: T)

  type Packet = seq<bv8>

  /** A task as it travels between ranks: its serialized arguments and the runnable that executes it. */
  datatype Bundle = Bundle(packet: Packet, runnableId: int)

  /** The result of one step of a protocol: a new state, or one of the source's "should not happen" throws. */
  datatype Outcome<+S> = Next(state: S) | Throws(reason: string)

  /** f(0) + ... + f(n - 1) */
  ghost function Sum(n: nat, f: nat -> int): int {
    if n == 0 then 0 else Sum(n - 1, f) + f(n - 1)
  }

  lemma {:induction false} SumSame(n: nat, f: nat -> int, g: nat -> int)
    requires forall q: nat | q < n :: f(q) == g(q)
    ensures Sum(n, f) == Sum(n, g)
  {
    if n > 0 {
      SumSame(n - 1, f, g);
    }
  }

  /** Changing one summand changes the sum by the difference. */
  lemma {:induction false} SumOne(n: nat, f: nat -> int, g: nat -> int, j: nat)
    requires j < n
    requires forall q: nat | q < n && q != j :: f(q) == g(q)
    ensures Sum(n, g) == Sum(n, f) + g(j) - f(j)
  {
    if j == n - 1 {
      SumSame(n - 1, f, g);
    } else {
      SumOne(n - 1, f, g, j);
    }
  }

  lemma {:induction false} SumNonNegative(n: nat, f: nat -> int)
    requires forall q: nat | q < n :: f(q) >= 0
    ensures Sum(n, f) >= 0
    ensures forall q: nat | q < n :: Sum(n, f) >= f(q)
  {
    if n > 0 {
      SumNonNegative(n - 1, f);
    }
  }

  /** Two summands together are no more than the sum. */
  lemma SumTwo(n: nat, f: nat -> int, i: nat, j: nat)
    requires i < n && j < n && i != j && forall q: nat | q < n :: f(q) >= 0
    ensures f(i) + f(j) <= Sum(n, f)
  {
    var g := (q: nat) => if q == i then 0 else f(q);
    SumOne(n, f, g, i);
    SumNonNegative(n, g);
    assert g(i) == 0 && g(j) == f(j);
  }

  /** A sum of naturals that is not zero has a summand that is not zero. */
  lemma {:induction false} SumPositive(n: nat, f: nat -> int) returns (q: nat)
    requires forall q: nat | q < n :: f(q) >= 0
    requires Sum(n, f) > 0
    ensures q < n && f(q) > 0
  {
    if f(n - 1) > 0 {
      q := n - 1;
    } else {
      q := SumPositive(n - 1, f);
    }
  }

  lemma {:induction false} SumZero(n: nat, f: nat -> int)
    requires forall q: nat | q < n :: f(q) == 0
    ensures Sum(n, f) == 0
  {
    if n > 0 {
      SumZero(n - 1, f);
    }
  }

  /** f(0) + ... + f(n - 1) for multisets */
  ghost function BagSum<T>(n: nat, f: nat -> multiset<T>): multiset<T> {
    if n == 0 then multiset{} else BagSum(n - 1, f) + f(n - 1)
  }

  lemma {:induction false} BagSumSame<T>(n: nat, f: nat -> multiset<T>, g: nat -> multiset<T>)
    requires forall q: nat | q < n :: f(q) == g(q)
    ensures BagSum(n, f) == BagSum(n, g)
  {
    if n > 0 {
      BagSumSame(n - 1, f, g);
    }
  }

  /** Changing one summand, stated without subtraction. */
  lemma {:induction false} BagSumOne<T>(n: nat, f: nat -> multiset<T>, g: nat -> multiset<T>, j: nat)
    requires j < n
    requires forall q: nat | q < n && q != j :: f(q) == g(q)
    ensures BagSum(n, g) + f(j) == BagSum(n, f) + g(j)
  {
    if j == n - 1 {
      BagSumSame(n - 1, f, g);
    } else {
      BagSumOne(n - 1, f, g, j);
      assert BagSum(n, g) + f(j) == (BagSum(n - 1, g) + f(j)) + g(n - 1);
    }
  }

  lemma {:induction false} BagSumEmpty<T>(n: nat, f: nat -> multiset<T>)
    requires forall q: nat | q < n :: f(q) == multiset{}
    ensures BagSum(n, f) == multiset{}
  {
    if n > 0 {
      BagSumEmpty(n - 1, f);
    }
  }

  /* ---------- division ---------- */

  lemma Quotient(x: int, b: int, q: int, r: int)
    requires b >= 1 && 0 <= r < b && x == b * q + r
    ensures x % b == r
  {
    assert b * (x / b) + x % b == x;
    assert b * (x / b - q) == r - x % b;
    Multiple(b, x / b - q);
  }

  lemma Multiple(b: int, d: int)
    requires b >= 1
    ensures d >= 1 ==> b * d >= b
    ensures d <= -1 ==> b * d <= -b
  {
  }
}
