/** Bitwise operations on non-negative integers, and bitmaps that use every second bit. */
module Bits {

  function And(a: nat, b: nat): nat {
    if a == 0 then 0 else (if a % 2 == 1 && b % 2 == 1 then 1 else 0) + 2 * And(a / 2, b / 2)
  }

  function Or(a: nat, b: nat): nat
    decreases a + b
  {
    if a == 0 && b == 0 then 0 else (if a % 2 == 1 || b % 2 == 1 then 1 else 0) + 2 * Or(a / 2, b / 2)
  }

  /** The number of one bits. */
  function Pop(x: nat): nat {
    if x == 0 then 0 else x % 2 + Pop(x / 2)
  }

  lemma {:induction false} AndSelf(x: nat)
    ensures And(x, x) == x
  {
    if x != 0 {
      AndSelf(x / 2);
    }
  }

  /** x & (x - 1) drops the lowest one bit. */
  lemma {:induction false} DropLowest(x: nat)
    requires x > 0
    ensures Pop(And(x, x - 1)) == Pop(x) - 1 && And(x, x - 1) < x
  {
    if x % 2 == 1 {
      assert (x - 1) / 2 == x / 2;
      AndSelf(x / 2);
      assert And(x, x - 1) == 2 * (x / 2);
    } else {
      assert (x - 1) / 2 == x / 2 - 1;
      DropLowest(x / 2);
      assert And(x, x - 1) == 2 * And(x / 2, x / 2 - 1);
    }
  }

  // ---- every second bit ---------------------------------------------------------------------------------------

  /** Bit 2 * j. */
  predicate EvenBit(x: nat, j: nat) {
    if j == 0 then x % 2 == 1 else EvenBit(x / 4, j - 1)
  }

  /** Only the bits 0, 2, ..., 2 * n - 2 may be set. */
  predicate Sparse(x: nat, n: nat) {
    if n == 0 then x == 0 else x / 2 % 2 == 0 && Sparse(x / 4, n - 1)
  }

  /** All of these bits. */
  function Ones(n: nat): nat {
    if n == 0 then 0 else 1 + 4 * Ones(n - 1)
  }

  lemma Ones16()
    ensures Ones(16) == 0x5555_5555
  {
    assert Ones(2) == 0x5;
    assert Ones(4) == 0x55;
    assert Ones(6) == 0x555;
    assert Ones(8) == 0x5555;
    assert Ones(10) == 0x5_5555;
    assert Ones(12) == 0x55_5555;
    assert Ones(14) == 0x555_5555;
  }

  lemma {:induction false} OnesBits(n: nat, j: nat)
    requires j < n
    ensures EvenBit(Ones(n), j)
  {
    OnesStep(Ones(n), n);
    if j > 0 {
      OnesBits(n - 1, j - 1);
    }
  }

  lemma OnesStep(m: nat, n: nat)
    requires n > 0 && m == Ones(n)
    ensures m / 4 == Ones(n - 1) && m % 2 == 1 && m / 2 % 2 == 0
  {
    OddQuarter(Ones(n - 1));
  }

  lemma OddQuarter(k: nat)
    ensures (1 + 4 * k) / 4 == k && (1 + 4 * k) % 2 == 1 && (1 + 4 * k) / 2 % 2 == 0
  {
    assert (1 + 4 * k) / 2 == 2 * k;
  }

  lemma AndTwice(a: nat, b: nat)
    ensures And(a, b) / 2 == And(a / 2, b / 2) && And(a, b) / 4 == And(a / 4, b / 4)
    ensures And(a, b) % 2 == 1 <==> a % 2 == 1 && b % 2 == 1
  {
    assert a / 2 / 2 == a / 4 && b / 2 / 2 == b / 4;
    assert And(a, b) / 2 == And(a / 2, b / 2);
    assert And(a / 2, b / 2) / 2 == And(a / 2 / 2, b / 2 / 2);
  }

  lemma OrTwice(a: nat, b: nat)
    ensures Or(a, b) / 2 == Or(a / 2, b / 2) && Or(a, b) / 4 == Or(a / 4, b / 4)
    ensures Or(a, b) % 2 == 1 <==> a % 2 == 1 || b % 2 == 1
  {
    assert a / 2 / 2 == a / 4 && b / 2 / 2 == b / 4;
    assert Or(a, b) / 2 == Or(a / 2, b / 2);
    assert Or(a / 2, b / 2) / 2 == Or(a / 2 / 2, b / 2 / 2);
  }

  lemma {:induction false} AndBit(a: nat, b: nat, j: nat)
    ensures EvenBit(And(a, b), j) <==> EvenBit(a, j) && EvenBit(b, j)
    decreases j
  {
    AndTwice(a, b);
    if j > 0 {
      AndBit(a / 4, b / 4, j - 1);
    }
  }

  lemma {:induction false} OrBit(a: nat, b: nat, j: nat)
    ensures EvenBit(Or(a, b), j) <==> EvenBit(a, j) || EvenBit(b, j)
    decreases j
  {
    OrTwice(a, b);
    if j > 0 {
      OrBit(a / 4, b / 4, j - 1);
    }
  }

  lemma {:induction false} OnesSparse(x: nat, n: nat)
    ensures Sparse(And(x, Ones(n)), n)
    decreases n
  {
    AndTwice(x, Ones(n));
    if n > 0 {
      OnesStep(Ones(n), n);
      AndTwice(x / 2, Ones(n) / 2);
      OnesSparse(x / 4, n - 1);
    } else {
      AndZero(x);
    }
  }

  lemma {:induction false} AndZero(x: nat)
    ensures And(x, 0) == 0
  {
    if x != 0 {
      AndZero(x / 2);
    }
  }

  lemma {:induction false} AndSparse(a: nat, b: nat, n: nat)
    requires Sparse(a, n)
    ensures Sparse(And(a, b), n)
    decreases n
  {
    if n > 0 {
      AndTwice(a, b);
      AndTwice(a / 2, b / 2);
      AndSparse(a / 4, b / 4, n - 1);
    }
  }

  lemma {:induction false} OrSparse(a: nat, b: nat, n: nat)
    requires Sparse(a, n) && Sparse(b, n)
    ensures Sparse(Or(a, b), n)
    decreases n
  {
    if n > 0 {
      OrTwice(a, b);
      OrTwice(a / 2, b / 2);
      OrSparse(a / 4, b / 4, n - 1);
    }
  }

  /** One bit of a sparse number and the others. */
  lemma PopSparse(x: nat, n: nat)
    requires n > 0 && Sparse(x, n)
    ensures Pop(x) == x % 2 + Pop(x / 4)
  {
    assert x / 2 / 2 == x / 4;
    assert Pop(x) == x % 2 + Pop(x / 2);
  }

  lemma {:induction false} NoBits(x: nat, n: nat)
    requires Sparse(x, n) && Pop(x) == 0
    ensures x == 0
  {
    if x != 0 {
      PopSparse(x, n);
      NoBits(x / 4, n - 1);
    }
  }

  lemma {:induction false} ZeroBit(j: nat)
    ensures !EvenBit(0, j)
  {
    if j > 0 {
      ZeroBit(j - 1);
    }
  }

  /** population: count the one bits by dropping one after the other. */
  method Population(n: nat) returns (pop: nat)
    ensures pop == Pop(n)
  {
    pop := 0;
    var x := n;
    while x != 0
      invariant pop + Pop(x) == Pop(n)
      decreases x
    {
      DropLowest(x);
      pop := pop + 1;
      x := And(x, x - 1);
    }
  }
}
