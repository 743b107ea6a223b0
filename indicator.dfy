/**
 * The bitmask status object used twice per session (required steps and
 * completed steps). Its implementation file is not part of this model; it
 * is modelled from its call sites: `check(m)` holds iff every bit of `m` is
 * set, `set(b)` ORs `b` in and `init(m = 0)` replaces the value.
 */
module Indicator {

  function Pow2(k: nat): (r: nat)
    ensures r >= 1
  {
    if k == 0 then 1 else 2 * Pow2(k - 1)
  }

  /** Bit `i` of `v`. */
  predicate TestBit(v: nat, i: nat)
    decreases i
  {
    if i == 0 then v % 2 == 1 else TestBit(v / 2, i - 1)
  }

  /** Bitwise OR of two non-negative integers. */
  function Or(a: nat, b: nat): nat
    decreases a + b
  {
    if a == 0 then b
    else if b == 0 then a
    else 2 * Or(a / 2, b / 2) + (if a % 2 == 1 || b % 2 == 1 then 1 else 0)
  }

  /** Bitwise AND of two non-negative integers. */
  function And(a: nat, b: nat): nat
    decreases a + b
  {
    if a == 0 || b == 0 then 0
    else 2 * And(a / 2, b / 2) + (if a % 2 == 1 && b % 2 == 1 then 1 else 0)
  }

  /** `check(m)`: every bit of `m` is set in `v`. */
  predicate Check(v: nat, m: nat) {
    And(v, m) == m
  }

  /** `set(b)`: OR `b` into the value. */
  function Set(v: nat, b: nat): nat {
    Or(v, b)
  }

  /** `init(m = 0)`: replace the value. */
  function Init(m: nat := 0): nat {
    m
  }

  lemma {:induction false} ZeroHasNoBits(i: nat)
    ensures !TestBit(0, i)
    decreases i
  {
    if i > 0 {
      ZeroHasNoBits(i - 1);
    }
  }

  lemma HalfOfDouble(x: nat, c: nat)
    requires c < 2
    ensures (2 * x + c) / 2 == x && (2 * x + c) % 2 == c
  {
  }

  lemma {:induction false} TestBitOr(a: nat, b: nat, i: nat)
    ensures TestBit(Or(a, b), i) <==> TestBit(a, i) || TestBit(b, i)
    decreases a + b
  {
    if a == 0 || b == 0 {
      ZeroHasNoBits(i);
    } else {
      var c := if a % 2 == 1 || b % 2 == 1 then 1 else 0;
      HalfOfDouble(Or(a / 2, b / 2), c);
      if i > 0 {
        TestBitOr(a / 2, b / 2, i - 1);
      }
    }
  }

  lemma {:induction false} TestBitAnd(a: nat, b: nat, i: nat)
    ensures TestBit(And(a, b), i) <==> TestBit(a, i) && TestBit(b, i)
    decreases a + b
  {
    if a == 0 || b == 0 {
      ZeroHasNoBits(i);
    } else {
      var c := if a % 2 == 1 && b % 2 == 1 then 1 else 0;
      HalfOfDouble(And(a / 2, b / 2), c);
      if i > 0 {
        TestBitAnd(a / 2, b / 2, i - 1);
      }
    }
  }

  /** Two masks with the same bits are equal. */
  lemma {:induction false} BitsDetermineValue(a: nat, b: nat)
    requires forall i: nat :: TestBit(a, i) == TestBit(b, i)
    ensures a == b
    decreases a + b
  {
    if a != 0 || b != 0 {
      assert TestBit(a, 0) == TestBit(b, 0);
      forall i: nat ensures TestBit(a / 2, i) == TestBit(b / 2, i) {
        assert TestBit(a, i + 1) == TestBit(b, i + 1);
      }
      BitsDetermineValue(a / 2, b / 2);
    }
  }

  /** Every bit of `m` is a bit of `v`. */
  ghost predicate BitsWithin(m: nat, v: nat) {
    forall i: nat :: TestBit(m, i) ==> TestBit(v, i)
  }

  /** `check(m)` holds iff every bit of `m` is a bit of `v`. */
  lemma CheckIsSubset(v: nat, m: nat)
    ensures Check(v, m) <==> BitsWithin(m, v)
  {
    forall i: nat ensures TestBit(And(v, m), i) <==> TestBit(v, i) && TestBit(m, i) {
      TestBitAnd(v, m, i);
    }
    if BitsWithin(m, v) {
      BitsDetermineValue(And(v, m), m);
    } else {
      var i: nat :| TestBit(m, i) && !TestBit(v, i);
      assert TestBit(And(v, m), i) != TestBit(m, i);
    }
  }

  lemma {:induction false} Pow2Bits(k: nat, i: nat)
    ensures TestBit(Pow2(k), i) <==> i == k
    decreases k
  {
    if k == 0 {
      if i > 0 {
        ZeroHasNoBits(i - 1);
      }
    } else if i > 0 {
      Pow2Bits(k - 1, i - 1);
    }
  }

  /** Checking a single-bit mask tests that bit. */
  lemma CheckSingleBit(v: nat, k: nat)
    ensures Check(v, Pow2(k)) <==> TestBit(v, k)
  {
    CheckIsSubset(v, Pow2(k));
    forall i: nat {
      Pow2Bits(k, i);
    }
  }

  /** `set` never clears a bit, and the bit it sets is then present. */
  lemma SetMonotone(v: nat, b: nat, m: nat)
    ensures Check(Set(v, b), b)
    ensures Check(v, m) ==> Check(Set(v, b), m)
  {
    CheckIsSubset(Set(v, b), b);
    CheckIsSubset(Set(v, b), m);
    CheckIsSubset(v, m);
    forall i: nat {
      TestBitOr(v, b, i);
    }
  }

  /** After `init(0)` no non-empty mask checks. */
  lemma InitClears(m: nat)
    ensures Check(Init(), m) <==> m == 0
  {
  }

  /** Setting one single-bit flag leaves every other single-bit check alone. */
  lemma SetSingleBit(v: nat, k: nat, j: nat)
    ensures Check(Set(v, Pow2(k)), Pow2(j)) <==> j == k || Check(v, Pow2(j))
  {
    CheckSingleBit(Set(v, Pow2(k)), j);
    CheckSingleBit(v, j);
    TestBitOr(v, Pow2(k), j);
    Pow2Bits(k, j);
  }

  /** The single-bit facts the session state machine relies on, for all masks. */
  lemma SingleBitFacts()
    ensures forall v: nat, k: nat, j: nat ::
      Check(Set(v, Pow2(k)), Pow2(j)) <==> j == k || Check(v, Pow2(j))
    ensures forall k: nat, j: nat :: Check(Pow2(k), Pow2(j)) <==> j == k
    ensures forall j: nat :: !Check(0, Pow2(j))
  {
    forall v: nat, k: nat, j: nat
      ensures Check(Set(v, Pow2(k)), Pow2(j)) <==> j == k || Check(v, Pow2(j))
    {
      SetSingleBit(v, k, j);
    }
    forall k: nat, j: nat ensures Check(Pow2(k), Pow2(j)) <==> j == k {
      SetSingleBit(0, k, j);
      InitClears(Pow2(j));
    }
    forall j: nat ensures !Check(0, Pow2(j)) {
      InitClears(Pow2(j));
    }
  }
}
