/** Subsets of a small index range as bit masks: the bitwise operators on
    non-negative integers, and what they mean for membership. */
module Masks {

  function Bit(i: nat): (b: nat)
    ensures 0 < b
  {
    if i == 0 then 1 else 2 * Bit(i - 1)
  }

  predicate Has(m: nat, i: nat) {
    if i == 0 then m % 2 == 1 else Has(m / 2, i - 1)
  }

  function And(a: nat, b: nat): nat {
    if a == 0 then 0 else 2 * And(a / 2, b / 2) + (if a % 2 == 1 && b % 2 == 1 then 1 else 0)
  }

  function Or(a: nat, b: nat): nat
    decreases a + b
  {
    if a == 0 && b == 0 then 0 else 2 * Or(a / 2, b / 2) + (if a % 2 == 1 || b % 2 == 1 then 1 else 0)
  }

  function AndNot(a: nat, b: nat): nat {
    if a == 0 then 0 else 2 * AndNot(a / 2, b / 2) + (if a % 2 == 1 && b % 2 == 0 then 1 else 0)
  }

  lemma {:induction false} ZeroHasNone(i: nat)
    ensures !Has(0, i)
  {
    if i > 0 { ZeroHasNone(i - 1); }
  }

  lemma OrHalves(a: nat, b: nat)
    ensures (Or(a, b) % 2 == 1 <==> a % 2 == 1 || b % 2 == 1) && Or(a, b) / 2 == Or(a / 2, b / 2)
  {}

  lemma AndNotHalves(a: nat, b: nat)
    ensures (AndNot(a, b) % 2 == 1 <==> a % 2 == 1 && b % 2 == 0) && AndNot(a, b) / 2 == AndNot(a / 2, b / 2)
  {}

  lemma {:induction false} OrHas(a: nat, b: nat, i: nat)
    ensures Has(Or(a, b), i) <==> Has(a, i) || Has(b, i)
  {
    OrHalves(a, b);
    hide Or;
    if i > 0 { OrHas(a / 2, b / 2, i - 1); }
  }

  lemma {:induction false} AndNotHas(a: nat, b: nat, i: nat)
    ensures Has(AndNot(a, b), i) <==> Has(a, i) && !Has(b, i)
  {
    AndNotHalves(a, b);
    hide AndNot;
    if i > 0 { AndNotHas(a / 2, b / 2, i - 1); }
  }

  lemma {:induction false} BitHas(i: nat, j: nat)
    ensures Has(Bit(i), j) <==> i == j
  {
    if i == 0 && j > 0 {
      assert Bit(0) / 2 == 0;
      ZeroHasNone(j - 1);
    } else if i > 0 && j > 0 {
      BitHas(i - 1, j - 1);
    }
  }

  ghost predicate Within(a: nat, b: nat, n: nat) {
    forall i: nat :: i < n && Has(a, i) ==> Has(b, i)
  }

  lemma WithinHalves(a: nat, b: nat, n: nat)
    requires 0 < n && Within(a, b, n)
    ensures (a % 2 == 1 ==> b % 2 == 1) && Within(a / 2, b / 2, n - 1)
  {
    assert Has(a, 0) ==> Has(b, 0);
    forall i: nat | i < n - 1 && Has(a / 2, i)
      ensures Has(b / 2, i)
    {
      var k := i + 1;
      assert Has(a, k);
      assert Has(b, k);
    }
  }

  lemma HalvesWithin(a: nat, b: nat, n: nat)
    requires 0 < n && (a % 2 == 1 ==> b % 2 == 1) && Within(a / 2, b / 2, n - 1)
    ensures Within(a, b, n)
  {
    forall i: nat | i < n && Has(a, i)
      ensures Has(b, i)
    {
      if i > 0 {
        var k := i - 1;
        assert Has(a / 2, k);
        assert Has(b / 2, k);
      }
    }
  }

  /** `a & b == a` is inclusion. */
  lemma {:induction false} AndIsInclusion(a: nat, b: nat, n: nat)
    requires a < Bit(n)
    ensures And(a, b) == a <==> Within(a, b, n)
    decreases n
  {
    if a == 0 {
      forall i: nat ensures !Has(a, i) { ZeroHasNone(i); }
    } else {
      AndIsInclusion(a / 2, b / 2, n - 1);
      AndBelow(a / 2, b / 2);
      if And(a, b) == a { HalvesWithin(a, b, n); }
      if Within(a, b, n) { WithinHalves(a, b, n); }
    }
  }

  lemma {:induction false} AndBelow(a: nat, b: nat)
    ensures And(a, b) <= a
  {
    if a != 0 { AndBelow(a / 2, b / 2); }
  }

  lemma {:induction false} HasBelow(m: nat, n: nat, i: nat)
    requires m < Bit(n) && Has(m, i)
    ensures i < n && Bit(i) <= m
  {
    if n == 0 {
      ZeroHasNone(i);
    } else if i > 0 {
      HasBelow(m / 2, n - 1, i - 1);
    }
  }

  /** A mask is its members. */
  lemma {:induction false} MaskExt(a: nat, b: nat, n: nat)
    requires a < Bit(n) && b < Bit(n) && forall i: nat :: i < n ==> Has(a, i) == Has(b, i)
    ensures a == b
    decreases n
  {
    if n > 0 {
      forall i: nat | i < n - 1
        ensures Has(a / 2, i) == Has(b / 2, i)
      {
        assert Has(a, i + 1) == Has(b, i + 1);
      }
      assert Has(a, 0) == Has(b, 0);
      MaskExt(a / 2, b / 2, n - 1);
    }
  }

  lemma {:induction false} OrNothing(a: nat)
    ensures Or(a, 0) == a
  {
    if a != 0 { OrNothing(a / 2); }
  }

  lemma {:induction false} AndNotNothing(a: nat)
    ensures AndNot(a, 0) == a
  {
    if a != 0 { AndNotNothing(a / 2); }
  }

  /** Setting a bit that is not there adds its value. */
  lemma {:induction false} OrAdds(m: nat, i: nat)
    requires !Has(m, i)
    ensures Or(m, Bit(i)) == m + Bit(i)
  {
    if i > 0 { OrAdds(m / 2, i - 1); } else { OrNothing(m / 2); }
  }

  lemma {:induction false} WithInRange(m: nat, i: nat, n: nat)
    requires m < Bit(n) && i < n && !Has(m, i)
    ensures m + Bit(i) < Bit(n)
    decreases n
  {
    if i > 0 {
      WithInRange(m / 2, i - 1, n - 1);
      hide Has;
      assert m + Bit(i) == 2 * (m / 2 + Bit(i - 1)) + m % 2;
    }
  }

  lemma {:induction false} BitOrder(i: nat, n: nat)
    requires i < n
    ensures Bit(i) < Bit(n)
  {
    if i > 0 { BitOrder(i - 1, n - 1); }
  }

  lemma {:induction false} AndNotSubtracts(m: nat, i: nat)
    requires Has(m, i)
    ensures Bit(i) <= m && AndNot(m, Bit(i)) == m - Bit(i)
  {
    ZeroHasNone(i);
    if i > 0 { AndNotSubtracts(m / 2, i - 1); } else { AndNotNothing(m / 2); }
  }

  /** Taking a bit out, and putting it back. */
  lemma Without(m: nat, i: nat)
    requires Has(m, i)
    ensures Bit(i) <= m && forall j: nat :: Has(m - Bit(i), j) <==> Has(m, j) && j != i
  {
    AndNotSubtracts(m, i);
    forall j: nat ensures Has(m - Bit(i), j) <==> Has(m, j) && j != i {
      AndNotHas(m, Bit(i), j);
      BitHas(i, j);
    }
  }

  lemma With(m: nat, i: nat)
    requires !Has(m, i)
    ensures forall j: nat :: Has(m + Bit(i), j) <==> Has(m, j) || j == i
  {
    OrAdds(m, i);
    forall j: nat ensures Has(m + Bit(i), j) <==> Has(m, j) || j == i {
      OrHas(m, Bit(i), j);
      BitHas(i, j);
    }
  }

  lemma {:induction false} FullHasAll(n: nat, i: nat)
    requires i < n
    ensures Has(Bit(n) - 1, i)
    decreases n
  {
    if i > 0 {
      FullHasAll(n - 1, i - 1);
      assert (Bit(n) - 1) / 2 == Bit(n - 1) - 1;
    }
  }

  lemma {:induction false} SomeBit(m: nat) returns (i: nat)
    requires 0 < m
    ensures Has(m, i)
  {
    if m % 2 == 1 {
      i := 0;
    } else {
      i := SomeBit(m / 2);
      i := i + 1;
    }
  }
}
