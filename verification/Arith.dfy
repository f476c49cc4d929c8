/** Integer facts shared by the proofs. `Mul`, `Quot` and `Rem` are multiplication,
    division and remainder on naturals, defined by repeated addition and subtraction: that
    keeps reasoning about ranks, groups and slots linear. `MulAgrees` and `QuotRemAgree`
    tie them to `*`, `/` and `%`. `Wrap` is the remainder of a number that is less than twice
    the modulus, as it occurs when walking once around a ring of nodes or groups; it agrees
    with `%` by `WrapAgrees`. */
module Arith {

  function Min(a: nat, b: nat): nat {
    if a < b then a else b
  }

  function Max(a: nat, b: nat): nat {
    if a < b then b else a
  }

  function Mul(a: nat, n: nat): nat {
    if a == 0 then 0 else Mul(a - 1, n) + n
  }

  function Quot(a: nat, n: nat): nat
    requires n > 0
  {
    if a < n then 0 else Quot(a - n, n) + 1
  }

  function Rem(a: nat, n: nat): (r: nat)
    requires n > 0
    ensures r < n
  {
    if a < n then a else Rem(a - n, n)
  }

  /** Division rounding up. */
  function CeilQuot(a: nat, n: nat): nat
    requires n > 0
  {
    Quot(a + n - 1, n)
  }

  /** The least multiple of `n` that is at least `a`. */
  function RoundUp(a: nat, n: nat): nat
    requires n > 0
  {
    Mul(CeilQuot(a, n), n)
  }

  /** Wrapping a number below `2 * n` around once. */
  function Wrap(x: nat, n: nat): nat
    requires x < 2 * n
  {
    if x < n then x else x - n
  }

  lemma {:induction false} MulAgrees(a: nat, n: nat)
    ensures Mul(a, n) == a * n
  {
    if a > 0 {
      MulAgrees(a - 1, n);
      assert a * n == (a - 1) * n + n;
    }
  }

  lemma {:induction false} MulAdd(a: nat, b: nat, n: nat)
    ensures Mul(a + b, n) == Mul(a, n) + Mul(b, n)
  {
    if b > 0 {
      MulAdd(a, b - 1, n);
    }
  }

  lemma {:induction false} MulAssociative(a: nat, b: nat, n: nat)
    ensures Mul(a, Mul(b, n)) == Mul(Mul(a, b), n)
  {
    if a > 0 {
      MulAssociative(a - 1, b, n);
      MulAdd(Mul(a - 1, b), b, n);
    }
  }

  lemma MulCommutes(a: nat, b: nat)
    ensures Mul(a, b) == Mul(b, a)
  {
    MulAgrees(a, b);
    MulAgrees(b, a);
  }

  lemma MulMonotone(a: nat, b: nat, n: nat)
    requires a <= b
    ensures Mul(a, n) <= Mul(b, n)
  {
    MulAdd(a, b - a, n);
  }

  /** Scaling by a positive factor preserves and reflects order. */
  lemma MulOrder(a: nat, b: nat, n: nat)
    requires n > 0
    ensures Mul(a, n) <= Mul(b, n) <==> a <= b
    ensures Mul(a, n) == Mul(b, n) <==> a == b
  {
    if a < b {
      MulMonotone(a + 1, b, n);
    } else if b < a {
      MulMonotone(b + 1, a, n);
    }
  }

  lemma {:induction false} QuotRem(q: nat, r: nat, n: nat)
    requires r < n
    ensures Quot(Mul(q, n) + r, n) == q && Rem(Mul(q, n) + r, n) == r
  {
    if q > 0 {
      QuotRem(q - 1, r, n);
    }
  }

  lemma {:induction false} QuotRemParts(a: nat, n: nat)
    requires n > 0
    ensures a == Mul(Quot(a, n), n) + Rem(a, n)
  {
    if n <= a {
      QuotRemParts(a - n, n);
    }
  }

  lemma QuotRemAgree(a: nat, n: nat)
    requires n > 0
    ensures Quot(a, n) == a / n && Rem(a, n) == a % n
  {
    QuotRemParts(a, n);
    DivMod(a, n, Quot(a, n), Rem(a, n));
  }

  lemma DivMod(a: nat, n: nat, q: nat, r: nat)
    requires r < n && a == Mul(q, n) + r
    ensures a / n == q && a % n == r
  {
    MulAgrees(a / n, n);
    DigitsUnique(a / n, a % n, q, r, n);
  }

  lemma WrapAgrees(x: nat, n: nat)
    requires x < 2 * n
    ensures x % n == Wrap(x, n)
  {
    if n <= x {
      DivMod(x, n, 1, x - n);
    } else {
      DivMod(x, n, 0, x);
    }
  }

  /** Numbers written in base `n` are equal only digit by digit. */
  lemma DigitsUnique(q: nat, r: nat, q': nat, r': nat, n: nat)
    requires r < n && r' < n && Mul(q, n) + r == Mul(q', n) + r'
    ensures q == q' && r == r'
  {
    QuotRem(q, r, n);
    QuotRem(q', r', n);
  }

  lemma QuotBound(a: nat, q: nat, n: nat)
    requires n > 0 && a < Mul(q, n)
    ensures Quot(a, n) < q
  {
    QuotRemParts(a, n);
    if q <= Quot(a, n) {
      MulMonotone(q, Quot(a, n), n);
    }
  }

  /** Dividing by `n * d` is dividing by `d` and then by `n`. */
  lemma NestedQuot(g: nat, r: nat, d: nat, n: nat)
    requires r < d && n > 0
    ensures Mul(n, d) > 0 && Quot(Mul(g, d) + r, Mul(n, d)) == Quot(g, n)
  {
    var q, j := Quot(g, n), Rem(g, n);
    QuotRemParts(g, n);
    MulMonotone(j + 1, n, d);
    MulAssociative(q, n, d);
    MulAdd(Mul(q, n), j, d);
    QuotRem(q, Mul(j, d) + r, Mul(n, d));
  }

  lemma RoundUpBounds(a: nat, n: nat)
    requires n > 0
    ensures a <= RoundUp(a, n) < a + n
    ensures Rem(RoundUp(a, n), n) == 0
  {
    QuotRemParts(a + n - 1, n);
    QuotRem(CeilQuot(a, n), 0, n);
  }

  lemma MulUnfold(a: nat, n: nat)
    ensures Mul(0, n) == 0
    ensures a > 0 ==> Mul(a, n) == Mul(a - 1, n) + n
  {
  }

  lemma MulZeroOnly(a: nat, n: nat)
    ensures Mul(a, n) == 0 <==> a == 0 || n == 0
  {
    if a > 0 {
      MulMonotone(1, a, n);
    }
    if n == 0 {
      MulAgrees(a, n);
    }
  }

  lemma {:induction false} RemWrap(a: nat, b: nat, n: nat)
    requires 0 < n && b <= n
    ensures Rem(a + b, n) == Wrap(Rem(a, n) + b, n)
  {
    if a >= n {
      RemWrap(a - n, b, n);
    }
  }

  lemma {:induction false} RemShift(q: nat, i: nat, n: nat)
    requires n > 0
    ensures Rem(Mul(q, n) + i, n) == Rem(i, n)
  {
    if q > 0 {
      RemShift(q - 1, i, n);
    }
  }

  lemma RemSmall(i: nat, n: nat)
    requires i < n
    ensures Rem(i, n) == i
  {
  }

  lemma QuotOrder(k: nat, q: nat, n: nat)
    requires 0 < n
    ensures Quot(k, n) < q <==> k < Mul(q, n)
  {
    QuotRemParts(k, n);
    if Quot(k, n) < q {
      MulMonotone(Quot(k, n) + 1, q, n);
    } else {
      MulMonotone(q, Quot(k, n), n);
    }
  }

  lemma {:induction false} QuotMonotone(i: nat, j: nat, n: nat)
    requires n > 0 && i <= j
    ensures Quot(i, n) <= Quot(j, n)
    decreases j
  {
    if n <= j && n <= i {
      QuotMonotone(i - n, j - n, n);
    }
  }
}
