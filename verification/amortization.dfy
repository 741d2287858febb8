/**
 * The level-payment formula shared by the mortgage and loan EMI calculators,
 * over exact reals with a natural number of monthly payments:
 *
 *   payment = P · r · (1 + r)^n / ((1 + r)^n − 1)
 *
 * and the month-by-month balance it is meant to pay off.
 */
module Amortization {
  import opened JsNumbers

  /** x^n for a natural exponent. */
  function Power(x: real, n: nat): real {
    if n == 0 then 1.0 else x * Power(x, n - 1)
  }

  /** A positive interest rate makes the growth factor (1 + r)^n positive and increasing. */
  lemma {:induction false} PowerPositive(r: real, n: nat)
    requires r > 0.0
    ensures Power(1.0 + r, n) >= 1.0
  {
    if n > 0 {
      PowerPositive(r, n - 1);
      var g := Power(1.0 + r, n - 1);
      assert Power(1.0 + r, n) == g + r * g;
      assert r * g > 0.0;
    }
  }

  /** For r > 0 and n ≥ 1 the growth factor exceeds 1, so the denominator (1 + r)^n − 1
      of the formula is positive. */
  lemma {:induction false} PowerAboveOne(r: real, n: nat)
    requires r > 0.0 && n >= 1
    ensures Power(1.0 + r, n) > 1.0
  {
    PowerPositive(r, n - 1);
    var g := Power(1.0 + r, n - 1);
    assert Power(1.0 + r, n) == g + r * g;
    assert r * g > 0.0;
  }

  /** The interest accrued over n months is at most n months of interest on the final
      balance: (1 + r)^n − 1 ≤ n · r · (1 + r)^n. */
  lemma {:induction false} GrowthBoundWeak(r: real, n: nat)
    requires r > 0.0
    ensures Power(1.0 + r, n) - 1.0 <= (n as real) * (r * Power(1.0 + r, n))
  {
    if n > 0 {
      GrowthBoundWeak(r, n - 1);
      PowerPositive(r, n - 1);
      GrowthStep(Power(1.0 + r, n - 1), r, (n - 1) as real);
    }
  }

  /** One more month: from g − 1 ≤ m·r·g to g·(1 + r) − 1 < (m + 1)·r·g·(1 + r). */
  lemma GrowthStep(g: real, r: real, m: real)
    requires g >= 1.0 && r > 0.0 && m >= 0.0 && g - 1.0 <= m * (r * g)
    ensures (1.0 + r) * g - 1.0 < (m + 1.0) * (r * ((1.0 + r) * g))
  {
    var a := r * g;
    assert a > 0.0;
    assert (1.0 + r) * g - 1.0 == (g - 1.0) + a;
    assert (g - 1.0) + a <= (m + 1.0) * a;
    assert r * ((1.0 + r) * g) == a + r * a;
    assert r * a > 0.0;
    assert (m + 1.0) * (a + r * a) == (m + 1.0) * a + (m + 1.0) * (r * a);
    assert (m + 1.0) * (r * a) > 0.0;
  }

  /** For n ≥ 1 the bound is strict. */
  lemma GrowthBound(r: real, n: nat)
    requires r > 0.0 && n >= 1
    ensures Power(1.0 + r, n) - 1.0 < (n as real) * (r * Power(1.0 + r, n))
  {
    GrowthBoundWeak(r, n - 1);
    PowerPositive(r, n - 1);
    GrowthStep(Power(1.0 + r, n - 1), r, (n - 1) as real);
  }

  /** The monthly payment of the formula. */
  function Instalment(p: real, r: real, n: nat): (e: real)
    requires r > 0.0 && n >= 1
    ensures e * (Power(1.0 + r, n) - 1.0) == p * r * Power(1.0 + r, n)
  {
    PowerAboveOne(r, n);
    var g := Power(1.0 + r, n);
    DivThenMul(p * r * g, g - 1.0);
    p * r * g / (g - 1.0)
  }

  /** The balance after k months: each month adds interest r and subtracts the payment e. */
  function Balance(p: real, r: real, e: real, k: nat): real {
    if k == 0 then p else Balance(p, r, e, k - 1) * (1.0 + r) - e
  }

  /** The balance in closed form, scaled by r: r · balance = p · r · (1 + r)^k − e · ((1 + r)^k − 1). */
  lemma {:induction false} BalanceClosedForm(p: real, r: real, e: real, k: nat)
    ensures r * Balance(p, r, e, k) == p * r * Power(1.0 + r, k) - e * (Power(1.0 + r, k) - 1.0)
  {
    if k > 0 {
      BalanceClosedForm(p, r, e, k - 1);
      BalanceStep(Balance(p, r, e, k - 1), p, r, e, Power(1.0 + r, k - 1));
    }
  }

  /** One month of the closed form. */
  lemma BalanceStep(b: real, p: real, r: real, e: real, g: real)
    requires r * b == p * r * g - e * (g - 1.0)
    ensures r * (b * (1.0 + r) - e) == p * r * ((1.0 + r) * g) - e * ((1.0 + r) * g - 1.0)
  {
    assert r * (b * (1.0 + r) - e) == (r * b) * (1.0 + r) - r * e;
    assert (p * r * g - e * (g - 1.0)) * (1.0 + r) - r * e
      == p * r * ((1.0 + r) * g) - e * ((1.0 + r) * g - 1.0);
  }

  /** The payment of the formula repays the loan exactly in n months. */
  lemma InstalmentRepaysLoan(p: real, r: real, n: nat)
    requires r > 0.0 && n >= 1
    ensures Balance(p, r, Instalment(p, r, n), n) == 0.0
  {
    var e := Instalment(p, r, n);
    BalanceClosedForm(p, r, e, n);
    assert r * Balance(p, r, e, n) == 0.0;
  }

  /** n payments add up to more than the principal: the interest paid is positive. */
  lemma InstalmentCoversPrincipal(p: real, r: real, n: nat)
    requires p > 0.0 && r > 0.0 && n >= 1
    ensures Instalment(p, r, n) * (n as real) > p
  {
    var g := Power(1.0 + r, n);
    var e := Instalment(p, r, n);
    PowerAboveOne(r, n);
    GrowthBound(r, n);
    assert e * (g - 1.0) == p * r * g;
    CoverStep(e, p, r, g, n as real);
  }

  /** From e·(g − 1) = p·r·g and g − 1 < n·r·g with g > 1: e·n > p. */
  lemma CoverStep(e: real, p: real, r: real, g: real, n: real)
    requires p > 0.0 && g > 1.0 && e * (g - 1.0) == p * r * g && g - 1.0 < n * (r * g)
    ensures e * n > p
  {
    var lhs := (e * n) * (g - 1.0);
    var mid := p * (n * (r * g));
    var rhs := p * (g - 1.0);
    assert lhs == mid by {
      assert (e * n) * (g - 1.0) == n * (e * (g - 1.0));
    }
    assert mid > rhs by {
      Scale(g - 1.0, n * (r * g), p);
    }
    Cancel(e * n, p, g - 1.0);
  }

  lemma Scale(x: real, y: real, c: real)
    requires x < y && c > 0.0
    ensures c * x < c * y
  {
  }

  lemma Cancel(x: real, y: real, c: real)
    requires x * c > y * c && c > 0.0
    ensures x > y
  {
  }
}
