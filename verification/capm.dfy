/**
 * The finance formula library: equity risk premium, CAPM cost of equity,
 * vanilla WACC and Modigliani-Miller de-levering and re-levering of beta.
 * Rates are decimal fractions (0.043 is 4.3%) modelled as exact reals.
 */
module Capm {

  /** `Math.min` on two finite numbers. */
  function Min(a: real, b: real): (m: real)
    ensures m <= a && m <= b
    ensures m == a || m == b
  {
    if a <= b then a else b
  }

  /** `Math.max` on two finite numbers. */
  function Max(a: real, b: real): (m: real)
    ensures a <= m && b <= m
    ensures m == a || m == b
  {
    if a <= b then b else a
  }

  /** ERP = TMR - Rf; a negative premium is allowed and simply propagates. */
  function EquityRiskPremium(rf: real, tmr: real): (erp: real)
    ensures rf + erp == tmr
    ensures erp < 0.0 <==> tmr < rf
  {
    tmr - rf
  }

  /** CAPM with the TMR framing: Ke = Rf + beta * (TMR - Rf). */
  function CostOfEquity(rf: real, tmr: real, beta: real): (ke: real)
    ensures ke - rf == beta * EquityRiskPremium(rf, tmr)
    ensures beta == 1.0 ==> ke == tmr
    ensures beta == 0.0 ==> ke == rf
  {
    rf + beta * (tmr - rf)
  }

  /** `Math.min(max, Math.max(min, x))`; when lo > hi the result is hi. */
  function Clamp(x: real, lo: real, hi: real): (r: real)
    ensures lo <= hi ==> lo <= r <= hi
    ensures lo <= x <= hi ==> r == x
    ensures lo <= hi && x <= lo ==> r == lo
    ensures x >= hi ==> r == hi
    ensures lo > hi ==> r == hi
  {
    Min(hi, Max(lo, x))
  }

  /** Vanilla (pre-tax-shield) WACC, with the gearing clamped to [0, 1]. */
  function VanillaWACC(rf: real, tmr: real, beta: real, gearing: real, costOfDebt: real): (w: real)
    ensures gearing <= 0.0 ==> w == CostOfEquity(rf, tmr, beta)
    ensures gearing >= 1.0 ==> w == costOfDebt
    ensures Min(CostOfEquity(rf, tmr, beta), costOfDebt) <= w <= Max(CostOfEquity(rf, tmr, beta), costOfDebt)
  {
    var ke := CostOfEquity(rf, tmr, beta);
    var g := Clamp(gearing, 0.0, 1.0);
    ConvexCombination(ke, costOfDebt, g);
    ke * (1.0 - g) + costOfDebt * g
  }

  /** A weight g in [0, 1] blends a and b into a value between them. */
  lemma ConvexCombination(a: real, b: real, g: real)
    requires 0.0 <= g <= 1.0
    ensures Min(a, b) <= a * (1.0 - g) + b * g <= Max(a, b)
  {
    var w := a * (1.0 - g) + b * g;
    if a <= b {
      MulNonNegative(1.0 - g, b - a);
      MulNonNegative(g, b - a);
      assert w - a == g * (b - a);
      assert b - w == (1.0 - g) * (b - a);
    } else {
      MulNonNegative(1.0 - g, a - b);
      MulNonNegative(g, a - b);
      assert a - w == g * (a - b);
      assert w - b == (1.0 - g) * (a - b);
    }
  }

  /** Sign facts the solver does not always find on its own. */
  lemma MulNonNegative(x: real, y: real)
    requires 0.0 <= x && 0.0 <= y
    ensures 0.0 <= x * y
  {
  }

  lemma DivNonNegative(x: real, y: real)
    requires 0.0 <= x && 0.0 < y
    ensures 0.0 <= x / y
  {
  }

  /** D/E expressed from the gearing D/(D+E); undefined at g = 1 (all debt). */
  function DebtToEquity(gearing: real): (de: real)
    requires gearing != 1.0
    ensures de * (1.0 - gearing) == gearing
    ensures 0.0 <= gearing < 1.0 ==> de >= 0.0
  {
    if 0.0 <= gearing < 1.0 then
      DivNonNegative(gearing, 1.0 - gearing);
      gearing / (1.0 - gearing)
    else
      gearing / (1.0 - gearing)
  }

  /** The Modigliani-Miller factor 1 + (1 - t) * D/E relating equity and asset beta. */
  function LeverFactor(gearing: real, taxRate: real): (f: real)
    requires gearing != 1.0
    ensures f * (1.0 - gearing) == 1.0 - taxRate * gearing
    ensures 0.0 <= gearing < 1.0 && taxRate <= 1.0 ==> f >= 1.0
  {
    var de := DebtToEquity(gearing);
    assert (1.0 + (1.0 - taxRate) * de) * (1.0 - gearing)
        == (1.0 - gearing) + (1.0 - taxRate) * (de * (1.0 - gearing));
    if 0.0 <= gearing < 1.0 && taxRate <= 1.0 then
      MulNonNegative(1.0 - taxRate, de);
      1.0 + (1.0 - taxRate) * de
    else
      1.0 + (1.0 - taxRate) * de
  }

  /** The gearings and tax rates at which de-levering divides by a nonzero factor. */
  predicate CanLever(gearing: real, taxRate: real) {
    gearing != 1.0 && LeverFactor(gearing, taxRate) != 0.0
  }

  /** Equity beta at the given gearing to asset (unlevered) beta. */
  function DeleverEquityBeta(equityBeta: real, gearing: real, taxRate: real): (assetBeta: real)
    requires CanLever(gearing, taxRate)
    ensures assetBeta * LeverFactor(gearing, taxRate) == equityBeta
    ensures gearing == 0.0 ==> assetBeta == equityBeta
  {
    equityBeta / LeverFactor(gearing, taxRate)
  }

  /** Asset beta to equity beta at the given gearing. */
  function ReleverAssetBeta(assetBeta: real, gearing: real, taxRate: real): (equityBeta: real)
    requires gearing != 1.0
    ensures equityBeta * (1.0 - gearing) == assetBeta * (1.0 - taxRate * gearing)
    ensures gearing == 0.0 ==> equityBeta == assetBeta
  {
    var f := LeverFactor(gearing, taxRate);
    assert assetBeta * f * (1.0 - gearing) == assetBeta * (f * (1.0 - gearing));
    assetBeta * f
  }

  // Properties relating several calls.

  /** Clamping twice is clamping once, whatever the bounds. */
  lemma ClampIdempotent(x: real, lo: real, hi: real)
    ensures Clamp(Clamp(x, lo, hi), lo, hi) == Clamp(x, lo, hi)
  {
  }

  /** Vanilla WACC sees the gearing only through its clamp to [0, 1], so an
      out-of-range gearing behaves like the nearest bound. */
  lemma VanillaWACCUsesClampedGearing(rf: real, tmr: real, beta: real, gearing: real, costOfDebt: real)
    ensures VanillaWACC(rf, tmr, beta, gearing, costOfDebt)
         == VanillaWACC(rf, tmr, beta, Clamp(gearing, 0.0, 1.0), costOfDebt)
  {
  }

  /** A higher beta gives a higher Ke when the premium is positive, a lower one when it is negative. */
  lemma CostOfEquityMonotoneInBeta(rf: real, tmr: real, b1: real, b2: real)
    requires b1 <= b2
    ensures tmr >= rf ==> CostOfEquity(rf, tmr, b1) <= CostOfEquity(rf, tmr, b2)
    ensures tmr <= rf ==> CostOfEquity(rf, tmr, b1) >= CostOfEquity(rf, tmr, b2)
  {
    assert CostOfEquity(rf, tmr, b2) - CostOfEquity(rf, tmr, b1) == (b2 - b1) * (tmr - rf);
    if tmr >= rf {
      MulNonNegative(b2 - b1, tmr - rf);
    } else {
      MulNonNegative(b2 - b1, rf - tmr);
    }
  }

  /** Away from g = 1, the lever factor vanishes exactly when t * g = 1. */
  lemma CanLeverIff(gearing: real, taxRate: real)
    requires gearing != 1.0
    ensures CanLever(gearing, taxRate) <==> taxRate * gearing != 1.0
  {
  }

  /** Every gearing in [0, 1) with a tax rate at most 1 can be de-levered. */
  lemma CanLeverInRange(gearing: real, taxRate: real)
    requires 0.0 <= gearing < 1.0 && taxRate <= 1.0
    ensures CanLever(gearing, taxRate)
  {
  }

  /** Re-levering undoes de-levering at the same gearing and tax rate. */
  lemma ReleverAfterDelever(equityBeta: real, gearing: real, taxRate: real)
    requires CanLever(gearing, taxRate)
    ensures ReleverAssetBeta(DeleverEquityBeta(equityBeta, gearing, taxRate), gearing, taxRate) == equityBeta
  {
  }

  /** De-levering undoes re-levering at the same gearing and tax rate. */
  lemma DeleverAfterRelever(assetBeta: real, gearing: real, taxRate: real)
    requires CanLever(gearing, taxRate)
    ensures DeleverEquityBeta(ReleverAssetBeta(assetBeta, gearing, taxRate), gearing, taxRate) == assetBeta
  {
  }

  lemma CancelNonZero(x: real, y: real, f: real)
    requires f != 0.0 && x * f == y * f
    ensures x == y
  {
  }

  /** With g in [0, 1), t <= 1 and a non-negative beta, de-levering never raises
      beta and never makes it negative. */
  lemma DeleverNeverIncreases(equityBeta: real, gearing: real, taxRate: real)
    requires 0.0 <= gearing < 1.0 && taxRate <= 1.0 && 0.0 <= equityBeta
    ensures 0.0 <= DeleverEquityBeta(equityBeta, gearing, taxRate) <= equityBeta
  {
  }

  /** With g in [0, 1), t <= 1 and a non-negative beta, re-levering never lowers beta. */
  lemma ReleverNeverDecreases(assetBeta: real, gearing: real, taxRate: real)
    requires 0.0 <= gearing < 1.0 && taxRate <= 1.0 && 0.0 <= assetBeta
    ensures ReleverAssetBeta(assetBeta, gearing, taxRate) >= assetBeta
  {
  }

  /** The worked example: beta 0.65 at 60% gearing and 25% tax gives D/E = 1.5
      and asset beta 0.65 / 2.125 (about 0.30588). */
  lemma DeleverWorkedExample()
    ensures DebtToEquity(0.60) == 1.5
    ensures LeverFactor(0.60, 0.25) == 2.125
    ensures DeleverEquityBeta(0.65, 0.60, 0.25) == 0.65 / 2.125
  {
  }
}
