# CAPM cost of capital — a Dafny model of the formula layer

This project models the finance-formula layer of a UKRN-style regulated-utility
cost-of-capital calculator and proves properties of it. Rates are decimal
fractions (0.043 is 4.3%) and are modelled as exact `real`s, so every property
holds exactly rather than within a floating-point tolerance.

Modules, one per source file:

- `Capm` (`capm.dfy`) is the formula library: equity risk premium, CAPM cost
  of equity (Ke = Rf + β(TMR − Rf)), `clamp`, and vanilla WACC with the gearing
  clamped to [0, 1]. It also holds Modigliani–Miller de-levering and re-levering
  of beta, with D/E = g/(1 − g).
- `Examples` (`examples.dfy`) is the static example table (NG.L, SSE.L, SVT.L)
  and the data invariants its entries satisfy.
- `CapmRoute` (`route.dfy`) is the `POST /api/capm` handler as a pure function.
  It resolves beta: an explicit value, else the live value, else the example
  table, else the 400 "no beta" error. It then runs the optional de-lever/re-lever
  step at the request's own gearing, computes Ke, adds the vanilla WACC only when
  gearing and cost of debt are numbers, and builds the response.
- `CalculatorPage` (`page.dfy`) holds the pure helpers of the single-page calculator:
  - `clamp01` and the exact Fisher nominal→real conversion;
  - its own CAPM and a tax-shielded WACC;
  - the displayed results;
  - the 50-point history behind the chart;
  - the TMR preset selection and the clamped notional-gearing edits.
- `Wrappers` (`wrappers.dfy`) is an `Option` type.

Division by zero at gearing 1 has two treatments:

- In the library, `DeleverEquityBeta` and `ReleverAssetBeta` require `g ≠ 1`.
  De-levering also requires a nonzero lever factor 1 + (1 − t)·D/E. That factor
  vanishes exactly when t·g = 1, for example g = 0.5 with t = 2.
- The route does not guard either case. There the division leaves NaN behind,
  and JSON renders NaN as null. The model represents it with `CapmRoute.Number.NaN`,
  so the handler needs no precondition.

The live beta lookup is an input to `CapmRoute.Post`: `Some(b)` when the provider
returned a number, `None` when it returned null. The recorded point is an input
to `CalculatorPage.Record`: the clock's timestamp together with the displayed CoE
and WACC, which `CalculatorPage.Displayed` computes. The number typed in the gearing box is an
input to `CalculatorPage.EditGearing`, already parsed.

The worked National Grid scenario is Rf 1.2%, TMR 5.5%, β 0.65, gearing 60%
and Kd 2.0%. It gives Ke = 0.012 + 0.65 × 0.043 = 3.995%, and vanilla WACC =
3.995% × 0.4 + 2.0% × 0.6 = 2.798%. These figures are proved in
`Examples.NationalGridScenario` and `CapmRoute.NationalGridRequest`.

The library's vanilla WACC has no tax shield. The calculator page's `wacc` does
apply one, on the cost of debt: E/V·CoE + D/V·CoD·(1 − t). The two are related
by `CalculatorPage.UntaxedWaccIsVanilla`.

## Model

| member | source | states |
|---|---|---|
| Capm.EquityRiskPremium | src/lib/capm.ts:16-18 | Rf plus the premium is TMR; the premium is negative exactly when TMR < Rf (no sign constraint) |
| Capm.CostOfEquity | src/lib/capm.ts:20-23 | Ke − Rf is β times the equity risk premium; β = 1 gives TMR and β = 0 gives Rf |
| Capm.Clamp | src/lib/capm.ts:32 | for lo ≤ hi the result lies in [lo, hi], is x itself when x is in range, lo below and hi above; for lo > hi it is hi |
| Capm.ClampIdempotent | src/lib/capm.ts:32 | clamping twice equals clamping once, for any bounds |
| Capm.VanillaWACC | src/lib/capm.ts:25-30 | gearing ≤ 0 gives Ke, gearing ≥ 1 gives the cost of debt, and the result always lies between Ke and the cost of debt |
| Capm.VanillaWACCUsesClampedGearing | src/lib/capm.ts:25-30 | WACC at any gearing equals WACC at clamp(gearing, 0, 1), so out-of-range gearing acts like the nearest bound |
| Capm.CostOfEquityMonotoneInBeta | src/lib/capm.ts:20-23 | Ke rises with β when TMR ≥ Rf and falls with β when TMR ≤ Rf |
| Capm.DebtToEquity | src/lib/capm.ts:36 | D/E times (1 − g) is g; it is non-negative for g in [0, 1) |
| Capm.LeverFactor | src/lib/capm.ts:36-37 | (1 + (1 − t)·D/E)·(1 − g) = 1 − t·g; the factor is at least 1 for g in [0, 1) and t ≤ 1 |
| Capm.DeleverEquityBeta | src/lib/capm.ts:35-38 | asset beta times the lever factor is the equity beta; at g = 0 it is the identity |
| Capm.ReleverAssetBeta | src/lib/capm.ts:40-43 | equity beta·(1 − g) = asset beta·(1 − t·g); at g = 0 it is the identity |
| Capm.CanLeverIff | src/lib/capm.ts:35-37 | away from g = 1, de-levering is defined exactly when t·g ≠ 1 |
| Capm.CanLeverInRange | src/lib/capm.ts:35-43 | every g in [0, 1) with t ≤ 1 can be de-levered and re-levered |
| Capm.ReleverAfterDelever | src/lib/capm.ts:35-43 | re-levering a de-levered beta at the same gearing and tax rate gives the original beta back |
| Capm.DeleverAfterRelever | src/lib/capm.ts:35-43 | de-levering a re-levered beta at the same gearing and tax rate gives the original asset beta back |
| Capm.DeleverNeverIncreases | src/lib/capm.ts:35-38 | for g in [0, 1), t ≤ 1 and β ≥ 0, the asset beta lies in [0, β] |
| Capm.ReleverNeverDecreases | src/lib/capm.ts:40-43 | for g in [0, 1), t ≤ 1 and asset β ≥ 0, the re-levered beta is at least the asset beta |
| Capm.DeleverWorkedExample | src/lib/capm.ts:35-38 | β 0.65 at g 0.60 and t 0.25: D/E = 1.5, factor 2.125, asset beta 0.65/2.125 |
| Examples.Lookup | src/lib/examples.ts:4-47 | a ticker is found exactly when it is NG.L, SSE.L or SVT.L, and the entry found carries that ticker and is well formed |
| Examples.TableIsWellFormed | src/lib/examples.ts:17-46 | the keys are exactly NG.L, SSE.L and SVT.L; each entry's ticker is its key; each has gearing in [0, 1), tax rate in [0, 1] and TMR > Rf |
| Examples.EntriesCanBeLevered | src/lib/examples.ts:17-46 | every entry has a positive equity risk premium and can be de-levered at its own gearing and tax rate |
| Examples.NationalGridScenario | src/lib/examples.ts:17-26 | NG.L's inputs give Ke = 0.03995 and vanilla WACC = 0.02798 |
| CapmRoute.ExampleBeta | src/app/api/capm/route.ts:24 | the example lookup finds a beta exactly for a string ticker in the table, and it is that entry's beta |
| CapmRoute.FirstAvailable | src/app/api/capm/route.ts:20-28 | reference definition of a fallback chain: absent exactly when every provider is absent, else the value of the first present provider |
| CapmRoute.ResolveBeta | src/app/api/capm/route.ts:20-28 | a numeric explicit beta wins; with none (undefined or null) the live beta, else the example beta; the result is absent exactly when the explicit value is a non-number, or when it is missing, there is no live value and the ticker is not in the table |
| CapmRoute.ResolveBetaIsProviderChain | src/app/api/capm/route.ts:20-28 | resolution is first-success over explicit, live and example providers, except that a non-null non-number explicit value stops the chain |
| CapmRoute.NotionalBeta | src/app/api/capm/route.ts:30-37 | the notional beta is NaN exactly when levering is asked for with numeric gearing and tax rate at which it is undefined; otherwise it equals the resolved beta |
| CapmRoute.Post | src/app/api/capm/route.ts:6-49 | the response is the no-beta error exactly when resolution fails, with the fixed message; otherwise it echoes every input except the beta, carries a WACC exactly when gearing and cost of debt are numbers, and echoes as the beta the notional beta of the resolved one; Ke and any WACC are NaN exactly when that beta is, and otherwise Ke is the CAPM cost of equity at that beta |
| CapmRoute.ExplicitBetaIgnoresLive | src/app/api/capm/route.ts:21-25 | when an explicit beta is sent, the live value does not affect the response |
| CapmRoute.PostWithResolvedBeta | src/app/api/capm/route.ts:30-48 | with a resolved beta and a defined (or skipped) levering step, the echoed beta is that beta, Ke = costOfEquity(Rf, TMR, beta) and the WACC is vanillaWACC at the request's gearing and cost of debt |
| CapmRoute.InRangeRequestIsFinite | src/app/api/capm/route.ts:30-39 | gearing in [0, 1) with tax rate ≤ 1 always yields a finite notional beta equal to the resolved one |
| CapmRoute.FullGearingGivesNaN | src/app/api/capm/route.ts:31-44 | at gearing 1 with levering asked for, beta, Ke and any WACC are NaN |
| CapmRoute.ZeroLeverFactorGivesNaN | src/app/api/capm/route.ts:31-44 | with levering asked for at a gearing other than 1 where t·g = 1, de-levering divides by a zero factor and beta, Ke and any WACC are NaN |
| CapmRoute.NationalGridRequest | src/app/api/capm/route.ts:20-48 | NG.L with no beta and no live value falls back to 0.65 and returns Ke 0.03995 and WACC 0.02798 |
| CalculatorPage.Clamp01 | app/page.tsx:11 | the result lies in [0, 1], is x on [0, 1], 0 below and 1 above |
| CalculatorPage.Clamp01IsClamp | app/page.tsx:11 | the page's max-of-min clamp equals the library's clamp(x, 0, 1) |
| CalculatorPage.RealFromNominal | app/page.tsx:13 | (1 + real)(1 + inflation) = 1 + nominal, the exact Fisher relation; zero inflation leaves the rate unchanged |
| CalculatorPage.FisherRelationIsUnique | app/page.tsx:13 | the converted rate is the only rate satisfying the Fisher relation |
| CalculatorPage.RealBelowNominal | app/page.tsx:13 | positive inflation makes the real rate strictly lower than a nominal rate above −100% |
| CalculatorPage.FisherWorkedExample | app/page.tsx:13 | 4.6% nominal at 3% inflation is 0.016/1.03 real, not the additive 1.6% |
| CalculatorPage.CapmCostOfEquity | app/page.tsx:14 | the page's CAPM agrees with the library's cost of equity |
| CalculatorPage.Wacc | app/page.tsx:15 | D/V = 0 gives CoE; D/V = 1 gives the after-tax cost of debt |
| CalculatorPage.UntaxedWaccIsVanilla | app/page.tsx:15 | with no tax and D/V in [0, 1] the page's WACC equals the library's vanilla WACC |
| CalculatorPage.TaxShieldSaving | app/page.tsx:15 | the tax shield lowers WACC by exactly D/V·CoD·t |
| CalculatorPage.TaxShieldNeverRaisesWacc | app/page.tsx:15 | for CoD, D/V and t all ≥ 0 the tax-shielded WACC is at most the untaxed one |
| CalculatorPage.Displayed | app/page.tsx:30-44 | on the nominal basis the CoE is the CAPM value and, for D/V in [0, 1], the WACC is the library's vanilla WACC minus the tax shield D/V · CoD · t (so the untaxed one is exactly the vanilla WACC); on the real basis the CoE is the Fisher real equivalent of the nominal CoE and the WACC is the tax-shielded WACC of that real CoE and the Fisher real CoD |
| CalculatorPage.UntaxedRealWaccIsFisher | app/page.tsx:37-44 | without tax, the real-basis WACC is the Fisher real equivalent of the nominal-basis WACC |
| CalculatorPage.Record | app/page.tsx:48 | at most 50 points are kept and the new point is last; a history of fewer than 50 points just gets the new point appended |
| CalculatorPage.Window | app/page.tsx:48 | reference definition of the chart window (the latest elements of a sequence): it holds min(n, 50) of them |
| CalculatorPage.RecordIsWindow | app/page.tsx:48 | one record equals appending the point and keeping the window of the latest 50, so only the oldest points are ever dropped |
| CalculatorPage.RecordAll | app/page.tsx:48 | after one or more records the history holds at most 50 points and ends with the last point recorded |
| CalculatorPage.RecordAllIsWindow | app/page.tsx:48 | from a history of at most 50 points, any sequence of records leaves the latest 50 of the old history followed by the new points |
| CalculatorPage.ApplyUKRNPreset | app/page.tsx:52 | "manual" changes nothing; another key becomes the source, with the preset value (2024 mid 0.065, 2023 mid 0.062) when there is one and the current value otherwise |
| CalculatorPage.ApplyUKRNPresetIdempotent | app/page.tsx:52 | applying a preset twice equals applying it once |
| CalculatorPage.SelectTmrSource | app/page.tsx:105 | choosing a TMR source always records it as the source; the value becomes the preset when there is one and stays as it was otherwise |
| CalculatorPage.EditGearing | app/page.tsx:142-144 | after a slider or typed edit, D/V lies in [0, 1]; an in-range slider percentage p gives p/100, a missing one gives 0, an in-range typed value is kept; other beta inputs are unchanged |
| CalculatorPage.EditGearingAll | app/page.tsx:142-144 | any non-empty sequence of gearing edits leaves D/V in [0, 1], a valid D/V stays valid, and no other beta input changes |

## Left out

- Network and mock I/O. The live beta provider (`fetchLiveBeta`) is an `Option<real>` input. The Bank of England risk-free fetcher and the `refreshRFR` handler that applies its result are not modelled.
- HTTP and JSON plumbing: `req.json()`, `NextResponse` and status codes. The catch-all 500 response is left out too; no modelled step can throw.
- Request fields `riskFreeRate` and `totalMarketReturn` are typed as numbers. The handler does not check them, and a non-number there would reach the arithmetic through JavaScript's coercions (NaN, or string concatenation for `+`). Those coercions are not modelled.
- Object-valued tickers never match a table key. In JavaScript an array such as `["NG.L"]` is converted to the string `"NG.L"` and would match; that case is not modelled.
- Prototype property names as preset keys (`"toString"` and the like) are treated as absent keys. Only the selector's own keys reach `applyUKRNPreset`.
- CalculatorPage.RealFromNominal: requires inflation ≠ −1. At −1 the page divides by zero and shows Infinity or NaN, which the real-number model does not represent.
- CalculatorPage.Displayed: requires inflation ≠ −1 on the real basis, for the same reason; the page accepts any typed inflation (app/page.tsx:78).
- IEEE-754 doubles: rounding, overflow, infinities and NaN from non-finite inputs. Rates are exact reals. NaN is modelled only where the route divides by zero.
- React state, rendering, the chart and the UI components. The inline duplicates of the formulas in the second page and the initial state values are left out too.
- Number formatting and parsing (`pct`, `toFixed`, `toLocaleString`, `parseFloat`/`parseNum`). The slider's displayed position `Math.round(g·100)` is left out as well.
- The debt beta and beta-mode fields of the calculator page. They are carried along in `CalculatorPage.BetaInputs` but used by no computation, in the source as in the model.
