/**
 * The pure helpers of the single-page calculator: `clamp01`, the exact Fisher
 * nominal-to-real conversion, its own CAPM, a tax-shielded WACC, the displayed
 * results, the bounded history behind the chart, the TMR preset selection and
 * the clamped notional-gearing updates.
 */
module CalculatorPage {
  import opened Wrappers
  import Capm

  /** `Math.max(0, Math.min(1, x))`. */
  function Clamp01(x: real): (r: real)
    ensures 0.0 <= r <= 1.0
    ensures 0.0 <= x <= 1.0 ==> r == x
    ensures x < 0.0 ==> r == 0.0
    ensures x > 1.0 ==> r == 1.0
  {
    Capm.Max(0.0, Capm.Min(1.0, x))
  }

  /** The page's clamp (max of min) agrees with the library's clamp (min of max) on [0, 1]. */
  lemma Clamp01IsClamp(x: real)
    ensures Clamp01(x) == Capm.Clamp(x, 0.0, 1.0)
  {
  }

  /** The exact Fisher relation: real = (1 + nominal) / (1 + inflation) - 1. */
  function RealFromNominal(nominal: real, inflation: real): (rate: real)
    requires inflation != -1.0
    ensures (1.0 + rate) * (1.0 + inflation) == 1.0 + nominal
    ensures inflation == 0.0 ==> rate == nominal
  {
    (1.0 + nominal) / (1.0 + inflation) - 1.0
  }

  /** The converted rate is the only one satisfying the Fisher relation. */
  lemma FisherRelationIsUnique(nominal: real, inflation: real, rate: real)
    requires inflation != -1.0
    requires (1.0 + rate) * (1.0 + inflation) == 1.0 + nominal
    ensures rate == RealFromNominal(nominal, inflation)
  {
    var r := RealFromNominal(nominal, inflation);
    assert (1.0 + rate) * (1.0 + inflation) == (1.0 + r) * (1.0 + inflation);
    Capm.CancelNonZero(1.0 + rate, 1.0 + r, 1.0 + inflation);
  }

  /** Positive inflation makes the real rate strictly lower than the nominal one
      (for nominal rates above -100%). */
  lemma RealBelowNominal(nominal: real, inflation: real)
    requires inflation > 0.0 && 1.0 + nominal > 0.0
    ensures RealFromNominal(nominal, inflation) < nominal
  {
    var r := RealFromNominal(nominal, inflation);
    assert (1.0 + r) * (1.0 + inflation) == 1.0 + nominal;
    assert (nominal - r) * (1.0 + inflation) == (1.0 + nominal) * inflation;
    PositiveProduct(1.0 + nominal, inflation);
    PositiveFactor(nominal - r, 1.0 + inflation, (1.0 + nominal) * inflation);
  }

  lemma PositiveProduct(x: real, y: real)
    requires 0.0 < x && 0.0 < y
    ensures 0.0 < x * y
  {
  }

  lemma PositiveFactor(d: real, k: real, p: real)
    requires 0.0 < k && d * k == p && 0.0 < p
    ensures 0.0 < d
  {
    if d <= 0.0 {
      Capm.MulNonNegative(-d, k);
      assert false;
    }
  }

  /** 4.6% nominal at 3% inflation is 0.016 / 1.03 (about 1.553%) real, not the
      additive 1.6%. */
  lemma FisherWorkedExample()
    ensures RealFromNominal(0.046, 0.03) == 0.016 / 1.03
    ensures RealFromNominal(0.046, 0.03) != 0.046 - 0.03
  {
  }

  /** The page's CAPM: ERP = TMR - RFR, CoE = RFR + beta * ERP. */
  function CapmCostOfEquity(rfr: real, tmr: real, beta: real): (coe: real)
    ensures coe == Capm.CostOfEquity(rfr, tmr, beta)
  {
    var erp := tmr - rfr;
    rfr + beta * erp
  }

  /** The page's WACC: E/V * CoE + D/V * CoD * (1 - t), with a tax shield on debt
      and no clamp on D/V. */
  function Wacc(coe: real, cod: real, debtShare: real, taxRate: real): (w: real)
    ensures debtShare == 0.0 ==> w == coe
    ensures debtShare == 1.0 ==> w == cod * (1.0 - taxRate)
  {
    var equityShare := 1.0 - debtShare;
    equityShare * coe + debtShare * cod * (1.0 - taxRate)
  }

  /** Without tax and with D/V in [0, 1], the page's WACC is the library's vanilla WACC. */
  lemma UntaxedWaccIsVanilla(rfr: real, tmr: real, beta: real, debtShare: real, cod: real)
    requires 0.0 <= debtShare <= 1.0
    ensures Wacc(CapmCostOfEquity(rfr, tmr, beta), cod, debtShare, 0.0)
         == Capm.VanillaWACC(rfr, tmr, beta, debtShare, cod)
  {
  }

  /** The tax shield lowers WACC by exactly D/V * CoD * t. */
  lemma TaxShieldSaving(coe: real, cod: real, debtShare: real, taxRate: real)
    ensures Wacc(coe, cod, debtShare, 0.0) - Wacc(coe, cod, debtShare, taxRate) == debtShare * cod * taxRate
  {
  }

  /** With non-negative CoD, D/V and tax rate, the tax-shielded WACC is at most the untaxed one. */
  lemma TaxShieldNeverRaisesWacc(coe: real, cod: real, debtShare: real, taxRate: real)
    requires 0.0 <= cod && 0.0 <= debtShare && 0.0 <= taxRate
    ensures Wacc(coe, cod, debtShare, taxRate) <= Wacc(coe, cod, debtShare, 0.0)
  {
    TaxShieldSaving(coe, cod, debtShare, taxRate);
    Capm.MulNonNegative(debtShare, cod);
    Capm.MulNonNegative(debtShare * cod, taxRate);
  }

  /** The beta panel's inputs; `notionalGearing` is D/V. */
  datatype BetaInputs = BetaInputs(
    mode: string,
    directBeta: real,
    debtBeta: real,
    taxRate: real,
    notionalGearing: real)

  /** Measurement basis of the displayed results. */
  datatype Basis = Nominal | Real

  /** The displayed cost of equity and WACC. */
  datatype Results = Results(coe: real, wacc: real)

  /** The displayed results: nominal CoE and WACC, or both inputs converted to real
      first. Inflation matters only on the real basis. */
  function Displayed(basis: Basis, inflation: real, rfr: real, tmr: real, beta: BetaInputs, costOfDebt: real): (r: Results)
    requires basis.Real? ==> inflation != -1.0
    ensures basis.Nominal? ==> r.coe == Capm.CostOfEquity(rfr, tmr, beta.directBeta)
    ensures basis.Real? ==> (1.0 + r.coe) * (1.0 + inflation) == 1.0 + Capm.CostOfEquity(rfr, tmr, beta.directBeta)
    ensures basis.Nominal? && beta.taxRate == 0.0 && 0.0 <= beta.notionalGearing <= 1.0 ==>
              r.wacc == Capm.VanillaWACC(rfr, tmr, beta.directBeta, beta.notionalGearing, costOfDebt)
    ensures basis.Nominal? && 0.0 <= beta.notionalGearing <= 1.0 ==>
              r.wacc == Capm.VanillaWACC(rfr, tmr, beta.directBeta, beta.notionalGearing, costOfDebt)
                        - beta.notionalGearing * costOfDebt * beta.taxRate
    ensures basis.Real? ==> r.wacc == Wacc(r.coe, RealFromNominal(costOfDebt, inflation), beta.notionalGearing, beta.taxRate)
  {
    var coeNominal := CapmCostOfEquity(rfr, tmr, beta.directBeta);
    if basis.Real? then
      var coeReal := RealFromNominal(coeNominal, inflation);
      var codReal := RealFromNominal(costOfDebt, inflation);
      Results(coeReal, Wacc(coeReal, codReal, beta.notionalGearing, beta.taxRate))
    else
      if 0.0 <= beta.notionalGearing <= 1.0 then
        UntaxedWaccIsVanilla(rfr, tmr, beta.directBeta, beta.notionalGearing, costOfDebt);
        TaxShieldSaving(coeNominal, costOfDebt, beta.notionalGearing, beta.taxRate);
        Results(coeNominal, Wacc(coeNominal, costOfDebt, beta.notionalGearing, beta.taxRate))
      else
        Results(coeNominal, Wacc(coeNominal, costOfDebt, beta.notionalGearing, beta.taxRate))
  }

  /** Without tax, converting CoE and CoD to real and then weighting them gives the
      real equivalent of the nominal WACC; with a tax shield the two differ in general. */
  lemma UntaxedRealWaccIsFisher(inflation: real, rfr: real, tmr: real, beta: BetaInputs, costOfDebt: real)
    requires inflation != -1.0 && beta.taxRate == 0.0
    ensures (1.0 + Displayed(Real, inflation, rfr, tmr, beta, costOfDebt).wacc) * (1.0 + inflation)
         == 1.0 + Displayed(Nominal, inflation, rfr, tmr, beta, costOfDebt).wacc
  {
    var g := beta.notionalGearing;
    var coeN := CapmCostOfEquity(rfr, tmr, beta.directBeta);
    var coeR := RealFromNominal(coeN, inflation);
    var codR := RealFromNominal(costOfDebt, inflation);
    var wR := Displayed(Real, inflation, rfr, tmr, beta, costOfDebt).wacc;
    assert wR == (1.0 - g) * coeR + g * codR;
    assert (1.0 + wR) * (1.0 + inflation)
        == (1.0 - g) * ((1.0 + coeR) * (1.0 + inflation)) + g * ((1.0 + codR) * (1.0 + inflation));
  }

  // The chart's history.

  /** One recorded point of the chart: the clock's timestamp and the displayed CoE and
      WACC. The whole point is an input to `Record`. */
  datatype HistoryPoint = HistoryPoint(ts: string, coe: real, wacc: real)

  const HistoryCapacity: nat := 50

  /** `[...h.slice(-49), point]`: keep the latest 49 points and append the new one. */
  function Record(history: seq<HistoryPoint>, point: HistoryPoint): (h: seq<HistoryPoint>)
    ensures 0 < |h| <= HistoryCapacity
    ensures h[|h| - 1] == point
    ensures |history| < HistoryCapacity ==> h == history + [point]
  {
    var kept := if |history| > HistoryCapacity - 1 then history[|history| - (HistoryCapacity - 1)..] else history;
    kept + [point]
  }

  /** The latest `HistoryCapacity` elements of a sequence: the reference definition of the chart's window. */
  function Window<T>(s: seq<T>): (w: seq<T>)
    ensures |w| == if |s| < HistoryCapacity then |s| else HistoryCapacity
  {
    if |s| > HistoryCapacity then s[|s| - HistoryCapacity..] else s
  }

  /** Recording is appending and keeping the latest window. */
  lemma RecordIsWindow(history: seq<HistoryPoint>, point: HistoryPoint)
    ensures Record(history, point) == Window(history + [point])
  {
    if |history| > HistoryCapacity - 1 {
      var s := history + [point];
      assert s[|s| - HistoryCapacity..] == history[|history| - (HistoryCapacity - 1)..] + [point];
    }
  }

  /** Recording several points in order, one `record` click each. */
  function RecordAll(history: seq<HistoryPoint>, points: seq<HistoryPoint>): (h: seq<HistoryPoint>)
    ensures |points| == 0 ==> h == history
    ensures |points| > 0 ==> 0 < |h| <= HistoryCapacity && h[|h| - 1] == points[|points| - 1]
    decreases |points|
  {
    if |points| == 0 then history
    else
      var rest := points[1..];
      var h := RecordAll(Record(history, points[0]), rest);
      assert |rest| > 0 ==> rest[|rest| - 1] == points[|points| - 1];
      h
  }

  /** Dropping elements from the front keeps the window, as long as at least a
      window's worth is left. */
  lemma WindowOfLongSuffix<T>(u: seq<T>, d: nat)
    requires d <= |u|
    requires d == 0 || |u| - d >= HistoryCapacity
    ensures Window(u[d..]) == Window(u)
  {
    if d > 0 {
      var k := |u| - HistoryCapacity;
      assert Window(u) == u[k..];
      assert Window(u[d..]) == u[d..][k - d..];
      assert u[d..][k - d..] == u[k..];
    } else {
      assert u[d..] == u;
    }
  }

  /** The window of a window extended by more points is the window of the whole. */
  lemma WindowAbsorbs<T>(s: seq<T>, t: seq<T>)
    ensures Window(Window(s) + t) == Window(s + t)
  {
    var w := Window(s);
    var d := |s| - |w|;
    assert w == s[d..];
    assert w + t == (s + t)[d..];
    WindowOfLongSuffix(s + t, d);
  }

  /** However many points are recorded, the history is the latest window of the old
      history followed by the new points. */
  lemma {:induction false} RecordAllIsWindow(history: seq<HistoryPoint>, points: seq<HistoryPoint>)
    requires |history| <= HistoryCapacity
    ensures RecordAll(history, points) == Window(history + points)
    decreases |points|
  {
    if |points| == 0 {
      assert history + points == history;
    } else {
      var p := points[0];
      var rest := points[1..];
      var next := Record(history, p);
      assert RecordAll(history, points) == RecordAll(next, rest);
      RecordIsWindow(history, p);
      assert |next| <= HistoryCapacity;
      RecordAllIsWindow(next, rest);
      assert RecordAll(next, rest) == Window(Window(history + [p]) + rest);
      WindowAbsorbs(history + [p], rest);
      assert history + [p] + rest == history + points;
    }
  }

  // The TMR preset selector.

  /** The TMR source and value shown in the TMR panel. */
  datatype TmrConfig = TmrConfig(source: string, value: real)

  const ManualSource := "manual"

  /** UKRN total market return presets (mid-points). */
  const TmrPresets: map<string, real> := map["ukrn_2024_mid" := 0.065, "ukrn_2023_mid" := 0.062]

  /** `applyUKRNPreset`: "manual" changes nothing; any other key becomes the source,
      with the preset's value when there is one and the current value otherwise. */
  function ApplyUKRNPreset(cfg: TmrConfig, key: string): (r: TmrConfig)
    ensures key == ManualSource ==> r == cfg
    ensures key != ManualSource ==> r.source == key
    ensures key != ManualSource && key in TmrPresets ==> r.value == TmrPresets[key]
    ensures key !in TmrPresets ==> r.value == cfg.value
  {
    if key == ManualSource then cfg
    else TmrConfig(key, if key in TmrPresets then TmrPresets[key] else cfg.value)
  }

  /** Applying the same preset twice is applying it once. */
  lemma ApplyUKRNPresetIdempotent(cfg: TmrConfig, key: string)
    ensures ApplyUKRNPreset(ApplyUKRNPreset(cfg, key), key) == ApplyUKRNPreset(cfg, key)
  {
  }

  /** The TMR selector's change handler: set the source, then apply the preset
      (which reads the value from before the change; the first update left it as it was). */
  function SelectTmrSource(cfg: TmrConfig, source: string): (r: TmrConfig)
    ensures r.source == source
    ensures source in TmrPresets ==> r.value == TmrPresets[source]
    ensures source !in TmrPresets ==> r.value == cfg.value
  {
    var withSource := cfg.(source := source);
    if source == ManualSource then withSource else ApplyUKRNPreset(cfg, source)
  }

  // Notional gearing edits.

  /** An edit of the notional gearing: the slider's value list (first entry in
      percent, possibly missing) or a number typed in the box (already parsed). */
  datatype GearingEdit = Slider(percent: Option<real>) | Typed(parsed: real)

  /** One gearing edit, clamped to [0, 1]; the other beta inputs are left alone. */
  function EditGearing(b: BetaInputs, edit: GearingEdit): (r: BetaInputs)
    ensures 0.0 <= r.notionalGearing <= 1.0
    ensures r == b.(notionalGearing := r.notionalGearing)
    ensures edit.Slider? && edit.percent.Some? && 0.0 <= edit.percent.value <= 100.0 ==>
              r.notionalGearing == edit.percent.value / 100.0
    ensures edit == Slider(None) ==> r.notionalGearing == 0.0
    ensures edit.Typed? && 0.0 <= edit.parsed <= 1.0 ==> r.notionalGearing == edit.parsed
  {
    match edit
    case Slider(p) => b.(notionalGearing := Clamp01(p.GetOr(0.0) / 100.0))
    case Typed(x) => b.(notionalGearing := Clamp01(x))
  }

  /** A sequence of gearing edits keeps D/V in [0, 1] and touches nothing else. */
  function EditGearingAll(b: BetaInputs, edits: seq<GearingEdit>): (r: BetaInputs)
    ensures 0.0 <= b.notionalGearing <= 1.0 ==> 0.0 <= r.notionalGearing <= 1.0
    ensures |edits| > 0 ==> 0.0 <= r.notionalGearing <= 1.0
    ensures r == b.(notionalGearing := r.notionalGearing)
    decreases |edits|
  {
    if |edits| == 0 then b else EditGearingAll(EditGearing(b, edits[0]), edits[1..])
  }
}
