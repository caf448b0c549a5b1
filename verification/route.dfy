/**
 * The body of the `POST /api/capm` handler as a pure function: beta resolution
 * (explicit, then live, then the example table), the optional de-lever/re-lever
 * step at the request's gearing, Ke, the conditional vanilla WACC, and the
 * shape of the response. The live beta lookup is an input: `Some(b)` when the
 * provider returned a number, `None` when it returned null.
 */
module CapmRoute {
  import opened Wrappers
  import Capm
  import Examples

  /** The JavaScript values a field of the parsed request body can hold. */
  datatype JsValue = Undefined | Null | Num(n: real) | Str(s: string) | Bool(b: bool) | Obj

  /** JavaScript truthiness (`if (v)`), for values without NaN. */
  predicate Truthy(v: JsValue) {
    match v
    case Undefined => false
    case Null => false
    case Num(n) => n != 0.0
    case Str(s) => s != ""
    case Bool(b) => b
    case Obj => true
  }

  /** The request body. Rf and TMR are always numbers here; the other fields are checked
      with `typeof` or truthiness and so may hold any value. */
  datatype Request = Request(
    ticker: JsValue,
    riskFreeRate: real,
    totalMarketReturn: real,
    equityBeta: JsValue,
    gearing: JsValue,
    costOfDebt: JsValue,
    taxRate: JsValue,
    useNotionalGearing: JsValue)

  /** A computed number: finite, or the NaN that division by zero at gearing 1
      (or at a vanishing lever factor) leaves behind; JSON renders NaN as null. */
  datatype Number = Finite(value: real) | NaN

  /** The echoed inputs, with `equityBeta` replaced by the notional beta. */
  datatype EchoedInputs = EchoedInputs(
    ticker: JsValue,
    riskFreeRate: real,
    totalMarketReturn: real,
    equityBeta: Number,
    gearing: JsValue,
    costOfDebt: JsValue,
    taxRate: JsValue)

  /** `vanillaWACC` is `None` when the field is left undefined (absent from the JSON). */
  datatype Outputs = Outputs(costOfEquity: Number, vanillaWACC: Option<Number>)

  /** A 200 response with inputs and outputs, or the 400 "no beta" error. */
  datatype Response =
    | Computed(inputs: EchoedInputs, outputs: Outputs)
    | NoBeta(message: string)

  const NoBetaMessage := "No beta available for this ticker. Provide equityBeta explicitly or choose an example."

  /** `EXAMPLES[ticker]?.equityBeta`: only a string naming a table entry finds one. */
  function ExampleBeta(ticker: JsValue): (r: Option<real>)
    ensures r.Some? <==> ticker.Str? && ticker.s in Examples.Table
    ensures r.Some? ==> r.value == Examples.Table[ticker.s].equityBeta
  {
    match ticker
    case Str(s) =>
      var entry := Examples.Lookup(s);
      Examples.TableIsWellFormed();
      if entry.Some? then Some(entry.value.equityBeta) else None
    case _ => None
  }

  /** The first present value of an ordered list of beta providers. */
  function FirstAvailable(providers: seq<Option<real>>): (r: Option<real>)
    ensures r.None? <==> forall i :: 0 <= i < |providers| ==> providers[i].None?
    ensures r.Some? ==> exists i :: 0 <= i < |providers| && providers[i] == r
                                   && forall j :: 0 <= j < i ==> providers[j].None?
  {
    if |providers| == 0 then None
    else if providers[0].Some? then providers[0]
    else
      var rest := FirstAvailable(providers[1..]);
      FirstAvailableSkip(providers, rest);
      rest
  }

  /** Skipping an absent head keeps "first present value" true of the tail's answer. */
  lemma FirstAvailableSkip(providers: seq<Option<real>>, rest: Option<real>)
    requires |providers| > 0 && providers[0].None?
    requires rest.None? <==> forall i :: 0 <= i < |providers[1..]| ==> providers[1..][i].None?
    requires rest.Some? ==> exists i :: 0 <= i < |providers[1..]| && providers[1..][i] == rest
                                      && forall j :: 0 <= j < i ==> providers[1..][j].None?
    ensures rest.None? <==> forall i :: 0 <= i < |providers| ==> providers[i].None?
    ensures rest.Some? ==> exists i :: 0 <= i < |providers| && providers[i] == rest
                                     && forall j :: 0 <= j < i ==> providers[j].None?
  {
  }

  /** Beta resolution: a non-null explicit beta is used as it is (and a non-number
      there is an error), otherwise the live beta, otherwise the example table.
      `None` means no number was found: the 400 error. */
  function ResolveBeta(equityBeta: JsValue, live: Option<real>, ticker: JsValue): (r: Option<real>)
    ensures equityBeta.Num? ==> r == Some(equityBeta.n)
    ensures (equityBeta.Undefined? || equityBeta.Null?) && live.Some? ==> r == live
    ensures (equityBeta.Undefined? || equityBeta.Null?) && live.None? ==> r == ExampleBeta(ticker)
    ensures r.None? <==>
              || !(equityBeta.Undefined? || equityBeta.Null? || equityBeta.Num?)
              || ((equityBeta.Undefined? || equityBeta.Null?) && live.None?
                  && !(ticker.Str? && ticker.s in Examples.Table))
  {
    var beta :=
      if equityBeta.Undefined? || equityBeta.Null? then
        if live.Some? then Num(live.value)
        else if ExampleBeta(ticker).Some? then Num(ExampleBeta(ticker).value)
        else Undefined
      else equityBeta;
    if beta.Num? then Some(beta.n) else None
  }

  /** Whether the request asks for the de-lever/re-lever step and supplies the numbers it needs. */
  predicate RelevelsBeta(req: Request) {
    Truthy(req.useNotionalGearing) && req.taxRate.Num? && req.gearing.Num?
  }

  /** The notional beta: de-levered and re-levered at the request's own gearing when
      asked to, which gives back the same beta, or NaN where the division fails. */
  function NotionalBeta(beta: real, req: Request): (nb: Number)
    ensures nb.NaN? <==> RelevelsBeta(req) && !Capm.CanLever(req.gearing.n, req.taxRate.n)
    ensures nb.Finite? ==> nb.value == beta
  {
    if RelevelsBeta(req) then
      var g := req.gearing.n;
      var t := req.taxRate.n;
      if Capm.CanLever(g, t) then
        Capm.ReleverAfterDelever(beta, g, t);
        Finite(Capm.ReleverAssetBeta(Capm.DeleverEquityBeta(beta, g, t), g, t))
      else
        NaN
    else
      Finite(beta)
  }

  /** The handler, given the live beta the provider returned for the ticker. */
  function Post(req: Request, live: Option<real>): (r: Response)
    ensures r.NoBeta? <==> ResolveBeta(req.equityBeta, live, req.ticker).None?
    ensures r.NoBeta? ==> r.message == NoBetaMessage
    ensures r.Computed? ==>
              && r.inputs.ticker == req.ticker
              && r.inputs.riskFreeRate == req.riskFreeRate
              && r.inputs.totalMarketReturn == req.totalMarketReturn
              && r.inputs.gearing == req.gearing
              && r.inputs.costOfDebt == req.costOfDebt
              && r.inputs.taxRate == req.taxRate
    ensures r.Computed? ==> (r.outputs.vanillaWACC.Some? <==> req.gearing.Num? && req.costOfDebt.Num?)
    ensures r.Computed? ==> (r.inputs.equityBeta.NaN? <==> r.outputs.costOfEquity.NaN?)
    ensures r.Computed? ==> r.inputs.equityBeta == NotionalBeta(ResolveBeta(req.equityBeta, live, req.ticker).value, req)
    ensures r.Computed? && r.inputs.equityBeta.Finite? ==>
              r.outputs.costOfEquity == Finite(Capm.CostOfEquity(req.riskFreeRate, req.totalMarketReturn, r.inputs.equityBeta.value))
    ensures r.Computed? && r.outputs.vanillaWACC.Some? ==>
              (r.outputs.vanillaWACC.value.NaN? <==> r.inputs.equityBeta.NaN?)
  {
    match ResolveBeta(req.equityBeta, live, req.ticker)
    case None => NoBeta(NoBetaMessage)
    case Some(beta) =>
      var nb := NotionalBeta(beta, req);
      var ke := match nb
        case Finite(b) => Finite(Capm.CostOfEquity(req.riskFreeRate, req.totalMarketReturn, b))
        case NaN => NaN;
      var wacc :=
        if req.gearing.Num? && req.costOfDebt.Num? then
          Some(match nb
            case Finite(b) => Finite(Capm.VanillaWACC(req.riskFreeRate, req.totalMarketReturn, b,
                                                      req.gearing.n, req.costOfDebt.n))
            case NaN => NaN)
        else None;
      Computed(
        EchoedInputs(req.ticker, req.riskFreeRate, req.totalMarketReturn, nb,
                     req.gearing, req.costOfDebt, req.taxRate),
        Outputs(ke, wacc))
  }

  // Properties relating the handler to the formula library and the provider chain.

  /** Beta resolution is first-success selection over explicit, live and example
      providers, except that a non-null explicit value that is not a number stops
      the chain with an error instead of falling through. */
  lemma ResolveBetaIsProviderChain(equityBeta: JsValue, live: Option<real>, ticker: JsValue)
    ensures equityBeta.Undefined? || equityBeta.Null? ==>
              ResolveBeta(equityBeta, live, ticker) == FirstAvailable([live, ExampleBeta(ticker)])
    ensures equityBeta.Num? ==>
              ResolveBeta(equityBeta, live, ticker) == FirstAvailable([Some(equityBeta.n), live, ExampleBeta(ticker)])
    ensures !(equityBeta.Undefined? || equityBeta.Null? || equityBeta.Num?) ==>
              ResolveBeta(equityBeta, live, ticker).None?
  {
  }

  /** The live lookup only matters when no explicit beta was sent. */
  lemma ExplicitBetaIgnoresLive(req: Request, live1: Option<real>, live2: Option<real>)
    requires !(req.equityBeta.Undefined? || req.equityBeta.Null?)
    ensures Post(req, live1) == Post(req, live2)
  {
  }

  /** Whenever a beta is resolved and the levering step is either skipped or well
      defined, the response carries that beta unchanged, Ke computed from it, and
      the vanilla WACC exactly when gearing and cost of debt are numbers. */
  lemma PostWithResolvedBeta(req: Request, live: Option<real>, beta: real)
    requires ResolveBeta(req.equityBeta, live, req.ticker) == Some(beta)
    requires !RelevelsBeta(req) || Capm.CanLever(req.gearing.n, req.taxRate.n)
    ensures Post(req, live).Computed?
    ensures Post(req, live).inputs.equityBeta == Finite(beta)
    ensures Post(req, live).outputs.costOfEquity
         == Finite(Capm.CostOfEquity(req.riskFreeRate, req.totalMarketReturn, beta))
    ensures req.gearing.Num? && req.costOfDebt.Num? ==>
              (Post(req, live).outputs.vanillaWACC
               == Some(Finite(Capm.VanillaWACC(req.riskFreeRate, req.totalMarketReturn, beta,
                                               req.gearing.n, req.costOfDebt.n))))
  {
  }

  /** A request in range for levering (gearing in [0, 1), tax rate at most 1) always
      has a well-defined levering step. */
  lemma InRangeRequestIsFinite(req: Request, live: Option<real>)
    requires req.gearing.Num? && 0.0 <= req.gearing.n < 1.0
    requires req.taxRate.Num? && req.taxRate.n <= 1.0
    requires ResolveBeta(req.equityBeta, live, req.ticker).Some?
    ensures Post(req, live).Computed?
    ensures Post(req, live).inputs.equityBeta == Finite(ResolveBeta(req.equityBeta, live, req.ticker).value)
  {
  }

  /** At gearing 1 with levering asked for, D/E divides by zero and the beta, Ke and
      any WACC all come out NaN. */
  lemma FullGearingGivesNaN(req: Request, live: Option<real>)
    requires Truthy(req.useNotionalGearing) && req.taxRate.Num? && req.gearing == Num(1.0)
    requires ResolveBeta(req.equityBeta, live, req.ticker).Some?
    ensures Post(req, live).Computed?
    ensures Post(req, live).inputs.equityBeta == NaN
    ensures Post(req, live).outputs.costOfEquity == NaN
    ensures req.costOfDebt.Num? ==> Post(req, live).outputs.vanillaWACC == Some(NaN)
  {
  }

  /** Where the lever factor vanishes (t * g = 1 at a gearing other than 1, say
      g = 0.5 with t = 2), de-levering divides by zero and the beta, Ke and any WACC
      all come out NaN. Together with `FullGearingGivesNaN` this covers every
      levering request that `PostWithResolvedBeta` leaves out. */
  lemma ZeroLeverFactorGivesNaN(req: Request, live: Option<real>)
    requires RelevelsBeta(req) && req.gearing.n != 1.0 && req.taxRate.n * req.gearing.n == 1.0
    requires ResolveBeta(req.equityBeta, live, req.ticker).Some?
    ensures Post(req, live).Computed?
    ensures Post(req, live).inputs.equityBeta == NaN
    ensures Post(req, live).outputs.costOfEquity == NaN
    ensures req.costOfDebt.Num? ==> Post(req, live).outputs.vanillaWACC == Some(NaN)
  {
    Capm.CanLeverIff(req.gearing.n, req.taxRate.n);
  }

  /** Asking for National Grid without a beta and without a live value falls back to
      the table's 0.65 and gives Ke = 3.995% and vanilla WACC = 2.798%. */
  lemma NationalGridRequest()
    ensures Post(Request(Str("NG.L"), 0.012, 0.055, Undefined, Num(0.60), Num(0.020), Num(0.25), Bool(true)), None)
         == Computed(EchoedInputs(Str("NG.L"), 0.012, 0.055, Finite(0.65), Num(0.60), Num(0.020), Num(0.25)),
                     Outputs(Finite(0.03995), Some(Finite(0.02798))))
  {
  }
}
