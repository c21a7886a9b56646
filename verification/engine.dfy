/**
 * The reverse-margin pricing engine shared by both calculators: the closed-form
 * price solver, the breakdown of a price into its parts, and the margin bands.
 *
 * All amounts are `real`: the source computes with Python's `Decimal`, and the
 * model idealises it as exact arithmetic. Percent rates are written as entered
 * (12.0 means 12%) and turned into fractions only here, by dividing by 100.
 */
module Engine {
  import opened Wrappers

  /** Percent rates of the five taxes charged on the sale price. */
  datatype TaxRates = TaxRates(pis: real, cofins: real, icms: real, difal: real, fcp: real)

  /** A sales channel's fees: three percent rates and a fixed fee per sale. */
  datatype ChannelFees = ChannelFees(commission: real, fixedFee: real, prepayment: real, gateway: real)

  /** The fee schedule of a direct sale, or of a marketplace that was not found. */
  const NoChannelFees := ChannelFees(0.0, 0.0, 0.0, 0.0)

  /** Who buys: a final consumer (DIFAL may apply) or an ICMS taxpayer (it never does). */
  datatype Buyer = FinalConsumer | IcmsTaxpayer

  /** The estimated IRPJ + CSLL rate applied to the contribution margin. */
  const IncomeTaxRate: real := 0.34

  /** Sum of the sale taxes, as a fraction of the price. */
  function TaxFraction(t: TaxRates): real
  {
    (t.pis + t.cofins + t.icms + t.difal + t.fcp) / 100.0
  }

  /** Sum of the channel's percent fees, as a fraction of the price. */
  function VariableFeeFraction(c: ChannelFees): real
  {
    (c.commission + c.prepayment + c.gateway) / 100.0
  }

  /**
   * Everything that is taken as a share of the price: target margin, taxes and
   * percent fees, in percent points over 100. The fixed fee is not a share.
   */
  function TotalFraction(margin: real, t: TaxRates, c: ChannelFees): (total: real)
    ensures total * 100.0 == margin + (t.pis + t.cofins + t.icms + t.difal + t.fcp)
                                    + (c.commission + c.prepayment + c.gateway)
  {
    margin / 100.0 + TaxFraction(t) + VariableFeeFraction(c)
  }

  /**
   * The price solver: the price from which the percent shares leave exactly the
   * unit cost plus the fixed fee. Python's Decimal raises on a zero divisor,
   * which is the only case the source excludes; a total above 1 is not rejected.
   */
  function SolvePrice(cost: real, fixedFee: real, total: real): (price: real)
    requires total != 1.0
    ensures price * (1.0 - total) == cost + fixedFee
    ensures price == 0.0 <==> cost + fixedFee == 0.0
  {
    QuotientFacts(cost + fixedFee, 1.0 - total);
    (cost + fixedFee) / (1.0 - total)
  }

  /** With shares below 100% and something to recover, the price is positive. */
  lemma SolvePricePositive(cost: real, fixedFee: real, total: real)
    requires total < 1.0 && cost + fixedFee > 0.0
    ensures SolvePrice(cost, fixedFee, total) > 0.0
  {
    QuotientPositive(cost + fixedFee, 1.0 - total);
  }

  /** Shares above 100% are not rejected: they silently yield a negative price. */
  lemma SolvePriceNegativeWhenOvercommitted(cost: real, fixedFee: real, total: real)
    requires total > 1.0 && cost + fixedFee > 0.0
    ensures SolvePrice(cost, fixedFee, total) < 0.0
  {
    QuotientNegative(cost + fixedFee, 1.0 - total);
  }

  /** The price strictly grows with the total share taken from it. */
  lemma SolvePriceIncreasesWithShare(cost: real, fixedFee: real, lower: real, higher: real)
    requires lower < higher < 1.0 && cost + fixedFee > 0.0
    ensures SolvePrice(cost, fixedFee, lower) < SolvePrice(cost, fixedFee, higher)
  {
    QuotientDecreasesWithDivisor(cost + fixedFee, 1.0 - higher, 1.0 - lower);
  }

  /** The price strictly grows with the unit cost. */
  lemma SolvePriceIncreasesWithCost(lowCost: real, highCost: real, fixedFee: real, total: real)
    requires total < 1.0 && lowCost < highCost
    ensures SolvePrice(lowCost, fixedFee, total) < SolvePrice(highCost, fixedFee, total)
  {
    QuotientIncreasesWithDividend(lowCost + fixedFee, highCost + fixedFee, 1.0 - total);
  }

  /** Money amounts of one sale, as the calculators report them. */
  datatype Breakdown = Breakdown(
    price: real,
    pis: real, cofins: real, icms: real, difal: real, fcp: real,
    totalTaxes: real,
    commission: real, prepayment: real, gateway: real,
    totalChannel: real,
    contributionMargin: real,
    marginPercent: real,
    incomeTax: real,
    netProfit: real,
    netPercent: real)

  /**
   * Decomposes a price into taxes, channel costs and contribution margin. Each tax
   * and percent fee is the price times its rate over 100; the fixed fee is added
   * to the channel costs. The margin percent divides by the price, so a zero
   * price raises in the source (0 / 0).
   */
  function Decompose(price: real, cost: real, t: TaxRates, c: ChannelFees): (b: Breakdown)
    requires price != 0.0
    ensures b.price == price
    ensures && b.pis == price * (t.pis / 100.0) && b.cofins == price * (t.cofins / 100.0)
            && b.icms == price * (t.icms / 100.0) && b.difal == price * (t.difal / 100.0)
            && b.fcp == price * (t.fcp / 100.0)
    ensures && b.commission == price * (c.commission / 100.0)
            && b.prepayment == price * (c.prepayment / 100.0) && b.gateway == price * (c.gateway / 100.0)
    ensures b.totalTaxes == price * TaxFraction(t)
    ensures b.totalChannel == price * VariableFeeFraction(c) + c.fixedFee
    ensures cost + b.totalTaxes + b.totalChannel + b.contributionMargin == price
    ensures b.marginPercent * price == b.contributionMargin * 100.0
    ensures b.incomeTax == IncomeTaxRate * b.contributionMargin
    ensures b.netProfit == (1.0 - IncomeTaxRate) * b.contributionMargin
    ensures b.netPercent == (1.0 - IncomeTaxRate) * b.marginPercent
  {
    var pis := price * (t.pis / 100.0);
    var cofins := price * (t.cofins / 100.0);
    var icms := price * (t.icms / 100.0);
    var difal := price * (t.difal / 100.0);
    var fcp := price * (t.fcp / 100.0);
    var totalTaxes := pis + cofins + icms + difal + fcp;
    var commission := price * (c.commission / 100.0);
    var prepayment := price * (c.prepayment / 100.0);
    var gateway := price * (c.gateway / 100.0);
    var totalChannel := commission + c.fixedFee + prepayment + gateway;
    var margin := price - cost - totalTaxes - totalChannel;
    var marginPercent := (margin / price) * 100.0;
    var incomeTax := margin * IncomeTaxRate;
    var net := margin - incomeTax;
    var netPercent := (net / price) * 100.0;
    DistributeOverShares(price, t.pis, t.cofins, t.icms, t.difal, t.fcp);
    DistributeOverFees(price, c.commission, c.prepayment, c.gateway);
    PercentTimesBase(margin, price);
    ScaledPercent(margin, 1.0 - IncomeTaxRate, price);
    Breakdown(price, pis, cofins, icms, difal, fcp, totalTaxes,
              commission, prepayment, gateway, totalChannel,
              margin, marginPercent, incomeTax, net, netPercent)
  }

  /** With no channel fees, the channel costs of any price are zero. */
  lemma NoFeesNoChannelCost(price: real, cost: real, t: TaxRates)
    requires price != 0.0
    ensures Decompose(price, cost, t, NoChannelFees).totalChannel == 0.0
  {
    assert VariableFeeFraction(NoChannelFees) == 0.0;
  }

  /** Margin bands, with inclusive lower bounds. */
  datatype MarginBand = Healthy | Low | Critical

  /** Every margin percent falls in exactly one band. */
  function Classify(marginPercent: real): (band: MarginBand)
    ensures band == Healthy <==> marginPercent >= 20.0
    ensures band == Low <==> 10.0 <= marginPercent < 20.0
    ensures band == Critical <==> marginPercent < 10.0
  {
    if marginPercent >= 20.0 then Healthy
    else if marginPercent >= 10.0 then Low
    else Critical
  }

  /** The two exceptions Decimal division can raise in a calculation. */
  datatype CalcError =
    | DivisionByZero     // a non-zero amount divided by zero
    | DivisionUndefined  // zero divided by zero

  /** A completed calculation: its inputs as used, the breakdown and the band shown. */
  datatype Quote = Quote(unitCost: real, taxes: TaxRates, channel: ChannelFees,
                         breakdown: Breakdown, band: MarginBand)

  /**
   * Solves the price for a target margin, decomposes it and classifies the
   * resulting margin percent. A share total of exactly 100% divides by zero in
   * the solver; a zero price (nothing to recover) divides 0 by 0 in the margin
   * percent.
   */
  function PriceAndReport(cost: real, margin: real, t: TaxRates, c: ChannelFees): (r: Result<Quote, CalcError>)
    ensures r.Failure? <==> TotalFraction(margin, t, c) == 1.0 || cost + c.fixedFee == 0.0
    ensures r.Failure? ==> (r.error == DivisionUndefined <==> cost + c.fixedFee == 0.0)
    ensures r.Success? ==>
      var b := r.value.breakdown;
      && r.value.unitCost == cost && r.value.taxes == t && r.value.channel == c
      && b.price * (1.0 - TotalFraction(margin, t, c)) == cost + c.fixedFee
      && cost + b.totalTaxes + b.totalChannel + b.contributionMargin == b.price
      && b.contributionMargin == b.price * margin / 100.0
      && b.marginPercent == margin
      && b.netProfit == (1.0 - IncomeTaxRate) * b.contributionMargin
      && b.netPercent == (1.0 - IncomeTaxRate) * margin
      && r.value.band == Classify(margin)
  {
    var total := TotalFraction(margin, t, c);
    if total == 1.0 then
      Failure(if cost + c.fixedFee == 0.0 then DivisionUndefined else DivisionByZero)
    else if cost + c.fixedFee == 0.0 then
      Failure(DivisionUndefined)
    else
      var price := SolvePrice(cost, c.fixedFee, total);
      var b := Decompose(price, cost, t, c);
      SolvedPriceYieldsTargetMargin(cost, margin, t, c);
      Success(Quote(cost, t, c, b, Classify(b.marginPercent)))
  }

  /**
   * The central promise: decomposing the solved price leaves a contribution
   * margin of exactly the target share of the price, so the reported margin
   * percent is the target and the net percent is 66% of it.
   */
  lemma SolvedPriceYieldsTargetMargin(cost: real, margin: real, t: TaxRates, c: ChannelFees)
    requires TotalFraction(margin, t, c) != 1.0 && cost + c.fixedFee != 0.0
    ensures var b := Decompose(SolvePrice(cost, c.fixedFee, TotalFraction(margin, t, c)), cost, t, c);
      && b.contributionMargin == b.price * margin / 100.0
      && b.marginPercent == margin
      && b.netPercent == (1.0 - IncomeTaxRate) * margin
  {
    var total := TotalFraction(margin, t, c);
    var p := SolvePrice(cost, c.fixedFee, total);
    var b := Decompose(p, cost, t, c);
    var tx, vf := TaxFraction(t), VariableFeeFraction(c);
    assert p * (1.0 - total) == cost + c.fixedFee;
    assert p * (1.0 - total) == p - p * (margin / 100.0) - p * tx - p * vf;
    assert b.contributionMargin == p * (margin / 100.0);
    assert b.marginPercent * p == margin * p;
  }

  /** A successful report's breakdown is the decomposition of the solved price. */
  lemma ReportIsDecomposition(cost: real, margin: real, t: TaxRates, c: ChannelFees)
    requires PriceAndReport(cost, margin, t, c).Success?
    ensures var b := PriceAndReport(cost, margin, t, c).value.breakdown;
      && b.price == SolvePrice(cost, c.fixedFee, TotalFraction(margin, t, c))
      && b.price != 0.0 && b == Decompose(b.price, cost, t, c)
  {
  }

  /** The price strictly grows with the target margin, all else fixed. */
  lemma PriceIncreasesWithMargin(cost: real, lowMargin: real, highMargin: real, t: TaxRates, c: ChannelFees)
    requires lowMargin < highMargin && TotalFraction(highMargin, t, c) < 1.0
    requires cost + c.fixedFee > 0.0
    ensures SolvePrice(cost, c.fixedFee, TotalFraction(lowMargin, t, c))
          < SolvePrice(cost, c.fixedFee, TotalFraction(highMargin, t, c))
  {
    SolvePriceIncreasesWithShare(cost, c.fixedFee, TotalFraction(lowMargin, t, c), TotalFraction(highMargin, t, c));
  }

  /** Raising any tax rate or percent fee (none lowered) strictly raises the price. */
  lemma PriceIncreasesWithRates(cost: real, margin: real, t: TaxRates, c: ChannelFees, t': TaxRates, c': ChannelFees)
    requires t.pis <= t'.pis && t.cofins <= t'.cofins && t.icms <= t'.icms && t.difal <= t'.difal && t.fcp <= t'.fcp
    requires c.commission <= c'.commission && c.prepayment <= c'.prepayment && c.gateway <= c'.gateway
    requires t != t' || c.commission < c'.commission || c.prepayment < c'.prepayment || c.gateway < c'.gateway
    requires c.fixedFee == c'.fixedFee && cost + c.fixedFee > 0.0
    requires TotalFraction(margin, t', c') < 1.0
    ensures SolvePrice(cost, c.fixedFee, TotalFraction(margin, t, c))
          < SolvePrice(cost, c.fixedFee, TotalFraction(margin, t', c'))
  {
    assert TaxFraction(t) <= TaxFraction(t');
    assert TotalFraction(margin, t, c) < TotalFraction(margin, t', c');
    SolvePriceIncreasesWithShare(cost, c.fixedFee, TotalFraction(margin, t, c), TotalFraction(margin, t', c'));
  }

  // Facts about real division, kept apart so that each proof sees only its own terms.

  lemma DistributeOverShares(p: real, a: real, b: real, c: real, d: real, e: real)
    ensures p * (a / 100.0) + p * (b / 100.0) + p * (c / 100.0) + p * (d / 100.0) + p * (e / 100.0)
         == p * ((a + b + c + d + e) / 100.0)
  {
  }

  lemma DistributeOverFees(p: real, a: real, b: real, c: real)
    ensures p * (a / 100.0) + p * (b / 100.0) + p * (c / 100.0) == p * ((a + b + c) / 100.0)
  {
  }

  lemma PercentTimesBase(x: real, p: real)
    requires p != 0.0
    ensures ((x / p) * 100.0) * p == x * 100.0
  {
    QuotientFacts(x, p);
  }

  lemma ScaledPercent(x: real, k: real, p: real)
    requires p != 0.0
    ensures ((k * x) / p) * 100.0 == k * ((x / p) * 100.0)
  {
  }

  lemma QuotientFacts(a: real, b: real)
    requires b != 0.0
    ensures (a / b) * b == a
    ensures a / b == 0.0 <==> a == 0.0
  {
  }

  lemma QuotientPositive(a: real, b: real)
    requires a > 0.0 && b > 0.0
    ensures a / b > 0.0
  {
  }

  lemma QuotientNegative(a: real, b: real)
    requires a > 0.0 && b < 0.0
    ensures a / b < 0.0
  {
  }

  lemma PositiveFactor(a: real, s: real)
    requires s > 0.0 && a * s > 0.0
    ensures a > 0.0
  {
  }

  lemma SmallerFactor(x: real, y: real, s: real)
    requires s > 0.0 && x * s < y * s
    ensures x < y
  {
    assert (y - x) * s == y * s - x * s;
    PositiveFactor(y - x, s);
  }

  lemma QuotientDecreasesWithDivisor(a: real, small: real, big: real)
    requires a > 0.0 && 0.0 < small < big
    ensures a / big < a / small
  {
    var x, y := a / big, a / small;
    QuotientFacts(a, big);
    QuotientFacts(a, small);
    QuotientPositive(a, big);
    assert x * small < x * big == a == y * small;
    SmallerFactor(x, y, small);
  }

  lemma QuotientIncreasesWithDividend(a: real, b: real, d: real)
    requires a < b && d > 0.0
    ensures a / d < b / d
  {
    QuotientFacts(a, d);
    QuotientFacts(b, d);
    assert (b / d - a / d) * d == b / d * d - a / d * d;
    PositiveFactor(b / d - a / d, d);
  }
}
