/**
 * The automatic calculator's engine: the unit-cost sum, the resolution of ICMS,
 * DIFAL and FCP from a route row and the buyer, the marketplace fallback, and
 * the calculation that feeds them to the shared price solver.
 */
module SmartPricing {
  import opened Wrappers
  import opened Engine
  import opened RuleTables

  /**
   * Unit cost: acquisition cost, non-recoverable IPI and other costs, less the
   * ICMS, PIS and COFINS credits. Nothing clamps it, so large credits give a
   * negative cost.
   */
  function UnitCost(acquisition: real, nonRecoverableIpi: real, otherCosts: real,
                    icmsCredit: real, pisCredit: real, cofinsCredit: real): (cost: real)
    ensures cost + icmsCredit + pisCredit + cofinsCredit == acquisition + nonRecoverableIpi + otherCosts
    ensures icmsCredit + pisCredit + cofinsCredit > acquisition + nonRecoverableIpi + otherCosts ==> cost < 0.0
  {
    acquisition + nonRecoverableIpi + otherCosts - icmsCredit - pisCredit - cofinsCredit
  }

  /** The ICMS rate used when no route row exists and the sale is interstate. */
  const DefaultInterstateIcms: real := 12.0
  /** The ICMS rate used when no route row exists and the sale stays in one state. */
  const DefaultInternalIcms: real := 18.0

  /** The three route-dependent rates (percent). */
  datatype IcmsRates = IcmsRates(icms: real, difal: real, fcp: real)

  /** DIFAL and FCP are charged: an interstate sale to a final consumer on a route flagged for DIFAL. */
  predicate DifalApplies(route: Option<RouteRow>, origin: string, destination: string, buyer: Buyer)
  {
    route.Some? && origin != destination && buyer == FinalConsumer && route.value.computesDifal
  }

  /**
   * Resolves ICMS, DIFAL and FCP. With a route row: a same-state sale pays the
   * internal rate; an interstate sale pays the interstate rate, plus, when DIFAL
   * applies, the gap to the internal rate (not clamped) and the row's FCP.
   * Without a row: 12% interstate or 18% internal, and no DIFAL or FCP.
   */
  function ResolveIcms(route: Option<RouteRow>, origin: string, destination: string, buyer: Buyer): (r: IcmsRates)
    ensures origin == destination ==> r.difal == 0.0 && r.fcp == 0.0
    ensures origin == destination ==>
      r.icms == if route.Some? then route.value.internalRate else DefaultInternalIcms
    ensures origin != destination ==>
      r.icms == if route.Some? then route.value.interstateRate else DefaultInterstateIcms
    ensures DifalApplies(route, origin, destination, buyer) ==>
      && r.difal == route.value.internalRate - route.value.interstateRate
      && r.icms + r.difal == route.value.internalRate
      && r.fcp == route.value.fcpRate
    ensures !DifalApplies(route, origin, destination, buyer) ==> r.difal == 0.0 && r.fcp == 0.0
  {
    if route.Some? then
      var row := route.value;
      if origin == destination then
        IcmsRates(row.internalRate, 0.0, 0.0)
      else if buyer == FinalConsumer && row.computesDifal then
        IcmsRates(row.interstateRate, row.internalRate - row.interstateRate, row.fcpRate)
      else
        IcmsRates(row.interstateRate, 0.0, 0.0)
    else
      IcmsRates(if origin != destination then DefaultInterstateIcms else DefaultInternalIcms, 0.0, 0.0)
  }

  /** The tax rates of a sale: PIS and COFINS from the NCM rule, the rest from the route. */
  function ResolveTaxes(rule: NcmRule, route: Option<RouteRow>, origin: string, destination: string, buyer: Buyer): (t: TaxRates)
    ensures t.pis == rule.pis && t.cofins == rule.cofins
    ensures IcmsRates(t.icms, t.difal, t.fcp) == ResolveIcms(route, origin, destination, buyer)
    ensures buyer == IcmsTaxpayer ==> t.difal == 0.0 && t.fcp == 0.0
  {
    var icms := ResolveIcms(route, origin, destination, buyer);
    TaxRates(rule.pis, rule.cofins, icms.icms, icms.difal, icms.fcp)
  }

  /** The channel fees of a marketplace row; a marketplace not found charges nothing. */
  function ChannelFor(market: Option<MarketplaceRow>): (c: ChannelFees)
    ensures market.None? ==> c == NoChannelFees
    ensures market.Some? ==>
      && c.commission == market.value.commission && c.fixedFee == market.value.fixedFee
      && c.prepayment == market.value.prepayment && c.gateway == market.value.gateway
  {
    match market
    case None => NoChannelFees
    case Some(row) => ChannelFees(row.commission, row.fixedFee, row.prepayment, row.gateway)
  }

  /** The seeded direct-sale schedule charges what a missing marketplace charges: nothing. */
  lemma DirectSaleSeedChargesNothing()
    ensures SeedMarketplaces[4].name == "Venda Direta"
    ensures ChannelFor(Some(SeedMarketplaces[4])) == ChannelFor(None)
  {
  }

  /** A calculation: whether the route warning was shown, and the quote or the error raised. */
  datatype Calculation = Calculation(routeWarning: bool, outcome: Result<Quote, CalcError>)

  /**
   * The "calculate" action once the NCM row is at hand: resolve the rates from
   * the route row (warning when it is missing), take the marketplace's fees (or
   * none), solve the price and report it. It fails exactly where Decimal
   * division raises; on success the quote carries the NCM's PIS and COFINS, no
   * fees for a missing marketplace, the target as margin percent, 66% of it as
   * net percent and the target's band, and a same-state or taxpayer sale pays
   * no DIFAL or FCP.
   */
  function Calculate(rule: NcmRule, route: Option<RouteRow>, market: Option<MarketplaceRow>,
                     origin: string, destination: string, buyer: Buyer,
                     cost: real, margin: real): (result: Calculation)
    ensures result.routeWarning <==> route.None?
    ensures result.outcome.Failure? <==>
      || TotalFraction(margin, ResolveTaxes(rule, route, origin, destination, buyer), ChannelFor(market)) == 1.0
      || cost + ChannelFor(market).fixedFee == 0.0
    ensures result.outcome.Success? ==>
      var q := result.outcome.value;
      && q.unitCost == cost
      && q.taxes == ResolveTaxes(rule, route, origin, destination, buyer)
      && q.channel == ChannelFor(market)
      && q.taxes.pis == rule.pis && q.taxes.cofins == rule.cofins
      && (market.None? ==> q.channel == NoChannelFees)
      && q.breakdown.marginPercent == margin
      && q.breakdown.netPercent == (1.0 - IncomeTaxRate) * margin
      && q.band == Classify(margin)
    ensures result.outcome.Success? && (origin == destination || buyer == IcmsTaxpayer) ==>
      result.outcome.value.taxes.difal == 0.0 && result.outcome.value.taxes.fcp == 0.0
  {
    var taxes := ResolveTaxes(rule, route, origin, destination, buyer);
    Calculation(route.None?, PriceAndReport(cost, margin, taxes, ChannelFor(market)))
  }

  /**
   * A successful quote's price solves the pricing equation with the resolved
   * rates and fees, the parts of its breakdown add back up to it, and the
   * contribution margin is the target share of it.
   */
  lemma BreakdownAddsUp(rule: NcmRule, route: Option<RouteRow>, market: Option<MarketplaceRow>,
                        origin: string, destination: string, buyer: Buyer, cost: real, margin: real)
    requires Calculate(rule, route, market, origin, destination, buyer, cost, margin).outcome.Success?
    ensures
      var q := Calculate(rule, route, market, origin, destination, buyer, cost, margin).outcome.value;
      var b := q.breakdown;
      && b.price * (1.0 - TotalFraction(margin, q.taxes, q.channel)) == cost + q.channel.fixedFee
      && cost + b.totalTaxes + b.totalChannel + b.contributionMargin == b.price
      && b.contributionMargin == b.price * margin / 100.0
      && b.netProfit == (1.0 - IncomeTaxRate) * b.contributionMargin
  {
    var t, c := ResolveTaxes(rule, route, origin, destination, buyer), ChannelFor(market);
    assert PriceAndReport(cost, margin, t, c).Success?;
  }

  /** A same-state sale never carries DIFAL or FCP, whatever the route table holds. */
  lemma SameStateQuoteHasNoDifal(rule: NcmRule, route: Option<RouteRow>, market: Option<MarketplaceRow>,
                                 state: string, buyer: Buyer, cost: real, margin: real)
    requires Calculate(rule, route, market, state, state, buyer, cost, margin).outcome.Success?
    ensures var q := Calculate(rule, route, market, state, state, buyer, cost, margin).outcome.value;
      q.taxes.difal == 0.0 && q.taxes.fcp == 0.0 && q.breakdown.difal == 0.0 && q.breakdown.fcp == 0.0
  {
  }

  /** The seeded SP -> RJ route for a final consumer: ICMS 12%, DIFAL 6%, FCP 2%. */
  lemma SeedRouteScenario()
    ensures FirstRoute(SeedRoutes, "SP", "RJ") == Some(RouteRow("SP", "RJ", 18.0, 12.0, 2.0, true))
    ensures ResolveIcms(FirstRoute(SeedRoutes, "SP", "RJ"), "SP", "RJ", FinalConsumer) == IcmsRates(12.0, 6.0, 2.0)
    ensures ResolveIcms(FirstRoute(SeedRoutes, "SP", "RJ"), "SP", "RJ", IcmsTaxpayer) == IcmsRates(12.0, 0.0, 0.0)
  {
  }
}
