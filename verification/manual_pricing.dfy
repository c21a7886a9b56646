/**
 * The manual calculator: every rate is typed in. Its own logic is the
 * nine-term unit cost, the zeroing of DIFAL and FCP for an ICMS taxpayer, the
 * zeroing of every channel fee for a direct sale, and the calculation.
 */
module ManualPricing {
  import opened Wrappers
  import opened Engine
  import SmartPricing

  /** The cost fields of the manual form. */
  datatype CostForm = CostForm(
    acquisition: real, nonRecoverableIpi: real,
    icmsCredit: real, pisCredit: real, cofinsCredit: real,
    freight: real, storage: real, broker: real, insurance: real)

  /**
   * Unit cost: acquisition cost and non-recoverable IPI, less the three credits,
   * plus freight, storage, broker and insurance. It agrees with the automatic
   * calculator's cost when its single "other costs" field holds the four
   * logistics costs, and it is not clamped.
   */
  function UnitCost(f: CostForm): (cost: real)
    ensures cost == SmartPricing.UnitCost(f.acquisition, f.nonRecoverableIpi,
                                          f.freight + f.storage + f.broker + f.insurance,
                                          f.icmsCredit, f.pisCredit, f.cofinsCredit)
    ensures cost + f.icmsCredit + f.pisCredit + f.cofinsCredit
         == f.acquisition + f.nonRecoverableIpi + f.freight + f.storage + f.broker + f.insurance
  {
    f.acquisition + f.nonRecoverableIpi
      - f.icmsCredit - f.pisCredit - f.cofinsCredit
      + f.freight + f.storage + f.broker + f.insurance
  }

  /** The rates typed in; DIFAL and FCP fields exist only for a final consumer. */
  datatype TaxForm = TaxForm(pis: real, cofins: real, icms: real, difal: real, fcp: real)

  /** The rates used: an ICMS taxpayer pays no DIFAL and no FCP, whatever was typed. */
  function EffectiveTaxes(buyer: Buyer, form: TaxForm): (t: TaxRates)
    ensures t.pis == form.pis && t.cofins == form.cofins && t.icms == form.icms
    ensures buyer == IcmsTaxpayer ==> t.difal == 0.0 && t.fcp == 0.0
    ensures buyer == FinalConsumer ==> t.difal == form.difal && t.fcp == form.fcp
  {
    match buyer
    case FinalConsumer => TaxRates(form.pis, form.cofins, form.icms, form.difal, form.fcp)
    case IcmsTaxpayer => TaxRates(form.pis, form.cofins, form.icms, 0.0, 0.0)
  }

  /** The channel chosen: a direct sale ("Nenhum (Venda Direta)") or a named marketplace. */
  datatype ChannelChoice = DirectSale | Marketplace(name: string)

  /** The fees used: a direct sale charges nothing; any marketplace charges what was typed. */
  function EffectiveChannel(choice: ChannelChoice, form: ChannelFees): (c: ChannelFees)
    ensures choice == DirectSale ==> c == NoChannelFees
    ensures choice.Marketplace? ==> c == form
  {
    if choice == DirectSale then NoChannelFees else form
  }

  /**
   * The "calculate" button: the effective rates and fees go to the shared
   * solver. It fails exactly where Decimal division raises; on success the
   * margin percent shown is the target and the net percent is 66% of it.
   */
  function Calculate(costs: CostForm, buyer: Buyer, taxForm: TaxForm,
                     choice: ChannelChoice, channelForm: ChannelFees, margin: real): (r: Result<Quote, CalcError>)
    ensures
      var t, c := EffectiveTaxes(buyer, taxForm), EffectiveChannel(choice, channelForm);
      r.Failure? <==> TotalFraction(margin, t, c) == 1.0 || UnitCost(costs) + c.fixedFee == 0.0
    ensures r.Success? ==>
      && r.value.unitCost == UnitCost(costs)
      && r.value.breakdown.marginPercent == margin
      && r.value.breakdown.netPercent == (1.0 - IncomeTaxRate) * margin
      && r.value.band == Classify(margin)
  {
    PriceAndReport(UnitCost(costs), margin, EffectiveTaxes(buyer, taxForm), EffectiveChannel(choice, channelForm))
  }

  /**
   * A successful calculation's price solves the pricing equation, its breakdown
   * adds back up to it, the contribution margin is the target share of it, and
   * the net profit is the margin less 34%.
   */
  lemma BreakdownAddsUp(costs: CostForm, buyer: Buyer, taxForm: TaxForm,
                        choice: ChannelChoice, channelForm: ChannelFees, margin: real)
    requires Calculate(costs, buyer, taxForm, choice, channelForm, margin).Success?
    ensures
      var b := Calculate(costs, buyer, taxForm, choice, channelForm, margin).value.breakdown;
      var c := EffectiveChannel(choice, channelForm);
      && b.price * (1.0 - TotalFraction(margin, EffectiveTaxes(buyer, taxForm), c)) == UnitCost(costs) + c.fixedFee
      && UnitCost(costs) + b.totalTaxes + b.totalChannel + b.contributionMargin == b.price
      && b.contributionMargin == b.price * margin / 100.0
      && b.netProfit == (1.0 - IncomeTaxRate) * b.contributionMargin
  {
    var q := PriceAndReport(UnitCost(costs), margin, EffectiveTaxes(buyer, taxForm), EffectiveChannel(choice, channelForm));
    assert q.Success?;
  }

  /** An ICMS taxpayer's breakdown shows no DIFAL and no FCP amount. */
  lemma TaxpayerPaysNoDifal(costs: CostForm, taxForm: TaxForm, choice: ChannelChoice, channelForm: ChannelFees, margin: real)
    requires Calculate(costs, IcmsTaxpayer, taxForm, choice, channelForm, margin).Success?
    ensures var b := Calculate(costs, IcmsTaxpayer, taxForm, choice, channelForm, margin).value.breakdown;
      b.difal == 0.0 && b.fcp == 0.0
  {
    var b := Calculate(costs, IcmsTaxpayer, taxForm, choice, channelForm, margin).value.breakdown;
    var t := EffectiveTaxes(IcmsTaxpayer, taxForm);
    assert b == Decompose(b.price, UnitCost(costs), t, EffectiveChannel(choice, channelForm));
    assert t.difal == 0.0 && t.fcp == 0.0;
  }

  /** A direct sale's breakdown shows no channel cost at all. */
  lemma DirectSaleHasNoChannelCosts(costs: CostForm, buyer: Buyer, taxForm: TaxForm, channelForm: ChannelFees, margin: real)
    requires Calculate(costs, buyer, taxForm, DirectSale, channelForm, margin).Success?
    ensures Calculate(costs, buyer, taxForm, DirectSale, channelForm, margin).value.breakdown.totalChannel == 0.0
  {
    var b := Calculate(costs, buyer, taxForm, DirectSale, channelForm, margin).value.breakdown;
    NoFeesNoChannelCost(b.price, UnitCost(costs), EffectiveTaxes(buyer, taxForm));
  }

  /** The cost fields' defaults. */
  const DefaultCosts := CostForm(100.0, 15.0, 18.0, 1.65, 7.60, 5.0, 1.0, 10.0, 3.0)
  /** The rate fields' defaults (for a final consumer, the default buyer). */
  const DefaultTaxes := TaxForm(1.65, 7.60, 12.0, 6.0, 2.0)

  /**
   * With the form's default inputs, unit cost 106.75 and shares of 49.25% (20%
   * margin, 29.25% taxes, no fees) give a price of about 210.34.
   */
  lemma DefaultFormScenario()
    ensures UnitCost(DefaultCosts) == 106.75
    ensures var r := Calculate(DefaultCosts, FinalConsumer, DefaultTaxes, DirectSale, NoChannelFees, 20.0);
      r.Success? && 210.34 < r.value.breakdown.price < 210.35
  {
    var t := TaxRates(1.65, 7.60, 12.0, 6.0, 2.0);
    assert EffectiveTaxes(FinalConsumer, DefaultTaxes) == t;
    assert TotalFraction(20.0, t, NoChannelFees) == 0.4925;
    var p := SolvePrice(106.75, 0.0, 0.4925);
    assert p * 0.5075 == 106.75;
  }

  /** The form's default inputs give a quote in the healthy band with no channel cost. */
  lemma DefaultFormIsHealthy()
    ensures var r := Calculate(DefaultCosts, FinalConsumer, DefaultTaxes, DirectSale, NoChannelFees, 20.0);
      r.Success? && r.value.band == Healthy && r.value.breakdown.totalChannel == 0.0
  {
    assert TotalFraction(20.0, EffectiveTaxes(FinalConsumer, DefaultTaxes), NoChannelFees) == 0.4925;
    assert UnitCost(DefaultCosts) == 106.75;
    DirectSaleHasNoChannelCosts(DefaultCosts, FinalConsumer, DefaultTaxes, NoChannelFees, 20.0);
  }

  /**
   * The form's defaults with "Mercado Livre" chosen and its fee fields at their
   * defaults: unit cost 106.75, shares of 70.25% in all (20% margin, 29.25%
   * taxes, 21% percent fees) and a 5.00 fixed fee give a price of about 375.63,
   * in the healthy band.
   */
  lemma MarketplaceDefaultScenario()
    ensures UnitCost(DefaultCosts) == 106.75
    ensures var r := Calculate(DefaultCosts, FinalConsumer, DefaultTaxes, Marketplace("Mercado Livre"),
                               ChannelFees(16.0, 5.0, 2.5, 2.5), 20.0);
      && r.Success?
      && 375.63 < r.value.breakdown.price < 375.64
      && r.value.band == Healthy
  {
    var t := TaxRates(1.65, 7.60, 12.0, 6.0, 2.0);
    var c := ChannelFees(16.0, 5.0, 2.5, 2.5);
    assert TotalFraction(20.0, t, c) == 0.7025;
    var p := SolvePrice(106.75, 5.0, 0.7025);
    assert p * 0.2975 == 111.75;
    assert p == 44700.0 / 119.0;
  }
}
