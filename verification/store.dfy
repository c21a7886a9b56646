/**
 * The rule store of the automatic calculator: the three tables held in place,
 * the seeding done on every run of the script, the lookups, the registration of a new NCM from its
 * form, and the calculation that reads its rules from the store.
 */
module Store {
  import opened Wrappers
  import opened Engine
  import opened RuleTables
  import SmartPricing

  /** What the registration form reports after a submission. */
  datatype FormOutcome = Registered | AlreadyExists | InvalidForm

  /** An NCM code as the form's label asks for it: eight digits. */
  predicate IsNcmCode(code: string)
  {
    |code| == 8 && forall i :: 0 <= i < |code| ==> '0' <= code[i] <= '9'
  }

  /** The registration check as written: eight characters of any kind and a non-empty description. */
  predicate FormAcceptsAsWritten(code: string, description: string)
    ensures IsNcmCode(code) && description != "" ==> FormAcceptsAsWritten(code, description)
  {
    |code| == 8 && description != ""
  }

  /** The registration check as intended: an eight-digit code and a non-empty description. */
  predicate FormAccepts(code: string, description: string)
  {
    IsNcmCode(code) && description != ""
  }

  /** The calculator's option for a stored NCM: code, " - ", description. */
  function OptionLabel(code: string, description: string): (option: string)
    ensures |option| == |code| + 3 + |description|
    ensures option[..|code|] == code && option[|code|..|code| + 3] == " - " && option[|code| + 3..] == description
  {
    code + " - " + description
  }

  /** The separator " - " starts at position `i` of `s`. */
  predicate SepAt(s: string, i: int)
  {
    0 <= i && i + 3 <= |s| && s[i] == ' ' && s[i + 1] == '-' && s[i + 2] == ' '
  }

  /** The code read back from a chosen option: the text before the first " - ", or all of it. */
  function SelectedCode(option: string): (code: string)
    ensures |code| <= |option| && code == option[..|code|]
  {
    if |option| < 3 then option
    else if SepAt(option, 0) then ""
    else [option[0]] + SelectedCode(option[1..])
  }

  /**
   * What `split(" - ")[0]` returns: the longest piece of the option in which no
   * separator starts, which is the whole option or ends where one starts.
   */
  lemma {:induction false} SelectedCodeIsFirstPiece(option: string)
    ensures var code := SelectedCode(option);
      && (forall i :: 0 <= i < |code| ==> !SepAt(option, i))
      && (|code| == |option| || SepAt(option, |code|))
  {
    var code := SelectedCode(option);
    if |option| >= 3 && !SepAt(option, 0) {
      var rest := SelectedCode(option[1..]);
      SelectedCodeIsFirstPiece(option[1..]);
      assert code == [option[0]] + rest;
      forall i | 0 < i < |code|
        ensures !SepAt(option, i)
      {
        assert SepAt(option, i) == SepAt(option[1..], i - 1);
      }
      assert SepAt(option, |code|) == SepAt(option[1..], |rest|);
    }
  }

  /** A code without spaces is read back from its option whatever the description says. */
  lemma {:induction false} SelectedCodeOfLabel(code: string, description: string)
    requires forall i :: 0 <= i < |code| ==> code[i] != ' '
    ensures SelectedCode(OptionLabel(code, description)) == code
  {
    var option := OptionLabel(code, description);
    if code == [] {
      assert option == " - " + description;
      assert SepAt(option, 0);
    } else {
      assert option[0] == code[0] != ' ';
      assert option[1..] == OptionLabel(code[1..], description);
      SelectedCodeOfLabel(code[1..], description);
    }
  }

  /**
   * As written, the form registers "12 - 456", whose option is read back as "12":
   * the lookup then misses and the calculation fails on the missing row.
   */
  lemma AsWrittenFormLosesSpacedCode()
    ensures FormAcceptsAsWritten("12 - 456", "Teste")
    ensures SelectedCode(OptionLabel("12 - 456", "Teste")) == "12"
  {
    var option := OptionLabel("12 - 456", "Teste");
    assert !SepAt(option, 0) && !SepAt(option[1..], 0) && SepAt(option[2..], 0);
  }

  /** With the intended check every accepted code is read back from its option unchanged. */
  lemma AcceptedCodeIsSelectedBack(code: string, description: string)
    requires FormAccepts(code, description)
    ensures SelectedCode(OptionLabel(code, description)) == code
  {
    SelectedCodeOfLabel(code, description);
  }

  /** The seeded NCM codes are eight-digit codes. */
  lemma SeedCodesAreNcmCodes()
    ensures forall code :: code in KeysOf(NcmEntries(SeedNcms)) ==> IsNcmCode(code)
  {
    var e := NcmEntries(SeedNcms);
    forall i | 0 <= i < |e|
      ensures IsNcmCode(e[i].0)
    {
      assert e[i].0 == SeedNcms[i].code;
    }
  }

  /** The cost fields of the calculator form. */
  datatype CostInputs = CostInputs(
    acquisition: real, nonRecoverableIpi: real, otherCosts: real,
    icmsCredit: real, pisCredit: real, cofinsCredit: real)

  /** The sale fields of the calculator form. */
  datatype SaleRequest = SaleRequest(
    ncmCode: string, origin: string, destination: string,
    buyer: Buyer, marketplace: string, margin: real)

  /** The unit cost of the cost fields. */
  function CostOf(costs: CostInputs): real
  {
    SmartPricing.UnitCost(costs.acquisition, costs.nonRecoverableIpi, costs.otherCosts,
                          costs.icmsCredit, costs.pisCredit, costs.cofinsCredit)
  }

  /** The row a successful registration adds: the given rates, every credit flag on, no notes. */
  function RegisteredRule(code: string, description: string, pis: real, cofins: real, ipi: real): (rule: NcmRule)
    ensures rule.code == code && rule.description == description
    ensures rule.pis == pis && rule.cofins == cofins && rule.ipi == ipi
    ensures rule.creditsPis && rule.creditsCofins && rule.creditsIcms && rule.notes.None?
  {
    NcmRule(code, description, pis, cofins, ipi, true, true, true, None)
  }

  class RuleStore {
    var ncm: map<string, NcmRule>
    var routes: seq<RouteRow>
    var marketplaces: map<string, MarketplaceRow>

    /** Every row sits under its own key: `codigo` in `ncm`, `nome` in `marketplace`. */
    ghost predicate Valid()
      reads this
    {
      && (forall code :: code in ncm ==> ncm[code].code == code)
      && (forall name :: name in marketplaces ==> marketplaces[name].name == name)
    }

    /** Every stored code is an eight-digit code, so its option reads back to it. */
    ghost predicate CodesSelectable()
      reads this
    {
      forall code :: code in ncm ==> IsNcmCode(code)
    }

    /** A database file created by the first run: three empty tables. */
    constructor ()
      ensures Valid() && CodesSelectable()
      ensures ncm == map[] && routes == [] && marketplaces == map[]
    {
      ncm, routes, marketplaces := map[], [], map[];
    }

    /** INSERT OR IGNORE of NCM rows, one after the other: an existing code keeps its row. */
    method InsertOrIgnoreNcms(rows: seq<NcmRule>)
      requires Valid()
      modifies this
      ensures Valid()
      ensures ncm == InsertOrIgnoreAll(old(ncm), NcmEntries(rows))
      ensures routes == old(routes) && marketplaces == old(marketplaces)
    {
      for i := 0 to |rows|
        invariant Valid()
        invariant ncm == InsertOrIgnoreAll(old(ncm), NcmEntries(rows[..i]))
        invariant routes == old(routes) && marketplaces == old(marketplaces)
      {
        ghost var before := ncm;
        var row := rows[i];
        if row.code !in ncm {
          ncm := ncm[row.code := row];
        }
        assert ncm == InsertOrIgnore(before, row.code, row);
        NcmEntriesSnoc(rows, i);
        InsertOrIgnoreAllSnoc(old(ncm), NcmEntries(rows[..i]), row.code, row);
      }
      assert rows[..|rows|] == rows;
    }

    /** INSERT OR IGNORE of marketplace rows: an existing name keeps its row. */
    method InsertOrIgnoreMarketplaces(rows: seq<MarketplaceRow>)
      requires Valid()
      modifies this
      ensures Valid()
      ensures marketplaces == InsertOrIgnoreAll(old(marketplaces), MarketplaceEntries(rows))
      ensures ncm == old(ncm) && routes == old(routes)
    {
      for i := 0 to |rows|
        invariant Valid()
        invariant marketplaces == InsertOrIgnoreAll(old(marketplaces), MarketplaceEntries(rows[..i]))
        invariant ncm == old(ncm) && routes == old(routes)
      {
        ghost var before := marketplaces;
        var row := rows[i];
        if row.name !in marketplaces {
          marketplaces := marketplaces[row.name := row];
        }
        assert marketplaces == InsertOrIgnore(before, row.name, row);
        MarketplaceEntriesSnoc(rows, i);
        InsertOrIgnoreAllSnoc(old(marketplaces), MarketplaceEntries(rows[..i]), row.name, row);
      }
      assert rows[..|rows|] == rows;
    }

    /** INSERT OR IGNORE into `icms_uf`: no constraint can clash, so every row is appended. */
    method AppendRoutes(rows: seq<RouteRow>)
      requires Valid()
      modifies this
      ensures Valid()
      ensures routes == old(routes) + rows
      ensures ncm == old(ncm) && marketplaces == old(marketplaces)
    {
      for i := 0 to |rows|
        invariant Valid()
        invariant routes == old(routes) + rows[..i]
        invariant ncm == old(ncm) && marketplaces == old(marketplaces)
      {
        assert rows[..i + 1] == rows[..i] + [rows[i]];
        routes := routes + [rows[i]];
      }
      assert rows[..|rows|] == rows;
    }

    /** The seeding done on every run of the script (each widget interaction re-runs it): NCMs and marketplaces are kept once, routes pile up. */
    method Initialize()
      requires Valid()
      modifies this
      ensures Valid()
      ensures old(CodesSelectable()) ==> CodesSelectable()
      ensures ncm == InsertOrIgnoreAll(old(ncm), NcmEntries(SeedNcms))
      ensures routes == old(routes) + SeedRoutes
      ensures marketplaces == InsertOrIgnoreAll(old(marketplaces), MarketplaceEntries(SeedMarketplaces))
    {
      InsertOrIgnoreNcms(SeedNcms);
      AppendRoutes(SeedRoutes);
      InsertOrIgnoreMarketplaces(SeedMarketplaces);
      SeedCodesAreNcmCodes();
    }

    /** The NCM lookup by code. */
    function FindNcm(code: string): (r: Option<NcmRule>)
      reads this
      requires Valid()
      ensures r.Some? <==> code in ncm
      ensures r.Some? ==> r.value.code == code && r.value == ncm[code]
    {
      if code in ncm then Some(ncm[code]) else None
    }

    /** The route lookup: the first stored row for the pair. */
    function FindRoute(origin: string, destination: string): (r: Option<RouteRow>)
      reads this
      ensures r.None? <==> forall i :: 0 <= i < |routes| ==> !Matches(routes[i], origin, destination)
      ensures r.Some? ==> r.value in routes && Matches(r.value, origin, destination)
    {
      FirstRoute(routes, origin, destination)
    }

    /** The marketplace lookup by name (inactive rows are found too). */
    function FindMarketplace(name: string): (r: Option<MarketplaceRow>)
      reads this
      requires Valid()
      ensures r.Some? <==> name in marketplaces
      ensures r.Some? ==> r.value.name == name && r.value == marketplaces[name]
    {
      if name in marketplaces then Some(marketplaces[name]) else None
    }

    /** A plain INSERT: it fails on an existing code, leaving the table as it was. */
    method RegisterNcm(code: string, description: string, pis: real, cofins: real, ipi: real) returns (ok: bool)
      requires Valid()
      modifies this
      ensures Valid()
      ensures ok <==> code !in old(ncm)
      ensures ncm == if ok then old(ncm)[code := RegisteredRule(code, description, pis, cofins, ipi)] else old(ncm)
      ensures routes == old(routes) && marketplaces == old(marketplaces)
    {
      ok := code !in ncm;
      if ok {
        ncm := ncm[code := RegisteredRule(code, description, pis, cofins, ipi)];
      }
    }

    /**
     * The registration form, with the intended check: an eight-digit code and a
     * non-empty description reach the INSERT; anything else is refused before
     * the table is touched. Every stored code stays selectable.
     */
    method SubmitNcmForm(code: string, description: string, pis: real, cofins: real, ipi: real)
      returns (outcome: FormOutcome)
      requires Valid()
      modifies this
      ensures Valid()
      ensures old(CodesSelectable()) ==> CodesSelectable()
      ensures outcome == InvalidForm <==> !FormAccepts(code, description)
      ensures outcome == AlreadyExists <==> FormAccepts(code, description) && code in old(ncm)
      ensures outcome == Registered <==> FormAccepts(code, description) && code !in old(ncm)
      ensures outcome == Registered ==> ncm == old(ncm)[code := RegisteredRule(code, description, pis, cofins, ipi)]
      ensures outcome != Registered ==> ncm == old(ncm)
      ensures routes == old(routes) && marketplaces == old(marketplaces)
    {
      if FormAccepts(code, description) {
        var ok := RegisterNcm(code, description, pis, cofins, ipi);
        outcome := if ok then Registered else AlreadyExists;
      } else {
        outcome := InvalidForm;
      }
    }

    /**
     * The registration form as written: any eight characters and a non-empty
     * description reach the INSERT, so a code the calculator cannot read back
     * may be stored.
     */
    method SubmitNcmFormAsWritten(code: string, description: string, pis: real, cofins: real, ipi: real)
      returns (outcome: FormOutcome)
      requires Valid()
      modifies this
      ensures Valid()
      ensures outcome == InvalidForm <==> !FormAcceptsAsWritten(code, description)
      ensures outcome == AlreadyExists <==> FormAcceptsAsWritten(code, description) && code in old(ncm)
      ensures outcome == Registered <==> FormAcceptsAsWritten(code, description) && code !in old(ncm)
      ensures outcome == Registered ==> ncm == old(ncm)[code := RegisteredRule(code, description, pis, cofins, ipi)]
      ensures outcome != Registered ==> ncm == old(ncm)
      ensures routes == old(routes) && marketplaces == old(marketplaces)
    {
      if FormAcceptsAsWritten(code, description) {
        var ok := RegisterNcm(code, description, pis, cofins, ipi);
        outcome := if ok then Registered else AlreadyExists;
      } else {
        outcome := InvalidForm;
      }
    }

    /**
     * The "calculate" action: the NCM is one the store holds (the form offers
     * only stored codes and refuses an empty choice); route and marketplace
     * lookups may miss and fall back.
     */
    function QuoteFor(req: SaleRequest, costs: CostInputs): (result: SmartPricing.Calculation)
      reads this
      requires Valid() && req.ncmCode in ncm
      ensures result.routeWarning <==>
        forall i :: 0 <= i < |routes| ==> !Matches(routes[i], req.origin, req.destination)
      ensures result.outcome.Success? ==>
        var q := result.outcome.value;
        && q.unitCost == CostOf(costs)
        && q.taxes == SmartPricing.ResolveTaxes(ncm[req.ncmCode], FindRoute(req.origin, req.destination),
                                                req.origin, req.destination, req.buyer)
        && q.channel == SmartPricing.ChannelFor(FindMarketplace(req.marketplace))
        && q.taxes.pis == ncm[req.ncmCode].pis && q.taxes.cofins == ncm[req.ncmCode].cofins
        && (req.marketplace !in marketplaces ==> q.channel == NoChannelFees)
        && q.breakdown.marginPercent == req.margin
        && q.band == Classify(req.margin)
      ensures req.origin == req.destination && result.outcome.Success? ==>
        result.outcome.value.taxes.difal == 0.0 && result.outcome.value.taxes.fcp == 0.0
    {
      var rule := FindNcm(req.ncmCode).value;
      SmartPricing.Calculate(rule, FindRoute(req.origin, req.destination), FindMarketplace(req.marketplace),
                             req.origin, req.destination, req.buyer, CostOf(costs), req.margin)
    }
  }

  /**
   * Every option the calculator offers reads back to a stored code, so the NCM
   * lookup of a calculation never misses.
   */
  lemma OfferedCodeIsFound(s: RuleStore, code: string)
    requires s.Valid() && s.CodesSelectable() && code in s.ncm
    ensures SelectedCode(OptionLabel(code, s.ncm[code].description)) in s.ncm
  {
    SelectedCodeOfLabel(code, s.ncm[code].description);
  }

  /**
   * Two runs of the script on a new database file: the NCM and
   * marketplace tables are as after one, the route table holds every seed row
   * twice, and every route lookup answers as over the seed rows alone.
   */
  method RunTwice() returns (s: RuleStore)
    ensures fresh(s) && s.Valid() && s.CodesSelectable()
    ensures s.ncm == InsertOrIgnoreAll(map[], NcmEntries(SeedNcms))
    ensures s.marketplaces == InsertOrIgnoreAll(map[], MarketplaceEntries(SeedMarketplaces))
    ensures s.routes == SeedRoutes + SeedRoutes
    ensures forall o, d :: s.FindRoute(o, d) == FirstRoute(SeedRoutes, o, d)
  {
    s := new RuleStore();
    s.Initialize();
    s.Initialize();
    InsertOrIgnoreAllIdempotent(map[], NcmEntries(SeedNcms));
    InsertOrIgnoreAllIdempotent(map[], MarketplaceEntries(SeedMarketplaces));
    assert s.routes == Repeat(SeedRoutes, 2) by {
      assert Repeat(SeedRoutes, 1) == [] + SeedRoutes;
    }
    forall o, d
      ensures s.FindRoute(o, d) == FirstRoute(SeedRoutes, o, d)
    {
      FirstRouteRepeat(SeedRoutes, 2, o, d);
    }
  }

  /**
   * As written, the form of a store whose codes all have eight digits (a
   * freshly seeded store is one) registers "12 - 456"; its option reads back as
   * "12", which the store does not hold, so the calculation's NCM lookup misses.
   */
  method AsWrittenSubmissionIsLost(s: RuleStore)
    requires s.Valid() && s.CodesSelectable()
    modifies s
    ensures s.Valid()
    ensures s.ncm == old(s.ncm)["12 - 456" := RegisteredRule("12 - 456", "Teste", 0.0, 0.0, 0.0)]
    ensures s.routes == old(s.routes) && s.marketplaces == old(s.marketplaces)
    ensures SelectedCode(OptionLabel("12 - 456", s.ncm["12 - 456"].description)) == "12"
    ensures s.FindNcm(SelectedCode(OptionLabel("12 - 456", "Teste"))).None?
  {
    assert "12 - 456" !in s.ncm by { assert "12 - 456"[2] == ' '; }
    assert "12" !in s.ncm;
    var outcome := s.SubmitNcmFormAsWritten("12 - 456", "Teste", 0.0, 0.0, 0.0);
    assert outcome == Registered;
    AsWrittenFormLosesSpacedCode();
  }
}
