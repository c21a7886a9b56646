# Reverse-margin pricing engine (Lucro Real e-commerce calculators)

This project models the pricing core of two Streamlit calculators for Brazilian
e-commerce sellers taxed under Lucro Real:

- `precificacao_automatica.py` reads its tax rules from a small database. NCM
  codes give the PIS/COFINS rates. Origin/destination state routes give ICMS,
  DIFAL and FCP. Marketplaces give their commission and fees.
- `precificacao_app.py` takes every rate from its form.

Both compute a unit cost and solve `price = (cost + fixed fee) / (1 − total%)`.
Here `total%` is the target contribution margin plus the sale taxes plus the
percent channel fees, over 100. They then break the price into tax amounts,
channel costs, contribution margin and net profit after a fixed 34% IRPJ/CSLL,
and put the margin in a healthy / low / critical band.

The source computes the price and its breakdown in Python `Decimal`. It sums the
unit cost beforehand in binary floating point. The model uses exact `real`
arithmetic for both.

Modules:

- `Wrappers`: `Option` (a row that may be missing) and `Result` (a calculation
  that may raise).
- `Engine`: the shared solver, breakdown and bands. The scripts hold the same
  code twice, so it is modelled once.
- `RuleTables`: the row types, the seed rows, first-match route lookup and
  INSERT OR IGNORE as a fold.
- `Store`: the class `RuleStore`, whose fields are the three tables. Its
  methods seed, look up and register rows. The module also holds the NCM form
  and its option labels. The script seeds the tables at module level, and
  Streamlit re-runs the whole script on every widget interaction, so seeding
  happens on every run, not once per launch.
- `SmartPricing`: cost sum, ICMS/DIFAL/FCP resolution, marketplace fallback and
  the calculation of the automatic calculator.
- `ManualPricing`: cost sum, buyer-type and direct-sale zeroing, and the
  calculation of the manual calculator.

The source performs no feasibility check. `Engine.SolvePrice` only requires a
non-zero divisor, which is where `Decimal` raises. A share total above 100% is
accepted. When the cost plus fixed fee is positive it gives a negative price;
`Engine.SolvePriceNegativeWhenOvercommitted` proves this. The source also allows
a negative cost. When the cost plus fixed fee is negative, an overcommitted total
gives a positive price. The two `Decimal` exceptions a calculation can raise are error
values of the full calculations:

- x / 0 in the solver, when the share total is exactly 100% and the cost plus
  fixed fee is non-zero.
- 0 / 0 when the cost plus fixed fee is zero: in the margin percent, or in the
  solver itself when the share total is also exactly 100%.

The code has no "infeasible margin" rejection for shares at or above 100%. The
model does not add one.

## Model

| member | source | states |
|---|---|---|
| `Engine.SolvePrice` | precificacao_automatica.py:437-449 | the solved price times (1 − total share) is exactly cost + fixed fee; the price is zero exactly when cost + fixed fee is zero; only a total of exactly 1 is excluded |
| `Engine.TotalFraction` | precificacao_automatica.py:442-447 | the share total, times 100, is the target margin plus the five tax rates plus the three percent fees; the fixed fee is not part of it |
| `Engine.SolvePricePositive` | precificacao_automatica.py:442-449 | shares below 100% and a positive cost + fixed fee give a positive price |
| `Engine.SolvePriceNegativeWhenOvercommitted` | precificacao_automatica.py:447-449 | with cost + fixed fee > 0, shares above 100% are not rejected and give a negative price |
| `Engine.SolvePriceIncreasesWithShare` | precificacao_automatica.py:447-449 | with cost + fixed fee > 0 and both totals below 100%, the price strictly grows with the total share |
| `Engine.SolvePriceIncreasesWithCost` | precificacao_automatica.py:439-449 | below 100%, the price strictly grows with the unit cost |
| `Engine.PriceIncreasesWithMargin` | precificacao_automatica.py:442-449 | with cost + fixed fee > 0, a higher target margin gives a strictly higher price while the higher total stays below 100% |
| `Engine.PriceIncreasesWithRates` | precificacao_automatica.py:443-449 | with the same fixed fee, cost + fixed fee > 0 and the higher total below 100%, raising any tax rate or percent fee, lowering none, gives a strictly higher price |
| `Engine.Decompose` | precificacao_automatica.py:452-471 | each tax and fee is its rate's share of the price; cost + taxes + channel costs (fixed fee included) + contribution margin = price; margin % × price = margin × 100; income tax is 34% of the margin; net profit and net % are 66% of margin and margin % |
| `Engine.NoFeesNoChannelCost` | precificacao_automatica.py:460-464 | with all fees zero the channel costs are zero |
| `Engine.Classify` | precificacao_automatica.py:479-485 | healthy iff ≥ 20, low iff in [10, 20), critical iff < 10, so every value gets exactly one band |
| `Engine.SolvedPriceYieldsTargetMargin` | precificacao_automatica.py:442-471 | decomposing the solved price leaves a contribution margin of exactly price × target / 100, so margin % equals the target and net % is 0.66 × target |
| `Engine.ReportIsDecomposition` | precificacao_automatica.py:442-471 | a successful report's breakdown is the decomposition of the solved price, so every itemised tax and fee is its rate's share of that price |
| `Engine.PriceAndReport` | precificacao_automatica.py:437-485 | fails exactly when the share total is 1 or cost + fixed fee is 0 (0/0 in the second case); otherwise the price solves the equation, the breakdown adds back up to it, margin % is the target and the band is that of the target |
| `RuleTables.FirstRoute` | precificacao_automatica.py:197-206 | none iff no row matches the pair; otherwise a matching row preceded by no other match |
| `RuleTables.FirstRouteAppend` | precificacao_automatica.py:197-206 | a lookup over old + new rows is the lookup over old rows when they match, else the lookup over the new rows |
| `RuleTables.Repeat` | precificacao_automatica.py:164-166 | the route rows after `times` runs of the script: `times` × the seed count rows |
| `RuleTables.RepeatStartsWithCopy` | precificacao_automatica.py:164-166 | after at least one run of the script the route table begins with one copy of the seeds |
| `RuleTables.FirstRouteRepeat` | precificacao_automatica.py:164-166 | after any number ≥ 1 of runs appending the same seeds, every route lookup equals the lookup over one copy |
| `RuleTables.InsertOrIgnoreAll` | precificacao_automatica.py:117-120 | the table gains exactly the entries' keys and no existing key changes its value |
| `RuleTables.InsertOrIgnoreAllFirstWins` | precificacao_automatica.py:117-120 | a new key gets the value of its first entry |
| `RuleTables.InsertOrIgnoreAllPresent` | precificacao_automatica.py:177-179 | inserting keys already present leaves the table unchanged |
| `RuleTables.InsertOrIgnoreAllIdempotent` | precificacao_automatica.py:253 | seeding twice leaves the NCM and marketplace tables as seeding once |
| `SmartPricing.UnitCost` | precificacao_automatica.py:343-350 | cost + ICMS, PIS and COFINS credits = acquisition + non-recoverable IPI + other costs; credits above that sum give a negative cost |
| `SmartPricing.ResolveIcms` | precificacao_automatica.py:396-421 | same state: no DIFAL or FCP, and ICMS is the row's internal rate or 18; interstate: ICMS is the row's interstate rate or 12; DIFAL = internal − interstate (unclamped) with the row's FCP exactly when a route row flagged for DIFAL meets a final consumer; otherwise DIFAL = FCP = 0 |
| `SmartPricing.ResolveTaxes` | precificacao_automatica.py:392-421 | PIS and COFINS come from the NCM row, the rest from route resolution; an ICMS taxpayer pays no DIFAL or FCP |
| `SmartPricing.ChannelFor` | precificacao_automatica.py:424-434 | a missing marketplace charges no commission, fixed fee, prepayment or gateway fee; a found one charges its row's fees |
| `SmartPricing.DirectSaleSeedChargesNothing` | precificacao_automatica.py:174 | the seeded "Venda Direta" schedule charges the same as a missing marketplace |
| `SmartPricing.Calculate` | precificacao_automatica.py:396-485 | the route warning shows exactly when the route row is missing; the calculation fails exactly when the resolved share total is 1 or cost + fixed fee is 0; a quote carries the resolved rates (PIS and COFINS from the NCM row, ICMS/DIFAL/FCP from the route) and the marketplace's fees (none when it is missing), margin % = target, net % = 0.66 × target and the target's band; a same-state or taxpayer quote has no DIFAL or FCP rate |
| `SmartPricing.BreakdownAddsUp` | precificacao_automatica.py:442-471 | a successful quote's price × (1 − total%) = cost + fixed fee with the resolved rates and fees, its breakdown adds back up to the price, margin = price × target / 100, and net profit = 0.66 × margin |
| `SmartPricing.SameStateQuoteHasNoDifal` | precificacao_automatica.py:404-408 | a same-state quote has zero DIFAL and FCP rates and amounts, whatever the route table holds |
| `SmartPricing.SeedRouteScenario` | precificacao_automatica.py:127 | the seeded SP → RJ route gives ICMS 12, DIFAL 6, FCP 2 for a final consumer and 12, 0, 0 for a taxpayer |
| `Store.SelectedCode` | precificacao_automatica.py:302 | the code read back from an option is a prefix of the option |
| `Store.SelectedCodeIsFirstPiece` | precificacao_automatica.py:302 | no " - " starts anywhere within the code read back, and one starts right after it unless it is the whole option, which singles out what `split(" - ")[0]` returns |
| `Store.OptionLabel` | precificacao_automatica.py:293 | an option is the code, then " - ", then the description, each recoverable by position |
| `Store.SelectedCodeOfLabel` | precificacao_automatica.py:293-302 | a code without spaces is read back unchanged from its option |
| `Store.FormAcceptsAsWritten` | precificacao_automatica.py:560 | the as-written check accepts at least every eight-digit code with a description |
| `Store.AsWrittenFormLosesSpacedCode` | precificacao_automatica.py:560 | the as-written check accepts "12 - 456", whose option reads back as "12" |
| `Store.AcceptedCodeIsSelectedBack` | precificacao_automatica.py:549-560 | every code the intended eight-digit check accepts is read back unchanged |
| `Store.SeedCodesAreNcmCodes` | precificacao_automatica.py:106-115 | every seeded NCM code has eight digits |
| `Store.RegisteredRule` | precificacao_automatica.py:60-70 | a registered row holds the given code, description and rates, every credit flag set by its column default, and no notes |
| `Store.OfferedCodeIsFound` | precificacao_automatica.py:292-303 | when every stored code has eight digits, every offered option reads back to a stored code, so the NCM lookup never misses |
| `Store.RuleStore.constructor` | precificacao_automatica.py:60-93 | a new database has three empty tables |
| `Store.RuleStore.InsertOrIgnoreNcms` | precificacao_automatica.py:117-120 | the NCM table becomes the insert-or-ignore fold of the rows; other tables unchanged; rows stay under their own code |
| `Store.RuleStore.InsertOrIgnoreMarketplaces` | precificacao_automatica.py:177-179 | the marketplace table becomes the insert-or-ignore fold of the rows; other tables unchanged |
| `Store.RuleStore.AppendRoutes` | precificacao_automatica.py:164-166 | every route row is appended, duplicates included; other tables unchanged |
| `Store.RuleStore.Initialize` | precificacao_automatica.py:54-182 | NCMs and marketplaces are inserted or ignored, the 28 seed routes are appended, and every stored code keeps eight digits |
| `Store.RuleStore.FindNcm` | precificacao_automatica.py:188-195 | found iff the code is stored, and the row found carries that code |
| `Store.RuleStore.FindRoute` | precificacao_automatica.py:197-206 | none iff no stored row matches the pair; otherwise a stored matching row |
| `Store.RuleStore.FindMarketplace` | precificacao_automatica.py:208-215 | found iff the name is stored, inactive rows included, and the row found carries that name |
| `Store.RuleStore.RegisterNcm` | precificacao_automatica.py:235-247 | succeeds iff the code is new; then only that code is added, with the given rates, all credit flags set and no notes; otherwise nothing changes |
| `Store.RuleStore.SubmitNcmForm` | precificacao_automatica.py:559-567 | with the intended eight-digit check: invalid form, already exists and registered are decided by the check and the old table, and only a registration changes the table |
| `Store.RuleStore.SubmitNcmFormAsWritten` | precificacao_automatica.py:559-567 | with the check as written (eight characters of any kind and a description): invalid form, already exists and registered are decided by that check and the old table, and only a registration changes the table |
| `Store.RuleStore.QuoteFor` | precificacao_automatica.py:384-434 | for a stored NCM code: the warning shows iff no route row matches; a quote uses the rates resolved from the NCM row and the first matching route row, and the found marketplace's fees (none for an unknown one); margin % equals the target and the band is the target's; same-state quotes carry no DIFAL or FCP |
| `Store.RunTwice` | precificacao_automatica.py:253 | after two runs of the script on a new file, NCMs and marketplaces are as after one, the route table is the seed rows twice over, and every route lookup equals the lookup over one copy of the seeds |
| `Store.AsWrittenSubmissionIsLost` | precificacao_automatica.py:292-303 | with the as-written form, any store whose codes all have eight digits (a seeded store among them) gains exactly the row "12 - 456" and nothing else changes; its option reads back as "12", and the NCM lookup of that code finds nothing |
| `ManualPricing.UnitCost` | precificacao_app.py:126-136 | equals the automatic calculator's cost with freight + storage + broker + insurance as other costs; cost + credits = acquisition + IPI + the four logistics costs, unclamped |
| `ManualPricing.EffectiveTaxes` | precificacao_app.py:162-169 | an ICMS taxpayer pays no DIFAL or FCP, whatever was typed; a final consumer pays the typed rates |
| `ManualPricing.EffectiveChannel` | precificacao_app.py:176-185 | a direct sale charges no commission or fees; any marketplace charges the typed ones |
| `ManualPricing.Calculate` | precificacao_app.py:200-254 | fails exactly when total% is 1 or cost + fixed fee is 0; otherwise the unit cost is the form's, margin % = target, net % = 0.66 × target, and the band is that of the target |
| `ManualPricing.BreakdownAddsUp` | precificacao_app.py:200-254 | a successful calculation's price × (1 − total%) = cost + fixed fee, its breakdown adds back up to the price, margin = price × target / 100, and net profit = 0.66 × margin |
| `ManualPricing.TaxpayerPaysNoDifal` | precificacao_app.py:162-169 | an ICMS taxpayer's breakdown shows no DIFAL or FCP amount |
| `ManualPricing.DirectSaleHasNoChannelCosts` | precificacao_app.py:176-185 | a direct sale's breakdown shows zero channel costs |
| `ManualPricing.DefaultFormScenario` | precificacao_app.py:101-190 | the form's defaults (direct sale to a final consumer) give unit cost 106.75 and a price between 210.34 and 210.35 |
| `ManualPricing.DefaultFormIsHealthy` | precificacao_app.py:101-190 | the form's defaults give a quote in the healthy band with no channel cost |
| `ManualPricing.MarketplaceDefaultScenario` | precificacao_app.py:101-190 | the defaults with "Mercado Livre" chosen and its fee fields at their defaults give unit cost 106.75 and a price between 375.63 and 375.64, in the healthy band |

## Left out

- Streamlit presentation is not modelled: page set-up, CSS, sidebar, tabs, widgets, metrics and the how-to pages.
- The widgets' own limits are not modelled: `min_value` 0 and the 0–100 slider. The model's functions accept any real.
- The SQLite connection, cursor and commit are not modelled, nor the raw-SQL "Base de Dados" page. The tables are fields of `RuleStore`. Any failure of `cadastrar_ncm_customizado` other than a duplicate code is left out; the model's `RegisterNcm` fails only on a duplicate.
- The unused `produto` table is not modelled.
- `listar_ncms` and `listar_marketplaces`, which only fill the selection boxes, are not modelled. Their ordering (`ORDER BY`) and the active filter are therefore out too; the model covers only that each offered NCM option reads back to a stored code.
- The text export and download in `precificacao_app.py` is not modelled. It does formatting, reads the clock and writes a file.
- Both unit-cost sums are binary floating-point additions of the form's floats, made before the conversion to `Decimal` (`precificacao_automatica.py:343-350`, `precificacao_app.py:126-136`). The model sums exactly, so it does not capture their rounding.
- `Store.RuleStore.SubmitNcmForm`: models the corrected eight-digit check, which the rest of the model relies on; the check as written is `Store.RuleStore.SubmitNcmFormAsWritten`.
- `Decimal`'s 28-digit rounding context is not modelled: arithmetic is exact.
- `D(str(float))` input conversion, `float(...)` and `:.2f` display rounding are not modelled. The band is computed from the exact margin percent. In the source, `float` rounding could in principle move a margin that is within about 1e-15 of 10 or 20 across a band boundary.
- A route lookup with several matching rows returns the first in insertion order. SQLite does not promise any order for `fetchone` without `ORDER BY`; the seed duplicates are identical, so the answer does not depend on it.
- The worked example in the manual calculator's how-to text is not used. Its listed inputs give a unit cost of 106.75, not the 107.75 it shows.

## Findings

| source | as written | input that shows it | evidently intended | confidence | as-written member | corrected member |
|---|---|---|---|---|---|---|
| precificacao_automatica.py:560 | the NCM form accepts any 8 characters; the calculator later reads the code back from the option "code - description" with `split(" - ")[0]` (lines 293, 302) | code "12 - 456", description "Teste": it is registered, its option reads back as "12", `buscar_ncm` finds nothing and line 392 indexes a missing row | accept only 8-digit codes, as the field's label "Código NCM (8 dígitos)" (line 549) says | medium, not executed | `Store.AsWrittenSubmissionIsLost` | `Store.AcceptedCodeIsSelectedBack` |

`Store.RuleStore.SubmitNcmForm` uses the corrected check, so `RuleStore.CodesSelectable` holds in every reachable store. `Store.OfferedCodeIsFound` then discharges the stored-code precondition of `QuoteFor`.
