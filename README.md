# Property investment calculator: the projection engine

The calculator is a Streamlit page for a leveraged residential property
purchase. The sidebar gives the deal (price, loan, interest rate, capital
growth) and the assumptions (rent, vacancy, opex, land tax, CPI,
interest-only period, loan term, marginal tax rate, holding period).
`calculate_scenario` simulates the purchase year by year:

- It charges stamp duty and closing costs up front. The equity outlay is the
  total cost less the loan.
- Each year it indexes rent and opex by CPI, from year 2 on.
- It services the loan interest-only, amortising over the remaining term, or
  not at all once the term has run out.
- It taxes the net operating income less interest and a flat depreciation
  allowance at the marginal rate. The tax may be negative (negative gearing).
- It grows the property value.

At the end it sells the property. The sale pays 2.5% selling costs and
capital-gains tax, with the 50% discount for holds over one year. The engine
returns the post-tax and pre-tax IRRs, a cash-on-cash multiple, the net
profit and the year-by-year ledger. The model's `ScenarioResult` also returns
the two cash-flow streams the IRRs are computed from, so that their shape can
be stated. The sensitivity tab re-runs the engine over a 5 by 5 grid of
interest rates and growth rates.

The model has four modules:

- `Finance` (finance.dfy) has the annuity arithmetic. `Pmt` is
  numpy-financial's `pmt` in closed form over exact reals. `Amortise` is the
  balance after n payments, and `PmtAmortises` proves that the payment pays
  the balance off.
- `Projection` (projection.dfy) has the data model and the engine.
  - The specification is a fold over the year index. `Opening(y)` is the
    running variables at the start of year y, `Step` is one year, `RowOf(y)`
    is the ledger row, `Ledger(k)` and `Flows(k, taxed)` are the lists after
    years 0 .. k-1, and `Project` is the whole result.
  - `CalculateScenario`, `ProjectYears` and `ServiceLoan` are the program's
    loop, with its running variables and in-place appends. They are proved to
    compute exactly that fold.
- `ProjectionFacts` (projection_facts.dfy) proves what the engine promises
  about the fold.
- `Sensitivity` (sensitivity.dfy) has the sweep, and proves that along a row
  of the matrix only the sale moves.

## Model

| member | source | states |
|---|---|---|
| Projection.StampDuty | app.py:41 | Definition: 4% of the price; its use is stated in `ProjectionFacts.SaleFacts` |
| Projection.UpfrontCost | app.py:43 | Definition: price, stamp duty and 2000 closing costs, also the cost base of app.py:117; its properties are in `ProjectionFacts.SaleFacts` |
| Projection.InitialEquity | app.py:44 | Definition: upfront cost less the loan; its properties are in `ProjectionFacts.StreamShape` and `ProjectionFacts.CashOutBounds` |
| Projection.Start | app.py:50-53 | Definition: the running variables before year 1; their evolution is stated in `ProjectionFacts.Indexation`, `Appreciation` and `PrincipalConservation` |
| Projection.Indexed | app.py:65-66 | Definition: unchanged in year 1, grown by CPI afterwards; its properties are in `ProjectionFacts.Indexation` |
| Projection.Depreciation | app.py:92 | Definition: 6000 up to year 10, 0 afterwards; its use is stated in `ProjectionFacts.YearStep` and `NegativeGearing` |
| Projection.DiscountedGain | app.py:119 | Definition: the 50% discount for holds over one year; its properties are in the ensures of `Projection.Terminal` |
| Projection.Opening | app.py:49-101 | Definition: the running variables at the start of a year, as a fold; its properties are in `ProjectionFacts.PrincipalConservation` and `BalanceNeverRises` |
| Projection.AcquisitionRow | app.py:61 | Definition: the year-0 row; its properties are in `ProjectionFacts.ScenarioShape` |
| Projection.RowOf | app.py:60-104 | Definition: the ledger row of a year; its properties are in `ProjectionFacts.YearStep`, `Indexation` and `Appreciation` |
| Projection.Ledger | app.py:104 | Definition: the ledger after a number of years; its properties are in `ProjectionFacts.LedgerShape` |
| Projection.Flows | app.py:106-109 | Definition: a stream during the loop; its properties are in `ProjectionFacts.FlowsShape` |
| Projection.PreTaxStream | app.py:126-127 | Definition: the pre-tax stream with the final entry; its properties are in `ProjectionFacts.StreamShape` and `TaxGap` |
| Projection.PostTaxStream | app.py:126-127 | Definition: the post-tax stream with the final entry; its properties are in `ProjectionFacts.StreamShape` and `NetProfitIsCashInLessEquity` |
| Projection.TotalCashIn | app.py:133 | Definition: every year's post-tax flow plus the post-tax proceeds; its properties are in `ProjectionFacts.NetProfitIsCashInLessEquity` |
| Projection.TotalCashOut | app.py:134 | Definition: the outlay plus the principal repaid; its properties are in `ProjectionFacts.CashOutBounds` |
| Projection.Project | app.py:129-145 | Definition: the whole result as a fold; the method `CalculateScenario` is proved to compute it |
| Projection.CalculateScenario | app.py:34-145 | The result of the whole engine (IRRs, cash-on-cash, net profit, ledger, both streams) is exactly `Project`, the fold the facts below are about |
| Projection.ProjectYears | app.py:46-109 | The year loop leaves the ledger `Ledger(hp+1)`, the two streams `Flows(hp+1, ·)` with the last year held back, and the principal total of the closing running variables |
| Projection.ServiceLoan | app.py:71-84 | This year's interest and principal are those of `Servicing`: interest-only, annuity over the remaining term, or nothing once the term is over |
| Projection.Servicing | app.py:72-84 | From a non-negative balance the principal paid lies between 0 and the balance |
| Projection.Step | app.py:64-104 | The closing balance is never negative, and from a non-negative opening balance it falls by exactly the principal and never rises |
| Projection.Terminal | app.py:112-123 | The taxable gain is half the gross gain when the hold is over one year and all of it otherwise; pre-tax less post-tax proceeds is the capital-gains tax, at the marginal rate on the taxable gain; the sale uses the last row's value and balance |
| Projection.CashOnCash | app.py:133-135 | When cash out is positive the multiple times cash out is cash in; the multiple is 0 exactly when cash out is not positive or cash in is 0 |
| Projection.SaleMatches | app.py:112-123 | The sale computed line by line is `Terminal` |
| Projection.YearMatches | app.py:64-104 | One pass of the loop body, with its own intermediate values, is `Step` from the running variables it started with |
| Finance.Pmt | app.py:79 | For a non-negative balance the annuity payment is at least the period's interest and at most balance plus interest |
| Finance.PmtAmortises | app.py:77-81 | Paying `Pmt(rate, n, balance)` for n periods leaves exactly 0 owing |
| Finance.PmtFinalPeriod | app.py:77-81 | With one period left the payment is the balance plus its interest |
| Finance.AmortiseClosedForm | app.py:79 | The balance after n payments is balance·(1+r)^n − payment·(1 + … + (1+r)^(n−1)) |
| Finance.GeoTelescopes | app.py:79 | (x − 1)·(1 + … + x^(n−1)) = x^n − 1 |
| Finance.CompoundedClosedForm | app.py:65-66 | Growing n times at a rate multiplies by (1 + rate)^n |
| ProjectionFacts.YearStep | app.py:64-104 | Each field of a year: NOI is rent less opex; tax is the marginal rate on NOI less interest less depreciation; pre-tax flow is NOI less interest and principal; post-tax flow is pre-tax flow less tax; principal joins the running total |
| ProjectionFacts.LedgerShape | app.py:59-62 | The ledger after years 0 .. k-1 has k rows, row i being year i |
| ProjectionFacts.FlowsShape | app.py:55-56 | A stream during the loop is the outlay then one flow per year before the holding period |
| ProjectionFacts.StreamShape | app.py:106-109 | Both streams have hp+1 entries, start with −equity, carry each year before the last once, and end with the last year's flow plus the net proceeds |
| ProjectionFacts.ScenarioShape | app.py:55-61 | hp+1 ledger rows; row 0 has the price and the loan amount, pre-tax flow 0 and post-tax flow −equity; both streams start with −equity and end with the last row's flow plus the proceeds |
| ProjectionFacts.Indexation | app.py:52-53 | Year y's rent and opex are the base amounts compounded y−1 times at CPI (not indexed in year 1) |
| ProjectionFacts.Appreciation | app.py:101 | Year y's value is the price compounded y times at the growth rate |
| ProjectionFacts.PrincipalConservation | app.py:86-89 | From a non-negative loan amount, the balance and each principal payment stay non-negative and principal repaid plus balance is always the loan amount |
| ProjectionFacts.ClosingBalance | app.py:87-88 | The balance in year y's row is year y+1's opening balance |
| ProjectionFacts.BalanceNeverRises | app.py:87-88 | The balance never rises from one year to a later one and never exceeds the loan amount |
| ProjectionFacts.InterestOnlyYear | app.py:72-74 | In an interest-only year the principal is 0, the interest is the balance times the rate, and the balance carries over |
| ProjectionFacts.AmortisingYear | app.py:77-81 | In an amortising year interest plus principal is the annuity over the remaining term, the principal lies between 0 and the balance, and the balance falls by it |
| ProjectionFacts.LoanClosedYear | app.py:82-84 | Once the term is over both interest and principal are 0 and the balance carries over |
| ProjectionFacts.FinalTermYear | app.py:77-81 | The last year of the term repays the whole opening balance |
| ProjectionFacts.RepaidByTerm | app.py:72-88 | With the interest-only period ending before the term, the balance is 0 in every row from the end of the term |
| ProjectionFacts.NeverAmortised | app.py:72-84 | With the interest-only period reaching the term, no principal is ever repaid, every row shows the full loan, and years past the interest-only period charge no interest |
| ProjectionFacts.TaxSign | app.py:94 | At a positive rate, tax is negative exactly when taxable income is |
| ProjectionFacts.NegativeGearing | app.py:92-98 | Tax is negative exactly when NOI falls short of interest plus depreciation, and exactly then the post-tax flow exceeds the pre-tax flow |
| ProjectionFacts.TaxGap | app.py:94-98 | The pre-tax stream exceeds the post-tax stream, in total, by every year's tax plus the capital-gains tax |
| ProjectionFacts.SaleFacts | app.py:112-123 | The gross gain is 97.5% of the price less the purchase price with 4% duty and 2000 closing costs; the pre-tax proceeds are 97.5% of the price less the balance |
| ProjectionFacts.NetProfitIsCashInLessEquity | app.py:133-143 | Net profit (the sum of the post-tax stream) is total cash in less the equity outlay |
| ProjectionFacts.CashOutBounds | app.py:134 | Total cash out is the outlay plus the loan less the final balance, between the outlay and the outlay plus the loan |
| ProjectionFacts.ScenarioCashOnCash | app.py:133-135 | With a positive outlay and a non-negative loan, cash out is positive and the multiple times cash out is cash in |
| ProjectionFacts.DefaultFirstYear | app.py:34-101 | For the sidebar defaults: equity 182000; year 1 rent 30264, NOI 24264, interest 36000, value 787500; year 2 rent 31020.6 |
| ProjectionFacts.SumBumpLast | app.py:143 | A list equal to another but for p added to its last entry sums to p more |
| ProjectionFacts.SumGapsBumpLast | app.py:126-127 | Entry-wise differences with g added to the last one add up to their sum plus g |
| Sensitivity.Cell | app.py:185-186 | Definition: the post-tax IRR of the scenario at one interest rate and one growth rate; its properties are in `Sensitivity.GrowthMovesOnlyTheSale` and `FinalFlowRisesWithGrowth` |
| Sensitivity.SensitivityMatrix | app.py:179-187 | One row per interest rate and one column per growth rate; cell (i, j) is the post-tax IRR of the scenario at those two rates |
| Sensitivity.DefaultSensitivity | app.py:174-187 | The page's matrix is 5 by 5 over the two fixed rate lists |
| Sensitivity.StepIgnoresGrowth | app.py:64-104 | Two deals differing only in growth, from running variables differing only in value, give years differing only in value |
| Sensitivity.OpeningIgnoresGrowth | app.py:59-101 | The running variables of two deals differing only in growth differ only in value, in every year |
| Sensitivity.RowIgnoresGrowth | app.py:104 | Their ledger rows differ only in value |
| Sensitivity.GrowthMovesOnlyTheSale | app.py:179-185 | Along a row of the matrix both streams agree in every entry but the last |
| Sensitivity.CompoundedMonotone | app.py:101 | Compounding a non-negative amount at a higher rate (at least −100%) never gives less |
| Sensitivity.GrownMonotone | app.py:101 | One period of growth is monotone in the amount and the rate |
| Sensitivity.ProceedsRiseWithPrice | app.py:112-123 | With a marginal rate of at most 100%, a higher sale price and the same balance never lower either net proceeds |
| Sensitivity.FinalFlowRisesWithGrowth | app.py:101-127 | Along a row of the matrix a higher growth rate never lowers the final entry of either stream |

## Left out

- The page itself is not modelled: page setup, sidebar widgets, metrics, tabs, charts, table styling and the heatmap (app.py:1-30, 147-173, 188-195). They are user interface. The sidebar values become the `Assumptions` datatype and the `Deal` arguments.
- `npf.irr` is not modelled. It is a numerical root-finder in a foreign library, so the model takes it as a parameter `irr` from a stream to an optional rate, with `None` standing for NaN.
- The pandas DataFrame (app.py:137) is kept as the sequence of `YearRow` records it is built from.
- Floating-point rounding is not modelled. Amounts are exact reals, and the integer literals 0 and 2000 of the program are the reals 0.0 and 2000.0.
- `npf.pmt` is the closed-form annuity `balance·r·(1+r)^n / ((1+r)^n − 1)`, or `balance/n` at rate 0. Its sign is flipped as the program flips it.
- Projection.CalculateScenario: requires a non-negative interest rate, because the annuity's bounds and its zero-rate case are stated for rates of at least 0. The sidebar (2–10%) and the sweep (4–8%) never go below that.
- Sensitivity.SensitivityMatrix: requires non-negative interest rates, for the same reason.
- ProjectionFacts.StreamShape: the stream lemmas assume a holding period of at least 1, which is the sidebar's minimum. With a holding period of 0 the program still appends a final element, and `Flows` models that case as the program runs it.
- ProjectionFacts.Indexation: states year y's rent as `Compounded`. `Finance.CompoundedClosedForm` turns that into base·(1+cpi)^(y−1) separately, rather than in one lemma.
- ProjectionFacts.Appreciation: states the value as `Compounded` in the same way.
- The IRR of the matrix cells is not proved monotone in growth, because `irr` is a parameter. What is proved is that growth moves only the final entry of each stream, and never down.

## Notes

- The year-0 ledger row holds the price in the value column and the loan amount in the loan column (app.py:61). Its post-tax flow is −equity, while every other flow column (rent, opex, NOI, interest, principal, tax, pre-tax flow) is 0. The model keeps that row exactly.
- The cash-on-cash multiple is 0 when cash out is not positive. It is also 0 when cash in is exactly 0, so "0" alone does not show that the guard applied (`Projection.CashOnCash`).
- When the interest-only period is at least the loan term (for example both 10, which the sidebar allows), no principal is ever repaid. After the interest-only period the "loan paid off" branch charges neither interest nor principal, while the full balance stays on the ledger and is deducted at the sale (`ProjectionFacts.NeverAmortised`).
- The clamp at zero (app.py:88) never applies from a non-negative loan, because the principal never exceeds the opening balance (`ProjectionFacts.PrincipalConservation`).
