/** The projection engine of the property calculator: `calculate_scenario`,
    a year-by-year simulation of a leveraged property purchase followed by a
    terminal sale. All amounts are exact reals.

    The specification is a fold over the year index (Opening, RowOf, Ledger,
    Flows); the method CalculateScenario runs the program's loop with its
    running variables and is proved to produce the folded result. */
module Projection {
  import opened Finance

  datatype Option<T> = None | Some(value: T)

  /** The settings the engine reads from the sidebar (module-level globals of the page). */
  datatype Assumptions = Assumptions(
    holdingPeriod: nat,
    weeklyRent: real,
    vacancyRate: real,
    annualOpex: real,
    landTax: real,          // 0 when land tax is not applied
    cpiRate: real,
    interestOnlyPeriod: int,
    loanTerm: int,
    marginalTaxRate: real)

  /** The four arguments of calculate_scenario. */
  datatype Deal = Deal(purchasePrice: real, loanAmount: real, interestRate: real, capitalGrowth: real)

  /** One ledger row: the eleven columns Year .. Post-Tax CF. */
  datatype YearRow = YearRow(
    year: nat, value: real, loan: real, rent: real, opex: real, noi: real,
    interest: real, principal: real, tax: real, preTaxCF: real, postTaxCF: real)

  /** The running variables carried from one year to the next. */
  datatype Running = Running(loan: real, value: real, rent: real, opex: real, principalPaid: real)

  /** Interest and principal paid in one year. */
  datatype Service = Service(interest: real, principal: real)

  /** The terminal sale after the last year. */
  datatype Sale = Sale(
    salePrice: real, sellingCosts: real, loanBalance: real, grossGain: real,
    taxableGain: real, cgt: real, netPreTax: real, netPostTax: real)

  /** What calculate_scenario returns, plus the two cash-flow streams it hands to the IRR solver. */
  datatype ScenarioResult = ScenarioResult(
    irrPostTax: Option<real>, irrPreTax: Option<real>, cashOnCash: real, netProfit: real,
    data: seq<YearRow>, preTaxFlows: seq<real>, postTaxFlows: seq<real>)

  // ---------------------------------------------------------------- upfront costs

  function StampDuty(d: Deal): real { d.purchasePrice * 0.04 }

  function UpfrontCost(d: Deal): real { d.purchasePrice + StampDuty(d) + 2000.0 }

  function InitialEquity(d: Deal): real { UpfrontCost(d) - d.loanAmount }

  // ---------------------------------------------------------------- one year

  /** The running variables before year 1: vacancy is applied to the rent once, land tax joins opex. */
  function Start(a: Assumptions, d: Deal): Running
  {
    Running(d.loanAmount, d.purchasePrice, a.weeklyRent * 52.0 * (1.0 - a.vacancyRate), a.annualOpex + a.landTax, 0.0)
  }

  /** A running amount indexed for `year`: unchanged in year 1, grown by CPI afterwards. */
  function Indexed(a: Assumptions, amount: real, year: int): real
  {
    if year > 1 then Grown(amount, a.cpiRate) else amount
  }

  /** Loan servicing in `year` for the opening balance: interest-only,
      amortising over the remaining term, or closed once the term has run out. */
  function Servicing(a: Assumptions, rate: real, balance: real, year: int): (s: Service)
    requires rate >= 0.0
    ensures balance >= 0.0 ==> 0.0 <= s.principal <= balance
  {
    if year <= a.interestOnlyPeriod then
      Service(InterestOn(balance, rate), 0.0)
    else
      var remainingTerm := a.loanTerm - (year - 1);
      if remainingTerm > 0 then
        var payment := Pmt(rate, remainingTerm, balance);
        Service(InterestOn(balance, rate), payment - InterestOn(balance, rate))
      else
        Service(0.0, 0.0)
  }

  function Depreciation(year: int): real
  {
    if year <= 10 then 6000.0 else 0.0
  }

  /** Year `year` (>= 1) from the opening running variables: the closing
      running variables and the ledger row. The closing balance is never
      negative, and from a non-negative opening balance it falls by exactly
      the principal paid. */
  function Step(a: Assumptions, d: Deal, before: Running, year: nat): (r: (Running, YearRow))
    requires d.interestRate >= 0.0
    ensures r.0.loan >= 0.0
    ensures before.loan >= 0.0 ==> r.0.loan == before.loan - r.1.principal <= before.loan
  {
    var rent := Indexed(a, before.rent, year);
    var opex := Indexed(a, before.opex, year);
    var noi := rent - opex;
    var s := Servicing(a, d.interestRate, before.loan, year);
    var owing := before.loan - s.principal;
    var loan := if owing < 0.0 then 0.0 else owing;
    var principalPaid := before.principalPaid + s.principal;
    var taxableIncome := noi - s.interest - Depreciation(year);
    var tax := TaxOn(taxableIncome, a.marginalTaxRate);
    var preTaxCF := noi - s.interest - s.principal;
    var postTaxCF := preTaxCF - tax;
    var value := Grown(before.value, d.capitalGrowth);
    (Running(loan, value, rent, opex, principalPaid),
     YearRow(year, value, loan, rent, opex, noi, s.interest, s.principal, tax, preTaxCF, postTaxCF))
  }

  // ---------------------------------------------------------------- the fold

  /** The running variables at the opening of `year` (years 0 and 1 open with Start). */
  function Opening(a: Assumptions, d: Deal, year: nat): Running
    requires d.interestRate >= 0.0
  {
    if year <= 1 then Start(a, d) else Step(a, d, Opening(a, d, year - 1), year - 1).0
  }

  /** The acquisition row: value and loan at purchase, the equity outlay in the post-tax column. */
  function AcquisitionRow(d: Deal): YearRow
  {
    YearRow(0, d.purchasePrice, d.loanAmount, 0.0, 0.0, 0.0, 0.0, 0.0, 0.0, 0.0, -InitialEquity(d))
  }

  /** The ledger row of `year`. */
  function RowOf(a: Assumptions, d: Deal, year: nat): YearRow
    requires d.interestRate >= 0.0
  {
    if year == 0 then AcquisitionRow(d) else Step(a, d, Opening(a, d, year), year).1
  }

  /** The ledger after the loop has handled years 0 .. k-1. */
  function Ledger(a: Assumptions, d: Deal, k: nat): seq<YearRow>
    requires d.interestRate >= 0.0
  {
    if k == 0 then [] else Ledger(a, d, k - 1) + [RowOf(a, d, k - 1)]
  }

  function CashFlow(row: YearRow, taxed: bool): real
  {
    if taxed then row.postTaxCF else row.preTaxCF
  }

  /** A cash-flow stream (pre-tax, or post-tax when `taxed`) after the loop has
      handled years 0 .. k-1: the equity outlay, then each year's flow for
      the years strictly before the holding period. */
  function Flows(a: Assumptions, d: Deal, k: nat, taxed: bool): seq<real>
    requires d.interestRate >= 0.0
  {
    if k == 0 then [-InitialEquity(d)]
    else
      var year := k - 1;
      Flows(a, d, k - 1, taxed) + (if 1 <= year < a.holdingPeriod then [CashFlow(RowOf(a, d, year), taxed)] else [])
  }

  // ---------------------------------------------------------------- sale and metrics

  /** The terminal sale from the last ledger row. The discount halves the
      taxable gain only for a holding period over one year, and the two net
      proceeds differ by exactly the capital-gains tax. */
  function Terminal(a: Assumptions, d: Deal, last: YearRow): (s: Sale)
    ensures s.taxableGain == (if a.holdingPeriod > 1 then s.grossGain * 0.5 else s.grossGain)
    ensures s.netPreTax - s.netPostTax == s.cgt == TaxOn(s.taxableGain, a.marginalTaxRate)
    ensures s.salePrice == last.value && s.loanBalance == last.loan
  {
    var salePrice := last.value;
    var sellingCosts := salePrice * 0.025;
    var loanBalance := last.loan;
    var costBase := UpfrontCost(d);
    var grossGain := salePrice - sellingCosts - costBase;
    var taxableGain := DiscountedGain(a, grossGain);
    var cgt := TaxOn(taxableGain, a.marginalTaxRate);
    Sale(salePrice, sellingCosts, loanBalance, grossGain, taxableGain, cgt,
         salePrice - sellingCosts - loanBalance, salePrice - sellingCosts - loanBalance - cgt)
  }

  /** The capital gain that is taxed: half of it when the holding period is over one year. */
  function DiscountedGain(a: Assumptions, grossGain: real): real
  {
    if a.holdingPeriod > 1 then grossGain * 0.5 else grossGain
  }

  function Sum(s: seq<real>): real
  {
    if s == [] then 0.0 else s[0] + Sum(s[1..])
  }

  /** The post-tax column of a run of ledger rows. */
  function PostTaxColumn(rows: seq<YearRow>): (c: seq<real>)
    ensures |c| == |rows|
    ensures forall i :: 0 <= i < |rows| ==> c[i] == rows[i].postTaxCF
  {
    seq(|rows|, i requires 0 <= i < |rows| => rows[i].postTaxCF)
  }

  /** Cash recovered divided by cash put in, or 0 when nothing (or less) was put in. */
  function CashOnCash(cashIn: real, cashOut: real): (m: real)
    ensures cashOut > 0.0 ==> m * cashOut == cashIn
    ensures m == 0.0 <==> cashOut <= 0.0 || cashIn == 0.0
  {
    if cashOut > 0.0 then
      DivThenMul(cashIn, cashOut);
      cashIn / cashOut
    else 0.0
  }

  /** The last ledger row after the loop. */
  function LastRow(a: Assumptions, d: Deal): YearRow
    requires d.interestRate >= 0.0
  {
    RowOf(a, d, a.holdingPeriod)
  }

  function SaleOf(a: Assumptions, d: Deal): Sale
    requires d.interestRate >= 0.0
  {
    Terminal(a, d, LastRow(a, d))
  }

  /** total_cash_in: every year's post-tax flow (not the outlay) plus the post-tax proceeds. */
  function TotalCashIn(a: Assumptions, d: Deal): real
    requires d.interestRate >= 0.0
  {
    Sum(PostTaxColumn(Ledger(a, d, a.holdingPeriod + 1)[1..])) + SaleOf(a, d).netPostTax
  }

  /** total_cash_out: the equity outlay plus all principal repaid. */
  function TotalCashOut(a: Assumptions, d: Deal): real
    requires d.interestRate >= 0.0
  {
    InitialEquity(d) + Opening(a, d, a.holdingPeriod + 1).principalPaid
  }

  function PreTaxStream(a: Assumptions, d: Deal): seq<real>
    requires d.interestRate >= 0.0
  {
    Flows(a, d, a.holdingPeriod + 1, false) + [LastRow(a, d).preTaxCF + SaleOf(a, d).netPreTax]
  }

  function PostTaxStream(a: Assumptions, d: Deal): seq<real>
    requires d.interestRate >= 0.0
  {
    Flows(a, d, a.holdingPeriod + 1, true) + [LastRow(a, d).postTaxCF + SaleOf(a, d).netPostTax]
  }

  /** The whole scenario; `irr` stands for numpy-financial's IRR solver (None for NaN). */
  function Project(a: Assumptions, d: Deal, irr: seq<real> -> Option<real>): ScenarioResult
    requires d.interestRate >= 0.0
  {
    ScenarioResult(
      irr(PostTaxStream(a, d)), irr(PreTaxStream(a, d)),
      CashOnCash(TotalCashIn(a, d), TotalCashOut(a, d)),
      Sum(PostTaxStream(a, d)),
      Ledger(a, d, a.holdingPeriod + 1), PreTaxStream(a, d), PostTaxStream(a, d))
  }

  // ---------------------------------------------------------------- the engine

  /** The sale as the engine computes it, step by step, is Terminal. */
  lemma SaleMatches(a: Assumptions, d: Deal, last: YearRow,
                    salePrice: real, sellingCosts: real, loanBalance: real, costBase: real,
                    grossGain: real, taxableGain: real, cgt: real, netPreTax: real, netPostTax: real)
    requires salePrice == last.value && loanBalance == last.loan
    requires sellingCosts == salePrice * 0.025
    requires costBase == UpfrontCost(d)
    requires grossGain == salePrice - sellingCosts - costBase
    requires taxableGain == (if a.holdingPeriod > 1 then grossGain * 0.5 else grossGain)
    requires cgt == taxableGain * a.marginalTaxRate
    requires netPostTax == salePrice - sellingCosts - loanBalance - cgt
    requires netPreTax == salePrice - sellingCosts - loanBalance
    ensures Terminal(a, d, last)
            == Sale(salePrice, sellingCosts, loanBalance, grossGain, taxableGain, cgt, netPreTax, netPostTax)
  {
    assert DiscountedGain(a, grossGain) == taxableGain;
  }

  /** One pass of the loop body, with its own intermediate values, is the
      specification's Step from the running variables it started with. */
  lemma YearMatches(a: Assumptions, d: Deal, year: nat,
                    loan0: real, value0: real, rent0: real, opex0: real, paid0: real,
                    rent: real, opex: real, noi: real, interest: real, principal: real,
                    loan: real, paid: real, taxableIncome: real, tax: real,
                    preTaxCF: real, postTaxCF: real, value: real)
    requires d.interestRate >= 0.0
    requires rent == (if year > 1 then rent0 * (1.0 + a.cpiRate) else rent0)
    requires opex == (if year > 1 then opex0 * (1.0 + a.cpiRate) else opex0)
    requires noi == rent - opex
    requires Service(interest, principal) == Servicing(a, d.interestRate, loan0, year)
    requires loan == (if loan0 - principal < 0.0 then 0.0 else loan0 - principal)
    requires paid == paid0 + principal
    requires taxableIncome == noi - interest - Depreciation(year)
    requires tax == taxableIncome * a.marginalTaxRate
    requires preTaxCF == noi - interest - principal
    requires postTaxCF == preTaxCF - tax
    requires value == value0 * (1.0 + d.capitalGrowth)
    ensures Step(a, d, Running(loan0, value0, rent0, opex0, paid0), year)
            == (Running(loan, value, rent, opex, paid),
                YearRow(year, value, loan, rent, opex, noi, interest, principal, tax, preTaxCF, postTaxCF))
  {
    var s := Servicing(a, d.interestRate, loan0, year);
    assert s.interest == interest && s.principal == principal;
    assert Indexed(a, rent0, year) == rent && Indexed(a, opex0, year) == opex;
    var r := Step(a, d, Running(loan0, value0, rent0, opex0, paid0), year);
    assert r.0 == Running(loan, value, rent, opex, paid);
    assert r.1 == YearRow(year, value, loan, rent, opex, noi, interest, principal, tax, preTaxCF, postTaxCF);
  }

  /** Step 3 of the year loop: this year's interest and principal on the
      opening balance, interest-only, amortising or closed. */
  method ServiceLoan(a: Assumptions, rate: real, currentLoan: real, year: int)
    returns (interestPayment: real, principalPayment: real)
    requires rate >= 0.0
    ensures Service(interestPayment, principalPayment) == Servicing(a, rate, currentLoan, year)
  {
    if year <= a.interestOnlyPeriod {
      interestPayment := currentLoan * rate;
      principalPayment := 0.0;
      assert Service(interestPayment, principalPayment) == Servicing(a, rate, currentLoan, year);
    } else {
      var remainingTerm := a.loanTerm - (year - 1);
      if remainingTerm > 0 {
        var payment := Pmt(rate, remainingTerm, currentLoan);
        interestPayment := currentLoan * rate;
        principalPayment := payment - interestPayment;
        assert Service(interestPayment, principalPayment) == Servicing(a, rate, currentLoan, year);
      } else {
        interestPayment := 0.0;
        principalPayment := 0.0;  // loan paid off
        assert Service(interestPayment, principalPayment) == Servicing(a, rate, currentLoan, year);
      }
    }
  }

  /** The year loop of calculate_scenario: years 0 .. holding period with the
      five running variables; the last year's flows are held back for the sale. */
  method ProjectYears(a: Assumptions, d: Deal, initialEquity: real)
    returns (data: seq<YearRow>, cashFlowsPreTax: seq<real>, cashFlowsPostTax: seq<real>, totalPrincipalPaid: real)
    requires d.interestRate >= 0.0 && initialEquity == InitialEquity(d)
    ensures data == Ledger(a, d, a.holdingPeriod + 1)
    ensures cashFlowsPreTax == Flows(a, d, a.holdingPeriod + 1, false)
    ensures cashFlowsPostTax == Flows(a, d, a.holdingPeriod + 1, true)
    ensures totalPrincipalPaid == Opening(a, d, a.holdingPeriod + 1).principalPaid
  {
    data := [];
    var currentLoan := d.loanAmount;
    var currentValue := d.purchasePrice;
    var currentRent := a.weeklyRent * 52.0 * (1.0 - a.vacancyRate);
    var currentOpex := a.annualOpex + a.landTax;

    cashFlowsPreTax := [-initialEquity];
    cashFlowsPostTax := [-initialEquity];
    totalPrincipalPaid := 0.0;

    for year := 0 to a.holdingPeriod + 1
      invariant Running(currentLoan, currentValue, currentRent, currentOpex, totalPrincipalPaid) == Opening(a, d, year)
      invariant data == Ledger(a, d, year)
      invariant cashFlowsPreTax == Flows(a, d, year, false)
      invariant cashFlowsPostTax == Flows(a, d, year, true)
    {
      if year == 0 {
        data := data + [YearRow(year, d.purchasePrice, d.loanAmount, 0.0, 0.0, 0.0, 0.0, 0.0, 0.0, 0.0, -initialEquity)];
        continue;
      }

      ghost var loan0, value0, rent0, opex0, paid0 := currentLoan, currentValue, currentRent, currentOpex, totalPrincipalPaid;

      // 1. Inflate income and expenses, from the second year on
      if year > 1 {
        currentRent := currentRent * (1.0 + a.cpiRate);
        currentOpex := currentOpex * (1.0 + a.cpiRate);
      }

      // 2. Net operating income
      var noi := currentRent - currentOpex;

      // 3. Loan servicing
      var interestPayment, principalPayment := ServiceLoan(a, d.interestRate, currentLoan, year);

      currentLoan := currentLoan - principalPayment;
      if currentLoan < 0.0 { currentLoan := 0.0; }
      totalPrincipalPaid := totalPrincipalPaid + principalPayment;

      // 4. Tax with the flat depreciation allowance
      var depreciation := if year <= 10 then 6000.0 else 0.0;
      var taxableIncome := noi - interestPayment - depreciation;
      var taxPayable := taxableIncome * a.marginalTaxRate;

      // 5. Cash flows
      var preTaxCF := noi - interestPayment - principalPayment;
      var postTaxCF := preTaxCF - taxPayable;

      // 6. Appreciation
      currentValue := currentValue * (1.0 + d.capitalGrowth);

      data := data + [YearRow(year, currentValue, currentLoan, currentRent, currentOpex, noi,
                              interestPayment, principalPayment, taxPayable, preTaxCF, postTaxCF)];

      assert currentRent == (if year > 1 then rent0 * (1.0 + a.cpiRate) else rent0);
      assert currentOpex == (if year > 1 then opex0 * (1.0 + a.cpiRate) else opex0);
      assert currentLoan == (if loan0 - principalPayment < 0.0 then 0.0 else loan0 - principalPayment);
      assert taxableIncome == noi - interestPayment - Depreciation(year);
      assert currentValue == value0 * (1.0 + d.capitalGrowth);
      YearMatches(a, d, year, loan0, value0, rent0, opex0, paid0, currentRent, currentOpex, noi,
                  interestPayment, principalPayment, currentLoan, totalPrincipalPaid, taxableIncome,
                  taxPayable, preTaxCF, postTaxCF, currentValue);
      assert data == Ledger(a, d, year + 1);

      // the last year's flows wait for the terminal sale
      if year < a.holdingPeriod {
        cashFlowsPreTax := cashFlowsPreTax + [preTaxCF];
        cashFlowsPostTax := cashFlowsPostTax + [postTaxCF];
      }
    }

  }

  /** calculate_scenario: the year loop, the terminal sale and the metrics. */
  method CalculateScenario(a: Assumptions, d: Deal, irr: seq<real> -> Option<real>) returns (r: ScenarioResult)
    requires d.interestRate >= 0.0
    ensures r == Project(a, d, irr)
  {
    var stampDuty := d.purchasePrice * 0.04;
    var closingCosts := 2000.0;
    var totalUpfrontCost := d.purchasePrice + stampDuty + closingCosts;
    var initialEquity := totalUpfrontCost - d.loanAmount;

    var data, cashFlowsPreTax, cashFlowsPostTax, totalPrincipalPaid := ProjectYears(a, d, initialEquity);

    assert data == Ledger(a, d, a.holdingPeriod) + [RowOf(a, d, a.holdingPeriod)];
    var last := data[|data| - 1];
    assert last == LastRow(a, d);

    // Terminal value (sale)
    var salePrice := last.value;
    var sellingCosts := salePrice * 0.025;
    var loanBalance := last.loan;

    // Capital-gains tax
    var costBase := d.purchasePrice + stampDuty + closingCosts;
    var grossGain := salePrice - sellingCosts - costBase;
    var taxableGain := if a.holdingPeriod > 1 then grossGain * 0.5 else grossGain;
    var cgtPayable := taxableGain * a.marginalTaxRate;

    var netProceedsPostTax := salePrice - sellingCosts - loanBalance - cgtPayable;
    var netProceedsPreTax := salePrice - sellingCosts - loanBalance;
    assert costBase == UpfrontCost(d);
    SaleMatches(a, d, last, salePrice, sellingCosts, loanBalance, costBase, grossGain, taxableGain, cgtPayable,
                netProceedsPreTax, netProceedsPostTax);

    // Final year's flow plus the proceeds
    cashFlowsPostTax := cashFlowsPostTax + [last.postTaxCF + netProceedsPostTax];
    cashFlowsPreTax := cashFlowsPreTax + [last.preTaxCF + netProceedsPreTax];
    assert cashFlowsPostTax == PostTaxStream(a, d);
    assert cashFlowsPreTax == PreTaxStream(a, d);

    var irrPostTax := irr(cashFlowsPostTax);
    var irrPreTax := irr(cashFlowsPreTax);

    var totalCashIn := Sum(PostTaxColumn(data[1..])) + netProceedsPostTax;
    var totalCashOut := initialEquity + totalPrincipalPaid;
    assert totalCashIn == TotalCashIn(a, d);
    assert totalCashOut == TotalCashOut(a, d);
    var cocTotalOutlay := if totalCashOut > 0.0 then totalCashIn / totalCashOut else 0.0;
    assert cocTotalOutlay == CashOnCash(totalCashIn, totalCashOut);

    r := ScenarioResult(irrPostTax, irrPreTax, cocTotalOutlay, Sum(cashFlowsPostTax),
                        data, cashFlowsPreTax, cashFlowsPostTax);
  }
}
