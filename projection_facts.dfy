/** What the projection engine guarantees, proved over the fold that
    Projection.CalculateScenario is shown to compute: the shape of the ledger
    and of the two IRR streams, CPI indexation, the loan phases and the
    balance, the tax identities, the capital-gains split and net profit. */
module ProjectionFacts {
  import opened Finance
  import opened Projection

  // ---------------------------------------------------------------- sums

  /** A sequence that agrees with c except for p added to its last entry sums to Sum(c) + p. */
  lemma {:induction false} SumBumpLast(t: seq<real>, c: seq<real>, p: real)
    requires |t| == |c| >= 1
    requires forall i :: 0 <= i < |c| - 1 ==> t[i] == c[i]
    requires t[|c| - 1] == c[|c| - 1] + p
    ensures Sum(t) == Sum(c) + p
  {
    if |c| == 1 {
      assert t[1..] == [] && c[1..] == [];
    } else {
      SumBumpLast(t[1..], c[1..], p);
    }
  }

  /** Entry-wise differences x[i], with g added to the last, add up to Sum(x) + g. */
  lemma {:induction false} SumGapsBumpLast(s: seq<real>, t: seq<real>, x: seq<real>, g: real)
    requires |s| == |t| == |x| >= 1
    requires forall i :: 0 <= i < |x| - 1 ==> s[i] - t[i] == x[i]
    requires s[|x| - 1] - t[|x| - 1] == x[|x| - 1] + g
    ensures Sum(s) - Sum(t) == Sum(x) + g
  {
    if |x| == 1 {
      assert s[1..] == [] && t[1..] == [] && x[1..] == [];
    } else {
      SumGapsBumpLast(s[1..], t[1..], x[1..], g);
    }
  }

  // ---------------------------------------------------------------- ledger and streams

  /** Step, field by field: the row records the year and the closing running
      variables; rent and opex are indexed and the value grows; interest and
      principal are the servicing of the opening balance, and the principal
      joins the running total; NOI is rent less opex; tax is the marginal
      rate on NOI less interest less the depreciation allowance (negative
      when that is); the pre-tax flow is NOI less interest and principal, and
      the post-tax flow is the pre-tax flow less the tax. */
  lemma YearStep(a: Assumptions, d: Deal, before: Running, year: nat)
    requires d.interestRate >= 0.0
    ensures var r := Step(a, d, before, year);
      var s := Servicing(a, d.interestRate, before.loan, year);
      && r.1.year == year && r.1.loan == r.0.loan && r.1.value == r.0.value
      && r.1.rent == r.0.rent == Indexed(a, before.rent, year)
      && r.1.opex == r.0.opex == Indexed(a, before.opex, year)
      && r.0.value == Grown(before.value, d.capitalGrowth)
      && r.1.interest == s.interest && r.1.principal == s.principal
      && r.0.principalPaid == before.principalPaid + s.principal
      && r.1.noi == r.1.rent - r.1.opex
      && r.1.tax == TaxOn(r.1.noi - r.1.interest - Depreciation(year), a.marginalTaxRate)
      && r.1.preTaxCF == r.1.noi - r.1.interest - r.1.principal
      && r.1.postTaxCF == r.1.preTaxCF - r.1.tax
  {
  }

  /** Opening and row of year y >= 1 in terms of Step. */
  lemma Unfold(a: Assumptions, d: Deal, y: nat)
    requires d.interestRate >= 0.0 && y >= 1
    ensures RowOf(a, d, y) == Step(a, d, Opening(a, d, y), y).1
    ensures Opening(a, d, y + 1) == Step(a, d, Opening(a, d, y), y).0
  {
  }

  /** The ledger lists years 0 .. k-1 in order, one row each. */
  lemma {:induction false} LedgerShape(a: Assumptions, d: Deal, k: nat)
    requires d.interestRate >= 0.0
    ensures |Ledger(a, d, k)| == k
    ensures forall i :: 0 <= i < k ==> Ledger(a, d, k)[i] == RowOf(a, d, i) && Ledger(a, d, k)[i].year == i
  {
    if k > 0 {
      LedgerShape(a, d, k - 1);
      var y := k - 1;
      if y > 0 {
        Unfold(a, d, y);
        YearStep(a, d, Opening(a, d, y), y);
      }
    }
  }

  /** A stream after the loop has seen years 0 .. k-1: the outlay, then one flow per year 1 .. min(k, hp) - 1. */
  lemma {:induction false} FlowsShape(a: Assumptions, d: Deal, k: nat, taxed: bool)
    requires d.interestRate >= 0.0 && a.holdingPeriod >= 1 && k >= 1
    ensures |Flows(a, d, k, taxed)| == (if k <= a.holdingPeriod then k else a.holdingPeriod)
    ensures Flows(a, d, k, taxed)[0] == -InitialEquity(d)
    ensures forall i :: 1 <= i < |Flows(a, d, k, taxed)| ==> Flows(a, d, k, taxed)[i] == CashFlow(RowOf(a, d, i), taxed)
  {
    if k > 1 {
      FlowsShape(a, d, k - 1, taxed);
    }
  }

  /** Both IRR streams have holding period + 1 entries: the equity outlay,
      one flow for each year before the last, and the last year's flow
      together with the net sale proceeds, so that year appears exactly once. */
  lemma StreamShape(a: Assumptions, d: Deal)
    requires d.interestRate >= 0.0 && a.holdingPeriod >= 1
    ensures |PreTaxStream(a, d)| == |PostTaxStream(a, d)| == a.holdingPeriod + 1
    ensures PreTaxStream(a, d)[0] == PostTaxStream(a, d)[0] == -InitialEquity(d)
    ensures forall i :: 1 <= i < a.holdingPeriod ==>
              PreTaxStream(a, d)[i] == RowOf(a, d, i).preTaxCF && PostTaxStream(a, d)[i] == RowOf(a, d, i).postTaxCF
    ensures PreTaxStream(a, d)[a.holdingPeriod] == RowOf(a, d, a.holdingPeriod).preTaxCF + SaleOf(a, d).netPreTax
    ensures PostTaxStream(a, d)[a.holdingPeriod] == RowOf(a, d, a.holdingPeriod).postTaxCF + SaleOf(a, d).netPostTax
  {
    FlowsShape(a, d, a.holdingPeriod + 1, false);
    FlowsShape(a, d, a.holdingPeriod + 1, true);
  }

  /** The result of calculate_scenario: holding period + 1 ledger rows, the
      first being the purchase (value the price, loan the loan amount, pre-tax
      flow 0, post-tax flow the equity outlay), and the two streams above. */
  lemma ScenarioShape(a: Assumptions, d: Deal, irr: seq<real> -> Option<real>)
    requires d.interestRate >= 0.0 && a.holdingPeriod >= 1
    ensures var r := Project(a, d, irr);
      && |r.data| == a.holdingPeriod + 1
      && r.data[0].value == d.purchasePrice && r.data[0].loan == d.loanAmount
      && r.data[0].preTaxCF == 0.0 && r.data[0].postTaxCF == -InitialEquity(d)
      && |r.preTaxFlows| == |r.postTaxFlows| == a.holdingPeriod + 1
      && r.preTaxFlows[0] == r.postTaxFlows[0] == -InitialEquity(d)
      && r.postTaxFlows[a.holdingPeriod] == r.data[a.holdingPeriod].postTaxCF + SaleOf(a, d).netPostTax
      && r.preTaxFlows[a.holdingPeriod] == r.data[a.holdingPeriod].preTaxCF + SaleOf(a, d).netPreTax
  {
    LedgerShape(a, d, a.holdingPeriod + 1);
    StreamShape(a, d);
  }

  // ---------------------------------------------------------------- indexation and growth

  /** Rent and opex are not indexed in year 1 and grow by CPI once in every
      later year: year y carries the base amount compounded y - 1 times. */
  lemma {:induction false} Indexation(a: Assumptions, d: Deal, y: nat)
    requires d.interestRate >= 0.0 && y >= 1
    ensures RowOf(a, d, y).rent == Compounded(Start(a, d).rent, a.cpiRate, y - 1)
    ensures RowOf(a, d, y).opex == Compounded(Start(a, d).opex, a.cpiRate, y - 1)
  {
    if y > 1 {
      Indexation(a, d, y - 1);
      Unfold(a, d, y - 1);
      Unfold(a, d, y);
      YearStep(a, d, Opening(a, d, y - 1), y - 1);
      YearStep(a, d, Opening(a, d, y), y);
    } else {
      Unfold(a, d, 1);
      YearStep(a, d, Start(a, d), 1);
    }
  }

  /** The property value compounds at the growth rate from the purchase price,
      once per year from year 1 on. */
  lemma {:induction false} Appreciation(a: Assumptions, d: Deal, y: nat)
    requires d.interestRate >= 0.0
    ensures RowOf(a, d, y).value == Compounded(d.purchasePrice, d.capitalGrowth, y)
  {
    if y > 1 {
      Appreciation(a, d, y - 1);
      Unfold(a, d, y - 1);
      Unfold(a, d, y);
      YearStep(a, d, Opening(a, d, y - 1), y - 1);
      YearStep(a, d, Opening(a, d, y), y);
    } else if y == 1 {
      Unfold(a, d, 1);
      YearStep(a, d, Start(a, d), 1);
    }
  }

  // ---------------------------------------------------------------- the loan

  /** From a non-negative loan amount the balance stays non-negative, each
      year's principal is non-negative, and principal repaid plus the balance
      always equals the loan amount (the clamp at zero never bites). */
  lemma {:induction false} PrincipalConservation(a: Assumptions, d: Deal, y: nat)
    requires d.interestRate >= 0.0 && d.loanAmount >= 0.0
    ensures Opening(a, d, y).loan >= 0.0 && Opening(a, d, y).principalPaid >= 0.0
    ensures Opening(a, d, y).principalPaid + Opening(a, d, y).loan == d.loanAmount
  {
    if y > 1 {
      PrincipalConservation(a, d, y - 1);
      Unfold(a, d, y - 1);
      YearStep(a, d, Opening(a, d, y - 1), y - 1);
    }
  }

  /** The closing balance of year y >= 1 is its ledger entry and the next year's opening balance. */
  lemma ClosingBalance(a: Assumptions, d: Deal, y: nat)
    requires d.interestRate >= 0.0 && y >= 1
    ensures Opening(a, d, y + 1).loan == RowOf(a, d, y).loan
  {
    Unfold(a, d, y);
    YearStep(a, d, Opening(a, d, y), y);
  }

  /** The balance never rises from one year to a later one and never exceeds the loan amount. */
  lemma {:induction false} BalanceNeverRises(a: Assumptions, d: Deal, y1: nat, y2: nat)
    requires d.interestRate >= 0.0 && d.loanAmount >= 0.0 && y1 <= y2
    ensures 0.0 <= Opening(a, d, y2).loan <= Opening(a, d, y1).loan <= d.loanAmount
    decreases y2 - y1
  {
    PrincipalConservation(a, d, y1);
    if y1 < y2 {
      BalanceNeverRises(a, d, y1 + 1, y2);
      if y1 >= 1 {
        Unfold(a, d, y1);
      }
    }
  }

  /** An interest-only year: no principal, the interest is one period's
      interest on the opening balance, and the balance carries over. */
  lemma InterestOnlyYear(a: Assumptions, d: Deal, before: Running, y: nat)
    requires d.interestRate >= 0.0 && before.loan >= 0.0 && y <= a.interestOnlyPeriod
    ensures var r := Step(a, d, before, y);
      && r.1.principal == 0.0
      && r.1.interest == InterestOn(before.loan, d.interestRate)
      && r.0.loan == before.loan
  {
  }

  /** An amortising year: the interest on the opening balance plus the
      principal is the annuity payment over the remaining term, the principal
      lies between 0 and the balance, and the balance falls by the principal. */
  lemma AmortisingYear(a: Assumptions, d: Deal, before: Running, y: nat)
    requires d.interestRate >= 0.0 && before.loan >= 0.0
    requires y > a.interestOnlyPeriod && a.loanTerm - (y - 1) > 0
    ensures var r := Step(a, d, before, y);
      && r.1.interest == InterestOn(before.loan, d.interestRate)
      && r.1.interest + r.1.principal == Pmt(d.interestRate, a.loanTerm - (y - 1), before.loan)
      && 0.0 <= r.1.principal <= before.loan
      && r.0.loan == before.loan - r.1.principal
  {
  }

  /** Once the term has run out (and the interest-only period is over) the
      year pays neither interest nor principal and the balance carries over. */
  lemma LoanClosedYear(a: Assumptions, d: Deal, before: Running, y: nat)
    requires d.interestRate >= 0.0 && before.loan >= 0.0
    requires y > a.interestOnlyPeriod && a.loanTerm - (y - 1) <= 0
    ensures var r := Step(a, d, before, y);
      r.1.interest == 0.0 && r.1.principal == 0.0 && r.0.loan == before.loan
  {
  }

  /** The last year of the term, when it is not interest-only, repays the
      whole opening balance: the payment is the balance plus its interest. */
  lemma FinalTermYear(a: Assumptions, d: Deal, before: Running, y: nat)
    requires d.interestRate >= 0.0 && before.loan >= 0.0
    requires y == a.loanTerm && y > a.interestOnlyPeriod
    ensures var r := Step(a, d, before, y);
      r.1.principal == before.loan && r.0.loan == 0.0
  {
    AmortisingYear(a, d, before, y);
    PmtFinalPeriod(d.interestRate, before.loan);
  }

  /** With the interest-only period ending before the term, the last year of
      the term pays the remaining balance off, and it stays at 0 afterwards. */
  lemma {:induction false} RepaidByTerm(a: Assumptions, d: Deal, y: nat)
    requires d.interestRate >= 0.0 && d.loanAmount >= 0.0
    requires a.interestOnlyPeriod < a.loanTerm && 1 <= a.loanTerm <= y
    ensures RowOf(a, d, y).loan == 0.0
  {
    PrincipalConservation(a, d, y);
    Unfold(a, d, y);
    YearStep(a, d, Opening(a, d, y), y);
    if y == a.loanTerm {
      FinalTermYear(a, d, Opening(a, d, y), y);
    } else {
      RepaidByTerm(a, d, y - 1);
      ClosingBalance(a, d, y - 1);
      LoanClosedYear(a, d, Opening(a, d, y), y);
    }
  }

  /** When the interest-only period reaches the end of the term, no principal
      is ever repaid: every ledger row shows the full loan amount, and each
      year past the interest-only period charges no interest on it. */
  lemma {:induction false} NeverAmortised(a: Assumptions, d: Deal, y: nat)
    requires d.interestRate >= 0.0 && d.loanAmount >= 0.0 && a.interestOnlyPeriod >= a.loanTerm
    ensures Opening(a, d, y).loan == d.loanAmount
    ensures y >= 1 ==> RowOf(a, d, y).principal == 0.0 && RowOf(a, d, y).loan == d.loanAmount
    ensures y >= 1 && y > a.interestOnlyPeriod ==> RowOf(a, d, y).interest == 0.0
  {
    if y > 1 {
      NeverAmortised(a, d, y - 1);
      ClosingBalance(a, d, y - 1);
    }
    if y >= 1 {
      Unfold(a, d, y);
      YearStep(a, d, Opening(a, d, y), y);
      if y <= a.interestOnlyPeriod {
        InterestOnlyYear(a, d, Opening(a, d, y), y);
      } else {
        LoanClosedYear(a, d, Opening(a, d, y), y);
      }
    }
  }

  // ---------------------------------------------------------------- tax and cash flow

  /** Tax at a positive rate is negative exactly when the income is. */
  lemma TaxSign(income: real, rate: real)
    requires rate > 0.0
    ensures TaxOn(income, rate) < 0.0 <==> income < 0.0
  {
    if income < 0.0 {
      assert income * rate < 0.0;
    } else {
      assert income * rate >= 0.0;
    }
  }

  /** Tax is not floored at zero: with a positive marginal rate, a year whose
      NOI falls short of interest plus the allowance has negative tax, and
      exactly then its post-tax flow exceeds its pre-tax flow. */
  lemma NegativeGearing(a: Assumptions, d: Deal, before: Running, y: nat)
    requires d.interestRate >= 0.0 && a.marginalTaxRate > 0.0
    ensures var row := Step(a, d, before, y).1;
      && (row.noi - row.interest - Depreciation(y) < 0.0 <==> row.tax < 0.0)
      && (row.tax < 0.0 <==> row.postTaxCF > row.preTaxCF)
  {
    var row := Step(a, d, before, y).1;
    YearStep(a, d, before, y);
    TaxSign(row.noi - row.interest - Depreciation(y), a.marginalTaxRate);
  }

  /** The tax of years 1 .. holding period, in order. */
  function YearlyTax(a: Assumptions, d: Deal): (t: seq<real>)
    requires d.interestRate >= 0.0
    ensures |t| == a.holdingPeriod
    ensures forall j :: 0 <= j < a.holdingPeriod ==> t[j] == RowOf(a, d, j + 1).tax
  {
    seq(a.holdingPeriod, j requires 0 <= j < a.holdingPeriod => RowOf(a, d, j + 1).tax)
  }

  /** The pre-tax stream exceeds the post-tax stream, in total, by the tax of
      every year plus the capital-gains tax on the sale. */
  lemma TaxGap(a: Assumptions, d: Deal)
    requires d.interestRate >= 0.0 && a.holdingPeriod >= 1
    ensures Sum(PreTaxStream(a, d)) - Sum(PostTaxStream(a, d)) == Sum(YearlyTax(a, d)) + SaleOf(a, d).cgt
  {
    var hp := a.holdingPeriod;
    StreamShape(a, d);
    forall i | 1 <= i <= hp
      ensures RowOf(a, d, i).preTaxCF - RowOf(a, d, i).postTaxCF == RowOf(a, d, i).tax
    {
      Unfold(a, d, i);
      YearStep(a, d, Opening(a, d, i), i);
    }
    var pre := PreTaxStream(a, d);
    var post := PostTaxStream(a, d);
    SumGapsBumpLast(pre[1..], post[1..], YearlyTax(a, d), SaleOf(a, d).cgt);
  }

  // ---------------------------------------------------------------- sale and metrics

  /** The sale from a last row: the gross gain is the price net of 2.5%
      selling costs less the cost base (price, 4% stamp duty and 2000 closing
      costs), and the pre-tax proceeds are the price net of selling costs less
      the outstanding loan. */
  lemma SaleFacts(a: Assumptions, d: Deal, last: YearRow)
    ensures var s := Terminal(a, d, last);
      && s.grossGain == last.value * 0.975 - d.purchasePrice * 1.04 - 2000.0
      && s.netPreTax == last.value * 0.975 - last.loan
  {
  }

  /** Net profit is everything recovered (total_cash_in) less the equity
      outlay: the last year's flow is counted once, in the final entry. */
  lemma NetProfitIsCashInLessEquity(a: Assumptions, d: Deal, irr: seq<real> -> Option<real>)
    requires d.interestRate >= 0.0 && a.holdingPeriod >= 1
    ensures Project(a, d, irr).netProfit == TotalCashIn(a, d) - InitialEquity(d)
  {
    var hp := a.holdingPeriod;
    LedgerShape(a, d, hp + 1);
    var col := PostTaxColumn(Ledger(a, d, hp + 1)[1..]);
    StreamShape(a, d);
    var post := PostTaxStream(a, d);
    SumBumpLast(post[1..], col, SaleOf(a, d).netPostTax);
  }

  /** Total cash out is the equity outlay plus the principal repaid, which is
      the loan amount less the final balance; so it lies between the outlay
      and the outlay plus the loan amount. */
  lemma CashOutBounds(a: Assumptions, d: Deal)
    requires d.interestRate >= 0.0 && d.loanAmount >= 0.0
    ensures TotalCashOut(a, d) == InitialEquity(d) + d.loanAmount - Opening(a, d, a.holdingPeriod + 1).loan
    ensures InitialEquity(d) <= TotalCashOut(a, d) <= InitialEquity(d) + d.loanAmount
  {
    PrincipalConservation(a, d, a.holdingPeriod + 1);
    BalanceNeverRises(a, d, 0, a.holdingPeriod + 1);
  }

  /** The cash-on-cash multiple of a scenario is total cash in over total
      cash out when that is positive, and 0 otherwise; with a positive equity
      outlay and a non-negative loan the guard never applies. */
  lemma ScenarioCashOnCash(a: Assumptions, d: Deal, irr: seq<real> -> Option<real>)
    requires d.interestRate >= 0.0 && d.loanAmount >= 0.0 && InitialEquity(d) > 0.0
    ensures TotalCashOut(a, d) > 0.0
    ensures Project(a, d, irr).cashOnCash * TotalCashOut(a, d) == TotalCashIn(a, d)
  {
    assert TotalCashOut(a, d) > 0.0 by {
      CashOutBounds(a, d);
    }
    assert Project(a, d, irr).cashOnCash == CashOnCash(TotalCashIn(a, d), TotalCashOut(a, d));
  }

  // ---------------------------------------------------------------- an example

  /** The sidebar defaults: 750000 price, 600000 loan at 6% over 30 years, no
      interest-only period, 600 a week rent, 3% vacancy, 6000 opex, no land
      tax, 37% marginal rate, 5% growth, 2.5% CPI, 10-year hold. */
  lemma DefaultFirstYear()
    ensures var a := Assumptions(10, 600.0, 0.03, 6000.0, 0.0, 0.025, 0, 30, 0.37);
      var d := Deal(750000.0, 600000.0, 0.06, 0.05);
      && InitialEquity(d) == 182000.0
      && RowOf(a, d, 1).rent == 30264.0 && RowOf(a, d, 1).noi == 24264.0
      && RowOf(a, d, 1).interest == 36000.0 && RowOf(a, d, 1).value == 787500.0
      && RowOf(a, d, 2).rent == 31020.6
  {
    var a := Assumptions(10, 600.0, 0.03, 6000.0, 0.0, 0.025, 0, 30, 0.37);
    var d := Deal(750000.0, 600000.0, 0.06, 0.05);
    assert Start(a, d).rent == 30264.0;
    Unfold(a, d, 1);
    YearStep(a, d, Start(a, d), 1);
    assert Servicing(a, 0.06, 600000.0, 1).interest == 36000.0;
    Appreciation(a, d, 1);
    Unfold(a, d, 2);
    YearStep(a, d, Opening(a, d, 2), 2);
  }
}
