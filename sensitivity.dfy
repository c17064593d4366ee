/** The sensitivity sweep: the scenario re-run over a grid of interest rates
    (rows) and capital-growth rates (columns), each cell holding the post-tax
    IRR. Along a row only the growth rate changes, and growth reaches the cash
    flows through the sale alone: every stream entry but the last is the same,
    and the last one does not fall as growth rises. */
module Sensitivity {
  import opened Finance
  import opened Projection
  import opened ProjectionFacts

  /** The capital-growth rates of the columns. */
  const GrowthRanges: seq<real> := [0.03, 0.04, 0.05, 0.06, 0.07]

  /** The interest rates of the rows. */
  const InterestRanges: seq<real> := [0.04, 0.05, 0.06, 0.07, 0.08]

  /** The cell for one interest rate and one growth rate: the post-tax IRR of
      the scenario with the sidebar's price and loan. */
  function Cell(a: Assumptions, purchasePrice: real, loanAmount: real, ir: real, cg: real,
                irr: seq<real> -> Option<real>): Option<real>
    requires ir >= 0.0
  {
    Project(a, Deal(purchasePrice, loanAmount, ir, cg), irr).irrPostTax
  }

  /** The nested loop that fills the matrix, one row per interest rate and one
      column per growth rate, each cell from a run of the engine. */
  method SensitivityMatrix(a: Assumptions, purchasePrice: real, loanAmount: real,
                           interestRanges: seq<real>, growthRanges: seq<real>,
                           irr: seq<real> -> Option<real>)
    returns (matrixData: seq<seq<Option<real>>>)
    requires forall i :: 0 <= i < |interestRanges| ==> interestRanges[i] >= 0.0
    ensures |matrixData| == |interestRanges|
    ensures forall i :: 0 <= i < |interestRanges| ==> |matrixData[i]| == |growthRanges|
    ensures forall i, j :: 0 <= i < |interestRanges| && 0 <= j < |growthRanges| ==>
              matrixData[i][j] == Cell(a, purchasePrice, loanAmount, interestRanges[i], growthRanges[j], irr)
  {
    matrixData := [];
    for i := 0 to |interestRanges|
      invariant |matrixData| == i
      invariant forall k :: 0 <= k < i ==> |matrixData[k]| == |growthRanges|
      invariant forall k, j :: 0 <= k < i && 0 <= j < |growthRanges| ==>
                  matrixData[k][j] == Cell(a, purchasePrice, loanAmount, interestRanges[k], growthRanges[j], irr)
    {
      var ir := interestRanges[i];
      var row: seq<Option<real>> := [];
      for j := 0 to |growthRanges|
        invariant |row| == j
        invariant forall k :: 0 <= k < j ==> row[k] == Cell(a, purchasePrice, loanAmount, ir, growthRanges[k], irr)
      {
        var cg := growthRanges[j];
        var res := CalculateScenario(a, Deal(purchasePrice, loanAmount, ir, cg), irr);
        row := row + [res.irrPostTax];
      }
      matrixData := matrixData + [row];
    }
  }

  /** The matrix the page shows: five interest rates by five growth rates. */
  method DefaultSensitivity(a: Assumptions, purchasePrice: real, loanAmount: real,
                            irr: seq<real> -> Option<real>)
    returns (matrixData: seq<seq<Option<real>>>)
    ensures |matrixData| == 5
    ensures forall i :: 0 <= i < 5 ==> |matrixData[i]| == 5
    ensures forall i, j :: 0 <= i < 5 && 0 <= j < 5 ==>
              matrixData[i][j] == Cell(a, purchasePrice, loanAmount, InterestRanges[i], GrowthRanges[j], irr)
  {
    matrixData := SensitivityMatrix(a, purchasePrice, loanAmount, InterestRanges, GrowthRanges, irr);
  }

  // ---------------------------------------------------------------- growth moves only the sale

  /** Two deals that differ at most in their growth rate. */
  predicate SameButGrowth(d: Deal, e: Deal)
  {
    e == d.(capitalGrowth := e.capitalGrowth)
  }

  /** A year of two deals that differ only in growth, from running variables
      that differ only in value, differs only in value. */
  lemma StepIgnoresGrowth(a: Assumptions, d: Deal, e: Deal, before: Running, before': Running, y: nat)
    requires d.interestRate >= 0.0 && SameButGrowth(d, e)
    requires before' == before.(value := before'.value)
    ensures var r := Step(a, d, before, y);
      var r' := Step(a, e, before', y);
      && r'.0 == r.0.(value := r'.0.value)
      && r'.1 == r.1.(value := r'.1.value)
  {
  }

  /** The running variables of two deals that differ only in growth differ
      only in value, in every year. */
  lemma {:induction false} OpeningIgnoresGrowth(a: Assumptions, d: Deal, e: Deal, y: nat)
    requires d.interestRate >= 0.0 && SameButGrowth(d, e)
    ensures Opening(a, e, y) == Opening(a, d, y).(value := Opening(a, e, y).value)
  {
    if y > 1 {
      OpeningIgnoresGrowth(a, d, e, y - 1);
      Unfold(a, d, y - 1);
      Unfold(a, e, y - 1);
      StepIgnoresGrowth(a, d, e, Opening(a, d, y - 1), Opening(a, e, y - 1), y - 1);
    }
  }

  /** Every ledger row of two deals that differ only in growth differs only in value. */
  lemma RowIgnoresGrowth(a: Assumptions, d: Deal, e: Deal, y: nat)
    requires d.interestRate >= 0.0 && SameButGrowth(d, e)
    ensures RowOf(a, e, y) == RowOf(a, d, y).(value := RowOf(a, e, y).value)
  {
    if y > 0 {
      OpeningIgnoresGrowth(a, d, e, y);
      Unfold(a, d, y);
      Unfold(a, e, y);
      StepIgnoresGrowth(a, d, e, Opening(a, d, y), Opening(a, e, y), y);
    }
  }

  /** Along a row of the matrix, both streams agree in every entry but the last. */
  lemma GrowthMovesOnlyTheSale(a: Assumptions, d: Deal, e: Deal)
    requires d.interestRate >= 0.0 && SameButGrowth(d, e) && a.holdingPeriod >= 1
    ensures |PreTaxStream(a, e)| == |PreTaxStream(a, d)| == |PostTaxStream(a, e)| == |PostTaxStream(a, d)|
            == a.holdingPeriod + 1
    ensures forall i :: 0 <= i < a.holdingPeriod ==>
              PreTaxStream(a, e)[i] == PreTaxStream(a, d)[i] && PostTaxStream(a, e)[i] == PostTaxStream(a, d)[i]
  {
    StreamShape(a, d);
    StreamShape(a, e);
    forall i | 1 <= i < a.holdingPeriod
      ensures RowOf(a, e, i) == RowOf(a, d, i).(value := RowOf(a, e, i).value)
    {
      RowIgnoresGrowth(a, d, e, i);
    }
  }

  /** Compounding a non-negative amount at a higher rate (no lower than -100%)
      never gives less. */
  lemma {:induction false} CompoundedMonotone(amount: real, r1: real, r2: real, n: nat)
    requires amount >= 0.0 && -1.0 <= r1 <= r2
    ensures 0.0 <= Compounded(amount, r1, n) <= Compounded(amount, r2, n)
  {
    if n > 0 {
      CompoundedMonotone(amount, r1, r2, n - 1);
      GrownMonotone(Compounded(amount, r1, n - 1), Compounded(amount, r2, n - 1), r1, r2);
    }
  }

  /** One period of growth is monotone in the amount and in the rate. */
  lemma GrownMonotone(x1: real, x2: real, r1: real, r2: real)
    requires 0.0 <= x1 <= x2 && -1.0 <= r1 <= r2
    ensures 0.0 <= Grown(x1, r1) <= Grown(x2, r2)
  {
    assert (x2 - x1) * (1.0 + r1) >= 0.0;
    assert x2 * (r2 - r1) >= 0.0;
  }

  /** With a marginal rate of at most 100%, a higher sale price with the same
      outstanding loan never lowers the net proceeds, before or after
      capital-gains tax. */
  lemma ProceedsRiseWithPrice(a: Assumptions, d: Deal, last: YearRow, last': YearRow)
    requires 0.0 <= a.marginalTaxRate <= 1.0
    requires last.loan == last'.loan && last.value <= last'.value
    ensures Terminal(a, d, last).netPreTax <= Terminal(a, d, last').netPreTax
    ensures Terminal(a, d, last).netPostTax <= Terminal(a, d, last').netPostTax
  {
    var s := Terminal(a, d, last);
    var s' := Terminal(a, d, last');
    SaleFacts(a, d, last);
    SaleFacts(a, d, last');
    assert 0.0 <= s'.taxableGain - s.taxableGain <= s'.grossGain - s.grossGain;
    TaxRiseBounded(s.taxableGain, s'.taxableGain, a.marginalTaxRate);
  }

  /** At a rate between 0 and 1, raising taxable income raises the tax by no
      more than the income rose. */
  lemma TaxRiseBounded(t1: real, t2: real, m: real)
    requires t1 <= t2 && 0.0 <= m <= 1.0
    ensures 0.0 <= TaxOn(t2, m) - TaxOn(t1, m) <= t2 - t1
  {
    var dt := t2 - t1;
    assert TaxOn(t2, m) - TaxOn(t1, m) == dt * m;
    FractionOf(dt, m);
  }

  /** A fraction between 0 and 1 of a non-negative amount lies between 0 and the amount. */
  lemma FractionOf(x: real, m: real)
    requires x >= 0.0 && 0.0 <= m <= 1.0
    ensures 0.0 <= x * m <= x
  {
  }

  /** Along a row of the matrix, a higher growth rate never lowers the final
      entry of either stream (a non-negative price, a marginal rate of at most
      100%). */
  lemma FinalFlowRisesWithGrowth(a: Assumptions, d: Deal, e: Deal)
    requires d.interestRate >= 0.0 && SameButGrowth(d, e) && a.holdingPeriod >= 1
    requires d.purchasePrice >= 0.0 && -1.0 <= d.capitalGrowth <= e.capitalGrowth
    requires 0.0 <= a.marginalTaxRate <= 1.0
    ensures |PreTaxStream(a, e)| == |PreTaxStream(a, d)| == |PostTaxStream(a, e)| == |PostTaxStream(a, d)|
            == a.holdingPeriod + 1
    ensures PreTaxStream(a, d)[a.holdingPeriod] <= PreTaxStream(a, e)[a.holdingPeriod]
    ensures PostTaxStream(a, d)[a.holdingPeriod] <= PostTaxStream(a, e)[a.holdingPeriod]
  {
    var hp := a.holdingPeriod;
    StreamShape(a, d);
    StreamShape(a, e);
    RowIgnoresGrowth(a, d, e, hp);
    Appreciation(a, d, hp);
    Appreciation(a, e, hp);
    CompoundedMonotone(d.purchasePrice, d.capitalGrowth, e.capitalGrowth, hp);
    assert UpfrontCost(e) == UpfrontCost(d);
    ProceedsRiseWithPrice(a, d, RowOf(a, d, hp), RowOf(a, e, hp));
    assert SaleOf(a, e) == Terminal(a, d, RowOf(a, e, hp));
  }
}
