/** The server's estimator: one pure function from an input record to a
    breakdown, with flat rates and two deductions. */
module Storage {
  import opened Wrappers
  import opened Schema

  const StandardDeductionRate: real := 0.45
  const StandardDeductionCap: real := 109950.0
  const MortgageDeductionRate: real := 0.25
  const BracketRate: real := 0.12
  const InsuranceRate: real := 0.082
  const CommonRate: real := 0.22
  /** The three flat rates together. */
  const CombinedRate: real := BracketRate + InsuranceRate + CommonRate
  /** The marginal rate the server reports for every input, in percent. */
  const ReportedMarginalRate: real := 34.0
  /** How far the combined flat rate exceeds the reported marginal rate, as
      a fraction. */
  const ExcessOverReportedMarginal: real := CombinedRate - ReportedMarginalRate / 100.0

  /** Sum of a list of optional amounts, an absent one counting as 0. */
  function SumPresent(xs: seq<Option<real>>): (r: real)
    ensures (forall i :: 0 <= i < |xs| ==> OptionalNonNegative(xs[i])) ==> r >= 0.0
  {
    if |xs| == 0 then 0.0 else xs[0].GetOr(0.0) + SumPresent(xs[1..])
  }

  /** The seven optional income sources, in the order the server adds them. */
  function OptionalIncomes(w: WorkIncome): seq<Option<real>>
  {
    [w.businessIncome, w.freelanceIncome, w.overtimePay, w.bonuses,
     w.disabilityBenefits, w.parentalBenefits, w.sickPay]
  }

  /** Total income: salary plus every optional source that is present. */
  function TotalIncome(w: WorkIncome): (r: real)
    ensures r == w.salary + SumPresent(OptionalIncomes(w))
    ensures IncomeNonNegative(w) ==> r >= w.salary >= 0.0
  {
    var total :=
      w.salary
      + w.businessIncome.GetOr(0.0)
      + w.freelanceIncome.GetOr(0.0)
      + w.overtimePay.GetOr(0.0)
      + w.bonuses.GetOr(0.0)
      + w.disabilityBenefits.GetOr(0.0)
      + w.parentalBenefits.GetOr(0.0)
      + w.sickPay.GetOr(0.0);
    assert SumPresent(OptionalIncomes(w)) == total - w.salary by {
      var xs := OptionalIncomes(w);
      assert xs[6..][1..] == [];
      assert SumPresent(xs[5..]) == xs[5].GetOr(0.0) + SumPresent(xs[6..]) by { assert xs[5..][1..] == xs[6..]; }
      assert SumPresent(xs[4..]) == xs[4].GetOr(0.0) + SumPresent(xs[5..]) by { assert xs[4..][1..] == xs[5..]; }
      assert SumPresent(xs[3..]) == xs[3].GetOr(0.0) + SumPresent(xs[4..]) by { assert xs[3..][1..] == xs[4..]; }
      assert SumPresent(xs[2..]) == xs[2].GetOr(0.0) + SumPresent(xs[3..]) by { assert xs[2..][1..] == xs[3..]; }
      assert SumPresent(xs[1..]) == xs[1].GetOr(0.0) + SumPresent(xs[2..]) by { assert xs[1..][1..] == xs[2..]; }
    }
    assert IncomeNonNegative(w) ==>
      forall i :: 0 <= i < |OptionalIncomes(w)| ==> OptionalNonNegative(OptionalIncomes(w)[i]);
    total
  }

  /** The standard deduction: 45% of income, capped at 109 950. */
  function StandardDeduction(totalIncome: real): (r: real)
    ensures r <= StandardDeductionCap
    ensures r <= StandardDeductionRate * totalIncome
    ensures r == StandardDeductionCap || r == StandardDeductionRate * totalIncome
    ensures totalIncome >= 0.0 ==> r >= 0.0
  {
    if totalIncome * StandardDeductionRate < StandardDeductionCap
    then totalIncome * StandardDeductionRate
    else StandardDeductionCap
  }

  /** The mortgage deduction: a quarter of the interest paid, none when the
      interest is absent. */
  function MortgageDeduction(mortgageInterest: Option<real>): (r: real)
    ensures mortgageInterest.None? ==> r == 0.0
    ensures mortgageInterest.Some? ==> r * 4.0 == mortgageInterest.value
    ensures OptionalNonNegative(mortgageInterest) ==> r >= 0.0
  {
    mortgageInterest.GetOr(0.0) * MortgageDeductionRate
  }

  /** The average rate in percent, or `None` where the division by a zero
      income yields NaN or Infinity. */
  function ServerAverageRate(totalTax: real, totalIncome: real): (r: Option<real>)
    ensures r.Some? <==> totalIncome != 0.0
    ensures r.Some? ==> r.value * totalIncome == totalTax * 100.0
  {
    if totalIncome == 0.0 then None else Some(totalTax / totalIncome * 100.0)
  }

  /** `calculateTax`. The total tax is not clamped at zero, the marginal
      rate is a constant, and five breakdown fields are left unset. */
  function CalculateTax(data: TaxCalculation): (r: TaxBreakdown)
    ensures r.totalIncome == TotalIncome(data.income)
    ensures r.bracketTax == BracketRate * r.totalIncome
    ensures r.insuranceContribution == InsuranceRate * r.totalIncome
    ensures r.commonTax == CommonRate * r.totalIncome
    ensures r.bracketTax + r.insuranceContribution + r.commonTax == CombinedRate * r.totalIncome
    ensures r.standardDeduction == StandardDeduction(r.totalIncome)
    ensures r.mortgageDeduction == MortgageDeduction(data.bankAndLoans.mortgageInterest)
    ensures r.totalTax + r.mortgageDeduction + r.standardDeduction
         == r.bracketTax + r.insuranceContribution + r.commonTax
    ensures r.netPay + r.totalTax == r.totalIncome
    ensures r.marginalTaxRate == ReportedMarginalRate
    ensures r.averageTaxRate.Some? <==> r.totalIncome != 0.0
    ensures r.averageTaxRate.Some? ==> r.averageTaxRate.value * r.totalIncome == r.totalTax * 100.0
    ensures r.minimumDeduction.None? && r.propertyDeduction.None? && r.parentalBenefitDeduction.None?
    ensures r.disabilityDeduction.None? && r.totalDeductions.None?
  {
    var totalIncome := TotalIncome(data.income);
    var standardDeduction := StandardDeduction(totalIncome);
    var mortgageDeduction := MortgageDeduction(data.bankAndLoans.mortgageInterest);
    var bracketTax := totalIncome * BracketRate;
    var insuranceContribution := totalIncome * InsuranceRate;
    var commonTax := totalIncome * CommonRate;
    var totalTax := bracketTax + insuranceContribution + commonTax - mortgageDeduction - standardDeduction;
    TaxBreakdown(
      totalIncome := totalIncome,
      bracketTax := bracketTax,
      insuranceContribution := insuranceContribution,
      commonTax := commonTax,
      standardDeduction := standardDeduction,
      minimumDeduction := None,
      mortgageDeduction := mortgageDeduction,
      propertyDeduction := None,
      parentalBenefitDeduction := None,
      disabilityDeduction := None,
      totalDeductions := None,
      totalTax := totalTax,
      netPay := totalIncome - totalTax,
      marginalTaxRate := ReportedMarginalRate,
      averageTaxRate := ServerAverageRate(totalTax, totalIncome))
  }

  /** Each levy is non-decreasing in total income, whatever the record. */
  lemma LeviesMonotone(data: TaxCalculation, other: TaxCalculation)
    requires TotalIncome(data.income) <= TotalIncome(other.income)
    ensures var b, b' := CalculateTax(data), CalculateTax(other);
      b.bracketTax <= b'.bracketTax
      && b.insuranceContribution <= b'.insuranceContribution
      && b.commonTax <= b'.commonTax
  {
  }

  /** For a valid record, income and every levy are non-negative. */
  lemma LeviesNonNegative(data: TaxCalculation, currentYear: int)
    requires Valid(data, currentYear)
    ensures var b := CalculateTax(data);
      0.0 <= b.totalIncome && 0.0 <= b.bracketTax && 0.0 <= b.insuranceContribution && 0.0 <= b.commonTax
  {
    ValidAmountsNonNegative(data, currentYear);
  }

  /** With no mortgage interest, every income strictly between 0 and
      109 950 / 0.422 yields a negative total tax. */
  lemma NegativeTaxBelowBreakEven(data: TaxCalculation)
    requires data.bankAndLoans.mortgageInterest.GetOr(0.0) == 0.0
    requires 0.0 < TotalIncome(data.income) < StandardDeductionCap / CombinedRate
    ensures CalculateTax(data).totalTax < 0.0
  {
    var ti := TotalIncome(data.income);
    assert ti * CombinedRate < StandardDeductionCap;
  }

  /** With no mortgage interest and a positive income, the total tax is
      non-negative exactly when income reaches 109 950 / 0.422. */
  lemma TaxSignWithoutMortgage(data: TaxCalculation)
    requires data.bankAndLoans.mortgageInterest.GetOr(0.0) == 0.0
    requires TotalIncome(data.income) > 0.0
    ensures CalculateTax(data).totalTax >= 0.0
        <==> TotalIncome(data.income) >= StandardDeductionCap / CombinedRate
  {
    var ti := TotalIncome(data.income);
    if ti >= StandardDeductionCap / CombinedRate {
      assert ti * CombinedRate >= StandardDeductionCap;
      assert ti * StandardDeductionRate >= StandardDeductionCap;
    } else {
      NegativeTaxBelowBreakEven(data);
    }
  }

  /** Every extra unit of mortgage interest lowers the total tax by a
      quarter unit, all else equal. */
  lemma MortgageLowersTax(data: TaxCalculation, interest: real, more: real)
    ensures var lo := data.(bankAndLoans := data.bankAndLoans.(mortgageInterest := Some(interest)));
            var hi := data.(bankAndLoans := data.bankAndLoans.(mortgageInterest := Some(more)));
            CalculateTax(lo).totalTax - CalculateTax(hi).totalTax == (more - interest) * MortgageDeductionRate
  {
  }

  /** The total tax is not monotone in income: while the deduction is below
      its cap, tax falls by 2.8% of every unit earned. */
  lemma TaxFallsWithIncomeBelowCap(data: TaxCalculation, other: TaxCalculation)
    requires data.bankAndLoans == other.bankAndLoans
    requires TotalIncome(data.income) < TotalIncome(other.income)
    requires TotalIncome(other.income) * StandardDeductionRate < StandardDeductionCap
    ensures CalculateTax(other).totalTax < CalculateTax(data).totalTax
  {
  }

  /** A product with one positive factor is positive only when the other
      factor is. */
  lemma PositiveFactor(x: real, y: real)
    requires y > 0.0 && x * y > 0.0
    ensures x > 0.0
  {
  }

  /** The arithmetic behind `AverageAboveReportedMarginal`, on the totals
      alone. */
  lemma AverageAboveFromTotals(avg: real, totalIncome: real, totalTax: real)
    requires totalIncome * ExcessOverReportedMarginal > StandardDeductionCap
    requires totalTax == CombinedRate * totalIncome - StandardDeductionCap
    requires avg * totalIncome == totalTax * 100.0
    ensures avg > ReportedMarginalRate
  {
    var gap := avg - ReportedMarginalRate;
    assert gap * totalIncome == 100.0 * (totalIncome * ExcessOverReportedMarginal - StandardDeductionCap);
    PositiveFactor(gap, totalIncome);
  }

  /** The reported average rate overtakes the constant reported marginal
      rate once income passes 109 950 / (0.422 - 0.34) with no mortgage
      interest. */
  lemma AverageAboveReportedMarginal(data: TaxCalculation)
    requires data.bankAndLoans.mortgageInterest.GetOr(0.0) == 0.0
    requires TotalIncome(data.income) > StandardDeductionCap / ExcessOverReportedMarginal
    ensures CalculateTax(data).averageTaxRate.Some?
    ensures CalculateTax(data).averageTaxRate.value > CalculateTax(data).marginalTaxRate
  {
    var b := CalculateTax(data);
    var ti := b.totalIncome;
    assert ti == TotalIncome(data.income);
    assert ti * ExcessOverReportedMarginal > StandardDeductionCap;
    assert b.standardDeduction == StandardDeductionCap;
    assert b.mortgageDeduction == 0.0;
    assert b.totalTax == CombinedRate * ti - StandardDeductionCap;
    AverageAboveFromTotals(b.averageTaxRate.value, ti, b.totalTax);
  }

  /** A salary of 500 000 and nothing else: levies of 211 000 less the
      capped standard deduction leave a total tax of 101 050, an average
      rate of 20.21% and a reported marginal rate of 34.0%. */
  lemma SalaryOnlyExample(data: TaxCalculation)
    requires data.income == WorkIncome(500000.0, None, None, None, None, None, None, None)
    requires data.bankAndLoans.mortgageInterest.GetOr(0.0) == 0.0
    ensures var b := CalculateTax(data);
      && b.totalIncome == 500000.0
      && b.bracketTax == 60000.0 && b.insuranceContribution == 41000.0 && b.commonTax == 110000.0
      && b.standardDeduction == 109950.0 && b.mortgageDeduction == 0.0
      && b.totalTax == 101050.0 && b.netPay == 398950.0
      && b.averageTaxRate == Some(20.21) && b.marginalTaxRate == 34.0
  {
  }

  /** A zero income gives no average rate (NaN or Infinity), and any
      mortgage interest then makes the total tax negative. */
  lemma ZeroIncomeExample(data: TaxCalculation, interest: real)
    requires data.income == WorkIncome(0.0, None, None, None, None, None, None, None)
    requires data.bankAndLoans.mortgageInterest == Some(interest) && interest > 0.0
    ensures CalculateTax(data).averageTaxRate.None?
    ensures CalculateTax(data).totalTax < 0.0
    ensures CalculateTax(data).netPay == interest * MortgageDeductionRate
  {
  }
}
