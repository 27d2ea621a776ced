/** The four deductions computed from the pre-tax salary `y`, the number of
    dependents (including the employee) and the non-taxable allowance. */
module Deductions {
  import opened Amounts
  import opened Brackets

  /** Upper bounds of the first four of the five income-deduction bands. */
  const IncomeDeductionRanges: seq<real> := [5000000.0, 15000000.0, 45000000.0, 100000000.0]

  /** Income deduction, band by band as the source writes it. On a non-negative
      salary it is non-negative and at most 70% of the salary. */
  function IncomeDeduction(y: real): (r: real)
    ensures y >= 0.0 ==> 0.0 <= r <= 0.7 * y
  {
    if y <= IncomeDeductionRanges[0] then y * 0.7
    else if y <= IncomeDeductionRanges[1] then 3500000.0 + (y - IncomeDeductionRanges[0]) * 0.4
    else if y <= IncomeDeductionRanges[2] then 7500000.0 + (y - IncomeDeductionRanges[1]) * 0.15
    else if y <= IncomeDeductionRanges[3] then 12000000.0 + (y - IncomeDeductionRanges[2]) * 0.05
    else 14750000.0 + (y - IncomeDeductionRanges[3]) * 0.02
  }

  /** The same schedule as a table of (bound, rate, intercept). */
  const IncomeDeductionSchedule: Schedule :=
    Schedule(
      [ Band(IncomeDeductionRanges[0], Line(0.7, 0.0)),
        Band(IncomeDeductionRanges[1], Line(0.4, 1500000.0)),
        Band(IncomeDeductionRanges[2], Line(0.15, 5250000.0)),
        Band(IncomeDeductionRanges[3], Line(0.05, 9750000.0)) ],
      Line(0.02, 12750000.0))

  /** Ascending bounds, positive rates, and at 5M, 15M, 45M and 100M the
      adjacent formulas agree (3.5M, 7.5M, 12M and 14.75M). */
  lemma IncomeDeductionScheduleWellFormed()
    ensures IncomeDeductionSchedule.WellFormed()
    ensures |IncomeDeductionSchedule.bands| == |IncomeDeductionRanges|
    ensures forall i :: 0 <= i < |IncomeDeductionSchedule.bands| ==>
      IncomeDeductionSchedule.bands[i].upTo == IncomeDeductionRanges[i]
  {
  }

  /** The explicit chain and the table evaluation agree everywhere. */
  lemma IncomeDeductionIsSchedule(y: real)
    ensures IncomeDeduction(y) == Evaluate(IncomeDeductionSchedule, y)
  {
    IncomeDeductionScheduleWellFormed();
    var s := IncomeDeductionSchedule;
    if y <= s.bands[0].upTo { EvaluateInBand(s, 0, y); }
    else if y <= s.bands[1].upTo { EvaluateInBand(s, 1, y); }
    else if y <= s.bands[2].upTo { EvaluateInBand(s, 2, y); }
    else if y <= s.bands[3].upTo { EvaluateInBand(s, 3, y); }
    else { EvaluateAboveBands(s, y); }
  }

  /** A higher salary never lowers the income deduction. */
  lemma IncomeDeductionMonotone(x: real, y: real)
    requires x <= y
    ensures IncomeDeduction(x) <= IncomeDeduction(y)
  {
    IncomeDeductionIsSchedule(x);
    IncomeDeductionIsSchedule(y);
    IncomeDeductionScheduleWellFormed();
    EvaluateMonotone(IncomeDeductionSchedule, x, y);
  }

  /** Tax-credit deduction: the salary itself below 740,000, then a flat
      740,000 up to 33M, then tapering, never under 660,000 up to 70M and
      never under 500,000 above. */
  function TaxCreditDeduction(y: real): (r: real)
    ensures r <= 740000.0
    ensures y < 740000.0 ==> r == y
    ensures 740000.0 <= y <= 33000000.0 ==> r == 740000.0
    ensures 740000.0 <= y <= 70000000.0 ==> r >= 660000.0
    ensures y >= 740000.0 ==> r >= 500000.0
  {
    if y < 740000.0 then y
    else if y <= 33000000.0 then 740000.0
    else if y <= 70000000.0 then Max(660000.0, 740000.0 - (y - 33000000.0) * 0.008)
    else Max(500000.0, 660000.0 - (y - 70000000.0) * 0.5)
  }

  /** Up to 33M the tax-credit deduction never falls as the salary rises ... */
  lemma TaxCreditRisesToPlateau(x: real, y: real)
    requires x <= y <= 33000000.0
    ensures TaxCreditDeduction(x) <= TaxCreditDeduction(y)
  {
  }

  /** ... and from 740,000 on it never rises: the taper has no jumps upward at 33M or 70M. */
  lemma TaxCreditTapers(x: real, y: real)
    requires 740000.0 <= x <= y
    ensures TaxCreditDeduction(y) <= TaxCreditDeduction(x)
  {
  }

  /** Dependent deduction: the salary itself below 1,500,000, otherwise
      1,500,000 per dependent. */
  function FamilyDeduction(y: real, numFamily: int): (r: real)
    ensures y < 1500000.0 ==> r == y
    ensures y >= 1500000.0 ==> r == 1500000.0 * numFamily as real
  {
    if y < 1500000.0 then y else 1500000.0 * numFamily as real
  }

  /** More dependents never lower the dependent deduction; below 1,500,000 the
      count does not matter, and from 1,500,000 on every extra dependent adds
      exactly 1,500,000. */
  lemma FamilyDeductionIncreasing(y: real, n: int, m: int)
    requires n <= m
    ensures FamilyDeduction(y, n) <= FamilyDeduction(y, m)
    ensures y < 1500000.0 ==> FamilyDeduction(y, n) == FamilyDeduction(y, m) == y
    ensures y >= 1500000.0 ==> FamilyDeduction(y, m) - FamilyDeduction(y, n) == 1500000.0 * (m - n) as real
  {
  }

  /** Non-taxable deduction: the allowance, but never more than the salary. */
  function NonTaxDeduction(y: real, nonTax: real): (r: real)
    ensures r == Min(y, nonTax)
  {
    if y < nonTax then y else nonTax
  }
}
