/** The four insurance withholdings, computed from the taxable income
    (pre-tax salary minus the non-taxable allowance). */
module Insurance {
  import opened Amounts

  /** The monthly ceiling on the pension contribution. */
  const PensionMonthlyCap: real := 235800.0

  /** The annual ceiling, twelve monthly ceilings (2,829,600). */
  const PensionCap: real := PensionMonthlyCap * 12.0

  /** Pension: 4.5% of the taxable income, clamped at 0 and capped at the
      annual ceiling. */
  function Pension(preTax: real, nonTax: real): (r: real)
    ensures 0.0 <= r <= 2829600.0
    ensures preTax <= nonTax ==> r == 0.0
    ensures preTax >= nonTax && (preTax - nonTax) * 0.045 <= PensionCap ==> r == (preTax - nonTax) * 0.045
    ensures (preTax - nonTax) * 0.045 > PensionCap ==> r == PensionCap
  {
    var pension := ZeroClamp((preTax - nonTax) * 0.045);
    if pension > PensionCap then PensionCap else pension
  }

  /** Health insurance: 3.495% of the taxable income, clamped at 0. */
  function Health(preTax: real, nonTax: real): (r: real)
    ensures r >= 0.0
    ensures preTax <= nonTax ==> r == 0.0
    ensures preTax >= nonTax ==> r == (preTax - nonTax) * 0.03495
  {
    ZeroClamp((preTax - nonTax) * 0.03495)
  }

  /** Long-term-care premium: 12.27% of the health insurance, clamped at 0. */
  function Care(health: real): (r: real)
    ensures r >= 0.0
    ensures health >= 0.0 ==> r == health * 0.1227
  {
    ZeroClamp(health * 0.1227)
  }

  /** Unemployment insurance: 0.8% of the taxable income, clamped at 0. */
  function Hire(preTax: real, nonTax: real): (r: real)
    ensures r >= 0.0
    ensures preTax <= nonTax ==> r == 0.0
    ensures preTax >= nonTax ==> r == (preTax - nonTax) * 0.008
  {
    ZeroClamp((preTax - nonTax) * 0.008)
  }

  /** A larger taxable income never lowers any of the four withholdings. */
  lemma InsuranceMonotone(preTax: real, nonTax: real, preTax': real, nonTax': real)
    requires preTax - nonTax <= preTax' - nonTax'
    ensures Pension(preTax, nonTax) <= Pension(preTax', nonTax')
    ensures Health(preTax, nonTax) <= Health(preTax', nonTax')
    ensures Care(Health(preTax, nonTax)) <= Care(Health(preTax', nonTax'))
    ensures Hire(preTax, nonTax) <= Hire(preTax', nonTax')
  {
  }
}
