/** The withholding report assembled from the insurance amounts, the four
    deductions and the income-tax schedule. */
module SalaryReports {
  import opened Amounts
  import opened IncomeTax
  import opened Deductions
  import opened Insurance

  datatype Option<T> = None | Some(value: T) {
    function GetOr(default: T): (v: T) {
      if Some? then value else default
    }
  }

  /** The fourteen figures of one report. */
  datatype Report = Report(
    pension: real,
    health: real,
    care: real,
    hire: real,
    taxDeduction: real,
    incomeDeduction: real,
    familyDeduction: real,
    nonTaxDeduction: real,
    taxOn: real,          // taxable base
    incomeTax: real,
    incomeTaxLocal: real,
    totalTax: real,       // everything withheld
    preTax: real,
    afterTax: real)       // net pay

  /** The taxable base before the zero-clamp: the salary minus the four
      insurance amounts and the four deductions. */
  function UnclampedBase(preTax: real, numFamily: int, nonTax: real): (b: real) {
    var health := Health(preTax, nonTax);
    preTax - Pension(preTax, nonTax) - health - Care(health) - Hire(preTax, nonTax)
      - IncomeDeduction(preTax) - TaxCreditDeduction(preTax)
      - FamilyDeduction(preTax, numFamily) - NonTaxDeduction(preTax, nonTax)
  }

  /** The report for an annual pre-tax salary, a dependent count (including the
      employee) and a non-taxable allowance. */
  function SalaryReport(preTax: real, numFamily: int, nonTax: real): (r: Report)
    // every withholding is non-negative and the pension respects its ceiling
    ensures 0.0 <= r.pension <= PensionCap
    ensures r.health >= 0.0 && r.care >= 0.0 && r.hire >= 0.0
    ensures r.care == r.health * 0.1227
    ensures r.taxOn >= 0.0 && r.incomeTax >= 0.0 && r.incomeTaxLocal >= 0.0
    // how the figures fit together
    ensures r.taxOn == ZeroClamp(UnclampedBase(preTax, numFamily, nonTax))
    ensures r.incomeTax == Tax(r.taxOn)
    ensures r.incomeTaxLocal == r.incomeTax * 0.1
    ensures r.totalTax == r.pension + r.health + r.care + r.hire + r.incomeTax + r.incomeTaxLocal
    ensures r.totalTax >= 0.0 && r.afterTax <= preTax
    ensures r.preTax == preTax
    ensures r.afterTax + r.totalTax == preTax
    // the figures come from the rules of their own modules
    ensures r.pension == Pension(preTax, nonTax) && r.health == Health(preTax, nonTax)
    ensures r.hire == Hire(preTax, nonTax)
    ensures r.taxDeduction == TaxCreditDeduction(preTax)
    ensures r.incomeDeduction == IncomeDeduction(preTax)
    ensures r.familyDeduction == FamilyDeduction(preTax, numFamily)
    ensures r.nonTaxDeduction == NonTaxDeduction(preTax, nonTax)
  {
    var pension := Pension(preTax, nonTax);
    var health := Health(preTax, nonTax);
    var care := Care(health);
    var hire := Hire(preTax, nonTax);
    var taxDeduction := TaxCreditDeduction(preTax);
    var incomeDeduction := IncomeDeduction(preTax);
    var familyDeduction := FamilyDeduction(preTax, numFamily);
    var nonTaxDeduction := NonTaxDeduction(preTax, nonTax);
    var taxOn := ZeroClamp(UnclampedBase(preTax, numFamily, nonTax));
    var incomeTax := Tax(taxOn);
    var incomeTaxLocal := incomeTax * 0.1;
    var totalTax := pension + health + care + hire + incomeTax + incomeTaxLocal;
    var afterTax := preTax - totalTax;
    Report(pension, health, care, hire, taxDeduction, incomeDeduction, familyDeduction,
           nonTaxDeduction, taxOn, incomeTax, incomeTaxLocal, totalTax, preTax, afterTax)
  }

  /** An argument left out takes its default: 22,000,000 salary, one dependent,
      1,200,000 allowance. */
  function SalaryReportWithDefaults(preTax: Option<real>, numFamily: Option<int>, nonTax: Option<real>): (r: Report)
    ensures r == SalaryReport(preTax.GetOr(22000000.0), numFamily.GetOr(1), nonTax.GetOr(1200000.0))
    ensures preTax.Some? && numFamily.Some? && nonTax.Some? ==>
      r == SalaryReport(preTax.value, numFamily.value, nonTax.value)
    ensures preTax.None? ==> r.preTax == 22000000.0
    ensures numFamily.None? && preTax.GetOr(22000000.0) >= 1500000.0 ==> r.familyDeduction == 1500000.0
    ensures nonTax.None? && preTax.GetOr(22000000.0) >= 1200000.0 ==> r.nonTaxDeduction == 1200000.0
  {
    SalaryReport(preTax.GetOr(22000000.0), numFamily.GetOr(1), nonTax.GetOr(1200000.0))
  }

  /** The report for the default arguments, worked out by hand. */
  lemma DefaultReport()
    ensures SalaryReportWithDefaults(None, None, None) ==
      Report(936000.0, 726960.0, 89197.992, 166400.0, 740000.0, 8550000.0, 1500000.0,
             1200000.0, 8091442.008, 485486.52048, 48548.652048, 2452593.164528,
             22000000.0, 19547406.835472)
  {
  }

  /** A zero salary with a non-negative allowance gives an all-zero report. */
  lemma ZeroSalary(numFamily: int, nonTax: real)
    requires nonTax >= 0.0
    ensures SalaryReport(0.0, numFamily, nonTax) ==
      Report(0.0, 0.0, 0.0, 0.0, 0.0, 0.0, 0.0, 0.0, 0.0, 0.0, 0.0, 0.0, 0.0, 0.0)
  {
  }

  /** At a salary of 1,500,000 with no allowance, the insurance amounts and the
      deductions already exceed the salary for any positive dependent count, so
      the taxable base is 0 and only the insurance is withheld. */
  lemma MinimumFamilySalary(numFamily: int)
    requires numFamily >= 1
    ensures var r := SalaryReport(1500000.0, numFamily, 0.0);
      r.taxOn == 0.0 && r.incomeTax == 0.0 && r.totalTax == 138357.5475
  {
    assert Pension(1500000.0, 0.0) == 67500.0;
    assert Health(1500000.0, 0.0) == 52425.0;
    assert Hire(1500000.0, 0.0) == 12000.0;
    assert IncomeDeduction(1500000.0) == 1050000.0;
    assert TaxCreditDeduction(1500000.0) == 740000.0;
    assert UnclampedBase(1500000.0, numFamily, 0.0) < 0.0;
  }

  /** The ordering below cannot be strict in general: at a salary of 1,500,000
      with no allowance a second dependent raises the dependent deduction, yet
      the taxable base is 0 both times and the total withheld is the same. */
  lemma ExtraDependentCanChangeNothing()
    ensures var a, b := SalaryReport(1500000.0, 1, 0.0), SalaryReport(1500000.0, 2, 0.0);
      a.familyDeduction < b.familyDeduction
      && a.taxOn == b.taxOn == 0.0 && a.totalTax == b.totalTax && a.afterTax == b.afterTax
  {
    MinimumFamilySalary(1);
    MinimumFamilySalary(2);
  }

  /** With everything else fixed, more dependents never raise the taxable base,
      the income tax or the total withheld, and never lower the net pay; the
      insurance amounts do not change. */
  lemma MoreDependents(preTax: real, nonTax: real, n: int, m: int)
    requires n <= m
    ensures var a, b := SalaryReport(preTax, n, nonTax), SalaryReport(preTax, m, nonTax);
      && a.familyDeduction <= b.familyDeduction
      && b.taxOn <= a.taxOn
      && b.incomeTax <= a.incomeTax
      && b.incomeTaxLocal <= a.incomeTaxLocal
      && b.totalTax <= a.totalTax
      && a.afterTax <= b.afterTax
      && a.pension == b.pension && a.health == b.health && a.care == b.care && a.hire == b.hire
  {
    var a, b := SalaryReport(preTax, n, nonTax), SalaryReport(preTax, m, nonTax);
    FamilyDeductionIncreasing(preTax, n, m);
    TaxMonotone(b.taxOn, a.taxOn);
  }

  /** From a salary of 1,500,000 on, an extra dependent strictly lowers the tax
      and strictly raises the net pay, as long as the taxable base with fewer
      dependents is positive; once that base is clamped to 0, nothing changes. */
  lemma MoreDependentsStrictly(preTax: real, nonTax: real, n: int, m: int)
    requires n < m && preTax >= 1500000.0
    ensures var a, b := SalaryReport(preTax, n, nonTax), SalaryReport(preTax, m, nonTax);
      && a.familyDeduction < b.familyDeduction
      && (a.taxOn > 0.0 ==>
            b.taxOn < a.taxOn && b.incomeTax < a.incomeTax
            && b.totalTax < a.totalTax && a.afterTax < b.afterTax)
      && (a.taxOn == 0.0 ==> b == a.(familyDeduction := b.familyDeduction))
  {
    var a, b := SalaryReport(preTax, n, nonTax), SalaryReport(preTax, m, nonTax);
    FamilyDeductionIncreasing(preTax, n, m);
    if a.taxOn > 0.0 {
      TaxStrictlyIncreasing(b.taxOn, a.taxOn);
    }
  }
}
