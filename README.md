# Salary withholding report

A Dafny model of `salary-report.js`, which turns an annual pre-tax salary, a
dependent count (including the employee) and a non-taxable allowance into a
fourteen-field withholding report: the four insurance amounts (national
pension, health insurance, long-term-care premium, unemployment insurance),
the four deductions (income, tax credit, dependents, non-taxable), the
taxable base, the income tax and the local income tax, the total withheld
and the net pay.

The source is pure, so the model is functions and lemmas. Amounts are exact
`real`s, so rates such as 0.045, 0.03495 and 0.1227 are exact. The dependent
count is an `int`.

Modules:

- `Amounts`: the zero-clamp `f` and the `min`/`max` helpers.
- `Brackets`: a generic bracketed schedule, a list of bands `(upTo, rate,
  intercept)` plus an open-ended top band, evaluated by the first band
  whose bound is at least the amount. It proves that a schedule with
  ascending bounds, positive rates and matching formulas at each bound is
  strictly increasing.
- `IncomeTax`: the eight-band tax `tax` written as the source's if-chain,
  the same schedule as a table, and a proof that the two agree.
- `Deductions`: the four deduction rules of `calculateDeducible`, with the
  income deduction handled the same way as the tax (chain, table, agreement).
- `Insurance`: the four insurance amounts, including the pension ceiling of
  12 × 235,800.
- `SalaryReports`: the `Report` record, the assembler `salaryReport`, the
  wrapper that fills in default arguments, and the report-level theorems.
  These cover reconciliation, non-negativity, defaults, zero salary and
  more dependents.

Two points where a reader might expect more than the code does:

- One might expect that going from one dependent to two *strictly* lowers
  the taxable base, the income tax and the total withheld. In the code the
  taxable base is clamped at 0 (salary-report.js:95), so the ordering is
  only weak in general. `ExtraDependentCanChangeNothing` gives an example: at a
  salary of 1,500,000 with no allowance, one and two dependents both give
  a taxable base of 0 and the same total withheld. `MoreDependents` proves the weak
  ordering. `MoreDependentsStrictly` proves the strict ordering when the
  taxable base with fewer dependents is positive, and proves that nothing
  but the dependent deduction changes once that base is 0.
- One might expect every monetary component to be clamped at zero. The
  code clamps only the insurance amounts and the taxable base. The four
  deductions are not clamped: a negative salary gives a negative tax-credit
  deduction. The model keeps exactly the code's clamps.

The functions are deterministic by construction, so the same inputs always
give the same report.

## Model

| member | source | states |
|---|---|---|
| Amounts.ZeroClamp | salary-report.js:5 | the clamp is never negative, keeps non-negative values, and sends non-positive values to 0 |
| Brackets.Evaluate | salary-report.js:14-21 | the result is the formula of the first band whose bound is at least the amount (every earlier bound lies below it), or the top formula when every bound lies below the amount |
| Brackets.EvaluateInBand | salary-report.js:14-20 | on a band's own range, between the previous bound (exclusive) and its own bound (inclusive), the schedule is that band's formula |
| Brackets.EvaluateAboveBands | salary-report.js:21 | above every bound the schedule is the open-ended top formula |
| Brackets.EvaluateStrictlyIncreasing | salary-report.js:14-21 | a schedule with ascending bounds, positive rates and matching formulas at each bound is strictly increasing over all reals |
| Brackets.EvaluateMonotone | salary-report.js:14-21 | such a schedule is nondecreasing |
| IncomeTax.Tax | salary-report.js:11-22 | on a non-negative taxable base the tax lies between 6% and 45% of the base, so it is non-negative |
| IncomeTax.TaxScheduleWellFormed | salary-report.js:1 | the tax table uses the seven bounds of `taxingStandardRanges`, its bounds ascend, its rates are positive, and adjacent formulas agree at each of the seven bounds (the schedule is continuous) |
| IncomeTax.TaxIsSchedule | salary-report.js:14-21 | the source's if-chain equals the evaluation of the tax table for every base |
| IncomeTax.TaxAtZero | salary-report.js:14 | tax on a zero base is 0 |
| IncomeTax.TaxMonotone | salary-report.js:14-21 | a larger taxable base never gives less tax |
| IncomeTax.TaxStrictlyIncreasing | salary-report.js:14-21 | a strictly larger taxable base always gives strictly more tax |
| Deductions.IncomeDeduction | salary-report.js:32-38 | on a non-negative salary the income deduction is non-negative and at most 70% of the salary |
| Deductions.IncomeDeductionScheduleWellFormed | salary-report.js:3 | the income-deduction table uses the four bounds of `incomeDeductionRanges`, its bounds ascend, its rates are positive, and adjacent formulas agree at 5M, 15M, 45M and 100M |
| Deductions.IncomeDeductionIsSchedule | salary-report.js:33-37 | the source's if-chain equals the evaluation of the income-deduction table for every salary |
| Deductions.IncomeDeductionMonotone | salary-report.js:33-37 | a higher salary never lowers the income deduction |
| Deductions.TaxCreditDeduction | salary-report.js:40-46 | never above 740,000; equal to the salary below 740,000; exactly 740,000 on [740,000, 33M]; at least 660,000 on [740,000, 70M]; at least 500,000 from 740,000 on |
| Deductions.TaxCreditRisesToPlateau | salary-report.js:42-43 | up to 33M the tax-credit deduction never falls as the salary rises |
| Deductions.TaxCreditTapers | salary-report.js:43-45 | from 740,000 on the tax-credit deduction never rises as the salary rises, so the taper has no upward jump at 33M or 70M |
| Deductions.FamilyDeduction | salary-report.js:48-50 | below a salary of 1,500,000 the dependent deduction is the salary itself; from 1,500,000 on it is 1,500,000 per dependent |
| Deductions.FamilyDeductionIncreasing | salary-report.js:48-50 | more dependents never lower the dependent deduction; below 1,500,000 it is the salary whatever the count; from 1,500,000 on each extra dependent adds exactly 1,500,000 |
| Deductions.NonTaxDeduction | salary-report.js:52-54 | the non-taxable deduction is the smaller of the salary and the allowance |
| Insurance.Pension | salary-report.js:75-77 | the pension lies in [0, 2,829,600]; it is 0 when the allowance is at least the salary, 4.5% of the taxable income while that is under the ceiling, and the ceiling above it |
| Insurance.Health | salary-report.js:79 | health insurance is non-negative; it is 0 when the allowance is at least the salary and 3.495% of a non-negative taxable income |
| Insurance.Care | salary-report.js:81 | the care premium is non-negative and is 12.27% of a non-negative health-insurance amount |
| Insurance.Hire | salary-report.js:83 | unemployment insurance is non-negative; it is 0 when the allowance is at least the salary and 0.8% of a non-negative taxable income |
| Insurance.InsuranceMonotone | salary-report.js:75-83 | a larger taxable income never lowers any of the four insurance amounts |
| SalaryReports.SalaryReport | salary-report.js:70-121 | pension in [0, 2,829,600]; health, care, hire, taxable base, income tax and local tax non-negative; care is 12.27% of health; local tax is 10% of income tax; total withheld is the sum of the six withholdings; net pay plus total withheld equals the pre-tax salary exactly; each field comes from its own rule |
| SalaryReports.SalaryReportWithDefaults | salary-report.js:70-74 | the whole report is the plain report with each missing argument replaced by its default (salary 22,000,000, one dependent, allowance 1,200,000) and each given argument kept; given all arguments it is the plain report |
| SalaryReports.DefaultReport | salary-report.js:70-121 | the report for the default arguments, worked out exactly (taxable base 8,091,442.008, net pay 19,547,406.835472) |
| SalaryReports.ZeroSalary | salary-report.js:75-103 | a zero salary with a non-negative allowance gives a report whose fourteen fields are all 0 |
| SalaryReports.MinimumFamilySalary | salary-report.js:95-101 | at a salary of 1,500,000 with no allowance and any positive dependent count, the taxable base and the income tax are 0 and only the insurance (138,357.5475) is withheld |
| SalaryReports.ExtraDependentCanChangeNothing | salary-report.js:95 | at a salary of 1,500,000 with no allowance, a second dependent raises the dependent deduction but the taxable base stays 0 and the total withheld and the net pay are unchanged, so the dependents ordering is not strict in general |
| SalaryReports.MoreDependents | salary-report.js:95-103 | with everything else fixed, more dependents never lower the dependent deduction or the net pay, never raise the taxable base, the income tax, the local tax or the total withheld, and leave the insurance amounts unchanged |
| SalaryReports.MoreDependentsStrictly | salary-report.js:95-103 | from a salary of 1,500,000 on, an extra dependent strictly raises the dependent deduction; if the taxable base with fewer dependents is positive, it strictly lowers the taxable base, the income tax and the total withheld and strictly raises the net pay; if that base is 0, no other field changes |

## Left out

- The model uses exact reals, not IEEE-754 doubles. The reconciliation and
  continuity results hold in real arithmetic; the rounding of JavaScript numbers is not modelled.
- The two-level closure returned by `calculateDeducible` (salary-report.js:29-56)
  is modelled as four plain functions of the salary, the dependent count and the allowance.
- `null`, non-numeric or non-integer inputs (such as a fractional dependent count) are
  not modelled: the source does no validation beyond its three default values.
- The module export (salary-report.js:123) is not modelled.
