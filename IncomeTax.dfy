/** The progressive income-tax schedule applied to the taxable base. */
module IncomeTax {
  import opened Brackets

  /** Upper bounds of the first seven of the eight tax bands. */
  const TaxingStandardRanges: seq<real> :=
    [12000000.0, 46000000.0, 88000000.0, 150000000.0, 300000000.0, 500000000.0, 1000000000.0]

  /** Income tax on the taxable base `y`, band by band as the source writes it.
      Between the lowest and the top marginal rate on every non-negative base. */
  function Tax(y: real): (r: real)
    ensures y >= 0.0 ==> 0.06 * y <= r <= 0.45 * y
  {
    if y <= TaxingStandardRanges[0] then y * 0.06
    else if y <= TaxingStandardRanges[1] then y * 0.15 - 1080000.0
    else if y <= TaxingStandardRanges[2] then y * 0.24 - 5220000.0
    else if y <= TaxingStandardRanges[3] then y * 0.35 - 14900000.0
    else if y <= TaxingStandardRanges[4] then y * 0.38 - 19400000.0
    else if y <= TaxingStandardRanges[5] then y * 0.4 - 25400000.0
    else if y <= TaxingStandardRanges[6] then y * 0.42 - 35400000.0
    else y * 0.45 - 65400000.0
  }

  /** The same schedule as a table of (bound, rate, intercept). */
  const TaxSchedule: Schedule :=
    Schedule(
      [ Band(TaxingStandardRanges[0], Line(0.06, 0.0)),
        Band(TaxingStandardRanges[1], Line(0.15, -1080000.0)),
        Band(TaxingStandardRanges[2], Line(0.24, -5220000.0)),
        Band(TaxingStandardRanges[3], Line(0.35, -14900000.0)),
        Band(TaxingStandardRanges[4], Line(0.38, -19400000.0)),
        Band(TaxingStandardRanges[5], Line(0.4, -25400000.0)),
        Band(TaxingStandardRanges[6], Line(0.42, -35400000.0)) ],
      Line(0.45, -65400000.0))

  /** The table has ascending bounds, positive rates and adjacent formulas
      that agree at each of the seven bounds. */
  lemma TaxScheduleWellFormed()
    ensures TaxSchedule.WellFormed()
    ensures |TaxSchedule.bands| == |TaxingStandardRanges|
    ensures forall i :: 0 <= i < |TaxSchedule.bands| ==> TaxSchedule.bands[i].upTo == TaxingStandardRanges[i]
  {
  }

  /** The explicit chain and the table evaluation agree everywhere. */
  lemma TaxIsSchedule(y: real)
    ensures Tax(y) == Evaluate(TaxSchedule, y)
  {
    TaxScheduleWellFormed();
    var s := TaxSchedule;
    if y <= s.bands[0].upTo { EvaluateInBand(s, 0, y); }
    else if y <= s.bands[1].upTo { EvaluateInBand(s, 1, y); }
    else if y <= s.bands[2].upTo { EvaluateInBand(s, 2, y); }
    else if y <= s.bands[3].upTo { EvaluateInBand(s, 3, y); }
    else if y <= s.bands[4].upTo { EvaluateInBand(s, 4, y); }
    else if y <= s.bands[5].upTo { EvaluateInBand(s, 5, y); }
    else if y <= s.bands[6].upTo { EvaluateInBand(s, 6, y); }
    else { EvaluateAboveBands(s, y); }
  }

  lemma TaxAtZero()
    ensures Tax(0.0) == 0.0
  {
  }

  /** More taxable base never means less tax ... */
  lemma TaxMonotone(x: real, y: real)
    requires x <= y
    ensures Tax(x) <= Tax(y)
  {
    TaxIsSchedule(x);
    TaxIsSchedule(y);
    TaxScheduleWellFormed();
    EvaluateMonotone(TaxSchedule, x, y);
  }

  /** ... and strictly more taxable base always means strictly more tax. */
  lemma TaxStrictlyIncreasing(x: real, y: real)
    requires x < y
    ensures Tax(x) < Tax(y)
  {
    TaxIsSchedule(x);
    TaxIsSchedule(y);
    TaxScheduleWellFormed();
    EvaluateStrictlyIncreasing(TaxSchedule, x, y);
  }
}
