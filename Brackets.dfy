/** Bracketed piecewise-linear schedules: a sequence of bands with ascending
    upper bounds, each with its own linear formula, and an open-ended top band.
    An amount is evaluated by the first band whose upper bound is at least the
    amount. Both the income-tax schedule and the income-deduction schedule
    are of this kind. */
module Brackets {

  /** The linear formula `rate * y + intercept`. */
  datatype Line = Line(rate: real, intercept: real) {
    function At(y: real): (v: real) {
      rate * y + intercept
    }
  }

  /** A band covers the amounts up to and including `upTo` that no earlier band covers. */
  datatype Band = Band(upTo: real, line: Line)

  /** Bands in ascending order of their bounds, then the unbounded top band. */
  datatype Schedule = Schedule(bands: seq<Band>, top: Line) {

    /** The schedule without its first band. */
    function Rest(): Schedule
      requires |bands| > 0
    {
      Schedule(bands[1..], top)
    }

    /** The formula of the band that follows band `i`. */
    function NextLine(i: nat): Line
      requires i < |bands|
    {
      if i + 1 < |bands| then bands[i + 1].line else top
    }

    /** The bounds strictly increase. */
    predicate Ascending() {
      forall i :: 0 <= i < |bands| - 1 ==> bands[i].upTo < bands[i + 1].upTo
    }

    /** Adjacent formulas agree at every bound, so the schedule has no jumps. */
    predicate Continuous() {
      forall i :: 0 <= i < |bands| ==> bands[i].line.At(bands[i].upTo) == NextLine(i).At(bands[i].upTo)
    }

    /** Every marginal rate is positive. */
    predicate RatesPositive() {
      top.rate > 0.0 && forall i :: 0 <= i < |bands| ==> bands[i].line.rate > 0.0
    }

    predicate WellFormed() {
      Ascending() && Continuous() && RatesPositive()
    }
  }

  /** The first band whose bound is at least `y` decides; above every bound, the top band. */
  function Evaluate(s: Schedule, y: real): (r: real)
    ensures
      || (exists i :: 0 <= i < |s.bands| && y <= s.bands[i].upTo && r == s.bands[i].line.At(y)
                      && forall j :: 0 <= j < i ==> s.bands[j].upTo < y)
      || ((forall j :: 0 <= j < |s.bands| ==> s.bands[j].upTo < y) && r == s.top.At(y))
    decreases |s.bands|
  {
    if |s.bands| == 0 then s.top.At(y)
    else if y <= s.bands[0].upTo then s.bands[0].line.At(y)
    else Evaluate(s.Rest(), y)
  }

  lemma LineStrictlyIncreasing(l: Line, x: real, y: real)
    requires l.rate > 0.0 && x < y
    ensures l.At(x) < l.At(y)
  {
  }

  /** Dropping the first band keeps a schedule well formed. */
  lemma RestWellFormed(s: Schedule)
    requires |s.bands| > 0 && s.WellFormed()
    ensures s.Rest().WellFormed()
  {
  }

  /** On a band's own range the schedule is that band's formula. */
  lemma {:induction false} EvaluateInBand(s: Schedule, i: nat, y: real)
    requires s.Ascending()
    requires i < |s.bands|
    requires i == 0 || s.bands[i - 1].upTo < y
    requires y <= s.bands[i].upTo
    ensures Evaluate(s, y) == s.bands[i].line.At(y)
    decreases i
  {
    if i > 0 {
      assert s.bands[0].upTo < y by {
        AscendingBelow(s, 0, i - 1);
      }
      var r := s.Rest();
      assert r.bands[i - 1] == s.bands[i];
      assert i - 1 > 0 ==> r.bands[i - 2] == s.bands[i - 1];
      EvaluateInBand(r, i - 1, y);
    }
  }

  /** Above every bound the schedule is the top formula. */
  lemma {:induction false} EvaluateAboveBands(s: Schedule, y: real)
    requires s.Ascending()
    requires |s.bands| > 0 ==> s.bands[|s.bands| - 1].upTo < y
    ensures Evaluate(s, y) == s.top.At(y)
    decreases |s.bands|
  {
    if |s.bands| > 0 {
      AscendingBelow(s, 0, |s.bands| - 1);
      var r := s.Rest();
      assert |r.bands| > 0 ==> r.bands[|r.bands| - 1] == s.bands[|s.bands| - 1];
      EvaluateAboveBands(r, y);
    }
  }

  lemma {:induction false} AscendingBelow(s: Schedule, i: nat, j: nat)
    requires s.Ascending()
    requires i <= j < |s.bands|
    ensures s.bands[i].upTo <= s.bands[j].upTo
    decreases j - i
  {
    if i < j {
      AscendingBelow(s, i + 1, j);
    }
  }

  /** A well-formed schedule is strictly increasing on all of the reals. */
  lemma {:induction false} EvaluateStrictlyIncreasing(s: Schedule, x: real, y: real)
    requires s.WellFormed()
    requires x < y
    ensures Evaluate(s, x) < Evaluate(s, y)
    decreases |s.bands|
  {
    if |s.bands| == 0 {
      LineStrictlyIncreasing(s.top, x, y);
    } else {
      var b := s.bands[0];
      var r := s.Rest();
      RestWellFormed(s);
      if y <= b.upTo {
        LineStrictlyIncreasing(b.line, x, y);
      } else if x <= b.upTo {
        // x lies in the first band, y beyond it: pass through the bound.
        if x < b.upTo {
          LineStrictlyIncreasing(b.line, x, b.upTo);
        }
        assert Evaluate(r, b.upTo) == s.NextLine(0).At(b.upTo) by {
          if |r.bands| > 0 {
            assert r.bands[0] == s.bands[1];
          }
        }
        EvaluateStrictlyIncreasing(r, b.upTo, y);
      } else {
        EvaluateStrictlyIncreasing(r, x, y);
      }
    }
  }

  /** A well-formed schedule is nondecreasing. */
  lemma EvaluateMonotone(s: Schedule, x: real, y: real)
    requires s.WellFormed()
    requires x <= y
    ensures Evaluate(s, x) <= Evaluate(s, y)
  {
    if x < y {
      EvaluateStrictlyIncreasing(s, x, y);
    }
  }
}
