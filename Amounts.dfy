/** Monetary amounts are exact reals; this module holds the clamps the report uses. */
module Amounts {

  /** The zero-clamp applied to derived amounts: negative values become 0,
      everything else is kept. */
  function ZeroClamp(v: real): (r: real)
    ensures r >= 0.0
    ensures v >= 0.0 ==> r == v
    ensures v <= 0.0 ==> r == 0.0
  {
    if v < 0.0 then 0.0 else v
  }

  /** The smaller of two amounts. */
  function Min(a: real, b: real): (r: real)
    ensures r <= a && r <= b
    ensures r == a || r == b
  {
    if a <= b then a else b
  }

  /** The larger of two amounts. */
  function Max(a: real, b: real): (r: real)
    ensures r >= a && r >= b
    ensures r == a || r == b
  {
    if a >= b then a else b
  }
}
