/**
 * The two classifications the till counter shows next to its totals: the
 * check that the float is exactly £200.00, and the comparison of the takings
 * with the takings the user expected.
 */
module Validator {
  import opened Denominations

  /** The float message. Only Exceeds, TooHigh and TooLow show an error. */
  datatype Validation =
    | Exceeds              // the float is more than the cash in the till
    | TooHigh(remove: int) // "Float must be exactly £200.00. Remove £..."
    | TooLow(add: int)     // "Float must be exactly £200.00. Add £..."
    | Ok                   // exactly £200.00
    | Empty                // no float entered: no message

  predicate ShowsError(v: Validation)
  {
    v.Exceeds? || v.TooHigh? || v.TooLow?
  }

  /** The float check. Exceeding the cash is tested first, so it wins over
      every other verdict; a float that is not above the cash gets exactly one
      of the other four, and the amount a TooHigh or TooLow message names is
      the correction that brings the float to the target. */
  function Validate(floatTotal: int, totalCash: int): (v: Validation)
    ensures v.Exceeds? <==> floatTotal > totalCash
    ensures v.TooHigh? <==> Target < floatTotal <= totalCash
    ensures v.TooLow? <==> 0 < floatTotal < Target && floatTotal <= totalCash
    ensures v.Ok? <==> floatTotal == Target <= totalCash
    ensures v.Empty? <==> floatTotal <= 0 && floatTotal <= totalCash
    ensures v.TooHigh? ==> v.remove > 0 && floatTotal - v.remove == Target
    ensures v.TooLow? ==> v.add > 0 && floatTotal + v.add == Target
    ensures !ShowsError(v) <==> floatTotal <= totalCash && (floatTotal == Target || floatTotal <= 0)
  {
    if floatTotal > totalCash then Exceeds
    else if floatTotal != Target && floatTotal > 0 then
      if floatTotal > Target then TooHigh(floatTotal - Target) else TooLow(Target - floatTotal)
    else if floatTotal == Target then Ok
    else Empty
  }

  /** The comparison panel. */
  datatype Comparison =
    | NotShown                  // no expected takings entered
    | CloseMatch(variance: int) // within £5 either way
    | Exceed(amount: int)       // "Takings exceed expected amount by £..."
    | Below(amount: int)        // "Takings are below expected amount by £..."

  /** Within £5 of the expected takings counts as a close match. */
  const Tolerance := 500

  /** The comparison is shown exactly when expected takings are positive; it
      then reports a close match when the takings are no more than £5 away, and
      otherwise names how far above or below they are. */
  function Compare(takings: int, expected: int): (c: Comparison)
    ensures c.NotShown? <==> expected <= 0
    ensures c.CloseMatch? ==> expected > 0 && c.variance == takings - expected
                              && -Tolerance <= c.variance <= Tolerance
    ensures c.Exceed? ==> expected > 0 && c.amount > Tolerance && takings == expected + c.amount
    ensures c.Below? ==> expected > 0 && c.amount > Tolerance && takings == expected - c.amount
    ensures expected > 0 && -Tolerance <= takings - expected <= Tolerance ==> c.CloseMatch?
  {
    if expected > 0 then
      var variance := takings - expected;
      if -Tolerance <= variance <= Tolerance then CloseMatch(variance)
      else if variance > 0 then Exceed(variance)
      else Below(-variance)
    else NotShown
  }

  /** A float of £250 in a till holding £500 must lose £50. */
  lemma TooHighExample()
    ensures Validate(25000, 50000) == TooHigh(5000)
  {
  }

  /** A float of exactly £200 that the till cannot cover is still reported as exceeding it. */
  lemma ExceedsTestedFirst(totalCash: int)
    requires totalCash < Target
    ensures Validate(Target, totalCash) == Exceeds
  {
  }
}
