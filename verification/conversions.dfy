/** Guarded metric/imperial conversions; each rejects a physically impossible input. */
module Conversions {
  import opened Wrappers
  import opened Numbers

  const CmPerInch: real := 2.54
  const PoundsPerKilogram: real := 2.205

  /** A height in feet and inches, in centimetres; the inches must be a proper 0..11. */
  function FeetAndInchesToCm(feet: int, inches: int): (r: Result<real>)
    ensures r.Err? <==> feet <= 0 || inches >= 12 || inches < 0
    ensures r.Err? ==> r.error == InvalidInput("Not a valid feet/inches input")
    ensures r.Ok? ==> r.value >= 30.48
    ensures r.Ok? ==> r.value / CmPerInch == (12 * feet + inches) as real
  {
    if feet <= 0 || inches >= 12 || inches < 0 then
      Err(InvalidInput("Not a valid feet/inches input"))
    else
      var totalInches := inches + feet * 12;
      Ok(totalInches as real * CmPerInch)
  }

  /** A weight in pounds, in kilograms; zero is rejected as well as negatives. */
  function PoundsToKilograms(weight: real): (r: Result<real>)
    ensures r.Err? <==> weight <= 0.0
    ensures r.Err? ==> r.error == Arithmetic("Input must be greater than 0")
    ensures r.Ok? ==> r.value > 0.0 && r.value * PoundsPerKilogram == weight
  {
    if weight <= 0.0 then Err(Arithmetic("Input must be greater than 0"))
    else Ok(weight / PoundsPerKilogram)
  }

  /** A weight in kilograms, in pounds; zero is accepted. */
  function KilogramsToPounds(weight: real): (r: Result<real>)
    ensures r.Err? <==> weight < 0.0
    ensures r.Err? ==> r.error == Arithmetic("Negative numbers are not allowed")
    ensures r.Ok? ==> r.value >= 0.0 && r.value / PoundsPerKilogram == weight
  {
    if weight < 0.0 then Err(Arithmetic("Negative numbers are not allowed"))
    else Ok(weight * PoundsPerKilogram)
  }

  /** A height in centimetres, in whole inches (cast to int, so rounded down). */
  function CmToInches(height: real): (r: Result<int>)
    ensures r.Err? <==> height <= 0.0
    ensures r.Err? ==> r.error == Arithmetic("Input must be greater than 0")
    ensures r.Ok? ==> 0 <= r.value && r.value as real * CmPerInch <= height < (r.value + 1) as real * CmPerInch
  {
    if height <= 0.0 then Err(Arithmetic("Input must be greater than 0"))
    else Ok(Trunc(height / CmPerInch))
  }

  /** Converting pounds to kilograms and back gives the weight back (over the reals). */
  lemma PoundsRoundTrip(weight: real)
    requires weight > 0.0
    ensures PoundsToKilograms(weight).Ok?
    ensures KilogramsToPounds(PoundsToKilograms(weight).value) == Ok(weight)
  {
  }

  /** Over the reals, a height entered in feet and inches reads back as the same number of
      inches. Under IEEE doubles the quotient can fall just short of the whole number
      (5 ft 2 in gives 61.99999999999999 inches), and the cast then loses an inch. */
  lemma FeetAndInchesRoundTrip(feet: int, inches: int)
    requires feet > 0 && 0 <= inches < 12
    ensures FeetAndInchesToCm(feet, inches).Ok?
    ensures CmToInches(FeetAndInchesToCm(feet, inches).value) == Ok(12 * feet + inches)
  {
    var total := (12 * feet + inches) as real;
    assert total * CmPerInch / CmPerInch == total;
  }

  /** The values the conversion tests use. */
  lemma Examples()
    ensures FeetAndInchesToCm(5, 10) == Ok(177.8)
    ensures FeetAndInchesToCm(0, 13).Err? && FeetAndInchesToCm(1, -1).Err?
    ensures CmToInches(177.8) == Ok(70)
    ensures PoundsToKilograms(0.0).Err? && KilogramsToPounds(0.0) == Ok(0.0)
  {
    FeetAndInchesRoundTrip(5, 10);
  }
}
