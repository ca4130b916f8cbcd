/** A person's physical attributes: fixed at construction, with no setters. */
module Persons {
  import opened Wrappers
  import opened Numbers
  import Conversions

  /** name may be null; gender is a character ('m'/'f' when valid); height in cm,
      weight in kg, age in years. A datatype value never changes after construction. */
  datatype Person = Person(name: Option<string>, gender: char, height: real, weight: real, age: int)

  /** The values displayPersonDetails computes before formatting them: the weight in
      pounds and the height split into feet and remaining inches. */
  datatype Details = Details(weightInLbs: real, feet: int, inches: int)

  function DisplayPersonDetails(p: Person): (r: Result<Details>)
    ensures r.Err? <==> p.weight < 0.0 || p.height <= 0.0
    ensures r.Err? ==> r.error == (if p.weight < 0.0 then Conversions.KilogramsToPounds(p.weight).error
                                   else Conversions.CmToInches(p.height).error)
    ensures r.Ok? ==> 0 <= r.value.feet && 0 <= r.value.inches < 12
    ensures r.Ok? ==> 12 * r.value.feet + r.value.inches == Conversions.CmToInches(p.height).value
    ensures r.Ok? ==> r.value.weightInLbs == p.weight * Conversions.PoundsPerKilogram
  {
    var weightInLbs :- Conversions.KilogramsToPounds(p.weight);
    var totalInches :- Conversions.CmToInches(p.height);
    var feet := JavaDiv(totalInches, 12);
    Ok(Details(weightInLbs, feet, totalInches - feet * 12))
  }
}
