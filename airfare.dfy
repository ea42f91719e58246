/**
 * The airfare calculator: $25 per checked bag plus $0.10 per mile, times the number of
 * travelers.  The model computes in whole cents, where the formula is exact.
 */
module Airfare {

  /** The airfare in cents. */
  function AirfareCents(checkedBags: int, distance: int, travelers: int): int {
    (checkedBags * 2500 + distance * 10) * travelers
  }

  /** The formula as written, in dollars, over exact reals (no floating-point rounding). */
  function AirfareDollars(checkedBags: int, distance: int, travelers: int): real {
    ((checkedBags as real * 25.0) + (distance as real * 0.10)) * travelers as real
  }

  /** The fare in cents is one hundred times the fare in dollars, for every input. */
  lemma CentsAreHundredthsOfDollars(checkedBags: int, distance: int, travelers: int)
    ensures AirfareCents(checkedBags, distance, travelers) as real
            == 100.0 * AirfareDollars(checkedBags, distance, travelers)
  {
  }

  /** 2 bags, 2000 miles and 3 travelers cost $750. */
  lemma AirfareExample()
    ensures AirfareCents(2, 2000, 3) == 75000
    ensures AirfareDollars(2, 2000, 3) == 750.0
  {
  }

  /** Nobody travelling, or nothing to pay for, costs nothing. */
  lemma AirfareZero(checkedBags: int, distance: int, travelers: int)
    requires travelers == 0 || (checkedBags == 0 && distance == 0)
    ensures AirfareCents(checkedBags, distance, travelers) == 0
  {
  }

  /** The fare is the fare of one traveler, times the number of travelers. */
  lemma AirfarePerTraveler(checkedBags: int, distance: int, travelers: int)
    ensures AirfareCents(checkedBags, distance, travelers) == travelers * AirfareCents(checkedBags, distance, 1)
  {
  }

  /** For non-negative inputs, more bags, more miles or more travelers never cost less. */
  lemma AirfareMonotone(checkedBags: int, distance: int, travelers: int,
                        checkedBags': int, distance': int, travelers': int)
    requires 0 <= checkedBags <= checkedBags' && 0 <= distance <= distance' && 0 <= travelers <= travelers'
    ensures AirfareCents(checkedBags, distance, travelers) <= AirfareCents(checkedBags', distance', travelers')
  {
  }
}
