/**
 * The fare rule of the "Show fare" handler (script.js:354-358): a base fare of
 * 35 for the first kilometre, a flat 10 for a third passenger, and 10 for every
 * started kilometre beyond the first.
 */
module Fares {

  /** `Math.ceil`, defined through `Floor`: the least integer not below `x`. */
  function Ceil(x: real): (c: int)
    ensures x <= c as real < x + 1.0
  {
    -((-x).Floor)
  }

  /** 35, plus 10 for three passengers, plus `10 * ceil(dist - 1)` when `dist > 1`. */
  function Fare(distKm: real, passengers: int): (fare: int)
    requires distKm >= 0.0
    requires 1 <= passengers <= 3
    ensures fare >= 35 && fare % 10 == 5
    ensures distKm <= 1.0 ==> fare == (if passengers == 3 then 45 else 35)
  {
    var base := 35;
    var withPassengers := if passengers == 3 then base + 10 else base;
    if distKm > 1.0 then withPassengers + Ceil(distKm - 1.0) * 10 else withPassengers
  }

  /** `k` is the number of kilometres started after the first one. */
  predicate StartedKmBeyondFirst(distKm: real, k: int) {
    if distKm <= 1.0 then k == 0
    else (k - 1) as real < distKm - 1.0 <= k as real
  }

  /** Every distance has exactly one count of started kilometres beyond the first. */
  lemma StartedKmUnique(distKm: real, k1: int, k2: int)
    requires StartedKmBeyondFirst(distKm, k1) && StartedKmBeyondFirst(distKm, k2)
    ensures k1 == k2
  {
  }

  /** Every distance has a count of started kilometres beyond the first. */
  lemma StartedKmExists(distKm: real)
    requires distKm >= 0.0
    ensures exists k :: StartedKmBeyondFirst(distKm, k)
  {
    var k := if distKm > 1.0 then Ceil(distKm - 1.0) else 0;
    assert StartedKmBeyondFirst(distKm, k);
  }

  /** The fare charges 10 per started kilometre after the first, 10 for a third passenger. */
  lemma FareCountsStartedKm(distKm: real, passengers: int, k: int)
    requires distKm >= 0.0 && 1 <= passengers <= 3
    requires StartedKmBeyondFirst(distKm, k)
    ensures Fare(distKm, passengers) == 35 + (if passengers == 3 then 10 else 0) + 10 * k
  {
  }

  /** Exactly one kilometre adds nothing; anything in (1, 2] adds exactly 10. */
  lemma FareAroundFirstKm(distKm: real, passengers: int)
    requires 1 <= passengers <= 3
    requires 1.0 < distKm <= 2.0
    ensures Fare(1.0, passengers) == (if passengers == 3 then 45 else 35)
    ensures Fare(distKm, passengers) == Fare(1.0, passengers) + 10
  {
  }

  /** For a fixed passenger count the fare never decreases as the distance grows. */
  lemma FareMonotone(d1: real, d2: real, passengers: int)
    requires 0.0 <= d1 <= d2
    requires 1 <= passengers <= 3
    ensures Fare(d1, passengers) <= Fare(d2, passengers)
  {
  }

  /** One and two passengers pay the same; a third adds exactly 10 at any distance. */
  lemma ThirdPassengerAddsTen(distKm: real)
    requires distKm >= 0.0
    ensures Fare(distKm, 1) == Fare(distKm, 2)
    ensures Fare(distKm, 3) == Fare(distKm, 1) + 10
  {
  }

  /** Worked values of the rule. */
  lemma FareExamples()
    ensures Fare(0.0, 1) == 35 && Fare(1.0, 1) == 35 && Fare(1.0, 2) == 35
    ensures Fare(1.0, 3) == 45 && Fare(2.0, 1) == 45 && Fare(2.5, 1) == 55
    ensures Fare(1.01, 1) == 45
  {
  }
}
