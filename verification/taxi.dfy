/** The Tokyo taxi tariff estimator: fare, road distance and duration. */
module Taxi {
  import opened Types

  /** Flag-fall fare, covering the first `BASE_DISTANCE` km. */
  const BASE_FARE: int := 500
  const BASE_DISTANCE: real := 1.096
  /** Fare added for every started `UNIT_DISTANCE` km beyond the base distance. */
  const ADDITIONAL_PER_UNIT: int := 100
  const UNIT_DISTANCE: real := 0.255

  /** `Math.ceil`: the least integer not below `x`. */
  function Ceil(x: real): (r: int)
    ensures r as real - 1.0 < x <= r as real
  {
    -((-x).Floor)
  }

  lemma CeilMonotone(x: real, y: real)
    requires x <= y
    ensures Ceil(x) <= Ceil(y)
  {
  }

  /** The ceiling of a whole number is that number. */
  lemma CeilOfInt(n: int)
    ensures Ceil(n as real) == n
  {
  }

  /** The number of started units beyond the base distance: the fewest units
      of `UNIT_DISTANCE` that, added to the base distance, cover the trip. */
  function AdditionalUnits(distanceKm: real): (u: int)
    requires distanceKm > BASE_DISTANCE
    ensures u >= 1
    ensures BASE_DISTANCE + (u - 1) as real * UNIT_DISTANCE < distanceKm
    ensures distanceKm <= BASE_DISTANCE + u as real * UNIT_DISTANCE
  {
    Ceil((distanceKm - BASE_DISTANCE) / UNIT_DISTANCE)
  }

  /** The metered fare before the night surcharge, for a positive distance. */
  function MeterFare(distanceKm: real): (fare: int)
    requires distanceKm > 0.0
    ensures fare >= BASE_FARE && (fare - BASE_FARE) % ADDITIONAL_PER_UNIT == 0
    ensures distanceKm <= BASE_DISTANCE ==> fare == BASE_FARE
    ensures distanceKm > BASE_DISTANCE ==>
      var u := (fare - BASE_FARE) / ADDITIONAL_PER_UNIT;
      && u >= 1
      && BASE_DISTANCE + (u - 1) as real * UNIT_DISTANCE < distanceKm
      && distanceKm <= BASE_DISTANCE + u as real * UNIT_DISTANCE
  {
    if distanceKm <= BASE_DISTANCE then BASE_FARE
    else BASE_FARE + AdditionalUnits(distanceKm) * ADDITIONAL_PER_UNIT
  }

  /** Whether the 20% late-night surcharge applies; the flag defaults to on. */
  function LateNight(isLateNight: Option<bool>): (on: bool)
    ensures isLateNight.None? ==> on
    ensures isLateNight.Some? ==> on == isLateNight.value
  {
    isLateNight.GetOr(true)
  }

  /** The estimated fare for a trip of `distanceKm`; `isLateNight` is `None`
      when the caller omits it. */
  function CalculateTaxiFare(distanceKm: real, isLateNight: Option<bool>): (r: int)
    ensures r >= 0 && r % 10 == 0
    ensures distanceKm <= 0.0 ==> r == 0
    ensures distanceKm > 0.0 && !LateNight(isLateNight) ==> r == MeterFare(distanceKm)
    ensures distanceKm > 0.0 && LateNight(isLateNight) ==> r * 5 == MeterFare(distanceKm) * 6
    ensures 0.0 < distanceKm <= BASE_DISTANCE ==> r == if LateNight(isLateNight) then 600 else 500
  {
    if distanceKm <= 0.0 then 0
    else
      var meter := MeterFare(distanceKm);
      RoundUpHundreds(meter);
      var fare := if LateNight(isLateNight) then meter as real * 1.2 else meter as real;
      Ceil(fare / 10.0) * 10
  }

  /** Rounding a whole multiple of 100 yen up to ten yen leaves it unchanged,
      with or without the 1.2 factor. */
  lemma RoundUpHundreds(m: int)
    requires m % 100 == 0
    ensures Ceil(m as real / 10.0) * 10 == m
    ensures Ceil(m as real * 1.2 / 10.0) * 10 == m * 6 / 5
  {
    var k := m / 100;
    assert m == 100 * k;
    assert m as real == 100.0 * k as real;
    assert m as real / 10.0 == (10 * k) as real;
    assert m as real * 1.2 / 10.0 == (12 * k) as real;
    CeilOfInt(10 * k);
    CeilOfInt(12 * k);
  }

  /** Omitting the flag is the same as asking for the night tariff. */
  lemma SurchargeDefaultsOn(distanceKm: real)
    ensures CalculateTaxiFare(distanceKm, None) == CalculateTaxiFare(distanceKm, Some(true))
  {
  }

  lemma {:induction false} MeterFareMonotone(d1: real, d2: real)
    requires 0.0 < d1 <= d2
    ensures MeterFare(d1) <= MeterFare(d2)
  {
    if d1 > BASE_DISTANCE {
      CeilMonotone((d1 - BASE_DISTANCE) / UNIT_DISTANCE, (d2 - BASE_DISTANCE) / UNIT_DISTANCE);
    }
  }

  /** A longer trip never costs less, with or without the surcharge. */
  lemma {:induction false} TaxiFareMonotone(d1: real, d2: real, isLateNight: Option<bool>)
    requires d1 <= d2
    ensures CalculateTaxiFare(d1, isLateNight) <= CalculateTaxiFare(d2, isLateNight)
  {
    if d1 > 0.0 {
      MeterFareMonotone(d1, d2);
    }
  }

  /** The night fare is the day fare times 1.2 rounded up to ten yen, which for
      a tariff in 100-yen steps is exactly six fifths of it, so never less. */
  lemma {:induction false} NightFareIsSurchargedDayFare(distanceKm: real)
    ensures var day := CalculateTaxiFare(distanceKm, Some(false));
      var night := CalculateTaxiFare(distanceKm, Some(true));
      && night == Ceil(day as real * 1.2 / 10.0) * 10
      && night * 5 == day * 6
      && night >= day
  {
    if distanceKm > 0.0 {
      var m := MeterFare(distanceKm);
      assert CalculateTaxiFare(distanceKm, Some(false)) == m;
      assert CalculateTaxiFare(distanceKm, Some(true)) == m * 6 / 5;
      RoundUpHundreds(m);
      assert m == 100 * (m / 100);
    }
  }

  /** The first kilometre boundary: 1.096 km is still the flag-fall fare, one
      metre more starts the first additional unit. */
  lemma BaseDistanceBoundary()
    ensures CalculateTaxiFare(1.096, Some(false)) == 500
    ensures CalculateTaxiFare(1.097, Some(false)) == 600
    ensures CalculateTaxiFare(1.097, Some(true)) == 720
  {
    var u := (MeterFare(1.097) - BASE_FARE) / ADDITIONAL_PER_UNIT;
    assert u == 1;
  }

  /** A 9.5 km night ride is 33 started units: 3800 yen metered, 4560 with the
      surcharge. */
  lemma NightFareFor9_5Km()
    ensures MeterFare(9.5) == 3800
    ensures CalculateTaxiFare(9.5, Some(true)) == 4560
  {
    var u := (MeterFare(9.5) - BASE_FARE) / ADDITIONAL_PER_UNIT;
    assert u == 33;
  }

  /** Road distance from straight-line distance, with a detour factor of 1.3. */
  function EstimateRoadDistance(straightLineKm: real): (roadKm: real)
    ensures straightLineKm >= 0.0 ==> straightLineKm <= roadKm
    ensures straightLineKm > 0.0 ==> straightLineKm < roadKm
    ensures roadKm / 1.3 == straightLineKm
  {
    straightLineKm * 1.3
  }

  /** Minutes by taxi at an average of 30 km/h, rounded up to a whole minute. */
  function EstimateTaxiDuration(distanceKm: real): (minutes: int)
    ensures (minutes - 1) as real < distanceKm / 30.0 * 60.0 <= minutes as real
  {
    Ceil((distanceKm / 30.0) * 60.0)
  }

  lemma DurationFacts(distanceKm: real)
    ensures EstimateTaxiDuration(30.0) == 60
    ensures distanceKm >= 0.0 ==> EstimateTaxiDuration(distanceKm) >= 0
    ensures distanceKm > 0.0 ==> EstimateTaxiDuration(distanceKm) >= 1
  {
  }

  lemma DurationMonotone(d1: real, d2: real)
    requires d1 <= d2
    ensures EstimateTaxiDuration(d1) <= EstimateTaxiDuration(d2)
  {
  }
}
