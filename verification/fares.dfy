/** The fare engine of backend/server.js: per-class minimum fares, the
    rate card of three services, the outstation markup and rounding to
    hundredths. Amounts are exact `real` numbers. */
module Fares {

  import opened Rounding

  // ---------------------------------------------------------------
  // Minimum fares
  // ---------------------------------------------------------------

  /** `MIN_FARE`, keyed by vehicle class. */
  const MIN_FARE: map<string, nat> := map[
    "micro" := 60, "sedan" := 80, "suv" := 100,
    "mini" := 50, "primeSedan" := 75, "primeSUV" := 95, "auto" := 30,
    "uberGo" := 55, "premier" := 85, "uberXL" := 100
  ]

  /** The floor used for a class that has no entry of its own. */
  const DEFAULT_MIN_FARE: nat := 40

  /** `MIN_FARE[cabKey] || 40`: a missing (or zero) entry falls back to the
      default. No entry of the table is zero, so a listed class always gets
      its own floor. */
  function MinFare(vehicle: string): (floor: nat)
    ensures vehicle in MIN_FARE ==> floor == MIN_FARE[vehicle]
    ensures vehicle !in MIN_FARE ==> floor == DEFAULT_MIN_FARE
    ensures floor >= 30
  {
    if vehicle in MIN_FARE && MIN_FARE[vehicle] != 0 then MIN_FARE[vehicle] else DEFAULT_MIN_FARE
  }

  /** `applyMinFare`: the larger of the fare and the class floor. */
  function ApplyMinFare(fare: real, vehicle: string): (r: real)
    ensures r >= fare && r >= MinFare(vehicle) as real
    ensures r == fare || r == MinFare(vehicle) as real
  {
    var floor := MinFare(vehicle) as real;
    if fare > floor then fare else floor
  }

  /** A class listed in the table is floored at its own entry, any other at 40,
      and a fare already at or above its floor is left as it is. */
  lemma MinFareTable(fare: real, vehicle: string)
    ensures vehicle in MIN_FARE ==> ApplyMinFare(fare, vehicle) >= MIN_FARE[vehicle] as real
    ensures vehicle !in MIN_FARE ==> ApplyMinFare(fare, vehicle) >= 40.0
    ensures fare >= MinFare(vehicle) as real ==> ApplyMinFare(fare, vehicle) == fare
  {
  }

  // ---------------------------------------------------------------
  // Rounding to hundredths: `Math.round(x * 100) / 100`
  // ---------------------------------------------------------------

  /** `Math.round(x * 100) / 100`, where `Math.round` rounds half-way cases up:
      a whole number of hundredths, less than half a hundredth below `x` and
      at most half a hundredth above it. */
  function Round2(x: real): (r: real)
    ensures (r * 100.0).Floor as real == r * 100.0
    ensures x - 0.005 < r <= x + 0.005
  {
    (RoundHalfUp(x * 100.0) as real) / 100.0
  }

  /** Rounding never takes a value below a whole number it was at or above. */
  lemma Round2AtLeast(x: real, n: int)
    requires x >= n as real
    ensures Round2(x) >= n as real
  {
    var m := RoundHalfUp(x * 100.0);
    assert (n * 100) as real <= x * 100.0 + 0.5;
    assert n * 100 <= m;
  }

  /** Rounding preserves order. */
  lemma Round2Monotone(x: real, y: real)
    requires x <= y
    ensures Round2(x) <= Round2(y)
  {
    var m, n := RoundHalfUp(x * 100.0), RoundHalfUp(y * 100.0);
    assert m as real <= y * 100.0 + 0.5;
    assert m <= n;
  }

  // ---------------------------------------------------------------
  // Rate card
  // ---------------------------------------------------------------

  /** One vehicle class: base fare, rate per kilometre, rate per minute. */
  datatype ClassRate = ClassRate(vehicle: string, base: real, perKm: real, perMin: real)

  /** One service with its classes, in the order the source lists them. */
  datatype ServiceRates = ServiceRates(service: string, classes: seq<ClassRate>)

  /** The `baseFares` table of `calculateFares`. */
  const RATE_CARD: seq<ServiceRates> := [
    ServiceRates("redTaxi", [
      ClassRate("micro", 60.0, 11.0, 1.0),
      ClassRate("sedan", 80.0, 14.0, 1.5),
      ClassRate("suv", 100.0, 18.0, 2.0)]),
    ServiceRates("ola", [
      ClassRate("mini", 50.0, 12.0, 1.0),
      ClassRate("primeSedan", 75.0, 15.0, 1.5),
      ClassRate("primeSUV", 95.0, 20.0, 2.0),
      ClassRate("auto", 30.0, 9.0, 0.8)]),
    ServiceRates("uber", [
      ClassRate("uberGo", 55.0, 13.0, 1.0),
      ClassRate("premier", 85.0, 16.0, 1.5),
      ClassRate("uberXL", 100.0, 19.0, 2.0),
      ClassRate("auto", 35.0, 10.0, 0.8)])
  ]

  /** Every class on the card has its own minimum-fare entry, so the default
      floor of 40 never applies to a computed fare. */
  lemma RateCardFloors()
    ensures forall i, j :: 0 <= i < |RATE_CARD| && 0 <= j < |RATE_CARD[i].classes| ==>
              RATE_CARD[i].classes[j].vehicle in MIN_FARE
  {
  }

  // ---------------------------------------------------------------
  // Prices
  // ---------------------------------------------------------------

  /** A trip longer than 40 km is an outstation trip. */
  predicate IsOutstation(distanceKm: real)
  {
    distanceKm > 40.0
  }

  function OutstationFactor(distanceKm: real): real
  {
    if IsOutstation(distanceKm) then 1.15 else 1.0
  }

  /** The linear fare before surge, markup and floor. */
  function RawFare(rate: ClassRate, distanceKm: real, durationMin: real): real
  {
    rate.base + distanceKm * rate.perKm + durationMin * rate.perMin
  }

  /** The fare after surge and outstation markup, before the floor. */
  function AfterSurge(rate: ClassRate, distanceKm: real, durationMin: real, surge: real): real
  {
    RawFare(rate, distanceKm, durationMin) * surge * OutstationFactor(distanceKm)
  }

  /** The price of one class: the floored fare rounded to hundredths. It never
      drops below the class minimum and lies within half a hundredth of the
      larger of the marked-up fare and that minimum. */
  function Price(rate: ClassRate, distanceKm: real, durationMin: real, surge: real): (p: real)
    ensures p >= MinFare(rate.vehicle) as real
    ensures var floored := ApplyMinFare(AfterSurge(rate, distanceKm, durationMin, surge), rate.vehicle);
            floored - 0.005 < p <= floored + 0.005
  {
    var floored := ApplyMinFare(AfterSurge(rate, distanceKm, durationMin, surge), rate.vehicle);
    Round2AtLeast(floored, MinFare(rate.vehicle));
    Round2(floored)
  }

  /** The outstation boundary: exactly 40 km carries no markup, anything
      beyond it carries 15 percent. */
  lemma OutstationBoundary(distanceKm: real)
    ensures OutstationFactor(distanceKm) == 1.15 <==> distanceKm > 40.0
    ensures OutstationFactor(distanceKm) == 1.0 <==> distanceKm <= 40.0
    ensures OutstationFactor(40.0) == 1.0 && OutstationFactor(40.01) == 1.15
  {
  }

  /** With non-negative rates, a longer, slower or more surged trip never costs less. */
  lemma PriceMonotone(rate: ClassRate, d1: real, t1: real, s1: real, d2: real, t2: real, s2: real)
    requires rate.base >= 0.0 && rate.perKm >= 0.0 && rate.perMin >= 0.0
    requires 0.0 <= d1 <= d2 && 0.0 <= t1 <= t2 && 0.0 <= s1 <= s2
    ensures Price(rate, d1, t1, s1) <= Price(rate, d2, t2, s2)
  {
    ProductMonotone(d1, d2, rate.perKm, rate.perKm);
    ProductMonotone(t1, t2, rate.perMin, rate.perMin);
    var r1, r2 := RawFare(rate, d1, t1), RawFare(rate, d2, t2);
    NonNegativeProduct(d1, rate.perKm);
    NonNegativeProduct(t1, rate.perMin);
    assert 0.0 <= r1 <= r2;
    ProductMonotone(r1, r2, s1, s2);
    NonNegativeProduct(r1, s1);
    var f1, f2 := OutstationFactor(d1), OutstationFactor(d2);
    ProductMonotone(r1 * s1, r2 * s2, f1, f2);
    var a1, a2 := AfterSurge(rate, d1, t1, s1), AfterSurge(rate, d2, t2, s2);
    assert a1 <= a2;
    assert ApplyMinFare(a1, rate.vehicle) <= ApplyMinFare(a2, rate.vehicle);
    Round2Monotone(ApplyMinFare(a1, rate.vehicle), ApplyMinFare(a2, rate.vehicle));
  }

  lemma NonNegativeProduct(x: real, y: real)
    requires x >= 0.0 && y >= 0.0
    ensures x * y >= 0.0
  {
  }

  /** Products of non-negative factors grow with each factor. */
  lemma ProductMonotone(a: real, b: real, c: real, d: real)
    requires 0.0 <= a <= b && 0.0 <= c <= d
    ensures a * c <= b * d
  {
    NonNegativeProduct(b - a, c);
    NonNegativeProduct(b, d - c);
    assert (b - a) * c == b * c - a * c;
    assert b * (d - c) == b * d - b * c;
  }

  // ---------------------------------------------------------------
  // The fare table
  // ---------------------------------------------------------------

  datatype ClassFare = ClassFare(vehicle: string, price: real)

  /** One service's prices keyed by class; the source's nested `fares` object
      with its keys in insertion order. */
  datatype ServiceFares = ServiceFares(service: string, classes: seq<ClassFare>)

  function PricedService(rates: ServiceRates, distanceKm: real, durationMin: real, surge: real): (sf: ServiceFares)
  {
    ServiceFares(rates.service,
      seq(|rates.classes|, j requires 0 <= j < |rates.classes| =>
        ClassFare(rates.classes[j].vehicle, Price(rates.classes[j], distanceKm, durationMin, surge))))
  }

  /** What `calculateFares` returns: one priced entry per service and class of the card. */
  function FareTable(distanceKm: real, durationMin: real, surge: real): seq<ServiceFares>
  {
    seq(|RATE_CARD|, i requires 0 <= i < |RATE_CARD| => PricedService(RATE_CARD[i], distanceKm, durationMin, surge))
  }

  /** `calculateFares`: fills the table service by service and class by class. */
  method CalculateFares(distanceKm: real, durationMin: real, surge: real) returns (fares: seq<ServiceFares>)
    ensures fares == FareTable(distanceKm, durationMin, surge)
  {
    var outstationFactor := if distanceKm > 40.0 then 1.15 else 1.0;
    ghost var table := FareTable(distanceKm, durationMin, surge);
    fares := [];
    var i := 0;
    while i < |RATE_CARD|
      invariant 0 <= i <= |RATE_CARD|
      invariant fares == table[..i]
    {
      var prices := PriceClasses(RATE_CARD[i], distanceKm, durationMin, surge, outstationFactor);
      fares := fares + [ServiceFares(RATE_CARD[i].service, prices)];
      assert table[..i + 1] == table[..i] + [table[i]];
      i := i + 1;
    }
  }

  /** The inner loop of `calculateFares`: the prices of one service's classes. */
  method PriceClasses(rates: ServiceRates, distanceKm: real, durationMin: real, surge: real, outstationFactor: real)
    returns (prices: seq<ClassFare>)
    requires outstationFactor == OutstationFactor(distanceKm)
    ensures prices == PricedService(rates, distanceKm, durationMin, surge).classes
  {
    ghost var priced := PricedService(rates, distanceKm, durationMin, surge).classes;
    prices := [];
    var j := 0;
    while j < |rates.classes|
      invariant 0 <= j <= |rates.classes|
      invariant prices == priced[..j]
    {
      var rate := rates.classes[j];
      var afterSurge := RawFare(rate, distanceKm, durationMin) * surge * outstationFactor;
      assert afterSurge == AfterSurge(rate, distanceKm, durationMin, surge);
      prices := prices + [ClassFare(rate.vehicle, Round2(ApplyMinFare(afterSurge, rate.vehicle)))];
      assert priced[..j + 1] == priced[..j] + [priced[j]];
      j := j + 1;
    }
  }

  /** The class keys of one service, in order. */
  function Vehicles(sf: ServiceFares): seq<string>
  {
    seq(|sf.classes|, j requires 0 <= j < |sf.classes| => sf.classes[j].vehicle)
  }

  /** The table has exactly the services redTaxi, ola and uber, with exactly
      their listed classes, one price each. */
  lemma FareTableShape(distanceKm: real, durationMin: real, surge: real)
    ensures var t := FareTable(distanceKm, durationMin, surge);
      && |t| == 3
      && t[0].service == "redTaxi" && Vehicles(t[0]) == ["micro", "sedan", "suv"]
      && t[1].service == "ola" && Vehicles(t[1]) == ["mini", "primeSedan", "primeSUV", "auto"]
      && t[2].service == "uber" && Vehicles(t[2]) == ["uberGo", "premier", "uberXL", "auto"]
  {
  }

  /** Every price in the table is at least its class minimum, and is the rounded,
      floored, marked-up fare of its class. */
  lemma FareTableAboveMinimum(distanceKm: real, durationMin: real, surge: real, i: nat, j: nat)
    requires i < |RATE_CARD| && j < |RATE_CARD[i].classes|
    ensures var cf := FareTable(distanceKm, durationMin, surge)[i].classes[j];
      && cf.vehicle == RATE_CARD[i].classes[j].vehicle
      && cf.price >= MIN_FARE[cf.vehicle] as real
      && cf.price == Round2(ApplyMinFare(AfterSurge(RATE_CARD[i].classes[j], distanceKm, durationMin, surge), cf.vehicle))
  {
    RateCardFloors();
  }

  /** The worked example: 5 km, 15 minutes and no surge price a redTaxi micro
      at 60 + 5 * 11 + 15 * 1 = 130. */
  lemma WorkedExample()
    ensures FareTable(5.0, 15.0, 1.0)[0].classes[0] == ClassFare("micro", 130.0)
  {
    var t := FareTable(5.0, 15.0, 1.0);
    assert RawFare(RATE_CARD[0].classes[0], 5.0, 15.0) == 130.0;
    assert (130.0 * 100.0 + 0.5).Floor == 13000;
  }
}
