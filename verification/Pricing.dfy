/** Fares in exact arithmetic, rounded half to even to whole cents. */
module Pricing {
  import opened Domain

  function Max(a: real, b: real): real {
    if a < b then b else a
  }

  function RoundHalfEven(x: real): int {
    var low := x.Floor;
    var rest := x - low as real;
    if rest < 0.5 then low
    else if 0.5 < rest then low + 1
    else if low % 2 == 0 then low
    else low + 1
  }

  function RoundCents(x: real): real {
    RoundHalfEven(x * 100.0) as real / 100.0
  }

  const AVERAGE_KMH := 22.0
  const BASE_FARE := 2.5
  const PER_KM := 1.15
  const PER_MINUTE := 0.35

  function EstimateDurationMinutes(distance: real, averageKmh: real := AVERAGE_KMH): real {
    if averageKmh <= 0.0 then 0.0 else distance / averageKmh * 60.0
  }

  function Unrounded(core: real, surge: real): real {
    Max(0.0, core) * Max(1.0, surge)
  }

  function ComputeFare(distance: real, duration: real, surge: real := 1.0, baseFare: real := BASE_FARE,
                       perKm: real := PER_KM, perMinute: real := PER_MINUTE): real
  {
    var core := baseFare + distance * perKm + duration * perMinute;
    RoundCents(Unrounded(core, surge))
  }

  /** The multiplier cached for a zone; `quoted` is the parsed hash field, if there is one. */
  function SurgeMultiplier(zone: Option<string>, quoted: Option<real>, default: real): real {
    if zone.None? || zone.value == "" || quoted.None? then default else quoted.value
  }

  /** A stored multiplier of zero counts as missing, as in `x or 1.0`. */
  function SurgeOrOne(stored: Option<real>): real {
    if stored.None? || stored.value == 0.0 then 1.0 else stored.value
  }

  /** The fare end_trip charges: the duration follows from the distance. */
  function TripFare(distance: Km, surge: real): real {
    ComputeFare(distance, EstimateDurationMinutes(distance), surge)
  }

  /** The fare before rounding. */
  function ExactFare(distance: Km, surge: real): real {
    Unrounded(BASE_FARE + distance * PER_KM + EstimateDurationMinutes(distance) * PER_MINUTE, surge)
  }

  const PER_KM_ALL_IN := PER_KM + 60.0 / AVERAGE_KMH * PER_MINUTE

  /** With the duration derived from the distance, the fare is affine in the distance. */
  lemma ExactFareIsAffine(distance: Km, surge: real)
    ensures ExactFare(distance, surge) == (BASE_FARE + distance * PER_KM_ALL_IN) * Max(1.0, surge)
  {
    var core := BASE_FARE + distance * PER_KM + EstimateDurationMinutes(distance) * PER_MINUTE;
    assert core == BASE_FARE + distance * PER_KM_ALL_IN;
    assert 0.0 <= core;
  }

  function Abs(x: real): real {
    if x < 0.0 then -x else x
  }

  /** The definition of rounding half to even, without an algorithm. */
  predicate NearestEven(x: real, n: int) {
    && Abs(x - n as real) <= 0.5
    && (Abs(x - n as real) == 0.5 ==> n % 2 == 0)
  }

  lemma RoundingIsNearestEven(x: real, n: int)
    ensures NearestEven(x, n) <==> n == RoundHalfEven(x)
  {
    var low := x.Floor;
    assert low as real <= x < low as real + 1.0;
    if NearestEven(x, n) {
      assert low as real - 0.5 <= n as real <= low as real + 1.5;
      assert n == low || n == low + 1;
    }
  }

  lemma RoundingIsMonotone(x: real, y: real)
    requires x <= y
    ensures RoundHalfEven(x) <= RoundHalfEven(y)
  {
    RoundingIsNearestEven(x, RoundHalfEven(x));
    RoundingIsNearestEven(y, RoundHalfEven(y));
  }

  /** The stored fare is the exact product, off by at most half a cent. */
  lemma FareIsExactToHalfACent(distance: Km, surge: real)
    ensures Abs(TripFare(distance, surge) - ExactFare(distance, surge)) <= 0.005
  {
    var exact := ExactFare(distance, surge);
    RoundingIsNearestEven(exact * 100.0, RoundHalfEven(exact * 100.0));
  }

  predicate IsNearestCent(fare: real, exact: real, cents: int) {
    NearestEven(exact * 100.0, cents) && fare == cents as real / 100.0
  }

  lemma EqualFactors(a: real, b: real, c: real, d: real)
    requires a == c && b == d
    ensures a * b == c * d
  {
  }

  /** A negative price counts as zero, and a multiplier below one as one. */
  function Price(core: real, multiplier: real): real {
    (if core < 0.0 then 0.0 else core) * (if multiplier < 1.0 then 1.0 else multiplier)
  }

  lemma UnroundedIsPrice(core: real, multiplier: real)
    ensures Unrounded(core, multiplier) == Price(core, multiplier)
  {
    EqualFactors(Max(0.0, core), Max(1.0, multiplier), if core < 0.0 then 0.0 else core,
                 if multiplier < 1.0 then 1.0 else multiplier);
  }

  /** The fare at any rates is the nearest cent to the price. */
  lemma ComputeFareIsNearestCent(distance: real, duration: real, surge: real,
                                 baseFare: real, perKm: real, perMinute: real)
    ensures var price := Price(baseFare + distance * perKm + duration * perMinute, surge);
      exists cents: int ::
        IsNearestCent(ComputeFare(distance, duration, surge, baseFare, perKm, perMinute), price, cents)
  {
    var core := baseFare + distance * perKm + duration * perMinute;
    var price, fare := Price(core, surge), ComputeFare(distance, duration, surge, baseFare, perKm, perMinute);
    assert fare == RoundCents(price) by {
      UnroundedIsPrice(core, surge);
    }
    RoundCentsIsNearest(price);
    var cents: int :| IsNearestCent(RoundCents(price), price, cents);
    assert IsNearestCent(fare, price, cents);
  }

  lemma RoundCentsIsNearest(x: real)
    ensures exists cents: int :: IsNearestCent(RoundCents(x), x, cents)
  {
    RoundingIsNearestEven(x * 100.0, RoundHalfEven(x * 100.0));
    assert IsNearestCent(RoundCents(x), x, RoundHalfEven(x * 100.0));
  }

  /** Driving for the estimated minutes at the given speed covers the distance. */
  lemma DurationCoversDistance(distance: real, speed: real)
    ensures var minutes := EstimateDurationMinutes(distance, speed);
      if speed <= 0.0 then minutes == 0.0 else speed * (minutes / 60.0) == distance
  {
    if 0.0 < speed {
      assert speed * (distance / speed) == distance;
      assert EstimateDurationMinutes(distance, speed) / 60.0 == distance / speed;
    }
  }

  /** The exact price, with every rate written out. */
  function ListPrice(distance: real, multiplier: real): real {
    var minutes := 60.0 * distance / 22.0;
    (2.5 + 1.15 * distance + 0.35 * minutes) * (if multiplier < 1.0 then 1.0 else multiplier)
  }

  ghost predicate ChargesNearestCent(fare: real, distance: real, multiplier: real) {
    exists cents: int :: IsNearestCent(fare, ListPrice(distance, multiplier), cents)
  }

  lemma ExactFareIsListPrice(distance: Km, surge: real)
    ensures ExactFare(distance, surge) == ListPrice(distance, surge)
  {
    ExactFareIsAffine(distance, surge);
    EqualFactors(BASE_FARE + distance * PER_KM_ALL_IN, Max(1.0, surge),
                 2.5 + 1.15 * distance + 0.35 * (60.0 * distance / 22.0), if surge < 1.0 then 1.0 else surge);
  }

  lemma FareIsNearestCent(distance: Km, surge: real)
    ensures ChargesNearestCent(TripFare(distance, surge), distance, surge)
  {
    ExactFareIsListPrice(distance, surge);
    RoundCentsIsNearest(ExactFare(distance, surge));
  }

  lemma MulMonotone(a: real, b: real, c: real)
    requires a <= b && 0.0 <= c
    ensures a * c <= b * c && c * a <= c * b
  {
    assert 0.0 <= (b - a) * c;
  }

  lemma ProductsMonotone(c: real, k: real, m: real, n: real)
    requires 0.0 <= c <= k && 1.0 <= m <= n
    ensures c <= c * m <= k * n
  {
    MulMonotone(1.0, m, c);
    MulMonotone(c, k, m);
    MulMonotone(m, n, k);
  }

  lemma ExactFareIsMonotone(d: Km, e: Km, s: real, t: real)
    requires d <= e && s <= t
    ensures BASE_FARE <= ExactFare(d, s) <= ExactFare(e, t)
  {
    ExactFareIsAffine(d, s);
    ExactFareIsAffine(e, t);
    MulMonotone(0.0, d, PER_KM_ALL_IN);
    MulMonotone(d, e, PER_KM_ALL_IN);
    ProductsMonotone(BASE_FARE + d * PER_KM_ALL_IN, BASE_FARE + e * PER_KM_ALL_IN, Max(1.0, s), Max(1.0, t));
  }

  /** A longer trip or a higher multiplier never costs less, and no trip costs less than the base fare. */
  lemma FareIsMonotone(d: Km, e: Km, s: real, t: real)
    requires d <= e && s <= t
    ensures BASE_FARE <= TripFare(d, s) <= TripFare(e, t)
  {
    ExactFareIsMonotone(d, e, s, t);
    RoundingIsMonotone(ExactFare(d, s) * 100.0, ExactFare(e, t) * 100.0);
    RoundingIsMonotone(250.0, ExactFare(d, s) * 100.0);
    RoundingIsNearestEven(250.0, 250);
  }

  lemma Distribute(c: real, x: real, y: real, m: real)
    ensures (c + x) * m + (c + y) * m == (c + x + y) * m + c * m
  {
  }

  /** Before rounding, splitting costs one more surged base fare. */
  lemma ExactSplitting(a: Km, b: Km, surge: real)
    ensures ExactFare(a, surge) + ExactFare(b, surge) >= ExactFare(a + b, surge) + BASE_FARE
  {
    ExactFareIsAffine(a, surge);
    ExactFareIsAffine(b, surge);
    ExactFareIsAffine(a + b, surge);
    Distribute(0.0, a, b, PER_KM_ALL_IN);
    Distribute(BASE_FARE, a * PER_KM_ALL_IN, b * PER_KM_ALL_IN, Max(1.0, surge));
    MulMonotone(1.0, Max(1.0, surge), BASE_FARE);
  }

  /** Splitting a trip in two never pays: the base fare outweighs every rounding gain. */
  lemma SplittingNeverPays(a: Km, b: Km, surge: real)
    ensures TripFare(a, surge) + TripFare(b, surge) >= TripFare(a + b, surge)
  {
    ExactSplitting(a, b, surge);
    FareIsExactToHalfACent(a, surge);
    FareIsExactToHalfACent(b, surge);
    FareIsExactToHalfACent(a + b, surge);
  }
}
