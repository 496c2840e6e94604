/**
 The price of a trip: a base fare plus a rate for each kilometre of the great
 circle between start and destination. Reals stand for floats; what is used of
 the mathematical library is stated in `Lawful`.
 */
module Pricing {
  import opened Prelude
  import opened OrderTypes

  const BASE_FARE_ECONOMY := 200
  const BASE_FARE_COMFORT := 300
  const BASE_FARE_BUSINESS := 500

  const PER_KM_RATE_ECONOMY := 15
  const PER_KM_RATE_COMFORT := 25
  const PER_KM_RATE_BUSINESS := 40

  const EARTH_RADIUS_KM := 6371.0

  datatype MathLibrary = MathLibrary(
    sin: real -> real, cos: real -> real, asin: real -> real, sqrt: real -> real, pi: real)
  {
    ghost predicate Pythagoras(x: real) { sin(x) * sin(x) + cos(x) * cos(x) == 1.0 }

    ghost predicate Difference(x: real, y: real) { cos(x - y) == cos(x) * cos(y) + sin(x) * sin(y) }

    ghost predicate DoubleAngle(x: real) { cos(2.0 * x) == 1.0 - 2.0 * (sin(x) * sin(x)) }

    ghost predicate ArcSine(x: real, y: real) {
      0.0 <= x <= y <= 1.0 ==> 0.0 <= asin(x) <= asin(y) <= pi / 2.0 && sin(asin(x)) == x
    }

    ghost predicate ArcSineOfSine(x: real) { 0.0 <= x <= pi / 2.0 ==> 0.0 <= sin(x) && asin(sin(x)) == x }

    ghost predicate Root(x: real) { 0.0 <= x ==> 0.0 <= sqrt(x) && sqrt(x) * sqrt(x) == x }

    ghost predicate Lawful() {
      && 3.0 < pi < 4.0
      && (forall x :: Pythagoras(x))
      && (forall x, y :: Difference(x, y))
      && (forall x :: DoubleAngle(x))
      && (forall x, y :: ArcSine(x, y))
      && (forall x :: ArcSineOfSine(x))
      && asin(0.0) == 0.0 && asin(1.0) == pi / 2.0
      && (forall x :: Root(x))
    }
  }

  function Radians(m: MathLibrary, degrees: real): real {
    degrees * m.pi / 180.0
  }

  /** The haversine of the angle between two points, given in radians. */
  function HaversineTerm(m: MathLibrary, aLat: real, aLng: real, bLat: real, bLng: real): real {
    var dLat, dLng := bLat - aLat, bLng - aLng;
    m.sin(dLat / 2.0) * m.sin(dLat / 2.0)
    + m.cos(aLat) * m.cos(bLat) * m.sin(dLng / 2.0) * m.sin(dLng / 2.0)
  }

  function HaversineKm(m: MathLibrary, a: Location, b: Location): real {
    var h := HaversineTerm(m, Radians(m, a.lat), Radians(m, a.lng), Radians(m, b.lat), Radians(m, b.lng));
    2.0 * EARTH_RADIUS_KM * m.asin(m.sqrt(h))
  }

  /** Half away from zero. */
  function Round(x: real): int {
    if x >= 0.0 then (x + 0.5).Floor else -((-x + 0.5).Floor)
  }

  function BaseFare(t: TaxiType): int {
    match t
    case NoTaxiType => 0
    case Economy => BASE_FARE_ECONOMY
    case Comfort => BASE_FARE_COMFORT
    case Business => BASE_FARE_BUSINESS
  }

  function PerKmRate(t: TaxiType): int {
    match t
    case NoTaxiType => 0
    case Economy => PER_KM_RATE_ECONOMY
    case Comfort => PER_KM_RATE_COMFORT
    case Business => PER_KM_RATE_BUSINESS
  }

  function PriceForTrip(m: MathLibrary, t: TaxiType, start: Location, destination: Location): int {
    if t.NoTaxiType? then 0
    else BaseFare(t) + Round(PerKmRate(t) as real * HaversineKm(m, start, destination))
  }

  // ----- The distance -----

  /** The inner product of the two points as unit vectors: the cosine of the angle between them. */
  function CosAngle(m: MathLibrary, aLat: real, aLng: real, bLat: real, bLng: real): real {
    m.sin(aLat) * m.sin(bLat) + m.cos(aLat) * m.cos(bLat) * m.cos(bLng - aLng)
  }

  lemma HalfAngle(m: MathLibrary, x: real)
    requires m.Lawful()
    ensures m.sin(x / 2.0) * m.sin(x / 2.0) == (1.0 - m.cos(x)) / 2.0
  {
    assert m.DoubleAngle(x / 2.0);
    assert 2.0 * (x / 2.0) == x;
  }

  lemma HaversineOfAngle(m: MathLibrary, aLat: real, aLng: real, bLat: real, bLng: real)
    requires m.Lawful()
    ensures HaversineTerm(m, aLat, aLng, bLat, bLng) == (1.0 - CosAngle(m, aLat, aLng, bLat, bLng)) / 2.0
  {
    HalfAngle(m, bLat - aLat);
    HalfAngle(m, bLng - aLng);
    assert m.Difference(bLat, aLat);
    var cc, s, c := m.cos(aLat) * m.cos(bLat), m.sin((bLng - aLng) / 2.0), m.cos(bLng - aLng);
    assert cc * s * s == cc * (s * s);
    assert cc * ((1.0 - c) / 2.0) == (cc - cc * c) / 2.0;
  }

  lemma SquareIsNonNegative(x: real)
    ensures x * x >= 0.0
  {
  }

  lemma SquareOfSum(x: real, y: real)
    ensures (x + y) * (x + y) == x * x + 2.0 * (x * y) + y * y
  {
  }

  /** The inner product of a unit vector and one no longer than a unit. */
  lemma InnerProductBounded(p: real, q: real, r: real, s: real)
    requires p * p + q * q == 1.0 && r * r + s * s <= 1.0
    ensures -1.0 <= p * r + q * s <= 1.0
  {
    SquareOfSum(p, r);
    SquareOfSum(q, s);
    SquareIsNonNegative(p + r);
    SquareIsNonNegative(q + s);
    SquareOfSum(p, -r);
    SquareOfSum(q, -s);
    SquareIsNonNegative(p + -r);
    SquareIsNonNegative(q + -s);
    assert p * -r == -(p * r) && q * -s == -(q * s) && -r * -r == r * r && -s * -s == s * s;
  }

  lemma ShortenedUnit(r: real, s: real, c: real)
    requires r * r + s * s == 1.0 && c * c <= 1.0
    ensures r * r + (s * c) * (s * c) <= 1.0
  {
    SquareIsNonNegative(s);
    assert (s * c) * (s * c) == (s * s) * (c * c);
    assert (s * s) * (c * c) <= (s * s) * 1.0;
  }

  lemma CosAngleBounded(m: MathLibrary, aLat: real, aLng: real, bLat: real, bLng: real)
    requires m.Lawful()
    ensures -1.0 <= CosAngle(m, aLat, aLng, bLat, bLng) <= 1.0
  {
    var c, s := m.cos(bLng - aLng), m.sin(bLng - aLng);
    var p, q, r, t := m.sin(aLat), m.cos(aLat), m.sin(bLat), m.cos(bLat);
    assert m.Pythagoras(bLng - aLng) && m.Pythagoras(aLat) && m.Pythagoras(bLat);
    SquareIsNonNegative(s);
    ShortenedUnit(r, t, c);
    InnerProductBounded(p, q, r, t * c);
    assert q * t * c == q * (t * c);
  }

  /** The square root and the arc sine are taken inside their domains, for all latitudes and longitudes. */
  lemma HaversineInRange(m: MathLibrary, aLat: real, aLng: real, bLat: real, bLng: real)
    requires m.Lawful()
    ensures 0.0 <= HaversineTerm(m, aLat, aLng, bLat, bLng) <= 1.0
  {
    HaversineOfAngle(m, aLat, aLng, bLat, bLng);
    CosAngleBounded(m, aLat, aLng, bLat, bLng);
    hide MathLibrary.Lawful, HaversineTerm, CosAngle;
  }

  lemma SquareExceeds(r: real)
    requires r > 1.0
    ensures r * r > 1.0
  {
    assert r * r > 1.0 * r;
  }

  lemma RootInRange(m: MathLibrary, h: real)
    requires m.Lawful() && 0.0 <= h <= 1.0
    ensures 0.0 <= m.sqrt(h) <= 1.0 && m.sqrt(h) * m.sqrt(h) == h
  {
    var r := m.sqrt(h);
    assert m.Root(h);
    if r > 1.0 { SquareExceeds(r); }
  }

  /**
   The distance is the earth's radius times the angle between the two points:
   the one in 0..pi whose cosine is their inner product.
   */
  lemma DistanceIsGreatCircle(m: MathLibrary, a: Location, b: Location)
    requires m.Lawful()
    ensures var angle := HaversineKm(m, a, b) / EARTH_RADIUS_KM;
      && 0.0 <= angle <= m.pi
      && m.cos(angle) == CosAngle(m, Radians(m, a.lat), Radians(m, a.lng), Radians(m, b.lat), Radians(m, b.lng))
    ensures 0.0 <= HaversineKm(m, a, b) <= EARTH_RADIUS_KM * m.pi
  {
    var aLat, aLng, bLat, bLng := Radians(m, a.lat), Radians(m, a.lng), Radians(m, b.lat), Radians(m, b.lng);
    var h := HaversineTerm(m, aLat, aLng, bLat, bLng);
    HaversineInRange(m, aLat, aLng, bLat, bLng);
    HaversineOfAngle(m, aLat, aLng, bLat, bLng);
    RootInRange(m, h);
    var half := m.asin(m.sqrt(h));
    assert m.ArcSine(m.sqrt(h), 1.0) && m.DoubleAngle(half);
    hide MathLibrary.Lawful, HaversineTerm, CosAngle, Radians;
    assert HaversineKm(m, a, b) == 2.0 * EARTH_RADIUS_KM * half;
    assert HaversineKm(m, a, b) / EARTH_RADIUS_KM == 2.0 * half;
  }

  /** A direction in space. */
  datatype Vector = Vector(x: real, y: real, z: real)

  function Dot(u: Vector, v: Vector): real {
    u.x * v.x + u.y * v.y + u.z * v.z
  }

  /** The point of the unit sphere at this latitude and longitude, which are in degrees. */
  function OnSphere(m: MathLibrary, p: Location): Vector {
    var lat, lng := Radians(m, p.lat), Radians(m, p.lng);
    Vector(m.cos(lat) * m.cos(lng), m.cos(lat) * m.sin(lng), m.sin(lat))
  }

  /** The angle in 0..pi between two points of the sphere. */
  ghost predicate IsAngle(m: MathLibrary, angle: real, a: Location, b: Location) {
    0.0 <= angle <= m.pi && m.cos(angle) == Dot(OnSphere(m, a), OnSphere(m, b))
  }

  lemma DotIsCosAngle(m: MathLibrary, a: Location, b: Location)
    requires m.Lawful()
    ensures Dot(OnSphere(m, a), OnSphere(m, b))
         == CosAngle(m, Radians(m, a.lat), Radians(m, a.lng), Radians(m, b.lat), Radians(m, b.lng))
  {
    var aLat, aLng, bLat, bLng := Radians(m, a.lat), Radians(m, a.lng), Radians(m, b.lat), Radians(m, b.lng);
    assert m.Difference(bLng, aLng);
    hide MathLibrary.Lawful;
    Distribute(m.cos(aLat), m.cos(bLat), m.cos(aLng), m.cos(bLng), m.sin(aLng), m.sin(bLng));
    hide Radians;
  }

  lemma Distribute(a: real, b: real, p: real, q: real, r: real, s: real)
    ensures (a * p) * (b * q) + (a * r) * (b * s) == a * b * (q * p + s * r)
  {
    assert (a * p) * (b * q) == (a * b) * (q * p) && (a * r) * (b * s) == (a * b) * (s * r);
  }

  lemma EqualRoots(x: real, y: real)
    requires 0.0 <= x && 0.0 <= y && x * x == y * y
    ensures x == y
  {
    if x < y { SmallerSquare(x, y); }
    if y < x { SmallerSquare(y, x); }
  }

  lemma SmallerSquare(x: real, y: real)
    requires 0.0 <= x < y
    ensures x * x < y * y
  {
    assert (y - x) * y > 0.0 && (y - x) * x >= 0.0;
    assert (y - x) * y == y * y - x * y && (y - x) * x == y * x - x * x;
  }

  /** There is one such angle, and the distance is the earth's radius times it. */
  lemma DistanceOfAngle(m: MathLibrary, angle: real, a: Location, b: Location)
    requires m.Lawful() && IsAngle(m, angle, a, b)
    ensures HaversineKm(m, a, b) == EARTH_RADIUS_KM * angle
  {
    var aLat, aLng, bLat, bLng := Radians(m, a.lat), Radians(m, a.lng), Radians(m, b.lat), Radians(m, b.lng);
    var h := HaversineTerm(m, aLat, aLng, bLat, bLng);
    DotIsCosAngle(m, a, b);
    HaversineInRange(m, aLat, aLng, bLat, bLng);
    HaversineOfAngle(m, aLat, aLng, bLat, bLng);
    RootInRange(m, h);
    HalfAngle(m, angle);
    assert m.ArcSineOfSine(angle / 2.0);
    hide MathLibrary.Lawful, HaversineTerm, CosAngle, Radians, IsAngle, Dot, OnSphere;
    EqualRoots(m.sqrt(h), m.sin(angle / 2.0));
  }

  // ----- The price -----

  lemma RoundIsMonotone(x: real, y: real)
    requires x <= y
    ensures Round(x) <= Round(y)
  {
  }

  /** Rounding moves a value by at most a half, and a half goes away from zero. */
  lemma RoundIsNearest(x: real)
    ensures var d := Round(x) as real - x; -0.5 <= d <= 0.5 && (d == 0.5 ==> x >= 0.0) && (d == -0.5 ==> x <= 0.0)
  {
  }

  lemma Product(r: real, d: real)
    requires 0.0 <= r && 0.0 <= d
    ensures 0.0 <= r * d
  {
  }

  lemma LongerCostsMore(rate: int, km: real, more: real)
    requires 0 <= rate && 0.0 <= km <= more
    ensures 0 <= Round(rate as real * km) <= Round(rate as real * more)
  {
    var r := rate as real;
    Product(r, km);
    Product(r, more - km);
    assert r * (more - km) == r * more - r * km;
    RoundIsMonotone(0.0, r * km);
    RoundIsMonotone(r * km, r * more);
  }

  lemma HigherRateCostsMore(rate: int, higher: int, km: real)
    requires 0 <= rate <= higher && 0.0 <= km
    ensures Round(rate as real * km) <= Round(higher as real * km)
  {
    var r, h := rate as real, higher as real;
    Product(h - r, km);
    assert (h - r) * km == h * km - r * km;
    RoundIsMonotone(r * km, h * km);
    hide Round;
  }

  /** Wherever start and destination are, the price is positive, as Charge requires, and bounded. */
  lemma PriceWithinBounds(m: MathLibrary, t: TaxiType, start: Location, destination: Location)
    requires m.Lawful() && !t.NoTaxiType?
    ensures var p := PriceForTrip(m, t, start, destination);
      && 0 < BaseFare(t) <= p
      && p <= BaseFare(t) + Round(PerKmRate(t) as real * (EARTH_RADIUS_KM * m.pi))
      && p < TWO_63
  {
    DistanceIsGreatCircle(m, start, destination);
    var rate := PerKmRate(t);
    LongerCostsMore(rate, HaversineKm(m, start, destination), EARTH_RADIUS_KM * m.pi);
    assert EARTH_RADIUS_KM * m.pi <= 25484.0;
    assert rate as real * (EARTH_RADIUS_KM * m.pi) <= 40.0 * 25484.0;
    RoundIsMonotone(rate as real * (EARTH_RADIUS_KM * m.pi), 40.0 * 25484.0);
  }

  /** What a trip over this angle costs before rounding. */
  predicate Rounds(price: int, fare: real, rate: real, angle: real) {
    -0.5 <= price as real - (fare + rate * (6371.0 * angle)) <= 0.5
  }

  lemma FareRounds(fare: int, rate: int, km: real, angle: real)
    requires km == 6371.0 * angle
    ensures Rounds(fare + Round(rate as real * km), fare as real, rate as real, angle)
  {
    RoundIsNearest(rate as real * km);
    hide Round;
  }

  /**
   The price of a trip is, to the nearest minor unit, the base fare plus the rate
   times the length in kilometres of the arc between start and destination.
   */
  lemma PriceFollowsDistance(m: MathLibrary, start: Location, destination: Location)
    requires m.Lawful()
    ensures exists angle :: IsAngle(m, angle, start, destination)
    ensures forall angle :: IsAngle(m, angle, start, destination) ==>
      && Rounds(PriceForTrip(m, Economy, start, destination), 200.0, 15.0, angle)
      && Rounds(PriceForTrip(m, Comfort, start, destination), 300.0, 25.0, angle)
      && Rounds(PriceForTrip(m, Business, start, destination), 500.0, 40.0, angle)
  {
    hide MathLibrary.Lawful, IsAngle, PriceForTrip, Rounds;
    TripHasAngle(m, start, destination);
    forall angle | IsAngle(m, angle, start, destination)
      ensures Rounds(PriceForTrip(m, Economy, start, destination), 200.0, 15.0, angle)
      ensures Rounds(PriceForTrip(m, Comfort, start, destination), 300.0, 25.0, angle)
      ensures Rounds(PriceForTrip(m, Business, start, destination), 500.0, 40.0, angle)
    {
      PriceOfAngle(m, Economy, start, destination, angle);
      PriceOfAngle(m, Comfort, start, destination, angle);
      PriceOfAngle(m, Business, start, destination, angle);
    }
  }

  lemma TripHasAngle(m: MathLibrary, start: Location, destination: Location)
    requires m.Lawful()
    ensures IsAngle(m, HaversineKm(m, start, destination) / EARTH_RADIUS_KM, start, destination)
  {
    DistanceIsGreatCircle(m, start, destination);
    DotIsCosAngle(m, start, destination);
    hide MathLibrary.Lawful, HaversineKm, CosAngle, Dot, OnSphere;
  }

  lemma PriceOfAngle(m: MathLibrary, t: TaxiType, start: Location, destination: Location, angle: real)
    requires m.Lawful() && IsAngle(m, angle, start, destination) && !t.NoTaxiType?
    ensures Rounds(PriceForTrip(m, t, start, destination), BaseFare(t) as real, PerKmRate(t) as real, angle)
  {
    DistanceOfAngle(m, angle, start, destination);
    hide MathLibrary.Lawful, IsAngle, HaversineKm, Round, Rounds, BaseFare, PerKmRate;
    FareRounds(BaseFare(t), PerKmRate(t), HaversineKm(m, start, destination), angle);
  }

  /** For the same trip a better taxi costs no less. */
  lemma BetterTaxiCostsMore(m: MathLibrary, start: Location, destination: Location)
    requires m.Lawful()
    ensures PriceForTrip(m, Economy, start, destination)
         <= PriceForTrip(m, Comfort, start, destination)
         <= PriceForTrip(m, Business, start, destination)
  {
    HigherFareCostsMore(m, Economy, Comfort, start, destination);
    HigherFareCostsMore(m, Comfort, Business, start, destination);
    hide MathLibrary.Lawful, PriceForTrip;
  }

  lemma HigherFareCostsMore(m: MathLibrary, t: TaxiType, better: TaxiType, start: Location, destination: Location)
    requires m.Lawful() && !t.NoTaxiType? && !better.NoTaxiType?
    requires BaseFare(t) <= BaseFare(better) && 0 <= PerKmRate(t) <= PerKmRate(better)
    ensures PriceForTrip(m, t, start, destination) <= PriceForTrip(m, better, start, destination)
  {
    DistanceIsGreatCircle(m, start, destination);
    hide MathLibrary.Lawful, HaversineKm, Round, BaseFare, PerKmRate;
    HigherRateCostsMore(PerKmRate(t), PerKmRate(better), HaversineKm(m, start, destination));
  }

  lemma SpecialAngles(m: MathLibrary)
    requires m.Lawful()
    ensures m.cos(0.0) == 1.0 && m.sin(0.0) == 0.0
    ensures m.cos(m.pi / 2.0) == 0.0 && m.sin(m.pi / 2.0) == 1.0 && m.cos(m.pi) == -1.0
  {
    var half := m.pi / 2.0;
    assert m.Pythagoras(0.0) && m.Pythagoras(half) && m.Difference(0.0, 0.0);
    assert m.ArcSine(1.0, 1.0) && m.DoubleAngle(half);
    assert 2.0 * half == m.pi && 0.0 - 0.0 == 0.0;
    hide MathLibrary.Lawful;
    ZeroSquare(m.sin(0.0), m.sin(0.0));
    ZeroSquare(m.cos(half), m.cos(half));
  }

  lemma ZeroSquare(x: real, y: real)
    requires x == y
    ensures x * y == 0.0 ==> x == 0.0
  {
    if x != 0.0 {
      var inverse := 1.0 / y;
      assert inverse * y == 1.0;
      assert (x * y) * inverse == x * (y * inverse);
    }
  }

  lemma OppositeAngle(m: MathLibrary, x: real)
    requires m.Lawful()
    ensures m.cos(-x) == m.cos(x) && m.sin(-x) == -m.sin(x)
  {
    SpecialAngles(m);
    var half := m.pi / 2.0;
    assert m.Difference(0.0, x) && 0.0 - x == -x;
    assert m.Difference(half, -x) && half - -x == x - -half && m.Difference(x, -half);
    assert m.Difference(half, -half) && half - -half == m.pi;
    assert m.Difference(0.0, half) && 0.0 - half == -half;
  }

  lemma FareAt(m: MathLibrary, t: TaxiType, start: Location, destination: Location, h: real)
    requires m.Lawful() && !t.NoTaxiType?
    requires h == HaversineTerm(m, Radians(m, start.lat), Radians(m, start.lng),
                                Radians(m, destination.lat), Radians(m, destination.lng))
    ensures h == 0.0 ==> PriceForTrip(m, t, start, destination) == BaseFare(t)
    ensures h == 1.0 ==>
      PriceForTrip(m, t, start, destination) == BaseFare(t) + Round(PerKmRate(t) as real * (EARTH_RADIUS_KM * m.pi))
  {
    HaversineInRange(m, Radians(m, start.lat), Radians(m, start.lng),
                     Radians(m, destination.lat), Radians(m, destination.lng));
    RootInRange(m, h);
    UnitRoot(m.sqrt(h));
  }

  lemma UnitRoot(r: real)
    requires 0.0 <= r <= 1.0
    ensures r * r == 0.0 ==> r == 0.0
    ensures r * r == 1.0 ==> r == 1.0
  {
    ZeroSquare(r, r);
    if r < 1.0 { assert r * r <= r * 1.0; }
  }

  /** The bounds are exact: a trip to where it starts costs the base fare, one to the antipode the most. */
  lemma BoundsAreReached(m: MathLibrary, t: TaxiType, start: Location)
    requires m.Lawful() && !t.NoTaxiType?
    ensures PriceForTrip(m, t, start, start) == BaseFare(t)
    ensures PriceForTrip(m, t, start, Location(-start.lat, start.lng + 180.0))
         == BaseFare(t) + Round(PerKmRate(t) as real * (EARTH_RADIUS_KM * m.pi))
  {
    var antipode := Location(-start.lat, start.lng + 180.0);
    var lat, lng := Radians(m, start.lat), Radians(m, start.lng);
    SpecialAngles(m);
    OppositeAngle(m, lat);
    assert m.Pythagoras(lat);
    assert Radians(m, antipode.lat) == -lat && Radians(m, antipode.lng) - lng == m.pi;
    assert lng - lng == 0.0;
    HaversineOfAngle(m, lat, lng, lat, lng);
    HaversineOfAngle(m, lat, lng, -lat, Radians(m, antipode.lng));
    var s, c := m.sin(lat), m.cos(lat);
    assert c * c * 1.0 == c * c && s * -s == -(s * s) && c * c * -1.0 == -(c * c);
    FareAt(m, t, start, start, 0.0);
    FareAt(m, t, start, antipode, 1.0);
  }
}
