/** What a distance costs, through three roundings (Front-End/lib/travel-fee.ts). */
module TravelFee {
  import opened Rounding

  datatype Terms = Terms(freeMiles: real, perMile: real, baseFee: real, roundTrip: bool)

  /** To a tenth of a mile. */
  function Round1(x: real): real {
    Round(x * 10.0) as real / 10.0
  }

  function Positive(x: real): real {
    if x > 0.0 then x else 0.0
  }

  function MileCharge(t: Terms, miles: real): real {
    miles * t.perMile
  }

  function FeeOf(t: Terms, chargeable: real): real {
    Round2(t.baseFee + MileCharge(t, chargeable))
  }

  datatype Quote = Quote(miles: real, chargeable: real, fee: real)

  function FeeForMiles(t: Terms, oneWayMiles: real): Quote {
    var oneWay := Round1(Positive(oneWayMiles));
    var miles := if t.roundTrip then Round1(oneWay * 2.0) else oneWay;
    var chargeable := Round1(Positive(miles - t.freeMiles));
    Quote(miles, chargeable, FeeOf(t, chargeable))
  }

  function Trips(t: Terms): real {
    if t.roundTrip then 2.0 else 1.0
  }

  /** The miles there are, with no rounding. */
  function ExactMiles(t: Terms, oneWayMiles: real): real {
    Positive(oneWayMiles) * Trips(t)
  }

  /** The fee with no rounding at all. */
  function ExactFee(t: Terms, oneWayMiles: real): real {
    t.baseFee + MileCharge(t, Positive(ExactMiles(t, oneWayMiles) - t.freeMiles))
  }

  lemma Round1Is(x: real)
    ensures x - 0.05 < Round1(x) <= x + 0.05
  {
    RoundNear(x * 10.0);
  }

  lemma Round2Is(x: real)
    ensures x - 0.005 < Round2(x) <= x + 0.005
  {
    RoundNear(x * 100.0);
  }

  lemma Round1Monotone(x: real, y: real)
    requires x <= y
    ensures Round1(x) <= Round1(y)
  {
    RoundMonotone(x * 10.0, y * 10.0);
  }

  lemma TenthsStay(k: int)
    ensures Round1(k as real / 10.0) == k as real / 10.0
  {
    var x := k as real / 10.0;
    assert x * 10.0 == k as real;
    assert Round(x * 10.0) == k;
  }

  /** Doubling a distance already in tenths needs no rounding. */
  lemma TwiceATenth(x: real)
    ensures Round1(Round1(x) * 2.0) == Round1(x) * 2.0
  {
    var k := Round(x * 10.0);
    TenthsStay(2 * k);
    assert Round1(x) * 2.0 == (2 * k) as real / 10.0;
  }

  lemma ChargeOrdered(t: Terms, less: real, more: real)
    requires less <= more && t.perMile >= 0.0
    ensures MileCharge(t, less) <= MileCharge(t, more)
  {
  }

  lemma FurtherChargesNoLess(t: Terms, near: real, far: real)
    requires near <= far
    ensures FeeForMiles(t, near).miles <= FeeForMiles(t, far).miles
    ensures FeeForMiles(t, near).chargeable <= FeeForMiles(t, far).chargeable
  {
    var a, b := Round1(Positive(near)), Round1(Positive(far));
    Round1Monotone(Positive(near), Positive(far));
    Round1Monotone(a * 2.0, b * 2.0);
    var m, n := if t.roundTrip then Round1(a * 2.0) else a, if t.roundTrip then Round1(b * 2.0) else b;
    Round1Monotone(Positive(m - t.freeMiles), Positive(n - t.freeMiles));
  }

  /** Further away never costs less, through all the roundings. */
  lemma FurtherCostsNoLess(t: Terms, near: real, far: real)
    requires near <= far && t.perMile >= 0.0
    ensures FeeForMiles(t, near).miles <= FeeForMiles(t, far).miles
    ensures FeeForMiles(t, near).fee <= FeeForMiles(t, far).fee
  {
    FurtherChargesNoLess(t, near, far);
    FeeOrdered(t, FeeForMiles(t, near).chargeable, FeeForMiles(t, far).chargeable);
  }

  lemma FeeOrdered(t: Terms, less: real, more: real)
    requires less <= more && t.perMile >= 0.0
    ensures FeeOf(t, less) <= FeeOf(t, more)
  {
    ChargeOrdered(t, less, more);
    RoundMonotone((t.baseFee + MileCharge(t, less)) * 100.0, (t.baseFee + MileCharge(t, more)) * 100.0);
  }

  // ----- each rounding is to the nearest -----

  predicate InTenths(x: real) {
    x == (x * 10.0).Floor as real / 10.0
  }

  predicate InCents(x: real) {
    x == (x * 100.0).Floor as real / 100.0
  }

  lemma Round1Tenths(x: real)
    ensures InTenths(Round1(x))
  {
    var k := Round(x * 10.0);
    assert Round1(x) * 10.0 == k as real;
  }

  lemma Round2Cents(x: real)
    ensures InCents(Round2(x))
  {
    var k := Round(x * 100.0);
    assert Round2(x) * 100.0 == k as real;
  }

  /**
    A quote: the miles one way to the nearest tenth, doubled for a round trip; those past the free ones to
    the nearest tenth; and the fee for them to the nearest cent. Halves go up.
   */
  lemma QuoteIsNearest(t: Terms, oneWayMiles: real)
    ensures var q := FeeForMiles(t, oneWayMiles);
      && InTenths(q.miles / Trips(t)) && InTenths(q.chargeable) && InCents(q.fee)
      && Positive(oneWayMiles) - 0.05 < q.miles / Trips(t) <= Positive(oneWayMiles) + 0.05
      && Positive(q.miles - t.freeMiles) - 0.05 < q.chargeable <= Positive(q.miles - t.freeMiles) + 0.05
      && (var fee := t.baseFee + q.chargeable * t.perMile; fee - 0.005 < q.fee <= fee + 0.005)
  {
    var d, q := Positive(oneWayMiles), FeeForMiles(t, oneWayMiles);
    MilesAre(t, oneWayMiles);
    assert q.miles / Trips(t) == Round1(d);
    Round1Tenths(d);
    Round1Is(d);
    Round1Tenths(Positive(q.miles - t.freeMiles));
    Round1Is(Positive(q.miles - t.freeMiles));
    Round2Cents(t.baseFee + MileCharge(t, q.chargeable));
    Round2Is(t.baseFee + MileCharge(t, q.chargeable));
  }

  // ----- the free miles -----

  /** The most miles a distance inside the free ones is taken for. */
  function Reach(t: Terms): real {
    Round1(t.freeMiles / Trips(t)) * Trips(t)
  }

  lemma MilesAre(t: Terms, oneWayMiles: real)
    ensures FeeForMiles(t, oneWayMiles).miles == Round1(Positive(oneWayMiles)) * Trips(t)
  {
    TwiceATenth(Positive(oneWayMiles));
  }

  lemma FreeAtReach(t: Terms)
    requires t.freeMiles >= 0.0
    ensures var d := t.freeMiles / Trips(t);
      ExactMiles(t, d) == t.freeMiles && FeeForMiles(t, d).miles == Reach(t)
  {
    MilesAre(t, t.freeMiles / Trips(t));
  }

  /** Rounding to a tenth takes away exactly what is under half a tenth. */
  lemma Round1Zero(x: real)
    requires x >= 0.0
    ensures Round1(x) == 0.0 <==> x < 0.05
  {
    assert Round(x * 10.0) == 0 <==> x * 10.0 < 0.5;
  }

  lemma ChargeableIsZero(t: Terms, oneWayMiles: real)
    ensures FeeForMiles(t, oneWayMiles).chargeable == 0.0 <==> FeeForMiles(t, oneWayMiles).miles < t.freeMiles + 0.05
  {
    Round1Zero(Positive(FeeForMiles(t, oneWayMiles).miles - t.freeMiles));
  }

  /** No distance inside the free miles is charged for exactly when rounding them up stays under half a tenth. */
  lemma FreeMilesAreFreeExactly(t: Terms)
    requires t.freeMiles >= 0.0
    ensures (forall d | ExactMiles(t, d) <= t.freeMiles :: FeeForMiles(t, d).chargeable == 0.0) <==> Reach(t) < t.freeMiles + 0.05
  {
    var most := t.freeMiles / Trips(t);
    FreeAtReach(t);
    ChargeableIsZero(t, most);
    forall d | ExactMiles(t, d) <= t.freeMiles && Reach(t) < t.freeMiles + 0.05
      ensures FeeForMiles(t, d).chargeable == 0.0
    {
      assert d <= most;
      FurtherChargesNoLess(t, d, most);
      ChargeableIsZero(t, d);
    }
  }

  lemma WholeReach(t: Terms, k: int)
    requires t.freeMiles == k as real
    ensures Reach(t) == t.freeMiles
  {
    if t.roundTrip {
      assert t.freeMiles / Trips(t) == (5 * k) as real / 10.0;
      TenthsStay(5 * k);
    } else {
      assert t.freeMiles / Trips(t) == (10 * k) as real / 10.0;
      TenthsStay(10 * k);
    }
  }

  /** A whole number of free miles, as the API keeps them: every distance inside costs the base fee, to the cent. */
  lemma FreeMilesAreFree(t: Terms, k: nat, oneWayMiles: real)
    requires t.freeMiles == k as real && ExactMiles(t, oneWayMiles) <= t.freeMiles
    ensures FeeForMiles(t, oneWayMiles).chargeable == 0.0
    ensures FeeForMiles(t, oneWayMiles).fee == Round2(t.baseFee)
  {
    WholeReach(t, k);
    FreeMilesAreFreeExactly(t);
    assert FeeForMiles(t, oneWayMiles).chargeable == 0.0;
    assert MileCharge(t, 0.0) == 0.0;
  }

  /** Otherwise not: 12.45 miles each way are exactly the 24.9 free ones, and cost 20 cents at $2 a mile. */
  lemma FreeMilesCanCost()
    ensures var t := Terms(24.9, 2.0, 0.0, true);
      ExactMiles(t, 12.45) == t.freeMiles && FeeForMiles(t, 12.45) == Quote(25.0, 0.1, 0.2)
  {
  }

  lemma PositiveNear(x: real, y: real, e: real)
    requires x - e <= y <= x + e && e >= 0.0
    ensures Positive(x) - e <= Positive(y) <= Positive(x) + e
  {
  }

  /** The chargeable miles are within a tenth and a half of the exact ones (a tenth, one way). */
  lemma ChargeableNear(t: Terms, oneWayMiles: real)
    ensures var exact := Positive(ExactMiles(t, oneWayMiles) - t.freeMiles);
      var e := if t.roundTrip then 0.15 else 0.1;
      exact - e <= FeeForMiles(t, oneWayMiles).chargeable <= exact + e
  {
    var d := Positive(oneWayMiles);
    var miles := FeeForMiles(t, oneWayMiles).miles;
    Round1Is(d);
    TwiceATenth(d);
    var exactMiles := ExactMiles(t, oneWayMiles);
    var e := if t.roundTrip then 0.1 else 0.05;
    assert exactMiles - e <= miles <= exactMiles + e;
    PositiveNear(exactMiles - t.freeMiles, miles - t.freeMiles, e);
    Round1Is(Positive(miles - t.freeMiles));
  }

  lemma ChargeNear(t: Terms, exact: real, miles: real, e: real)
    requires exact - e <= miles <= exact + e && t.perMile >= 0.0
    ensures MileCharge(t, exact) - e * t.perMile <= MileCharge(t, miles) <= MileCharge(t, exact) + e * t.perMile
  {
    ChargeOrdered(t, miles, exact + e);
    ChargeOrdered(t, exact - e, miles);
    assert (exact + e) * t.perMile == exact * t.perMile + e * t.perMile;
    assert (exact - e) * t.perMile == exact * t.perMile - e * t.perMile;
  }

  /** Three roundings never move the fee by more than 0.15 of a mile (0.1 one way) and half a cent. */
  lemma FeeNearExact(t: Terms, oneWayMiles: real)
    requires t.perMile >= 0.0
    ensures var slack := (if t.roundTrip then 0.15 else 0.1) * t.perMile + 0.005;
      ExactFee(t, oneWayMiles) - slack <= FeeForMiles(t, oneWayMiles).fee <= ExactFee(t, oneWayMiles) + slack
  {
    var chargeable := FeeForMiles(t, oneWayMiles).chargeable;
    var exact := Positive(ExactMiles(t, oneWayMiles) - t.freeMiles);
    ChargeableNear(t, oneWayMiles);
    ChargeNear(t, exact, chargeable, if t.roundTrip then 0.15 else 0.1);
    Round2Is(t.baseFee + MileCharge(t, chargeable));
  }
}
