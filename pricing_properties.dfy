/**
 * Properties of the fare calculator that relate several calls or hold over all
 * valid distances: bounds and monotonicity of the fares, the surge thresholds,
 * the travel-time estimates, agreement between the service list and the
 * cheapest-service answer, and which service is cheapest at which distance.
 */
module PricingProperties {
  import opened JsNumber
  import opened Pricing

  /** A longer trip never costs less with the same service. */
  lemma FareMonotone(s: Service, d1: real, d2: real)
    requires 0.0 <= d1 <= d2
    ensures Fare(s, d1) <= Fare(s, d2)
  {
    // Every rate is non-negative, and the surge only adds once the threshold is passed.
    RoundMonotone(Amount(s.RateCard(), d1), Amount(s.RateCard(), d2));
  }

  /** Every fare at a valid distance is at least the base fare and at most the fare for 100 km. */
  lemma FareBounds(s: Service, d: real)
    requires IsValidDistance(d)
    ensures s.RateCard().baseFare <= Fare(s, d) as real
    ensures Fare(s, d) <= Fare(s, MaxDistanceKm)
  {
    var base := s.RateCard().baseFare;
    assert base == base.Floor as real;
    RoundOfInteger(base.Floor);
    FareMonotone(s, 0.0, d);
    FareMonotone(s, d, MaxDistanceKm);
  }

  /** The fares at 100 km, the largest fares the calculator ever returns. */
  lemma PricesAtMaxDistance()
    ensures CalculatePrices(Finite(MaxDistanceKm)) == Ok(PriceResult(570, 505, 695))
  {
  }

  /** Comparing two valid distances, each service's fare follows the distance. */
  lemma PricesMonotone(d1: real, d2: real)
    requires IsValidDistance(d1) && IsValidDistance(d2) && d1 <= d2
    ensures CalculatePrices(Finite(d1)).Ok? && CalculatePrices(Finite(d2)).Ok?
    ensures forall s: Service ::
      CalculatePrices(Finite(d1)).value.Of(s) <= CalculatePrices(Finite(d2)).value.Of(s)
  {
    forall s: Service
      ensures CalculatePrices(Finite(d1)).value.Of(s) <= CalculatePrices(Finite(d2)).value.Of(s)
    {
      FareMonotone(s, d1, d2);
    }
  }

  /**
   * The surge thresholds are strict: at exactly its threshold a service charges
   * no surge, and just past it the surge is charged on the whole distance.
   */
  lemma SurgeThresholdIsStrict(s: Service)
    ensures var t := s.RateCard();
      Fare(s, t.surgeAboveKm) == Round(t.baseFare + t.perKm * t.surgeAboveKm)
    ensures var t := s.RateCard(); forall d: real | d > t.surgeAboveKm ::
      Fare(s, d) == Round(t.baseFare + (t.perKm + t.surgePerKm) * d)
  {
  }

  /** At 10 km Rapido (no surge yet) and Ola tie at 70, Porter costs 83, and the tie goes to Rapido. */
  lemma TenKilometres()
    ensures CalculatePrices(Finite(10.0)) == Ok(PriceResult(70, 70, 83))
    ensures GetCheapestService(Finite(10.0)) == Ok("Rapido")
  {
  }

  /** At 1 km Ola's 29.5 rounds up to 30 and Porter is the cheapest at 21. */
  lemma OneKilometre()
    ensures CalculatePrices(Finite(1.0)) == Ok(PriceResult(25, 30, 21))
    ensures GetCheapestService(Finite(1.0)) == Ok("Porter")
  {
  }

  /**
   * The travel-time estimates at a valid distance are between 0 and 400
   * minutes, and Rapido is never slower than Ola, nor Ola than Porter.
   */
  lemma TravelTimesOrdered(x: Number)
    requires GetServiceDetails(x).Ok?
    ensures var ds := GetServiceDetails(x).value;
      && 0 <= ds[0].estimatedTime.minutes
      && ds[0].estimatedTime.minutes <= ds[1].estimatedTime.minutes
      && ds[1].estimatedTime.minutes <= ds[2].estimatedTime.minutes
      && ds[2].estimatedTime.minutes <= 400
  {
    var d := x.value;
    RoundMonotone(-0.5, d * 2.5);
    RoundMonotone(d * 2.5, d * 3.0);
    RoundMonotone(d * 3.0, d * 4.0);
    RoundMonotone(d * 4.0, 400.0);
  }

  /**
   * The cheapest service is listed among the service details, at the lowest
   * price of the list, and every service listed before it costs strictly more.
   */
  lemma CheapestIsListedAtLowestPrice(x: Number)
    requires GetCheapestService(x).Ok?
    ensures GetServiceDetails(x).Ok?
    ensures var ds := GetServiceDetails(x).value; var name := GetCheapestService(x).value;
      exists i | 0 <= i < |ds| :: ds[i].name == name
        && (forall j | 0 <= j < |ds| :: ds[i].price <= ds[j].price)
        && (forall j | 0 <= j < i :: ds[j].price > ds[i].price)
  {
    var ds := GetServiceDetails(x).value;
    var p := CalculatePrices(x).value;
    var s := Cheapest(p);
    var i := s.Position();
    assert Services[i] == s;
    assert ds[i].name == GetCheapestService(x).value;
    forall j | 0 <= j < |ds|
      ensures ds[i].price <= ds[j].price
    {
      assert ds[j].price == p.Of(Services[j]);
    }
    forall j | 0 <= j < i
      ensures ds[j].price > ds[i].price
    {
      assert ds[j].price == p.Of(Services[j]);
      assert Services[j].Position() == j;
    }
  }

  /**
   * Which service is cheapest at which distance: Porter up to 4 km, Porter or
   * Rapido (as rounding decides) up to 5 km, Rapido up to 10 km (where it ties
   * with Ola and wins the tie), and Ola beyond 10 km.
   */
  lemma CheapestByDistance(d: real)
    requires IsValidDistance(d)
    ensures d <= 4.0 ==> GetCheapestService(Finite(d)) == Ok("Porter")
    ensures 4.0 < d <= 5.0 ==> GetCheapestService(Finite(d)) in {Ok("Porter"), Ok("Rapido")}
    ensures 5.0 < d <= 10.0 ==> GetCheapestService(Finite(d)) == Ok("Rapido")
    ensures 10.0 < d ==> GetCheapestService(Finite(d)) == Ok("Ola")
  {
    var rapido := Amount(Rapido.RateCard(), d);
    var ola := Amount(Ola.RateCard(), d);
    var porter := Amount(Porter.RateCard(), d);
    if d <= 4.0 {
      RoundSeparates(porter, rapido);
      RoundSeparates(porter, ola);
    } else if d <= 5.0 {
      RoundMonotone(porter, rapido);
      RoundSeparates(porter, ola);
    } else if d <= 10.0 {
      RoundMonotone(rapido, ola);
      RoundMonotone(rapido, porter);
    } else {
      RoundSeparates(ola, rapido);
      RoundSeparates(ola, porter);
    }
  }
}
