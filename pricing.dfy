/**
 * Fare calculator for three ride and delivery services (Rapido, Ola, Porter):
 * validates a distance in kilometres, prices each service with a base fare, a
 * per-kilometre rate and a long-distance surge, lists the services with their
 * features and travel times, and names the cheapest one.
 */
module Pricing {
  import opened JsNumber

  /** The two ways a distance is refused; the source throws a bilingual message for each. */
  datatype PricingError = InvalidInput | DistanceTooLarge

  datatype Result<T> = Ok(value: T) | Err(error: PricingError)

  /** The longest distance priced, in kilometres (inclusive). */
  const MaxDistanceKm: real := 100.0

  /**
   * A pricing formula: `baseFare + perKm * d`, plus `surgePerKm * d` when the
   * distance is strictly greater than `surgeAboveKm`.
   */
  datatype Tariff = Tariff(baseFare: real, perKm: real, surgeAboveKm: real, surgePerKm: real)

  /** The services, declared in the order in which they are listed and tie-broken. */
  datatype Service = Rapido | Ola | Porter {

    function Name(): string
    {
      match this
      case Rapido => "Rapido"
      case Ola => "Ola"
      case Porter => "Porter"
    }

    /** Position in the service list; a lower position wins a price tie. */
    function Position(): nat
    {
      match this
      case Rapido => 0
      case Ola => 1
      case Porter => 2
    }

    function RateCard(): Tariff
    {
      match this
      case Rapido => Tariff(20.0, 5.0, 10.0, 0.5)
      case Ola => Tariff(25.0, 4.5, 15.0, 0.3)
      case Porter => Tariff(15.0, 6.0, 5.0, 0.8)
    }

    function Features(): seq<string>
    {
      match this
      case Rapido => ["Bike Taxi", "Quick Rides", "Affordable"]
      case Ola => ["Car Rides", "AC Available", "Safe & Reliable"]
      case Porter => ["Goods Delivery", "Truck/Tempo", "Heavy Items"]
    }

    /** Minutes of travel per kilometre used for the time estimate. */
    function MinutesPerKm(): real
    {
      match this
      case Rapido => 2.5
      case Ola => 3.0
      case Porter => 4.0
    }
  }

  /** The service list in its fixed order. */
  const Services: seq<Service> := [Rapido, Ola, Porter]

  /** One integral fare per service. */
  datatype PriceResult = PriceResult(rapido: int, ola: int, porter: int) {
    function Of(s: Service): int
    {
      match s
      case Rapido => rapido
      case Ola => ola
      case Porter => porter
    }
  }

  /** The unit label of a time estimate: "minutes" in Hindi. */
  const MinuteUnit: string := "\U{092E}\U{093F}\U{0928}\U{091F}"

  /** A time estimate, shown as the number of minutes followed by the unit label. */
  datatype EstimatedTime = EstimatedTime(minutes: int, unit: string)

  datatype ServiceDetails = ServiceDetails(
    name: string,
    price: int,
    features: seq<string>,
    estimatedTime: EstimatedTime)

  /** The distances that are priced: positive and at most the maximum. */
  predicate IsValidDistance(d: real)
  {
    0.0 < d <= MaxDistanceKm
  }

  /** The unrounded amount a tariff charges for `d` kilometres. */
  function Amount(t: Tariff, d: real): real
  {
    t.baseFare + t.perKm * d + (if d > t.surgeAboveKm then d * t.surgePerKm else 0.0)
  }

  /** The fare of a service: its amount rounded half up to an integer. */
  function Fare(s: Service, d: real): int
  {
    Round(Amount(s.RateCard(), d))
  }

  /**
   * `calculatePrices`: NaN and non-positive distances are invalid, which is
   * checked before the upper bound, so they never report the distance as too
   * large; anything else above 100 km is too large; 100 km itself is priced.
   */
  function CalculatePrices(distance: Number): (r: Result<PriceResult>)
    ensures r == Err(InvalidInput) <==>
      distance.NaN? || distance.NegativeInfinity? || (distance.Finite? && distance.value <= 0.0)
    ensures r == Err(DistanceTooLarge) <==>
      distance.PositiveInfinity? || (distance.Finite? && distance.value > MaxDistanceKm)
    ensures r.Ok? <==> distance.Finite? && IsValidDistance(distance.value)
    ensures r.Ok? ==> forall s: Service :: r.value.Of(s) == Fare(s, distance.value)
  {
    if IsNaN(distance) || AtMost(distance, 0.0) then
      Err(InvalidInput)
    else if Exceeds(distance, MaxDistanceKm) then
      Err(DistanceTooLarge)
    else
      var d := distance.value;
      Ok(PriceResult(Fare(Rapido, d), Fare(Ola, d), Fare(Porter, d)))
  }

  /** The listing entry of one service at a valid distance `d`. */
  function Detail(s: Service, prices: PriceResult, d: real): ServiceDetails
  {
    ServiceDetails(s.Name(), prices.Of(s), s.Features(), EstimatedTime(Round(d * s.MinutesPerKm()), MinuteUnit))
  }

  /**
   * `getServiceDetails`: fails exactly as `CalculatePrices` does; otherwise
   * lists Rapido, Ola and Porter in that order, each with its calculated
   * price, its fixed features and its rounded travel time in minutes.
   */
  function GetServiceDetails(distance: Number): (r: Result<seq<ServiceDetails>>)
    ensures r.Err? <==> CalculatePrices(distance).Err?
    ensures r.Err? ==> r.error == CalculatePrices(distance).error
    ensures r.Ok? ==> |r.value| == |Services| == 3
    ensures r.Ok? ==> forall i | 0 <= i < |r.value| ::
      && r.value[i].name == Services[i].Name()
      && r.value[i].price == CalculatePrices(distance).value.Of(Services[i])
      && r.value[i].features == Services[i].Features()
      && |r.value[i].features| == 3
      && r.value[i].estimatedTime.minutes == Round(distance.value * Services[i].MinutesPerKm())
      && r.value[i].estimatedTime.unit == MinuteUnit
  {
    match CalculatePrices(distance)
    case Err(e) => Err(e)
    case Ok(prices) =>
      var d := distance.value;
      Ok([Detail(Rapido, prices, d), Detail(Ola, prices, d), Detail(Porter, prices, d)])
  }

  /**
   * The service with the lowest fare; of several with the lowest fare, the one
   * listed first.
   */
  function Cheapest(p: PriceResult): (s: Service)
    ensures forall t: Service :: p.Of(s) <= p.Of(t)
    ensures forall t: Service :: p.Of(t) == p.Of(s) ==> s.Position() <= t.Position()
  {
    var minPrice := Min3(p.rapido, p.ola, p.porter);
    if p.rapido == minPrice then Rapido
    else if p.ola == minPrice then Ola
    else Porter
  }

  /**
   * `getCheapestService`: fails exactly as `CalculatePrices` does; otherwise
   * Rapido when its fare is minimal, else Ola when its fare is minimal, else Porter.
   */
  function GetCheapestService(distance: Number): (r: Result<string>)
    ensures r.Err? <==> CalculatePrices(distance).Err?
    ensures r.Err? ==> r.error == CalculatePrices(distance).error
    ensures r.Ok? ==> var p := CalculatePrices(distance).value;
      && (r.value == "Rapido" <==> p.rapido <= p.ola && p.rapido <= p.porter)
      && (r.value == "Ola" <==> p.ola < p.rapido && p.ola <= p.porter)
      && (r.value == "Porter" <==> p.porter < p.rapido && p.porter < p.ola)
  {
    match CalculatePrices(distance)
    case Err(e) => Err(e)
    case Ok(prices) => Ok(Cheapest(prices).Name())
  }
}
