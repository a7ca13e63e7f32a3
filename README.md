# Ride fare calculator — Dafny model

This project models the fare calculator of a small ride-comparison web app
(`src/lib/pricing.ts`). From a single distance in kilometres it prices three
services — Rapido (bike taxi), Ola (car rides) and Porter (goods delivery).
Each fare is a base fare plus a per-kilometre rate, plus a surge charged on
the whole distance once the trip is strictly longer than the service's
threshold. The sum is rounded half up to an integer. The app also lists the
three services with their fixed features and a travel-time estimate, and it
names the cheapest service. Ties go to Rapido, then Ola, then Porter.

Layout:

- `js_number.dfy`, module `JsNumber`: the parts of JavaScript number
  behaviour the calculator depends on. These are NaN and the two infinities
  as separate kinds of value, comparisons against constants (false for NaN),
  `Math.round` (round half towards +infinity) and `Math.min`.
- `pricing.dfy`, module `Pricing`: the data shapes (`PriceResult`,
  `ServiceDetails`) and the three exported operations `CalculatePrices`,
  `GetServiceDetails` and `GetCheapestService`. Each returns either a value
  or one of the two errors, `InvalidInput` and `DistanceTooLarge`. The
  source throws these errors as exceptions.
- `pricing_properties.dfy`, module `PricingProperties`: lemmas that hold over
  all distances or relate several calls.

The source's behaviour at the edges is kept:

- NaN, negative infinity and every distance `<= 0` are invalid. This check
  comes first, so such a distance is never reported as too large.
- Positive infinity and every finite distance `> 100` are too large.
- 100 km itself is priced.
- Surge thresholds (10 km for Rapido, 15 km for Ola, 5 km for Porter) are
  strict comparisons. Some descriptions of this calculator say the surge
  applies "at or above" the threshold. The code compares with `>`, and the
  model follows the code.

All operations are pure functions of the distance. Repeating a call with the
same input therefore gives the same result by construction, and no lemma
states it.

## Model

| member | source | states |
|---|---|---|
| `JsNumber.ComparisonIsTotalExceptNaN` | src/lib/pricing.ts:20-24 | NaN is neither `<= c` nor `> c`; every other number is exactly one of the two, which is why NaN needs its own guard |
| `JsNumber.Round` | src/lib/pricing.ts:30-32 | `Math.round(x)` is the integer r with r - 1/2 <= x < r + 1/2 |
| `JsNumber.RoundIsNearest` | src/lib/pricing.ts:30 | no integer is closer to x than `Round(x)`, and an equally close one is never above it (ties go towards +infinity) |
| `JsNumber.Min3` | src/lib/pricing.ts:75 | `Math.min` of three fares is one of them and at most each of them |
| `Pricing.CalculatePrices` | src/lib/pricing.ts:19-36 | `InvalidInput` exactly for NaN, -infinity and d <= 0; `DistanceTooLarge` exactly for +infinity and d > 100; success exactly for 0 < d <= 100, with each service's fare the rounded amount of its tariff |
| `Pricing.GetServiceDetails` | src/lib/pricing.ts:43-66 | fails with exactly the error of `CalculatePrices`; otherwise three entries in the order Rapido, Ola, Porter, each with its calculated price, its three fixed features, and `Math.round(d * 2.5 / 3 / 4)` minutes with the minute unit label |
| `Pricing.Cheapest` | src/lib/pricing.ts:75-79 | the chosen service's fare is at most every other fare, and every service with the same fare comes no earlier in the list |
| `Pricing.GetCheapestService` | src/lib/pricing.ts:73-80 | fails with exactly the error of `CalculatePrices`; otherwise "Rapido" iff its fare is minimal, "Ola" iff its fare is below Rapido's and at most Porter's, "Porter" iff its fare is below both others |
| `PricingProperties.FareMonotone` | src/lib/pricing.ts:30-32 | for 0 <= d1 <= d2 each service's fare at d1 is at most its fare at d2, across the surge threshold too |
| `PricingProperties.FareBounds` | src/lib/pricing.ts:29-33 | at a valid distance every fare is at least the service's base fare (20, 25, 15) and at most its fare at 100 km |
| `PricingProperties.PricesAtMaxDistance` | src/lib/pricing.ts:24-33 | 100 km is accepted and priced 570, 505 and 695 |
| `PricingProperties.PricesMonotone` | src/lib/pricing.ts:29-33 | for two valid distances d1 <= d2 both succeed and every fare at d1 is at most the fare at d2 |
| `PricingProperties.SurgeThresholdIsStrict` | src/lib/pricing.ts:30-32 | at exactly its threshold a service charges no surge; at every greater distance the surge rate applies to the whole distance |
| `PricingProperties.TenKilometres` | src/lib/pricing.ts:29-79 | at 10 km the fares are 70, 70, 83 (Rapido has no surge yet) and the cheapest is Rapido by the tie-break |
| `PricingProperties.OneKilometre` | src/lib/pricing.ts:29-79 | at 1 km the fares are 25, 30 (29.5 rounded up), 21 and the cheapest is Porter |
| `PricingProperties.TravelTimesOrdered` | src/lib/pricing.ts:51-63 | on success the estimated minutes lie in 0..400 and are ordered Rapido <= Ola <= Porter |
| `PricingProperties.CheapestIsListedAtLowestPrice` | src/lib/pricing.ts:43-79 | the cheapest service's name appears in the details list, at the lowest listed price, and every entry before it is strictly more expensive |
| `PricingProperties.CheapestByDistance` | src/lib/pricing.ts:73-80 | the cheapest service is Porter up to 4 km, Porter or Rapido up to 5 km, Rapido up to 10 km, and Ola beyond 10 km |

## Left out

- IEEE-754 arithmetic: distances and products such as `distance * 0.3` are
  exact reals. Results can differ from the app's only where a double-precision
  error crosses a rounding boundary at .5.
- The JavaScript number type is reduced to NaN, the two infinities and finite
  reals. Negative zero behaves as zero, and the type coercion of `isNaN`
  does not arise for a `number` argument.
- The text of the two bilingual error messages: they are the two constructors
  `InvalidInput` and `DistanceTooLarge`.
- `Pricing.GetServiceDetails`: the estimated time is the pair (rounded minutes,
  unit label). Rendering the number as decimal text with a space before the
  label is not modelled.
