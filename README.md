# Shipping-fee calculator, modelled in Dafny

This project models the shipping-fee calculator in `Practicals/Practical_3` and proves properties of the model. The calculator turns a package weight (kilograms), a destination zone and, in its second version, a discount code into a fee or a classified error. It has two entry points:

- `CalculateShippingFee` is the legacy function. It checks the weight against (0, 50] and then dispatches on the exact zone name: `Domestic` costs 5 + w, `Express` costs 30 + 5w, `International` fails as not implemented, and any other zone fails as invalid. It does no rounding.
- `ShippingCalculator` is the configurable version. It is an object holding rates, an international per-kilogram rate table and a discount-code table. `CalculateShippingFeeV2` runs a fixed pipeline: weight check, zone base fee, insurance surcharge strictly above a threshold, discount, then rounding to cents. `SetInternationalRate` and `AddDiscountCode` change the two tables in place.

Files and modules:

- `fees.dfy` (`Fees`): the error taxonomy `FeeError`, the result types `FeeResult` and `Outcome`, and the weight bound `ValidWeight` (0 < w <= 50) that both versions check first.
- `rounding.dfy` (`Rounding`): Go's `math.Round` as `RoundHalfAway` (nearest integer, ties away from zero, built from `Floor`), and `Round2`, which is `math.Round(x*100)/100`.
- `shipping.dfy` (`Shipping`): the legacy function and its lemmas.
- `shipping_v2.dfy` (`ShippingV2`): the configuration as a value (`RateConfig`), the fee as a function of it (`FeeV2`), and the class `ShippingCalculator`. The class has the source's eight fields. Its fee method runs the stages one after another, reassigning a local `baseFee` as the source does, and is proved to return `FeeV2` of the current fields. Its two setters state the whole new state.

Modelling choices:

- Weights, rates and fees are Dafny `real`s, so all arithmetic is exact rational arithmetic rather than IEEE-754 `float64`.
- Errors are tagged variants that carry the offending zone or code. The message texts are not modelled.
- The international branch looks its rate up under the zone name, which inside that branch is always the literal `"International"` (shipping_V2.go:50-51). The model keeps this quirk: a rate registered under any other name can never be reached (`OtherRateKeysUnreachable`).
- The discount lookup runs even for the empty code (shipping_V2.go:67). If `""` were a key of the table, its discount would be applied. The model keeps this (`DiscountFactor`).
- `FeeV2` states the fee in closed form: the base fee times an insurance multiplier times a discount multiplier, rounded. Over exact reals these two multiplications commute, so "insurance before discount" does not change a successful fee. The order could only matter under `float64` rounding, which is not modelled. What the order does fix is which error comes first: a zone error is reported before a discount-code error.
- The object invariant `Valid()` says every stored discount lies in (0, 1). The constructor establishes it and both setters preserve it (over reals; see "## Left out" for NaN). `Valid()` alone bounds no fee. Together with `RatesNonNegative` (no base rate, per-kilogram rate or insurance rate is negative), `FeeBounds` shows both bounds: every fee is non-negative, and a discount never raises a fee. `Valid()` does not include `RatesNonNegative`, and the source does not enforce it: `SetInternationalRate` (shipping_V2.go:77-80) accepts any rate. With the default discounts and `"International"` mapped to -1, a 10 kg international parcel without a code costs -10. With `SUMMER10` it costs -9, so the discount moves the fee toward zero and raises it (`NegativeRateExample`).

## Model

| member | source | states |
|---|---|---|
| `Rounding.RoundHalfAway` | Practicals/Practical_3/shipping_V2.go:74 | the result is within 1/2 of the input and has the input's sign |
| `Rounding.Round2` | Practicals/Practical_3/shipping_V2.go:74 | the result is a whole number of cents and lies within half a cent of the input |
| `Rounding.RoundHalfAwayOfInt` | Practicals/Practical_3/shipping_V2.go:74 | rounding leaves an integer unchanged |
| `Rounding.Round2OfCents` | Practicals/Practical_3/shipping_V2.go:74 | an amount that is already whole cents is returned unchanged |
| `Rounding.Round2Idempotent` | Practicals/Practical_3/shipping_V2.go:74 | rounding an already rounded fee changes nothing |
| `Rounding.RoundHalfAwayOdd` | Practicals/Practical_3/shipping_V2.go:74 | rounding is symmetric about zero |
| `Rounding.RoundHalfAwayTies` | Practicals/Practical_3/shipping_V2.go:74 | a tie k + 1/2 rounds to k + 1, and -(k + 1/2) to -(k + 1) (half away from zero) |
| `Rounding.RoundHalfAwayMonotone` | Practicals/Practical_3/shipping_V2.go:74 | rounding preserves order |
| `Rounding.Round2Monotone` | Practicals/Practical_3/shipping_V2.go:74 | rounding to cents preserves order |
| `Rounding.Round2Nearest` | Practicals/Practical_3/shipping_V2.go:74 | no whole number of cents is closer to the input than the rounded fee |
| `Shipping.CalculateShippingFee` | Practicals/Practical_3/shipping.go:10-27 | an out-of-range weight gives InvalidWeight; success iff the weight is valid and the zone is Domestic or Express; Domestic fees lie in (5, 55] and Express fees in (30, 280]; an UnknownZone error names the zone, which is none of the three known zones |
| `Shipping.WeightCheckedFirst` | Practicals/Practical_3/shipping.go:12-14 | a weight <= 0 or > 50 gives InvalidWeight for every zone string |
| `Shipping.DomesticFee` | Practicals/Practical_3/shipping.go:18-19 | a valid weight w to Domestic costs exactly 5 + w |
| `Shipping.ExpressFee` | Practicals/Practical_3/shipping.go:20-21 | a valid weight w to Express costs exactly 30 + 5w |
| `Shipping.InternationalNotImplemented` | Practicals/Practical_3/shipping.go:22-23 | International with a valid weight always gives NotImplemented |
| `Shipping.UnknownZoneRejected` | Practicals/Practical_3/shipping.go:24-25 | any other zone with a valid weight gives UnknownZone carrying that zone |
| `Shipping.PartitionExamples` | Practicals/Practical_3/shipping_test.go:7-48 | -5 and 51 are rejected, 25 to Domestic costs 30, 10 to Domestic succeeds, "InvalidZone" is rejected |
| `Shipping.BoundaryExamples` | Practicals/Practical_3/shipping_test.go:50-108 | -0.01, 0 and 50.01 are rejected; 0.01 costs 5.01 and 50 costs 55 (exactly, over reals) |
| `Shipping.DecisionTableExamples` | Practicals/Practical_3/shipping_test.go:110-168 | one case per decision-table rule: -1 rejected, 10 Domestic costs 15, International not implemented, 10 Express costs 80, "Invalid" rejected |
| `ShippingV2.DefaultRates` | Practicals/Practical_3/shipping_V2.go:22-34 | the default configuration has non-negative rates, discounts in (0, 1), an empty international table, and exactly the codes SUMMER10 and BULK20 |
| `ShippingV2.BaseFee` | Practicals/Practical_3/shipping_V2.go:45-58 | the base fee exists iff the zone is known and, for International, the key "International" is in the table; an international base fee is that entry times the weight; a missing entry gives RateUnavailable("International"); an unknown zone gives UnknownZone(zone) |
| `ShippingV2.FeeV2` | Practicals/Practical_3/shipping_V2.go:36-75 | InvalidWeight for any weight outside (0, 50], whatever the zone and code; then UnknownZone for an unrecognised zone; RateUnavailable when the International entry is missing; success iff weight, zone, rate entry and code are all acceptable; once weight and zone pass, a code that is not accepted gives UnknownDiscountCode(code), and that error always names a non-empty code absent from the table; every fee is whole cents |
| `ShippingV2.InsuranceFactor` | Practicals/Practical_3/shipping_V2.go:61-64 | the insurance multiplier is exactly 1 at or below the threshold, and at least 1 when the insurance rate is non-negative |
| `ShippingV2.DiscountFactor` | Practicals/Practical_3/shipping_V2.go:66-68 | a code not in the table leaves the fee unscaled (multiplier 1); when every discount lies in (0, 1), the multiplier lies in (0, 1] |
| `ShippingV2.FeeUpToThreshold` | Practicals/Practical_3/shipping_V2.go:60-68 | at or below the threshold, including exactly at it, the fee is round(base * discount multiplier): no surcharge is added |
| `ShippingV2.NoSurchargeUpToThreshold` | Practicals/Practical_3/shipping_V2.go:61-64 | at or below the threshold, including exactly at it, the insurance rate has no effect on the result |
| `ShippingV2.SurchargeAboveThreshold` | Practicals/Practical_3/shipping_V2.go:60-64 | strictly above the threshold the fee is round(base * (1 + insuranceRate) * discount multiplier) |
| `ShippingV2.OtherRateKeysUnreachable` | Practicals/Practical_3/shipping_V2.go:50-55 | registering a rate under any key other than "International" changes no fee for any zone, weight or code |
| `ShippingV2.InternationalRegisteredRate` | Practicals/Practical_3/shipping_V2.go:50-52 | once a rate r is registered under "International", an international parcel of valid weight w with an accepted code costs round(r * w * insurance multiplier * discount multiplier) |
| `ShippingV2.AddedCodeApplies` | Practicals/Practical_3/shipping_V2.go:66-71 | a code stored with fraction p makes the next fee with that code round(base * insurance multiplier * (1 - p)), so the discount applies to the surcharged fee |
| `ShippingV2.FeeBounds` | Practicals/Practical_3/shipping_V2.go:60-74 | with non-negative rates and discounts in (0, 1), every fee is non-negative and no larger than the rounded fee without a discount |
| `ShippingV2.NegativeRateExample` | Practicals/Practical_3/shipping_V2.go:77-80 | with the default discounts, all in (0, 1), and `"International"` set to -1, a 10 kg international parcel costs -10 without a code and -9 with SUMMER10: non-negative fees, and discounts that never raise a fee, both need non-negative rates, which the setter does not check |
| `ShippingV2.ChargeBounds` | Practicals/Practical_3/shipping_V2.go:67-68 | a discount multiplier in [0, 1] on a non-negative surcharged fee gives, once rounded, a value between 0 and the rounded surcharged fee |
| `ShippingV2.DefaultAgreesWithLegacy` | Practicals/Practical_3/shipping_V2.go:45-49 | with the default rates, no code and weight <= 20, the Domestic and Express fees equal the legacy fee rounded to cents |
| `ShippingV2.DefaultInsuredLegacy` | Practicals/Practical_3/shipping_V2.go:61-64 | with the default rates, no code and weight > 20, the Domestic and Express fees equal the legacy fee times 1.05, rounded to cents |
| `ShippingV2.DefaultExamples` | Practicals/Practical_3/shipping_V2.go:22-74 | worked default fees: 25 kg Domestic costs 31.5, 20 kg costs 25 (no surcharge at the threshold), 10 kg Express with SUMMER10 costs 72, 25 kg Domestic with BULK20 costs 25.2; an unknown code, the missing international rate, an unknown zone and an out-of-range weight give their errors |
| `ShippingV2.ShippingCalculator.constructor` | Practicals/Practical_3/shipping_V2.go:22-34 | a new calculator holds the default configuration and satisfies the invariant |
| `ShippingV2.ShippingCalculator.CalculateShippingFeeV2` | Practicals/Practical_3/shipping_V2.go:36-75 | the staged computation returns exactly `FeeV2` of the current fields; it has no modifies clause, so it never changes the calculator |
| `ShippingV2.ShippingCalculator.SetInternationalRate` | Practicals/Practical_3/shipping_V2.go:77-80 | the table becomes the old table with zone mapped to the rate (last write wins, other keys kept); no other field changes; the invariant is unaffected |
| `ShippingV2.ShippingCalculator.AddDiscountCode` | Practicals/Practical_3/shipping_V2.go:82-89 | fails with InvalidDiscountPercentage iff the fraction is <= 0 or >= 1, leaving the table unchanged; otherwise inserts or overwrites exactly that code; no other field changes; the invariant (all discounts in (0, 1)) is preserved |

## Left out

- IEEE-754 `float64` arithmetic is not modelled: all values are exact reals. Under `float64`, `math.Round(x*100)/100` is only the nearest binary value to a whole number of cents, and a product such as `baseFee * insuranceRate` is rounded at every step. The model's results are the exact values those computations approximate.
- NaN and infinities are not modelled. Every comparison with NaN is false, so the Go guards `weight <= 0 || weight > 50` (shipping.go:12, shipping_V2.go:39) and `discountPercentage <= 0 || discountPercentage >= 1` (shipping_V2.go:84) both let NaN through. In Go, a NaN weight therefore yields a NaN fee with no error, and `AddDiscountCode` stores a NaN discount, which breaks the (0, 1) invariant. Over reals none of this can happen, so the statements that `CalculateShippingFee` and `FeeV2` reject every invalid weight, and that `AddDiscountCode` preserves `Valid()`, hold only for non-NaN inputs in the source.
- Error message texts (`errors.New`, `fmt.Errorf`) are not modelled; only the kind of error and the zone or code it carries.
- Concurrent use of one calculator is not modelled. The source provides no synchronisation (Go maps are not safe for concurrent writes).
- A zero-valued `ShippingCalculator{}` built without `NewShippingCalculator` has nil maps, and its setters would panic in Go. The model has only the constructor, so this case does not arise.
- `Practicals/Practical_5/repository/user_repository_test.go` is not part of this model. It is a database integration test, and the repository it exercises is unrelated to the fee calculator.
- The Go test harness (`t.Run`, table iteration) is not modelled. Its expected values appear as the example lemmas.
