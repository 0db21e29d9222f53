/** The configurable calculator. Its rates live in a mutable object; a fee
    is computed by a fixed pipeline: weight check, zone base fee, insurance
    surcharge, discount, rounding to cents. The fee is specified here as a
    function of a `RateConfig` value, and the object's method, which runs
    the stages one after another as the source does, is proved to compute
    it. */
module ShippingV2 {
  import opened Fees
  import opened Rounding
  import Shipping

  /** The values of a calculator's fields at one moment. */
  datatype RateConfig = RateConfig(
    domesticBaseRate: real,
    domesticPerKgRate: real,
    expressBaseRate: real,
    expressPerKgRate: real,
    internationalRates: map<string, real>,
    volumeDiscounts: map<string, real>,
    insuranceThreshold: real,
    insuranceRate: real)

  /** Every discount is a fraction strictly between 0 and 1. */
  predicate DiscountsInRange(discounts: map<string, real>) {
    forall code :: code in discounts ==> 0.0 < discounts[code] < 1.0
  }

  /** No base rate, per-kilogram rate or insurance rate is negative. */
  predicate RatesNonNegative(c: RateConfig) {
    && c.domesticBaseRate >= 0.0 && c.domesticPerKgRate >= 0.0
    && c.expressBaseRate >= 0.0 && c.expressPerKgRate >= 0.0
    && (forall zone :: zone in c.internationalRates ==> c.internationalRates[zone] >= 0.0)
    && c.insuranceRate >= 0.0
  }

  /** The configuration a new calculator starts with. */
  function DefaultRates(): (c: RateConfig)
    ensures RatesNonNegative(c) && DiscountsInRange(c.volumeDiscounts)
    ensures c.internationalRates == map[]
    ensures c.volumeDiscounts.Keys == {"SUMMER10", "BULK20"}
  {
    RateConfig(
      domesticBaseRate := 5.0,
      domesticPerKgRate := 1.0,
      expressBaseRate := 30.0,
      expressPerKgRate := 5.0,
      internationalRates := map[],
      volumeDiscounts := map["SUMMER10" := 0.10, "BULK20" := 0.20],
      insuranceThreshold := 20.0,
      insuranceRate := 0.05)
  }

  /** The zones the calculator recognises. */
  predicate KnownZone(zone: string) {
    zone == "Domestic" || zone == "Express" || zone == "International"
  }

  /** The fee before insurance and discount. The international branch
      looks the rate up under the zone name itself, which is always the
      literal "International" there, so no other key of the table is read. */
  function BaseFee(c: RateConfig, weight: real, zone: string): (r: FeeResult)
    ensures r.Ok? <==> KnownZone(zone) && (zone == "International" ==> "International" in c.internationalRates)
    ensures (r.Ok? && zone == "International") ==> r.value == c.internationalRates["International"] * weight
    ensures (r.Err? && zone == "International") ==> r.error == RateUnavailable("International")
    ensures !KnownZone(zone) ==> r == Err(UnknownZone(zone))
  {
    if zone == "Domestic" then Ok(c.domesticBaseRate + weight * c.domesticPerKgRate)
    else if zone == "Express" then Ok(c.expressBaseRate + weight * c.expressPerKgRate)
    else if zone == "International" then
      if zone in c.internationalRates then Ok(c.internationalRates[zone] * weight)
      else Err(RateUnavailable(zone))
    else Err(UnknownZone(zone))
  }

  /** The multiplier of the insurance stage: a surcharge of `insuranceRate`
      for weights strictly above the threshold. */
  function InsuranceFactor(c: RateConfig, weight: real): (r: real)
    ensures weight <= c.insuranceThreshold ==> r == 1.0
    ensures c.insuranceRate >= 0.0 ==> r >= 1.0
  {
    if weight > c.insuranceThreshold then 1.0 + c.insuranceRate else 1.0
  }

  /** The discount codes the calculator accepts: those in its table, and
      the empty string, meaning no discount. */
  predicate AcceptedCode(c: RateConfig, discountCode: string) {
    discountCode == "" || discountCode in c.volumeDiscounts
  }

  /** The multiplier of the discount stage. A code in the table is applied
      even when it is the empty string. */
  function DiscountFactor(c: RateConfig, discountCode: string): (r: real)
    ensures discountCode !in c.volumeDiscounts ==> r == 1.0
    ensures DiscountsInRange(c.volumeDiscounts) ==> 0.0 < r <= 1.0
  {
    if discountCode in c.volumeDiscounts then 1.0 - c.volumeDiscounts[discountCode] else 1.0
  }

  /** The fee for `weight` kilograms to `zone` with `discountCode`, under
      configuration `c`: the first failing check among weight, zone and
      code, or else the base fee times both multipliers, rounded to cents. */
  function FeeV2(c: RateConfig, weight: real, zone: string, discountCode: string): (r: FeeResult)
    ensures !ValidWeight(weight) ==> r == Err(InvalidWeight)
    ensures ValidWeight(weight) && !KnownZone(zone) ==> r == Err(UnknownZone(zone))
    ensures (ValidWeight(weight) && zone == "International" && "International" !in c.internationalRates)
              ==> r == Err(RateUnavailable("International"))
    ensures r.Ok? <==>
              && ValidWeight(weight) && KnownZone(zone)
              && (zone == "International" ==> "International" in c.internationalRates)
              && AcceptedCode(c, discountCode)
    ensures (r.Err? && r.error.UnknownDiscountCode?)
              ==> r.error.code == discountCode && !AcceptedCode(c, discountCode)
    ensures (ValidWeight(weight) && BaseFee(c, weight, zone).Ok? && !AcceptedCode(c, discountCode))
              ==> r == Err(UnknownDiscountCode(discountCode))
    ensures r.Ok? ==> IsCents(r.value)
  {
    if !ValidWeight(weight) then Err(InvalidWeight)
    else match BaseFee(c, weight, zone)
      case Err(e) => Err(e)
      case Ok(base) =>
        if !AcceptedCode(c, discountCode) then Err(UnknownDiscountCode(discountCode))
        else Ok(Round2(Charge(base, InsuranceFactor(c, weight), DiscountFactor(c, discountCode))))
  }

  /** The unrounded fee: the base fee scaled by both multipliers. */
  function Charge(base: real, insurance: real, discount: real): (r: real) {
    base * insurance * discount
  }

  /** At or below the threshold the insurance rate plays no part; this
      includes a weight exactly at the threshold. */
  lemma NoSurchargeUpToThreshold(c: RateConfig, weight: real, zone: string, discountCode: string, otherRate: real)
    requires weight <= c.insuranceThreshold
    ensures FeeV2(c, weight, zone, discountCode) == FeeV2(c.(insuranceRate := otherRate), weight, zone, discountCode)
  {
    var c' := c.(insuranceRate := otherRate);
    assert BaseFee(c', weight, zone) == BaseFee(c, weight, zone);
    assert InsuranceFactor(c', weight) == InsuranceFactor(c, weight);
    assert DiscountFactor(c', discountCode) == DiscountFactor(c, discountCode);
  }

  /** At or below the threshold the fee is the base fee with only the
      discount applied, rounded. */
  lemma FeeUpToThreshold(c: RateConfig, weight: real, zone: string, discountCode: string)
    requires weight <= c.insuranceThreshold
    requires FeeV2(c, weight, zone, discountCode).Ok?
    ensures FeeV2(c, weight, zone, discountCode).value
              == Round2(BaseFee(c, weight, zone).value * DiscountFactor(c, discountCode))
  {
    assert InsuranceFactor(c, weight) == 1.0;
    assert FeeV2(c, weight, zone, discountCode).value
        == Round2(Charge(BaseFee(c, weight, zone).value, 1.0, DiscountFactor(c, discountCode)));
    assert Charge(BaseFee(c, weight, zone).value, 1.0, DiscountFactor(c, discountCode))
        == BaseFee(c, weight, zone).value * DiscountFactor(c, discountCode);
  }

  /** Strictly above the threshold the base fee is surcharged by the
      insurance rate before the discount is applied. */
  lemma SurchargeAboveThreshold(c: RateConfig, weight: real, zone: string, discountCode: string)
    requires weight > c.insuranceThreshold
    requires FeeV2(c, weight, zone, discountCode).Ok?
    ensures FeeV2(c, weight, zone, discountCode).value
              == Round2(BaseFee(c, weight, zone).value * (1.0 + c.insuranceRate) * DiscountFactor(c, discountCode))
  {
    var base := BaseFee(c, weight, zone).value;
    assert InsuranceFactor(c, weight) == 1.0 + c.insuranceRate;
    assert FeeV2(c, weight, zone, discountCode).value
        == Round2(Charge(base, 1.0 + c.insuranceRate, DiscountFactor(c, discountCode)));
  }

  /** Only the rate registered under the literal key "International" is
      ever used: registering a rate under any other name changes no fee,
      for any zone. */
  lemma OtherRateKeysUnreachable(c: RateConfig, key: string, rate: real, weight: real, zone: string, discountCode: string)
    requires key != "International"
    ensures FeeV2(c.(internationalRates := c.internationalRates[key := rate]), weight, zone, discountCode)
              == FeeV2(c, weight, zone, discountCode)
  {
    var c' := c.(internationalRates := c.internationalRates[key := rate]);
    assert BaseFee(c', weight, zone) == BaseFee(c, weight, zone);
  }

  /** A rate registered under "International" prices international parcels
      per kilogram. */
  lemma InternationalRegisteredRate(c: RateConfig, rate: real, weight: real, discountCode: string)
    requires ValidWeight(weight) && AcceptedCode(c, discountCode)
    ensures FeeV2(c.(internationalRates := c.internationalRates["International" := rate]), weight, "International", discountCode)
              == Ok(Round2(rate * weight * InsuranceFactor(c, weight) * DiscountFactor(c, discountCode)))
  {
    var c' := c.(internationalRates := c.internationalRates["International" := rate]);
    assert BaseFee(c', weight, "International") == Ok(rate * weight);
    assert InsuranceFactor(c', weight) == InsuranceFactor(c, weight);
    assert DiscountFactor(c', discountCode) == DiscountFactor(c, discountCode);
    assert FeeV2(c', weight, "International", discountCode)
        == Ok(Round2(Charge(rate * weight, InsuranceFactor(c, weight), DiscountFactor(c, discountCode))));
    assert Charge(rate * weight, InsuranceFactor(c, weight), DiscountFactor(c, discountCode))
        == rate * weight * InsuranceFactor(c, weight) * DiscountFactor(c, discountCode);
  }

  /** A discount code added with its fraction takes effect on the next fee
      computed with it, on top of any surcharge. */
  lemma AddedCodeApplies(c: RateConfig, code: string, percentage: real, weight: real, zone: string)
    requires BaseFee(c, weight, zone).Ok? && ValidWeight(weight)
    ensures FeeV2(c.(volumeDiscounts := c.volumeDiscounts[code := percentage]), weight, zone, code)
              == Ok(Round2(BaseFee(c, weight, zone).value * InsuranceFactor(c, weight) * (1.0 - percentage)))
  {
    var c' := c.(volumeDiscounts := c.volumeDiscounts[code := percentage]);
    assert BaseFee(c', weight, zone) == BaseFee(c, weight, zone);
    assert InsuranceFactor(c', weight) == InsuranceFactor(c, weight);
    assert DiscountFactor(c', code) == 1.0 - percentage;
    assert FeeV2(c', weight, zone, code)
        == Ok(Round2(Charge(BaseFee(c, weight, zone).value, InsuranceFactor(c, weight), 1.0 - percentage)));
    assert Charge(BaseFee(c, weight, zone).value, InsuranceFactor(c, weight), 1.0 - percentage)
        == BaseFee(c, weight, zone).value * InsuranceFactor(c, weight) * (1.0 - percentage);
  }

  /** With non-negative rates and discounts in range, no fee is negative and
      no discount raises a fee above what it would be without a discount. */
  lemma FeeBounds(c: RateConfig, weight: real, zone: string, discountCode: string)
    requires RatesNonNegative(c) && DiscountsInRange(c.volumeDiscounts)
    requires FeeV2(c, weight, zone, discountCode).Ok?
    ensures 0.0 <= FeeV2(c, weight, zone, discountCode).value
    ensures FeeV2(c, weight, zone, discountCode).value
              <= Round2(Charge(BaseFee(c, weight, zone).value, InsuranceFactor(c, weight), 1.0))
  {
    assert 0.0 <= BaseFee(c, weight, zone).value;
    assert FeeV2(c, weight, zone, discountCode).value
        == Round2(Charge(BaseFee(c, weight, zone).value, InsuranceFactor(c, weight), DiscountFactor(c, discountCode)));
    ChargeBounds(BaseFee(c, weight, zone).value, InsuranceFactor(c, weight), DiscountFactor(c, discountCode));
  }

  /** The rate setter accepts any rate, so without `RatesNonNegative` a fee
      can be negative even though every discount is in range, and a discount
      then moves the fee toward zero, that is, raises it. */
  lemma NegativeRateExample()
    ensures DiscountsInRange(DefaultRates().volumeDiscounts)
    ensures FeeV2(DefaultRates().(internationalRates := map["International" := -1.0]), 10.0, "International", "")
              == Ok(-10.0)
    ensures FeeV2(DefaultRates().(internationalRates := map["International" := -1.0]), 10.0, "International", "SUMMER10")
              == Ok(-9.0)
  {
    Round2OfCents(-10.0);
    Round2OfCents(-9.0);
  }

  /** Scaling a non-negative fee by a non-negative surcharge and a discount
      multiplier in [0, 1] gives, once rounded, a non-negative amount no
      larger than the rounded surcharged fee. */
  lemma ChargeBounds(base: real, insurance: real, discount: real)
    requires 0.0 <= base && 0.0 <= insurance && 0.0 <= discount <= 1.0
    ensures 0.0 <= Round2(Charge(base, insurance, discount)) <= Round2(Charge(base, insurance, 1.0))
  {
    var insured := Charge(base, insurance, 1.0);
    assert 0.0 <= insured;
    assert 0.0 <= Charge(base, insurance, discount) <= insured;
    Round2Monotone(0.0, Charge(base, insurance, discount));
    Round2OfCents(0.0);
    Round2Monotone(Charge(base, insurance, discount), insured);
  }

  /** Under the default configuration, without a discount and at or below
      the insurance threshold, the configurable calculator charges the
      legacy fee rounded to cents. */
  lemma DefaultAgreesWithLegacy(weight: real, zone: string)
    requires ValidWeight(weight) && weight <= 20.0
    requires zone == "Domestic" || zone == "Express"
    ensures Shipping.CalculateShippingFee(weight, zone).Ok?
    ensures FeeV2(DefaultRates(), weight, zone, "") == Ok(Round2(Shipping.CalculateShippingFee(weight, zone).value))
  {
  }

  /** Above the default threshold the same fee carries the 5% surcharge. */
  lemma DefaultInsuredLegacy(weight: real, zone: string)
    requires ValidWeight(weight) && weight > 20.0
    requires zone == "Domestic" || zone == "Express"
    ensures Shipping.CalculateShippingFee(weight, zone).Ok?
    ensures FeeV2(DefaultRates(), weight, zone, "") == Ok(Round2(Shipping.CalculateShippingFee(weight, zone).value * 1.05))
  {
  }

  /** Worked values under the default configuration. */
  lemma DefaultExamples()
    ensures FeeV2(DefaultRates(), 25.0, "Domestic", "") == Ok(31.5)
    ensures FeeV2(DefaultRates(), 20.0, "Domestic", "") == Ok(25.0)
    ensures FeeV2(DefaultRates(), 10.0, "Express", "SUMMER10") == Ok(72.0)
    ensures FeeV2(DefaultRates(), 25.0, "Domestic", "BULK20") == Ok(25.2)
    ensures FeeV2(DefaultRates(), 25.0, "Domestic", "WINTER5") == Err(UnknownDiscountCode("WINTER5"))
    ensures FeeV2(DefaultRates(), 10.0, "International", "") == Err(RateUnavailable("International"))
    ensures FeeV2(DefaultRates(), 10.0, "Mars", "BOGUS") == Err(UnknownZone("Mars"))
    ensures FeeV2(DefaultRates(), 50.01, "Mars", "BOGUS") == Err(InvalidWeight)
  {
    Round2OfCents(31.5);
    Round2OfCents(25.0);
    Round2OfCents(72.0);
    Round2OfCents(25.2);
  }

  /** A calculator: the rates it was configured with, changed in place by
      its two setters. */
  class ShippingCalculator {
    var domesticBaseRate: real
    var domesticPerKgRate: real
    var expressBaseRate: real
    var expressPerKgRate: real
    var internationalRates: map<string, real>
    var volumeDiscounts: map<string, real>
    var insuranceThreshold: real
    var insuranceRate: real

    /** The object invariant: every stored discount lies in (0, 1). */
    ghost predicate Valid()
      reads this
    {
      DiscountsInRange(volumeDiscounts)
    }

    /** The current configuration, as a value. */
    function Rates(): (c: RateConfig)
      reads this
    {
      RateConfig(domesticBaseRate, domesticPerKgRate, expressBaseRate, expressPerKgRate,
                 internationalRates, volumeDiscounts, insuranceThreshold, insuranceRate)
    }

    /** A calculator with the default rates. */
    constructor ()
      ensures Valid()
      ensures Rates() == DefaultRates()
    {
      domesticBaseRate := 5.0;
      domesticPerKgRate := 1.0;
      expressBaseRate := 30.0;
      expressPerKgRate := 5.0;
      internationalRates := map[];
      volumeDiscounts := map["SUMMER10" := 0.10, "BULK20" := 0.20];
      insuranceThreshold := 20.0;
      insuranceRate := 0.05;
    }

    /** The fee under the current rates; the calculator is not changed. */
    method CalculateShippingFeeV2(weight: real, zone: string, discountCode: string) returns (r: FeeResult)
      ensures r == FeeV2(Rates(), weight, zone, discountCode)
      ensures !ValidWeight(weight) ==> r == Err(InvalidWeight)
      ensures r.Ok? ==> IsCents(r.value)
    {
      if weight <= 0.0 || weight > 50.0 {
        return Err(InvalidWeight);
      }

      var baseFee: real;
      if zone == "Domestic" {
        baseFee := domesticBaseRate + weight * domesticPerKgRate;
      } else if zone == "Express" {
        baseFee := expressBaseRate + weight * expressPerKgRate;
      } else if zone == "International" {
        if zone in internationalRates {
          baseFee := internationalRates[zone] * weight;
        } else {
          return Err(RateUnavailable(zone));
        }
      } else {
        return Err(UnknownZone(zone));
      }

      ghost var base := baseFee;
      assert BaseFee(Rates(), weight, zone) == Ok(base);

      if weight > insuranceThreshold {
        var insuranceFee := baseFee * insuranceRate;
        baseFee := baseFee + insuranceFee;
      }
      assert baseFee == base * InsuranceFactor(Rates(), weight);

      if discountCode in volumeDiscounts {
        baseFee := baseFee * (1.0 - volumeDiscounts[discountCode]);
      } else if discountCode != "" {
        return Err(UnknownDiscountCode(discountCode));
      }
      assert baseFee == Charge(base, InsuranceFactor(Rates(), weight), DiscountFactor(Rates(), discountCode));

      return Ok(Round2(baseFee));
    }

    /** Registers (or replaces) the per-kilogram rate of `zone`. */
    method SetInternationalRate(zone: string, ratePerKg: real)
      modifies this
      ensures internationalRates == old(internationalRates)[zone := ratePerKg]
      ensures Rates() == old(Rates()).(internationalRates := internationalRates)
      ensures Valid() == old(Valid())
    {
      internationalRates := internationalRates[zone := ratePerKg];
    }

    /** Registers (or replaces) a discount code, provided its fraction lies
        in (0, 1); otherwise the calculator is left as it was. */
    method AddDiscountCode(code: string, discountPercentage: real) returns (r: Outcome)
      modifies this
      ensures r == if 0.0 < discountPercentage < 1.0 then Pass else Fail(InvalidDiscountPercentage)
      ensures volumeDiscounts
                == if r.Pass? then old(volumeDiscounts)[code := discountPercentage] else old(volumeDiscounts)
      ensures Rates() == old(Rates()).(volumeDiscounts := volumeDiscounts)
      ensures old(Valid()) ==> Valid()
    {
      if discountPercentage <= 0.0 || discountPercentage >= 1.0 {
        return Fail(InvalidDiscountPercentage);
      }
      volumeDiscounts := volumeDiscounts[code := discountPercentage];
      return Pass;
    }
  }
}
