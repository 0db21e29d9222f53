/** The legacy fee function: a weight check followed by a dispatch on the
    exact zone name, with fixed rates and no rounding. */
module Shipping {
  import opened Fees

  /** The fee for a package of `weight` kilograms sent to `zone`. */
  function CalculateShippingFee(weight: real, zone: string): (r: FeeResult)
    ensures !ValidWeight(weight) ==> r == Err(InvalidWeight)
    ensures r.Ok? <==> ValidWeight(weight) && (zone == "Domestic" || zone == "Express")
    ensures r.Ok? && zone == "Domestic" ==> 5.0 < r.value <= 55.0
    ensures r.Ok? && zone == "Express" ==> 30.0 < r.value <= 280.0
    ensures (r.Err? && r.error.UnknownZone?)
              ==> r.error.zone == zone && zone != "Domestic" && zone != "Express" && zone != "International"
  {
    if weight <= 0.0 || weight > 50.0 then Err(InvalidWeight)
    else if zone == "Domestic" then Ok(5.0 + weight * 1.0)
    else if zone == "Express" then Ok(30.0 + weight * 5.0)
    else if zone == "International" then Err(NotImplemented)
    else Err(UnknownZone(zone))
  }

  /** An out-of-range weight is rejected whatever the zone, including zones
      that would themselves be rejected: the weight is checked first. */
  lemma WeightCheckedFirst(weight: real, zone: string)
    requires weight <= 0.0 || weight > 50.0
    ensures CalculateShippingFee(weight, zone) == Err(InvalidWeight)
  {
  }

  /** Domestic shipping costs 5 plus 1 per kilogram. */
  lemma DomesticFee(weight: real)
    requires ValidWeight(weight)
    ensures CalculateShippingFee(weight, "Domestic") == Ok(5.0 + weight)
  {
  }

  /** Express shipping costs 30 plus 5 per kilogram. */
  lemma ExpressFee(weight: real)
    requires ValidWeight(weight)
    ensures CalculateShippingFee(weight, "Express") == Ok(30.0 + 5.0 * weight)
  {
  }

  /** International shipping is not implemented in this version. */
  lemma InternationalNotImplemented(weight: real)
    requires ValidWeight(weight)
    ensures CalculateShippingFee(weight, "International") == Err(NotImplemented)
  {
  }

  /** Any other zone is rejected, and the error names it. */
  lemma UnknownZoneRejected(weight: real, zone: string)
    requires ValidWeight(weight)
    requires zone != "Domestic" && zone != "Express" && zone != "International"
    ensures CalculateShippingFee(weight, zone) == Err(UnknownZone(zone))
  {
  }

  /** The partition cases of the legacy tests: one valid and two invalid
      weights, one valid and one invalid zone. */
  lemma PartitionExamples()
    ensures CalculateShippingFee(-5.0, "Domestic") == Err(InvalidWeight)
    ensures CalculateShippingFee(25.0, "Domestic") == Ok(30.0)
    ensures CalculateShippingFee(51.0, "Domestic") == Err(InvalidWeight)
    ensures CalculateShippingFee(10.0, "Domestic").Ok?
    ensures CalculateShippingFee(10.0, "InvalidZone") == Err(UnknownZone("InvalidZone"))
  {
  }

  /** The boundary cases: both ends of (0, 50] and their neighbours. */
  lemma BoundaryExamples()
    ensures CalculateShippingFee(-0.01, "Domestic") == Err(InvalidWeight)
    ensures CalculateShippingFee(0.0, "Domestic") == Err(InvalidWeight)
    ensures CalculateShippingFee(0.01, "Domestic") == Ok(5.01)
    ensures CalculateShippingFee(50.0, "Domestic") == Ok(55.0)
    ensures CalculateShippingFee(50.01, "Domestic") == Err(InvalidWeight)
  {
  }

  /** One case per rule of the decision table. */
  lemma DecisionTableExamples()
    ensures CalculateShippingFee(-1.0, "Domestic") == Err(InvalidWeight)
    ensures CalculateShippingFee(10.0, "Domestic") == Ok(15.0)
    ensures CalculateShippingFee(10.0, "International") == Err(NotImplemented)
    ensures CalculateShippingFee(10.0, "Express") == Ok(80.0)
    ensures CalculateShippingFee(10.0, "Invalid") == Err(UnknownZone("Invalid"))
  {
  }
}
