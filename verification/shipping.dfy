/** Shipping quotes: two free-shipping paths by order total, priority
    overnight with a weight surcharge, flat-rate express, and a standard rate
    by weight with heavy and oversized surcharges and a destination zone
    multiplier. */
module Shipping {
  import opened Commerce

  datatype ShippingContext = ShippingContext(
    orderTotal: real,
    totalWeight: real,   // pounds
    destination: string,
    isExpedited: bool,
    isPriority: bool)

  datatype ShippingMethod = PremiumFreeShipping | StandardFreeShipping | PriorityOvernight | ExpressShipping | StandardShipping

  datatype Zone = Local | Regional | National | International | Remote

  /** The breakdown lines, one token each, carrying what the text interpolates. */
  datatype ShippingLine =
    | PremiumFreeLine(minimum: real)                           // "Order over $<m> qualifies for premium free shipping"
    | StandardFreeLine(minimum: real)                          // "Order over $<m> qualifies for free shipping"
    | PriorityBaseLine(rate: real)                             // "Priority overnight base: $<r>"
    | WeightSurchargeLine(poundsOver: real, surcharge: real)   // "Weight surcharge (<p> lbs over limit): $<s>"
    | ExpressBaseLine(rate: real)                              // "Express shipping base: $<r>"
    | BaseRateLine(rate: real)                                 // "Base shipping rate: $<r>"
    | WeightChargeLine(pounds: real, perPound: real, charge: real) // "Weight charge (<p> lbs × $<r>): $<c>"
    | HeavySurchargeLine(surcharge: real)                      // "Heavy package surcharge (>50 lbs): +50% ($<s>)"
    | OversizedLine                                            // "Oversized package: cost doubled"
    | ZoneAdjustmentLine(zone: Zone, extra: real)              // "<zone> zone adjustment: +$<e>"

  datatype ShippingResult = ShippingResult(
    cost: real,
    shippingMethod: ShippingMethod,
    estimatedDays: int,
    freeShipping: bool,
    breakdown: seq<ShippingLine>)

  const FreeShippingMinimum := 50.0
  const PremiumFreeShippingMinimum := 150.0
  const ExpressRate := 15.99
  const PriorityRate := 29.99
  const BaseRate := 5.99
  const RatePerLb := 0.50
  const HeavyPackageThreshold := 50.0
  const OversizedThreshold := 100.0

  const InternationalCountries: seq<string> := ["CA", "MX", "UK", "DE", "FR", "JP", "AU"]
  const RemoteRegions: seq<string> := ["AK", "HI", "PR", "VI"]

  function ZoneMultiplier(zone: Zone): real {
    match zone
    case Local => 1.0
    case Regional => 1.25
    case National => 1.5
    case International => 2.5
    case Remote => 3.0
  }

  /** The zone of a destination: international, remote, or national otherwise. */
  function ZoneOf(destination: string): (zone: Zone)
    ensures zone != Local && zone != Regional
    ensures zone == International <==> destination in InternationalCountries
    ensures zone == Remote <==> destination !in InternationalCountries && destination in RemoteRegions
  {
    if destination in InternationalCountries then International
    else if destination in RemoteRegions then Remote
    else National
  }

  function StandardDays(zone: Zone): int {
    if zone == International then 10 else if zone == Remote then 7 else 5
  }

  function GetFreeShippingThreshold(): real { FreeShippingMinimum }

  function GetExpressRate(): real { ExpressRate }

  predicate IsEligibleForFreeShipping(orderTotal: real) { orderTotal >= FreeShippingMinimum }

  // ---------------------------------------------------------------------------
  // Reference definitions of the costs.
  // ---------------------------------------------------------------------------

  /** Priority: the base rate plus 1.5 per pound over 10 pounds. */
  function PriorityCost(weight: real): real {
    PriorityRate + (if weight > 10.0 then (weight - 10.0) * 1.5 else 0.0)
  }

  /** Standard before the zone: base rate plus 0.5 per pound, then +50% above
      50 pounds, then doubled above 100 pounds. */
  function WeightCost(weight: real): real {
    var base := BaseRate + (if weight > 0.0 then weight * RatePerLb else 0.0);
    var heavy := if weight > HeavyPackageThreshold then base * 1.5 else base;
    if weight > OversizedThreshold then heavy * 2.0 else heavy
  }

  function StandardCost(weight: real, zone: Zone): real {
    WeightCost(weight) * ZoneMultiplier(zone)
  }

  /** The lines of the standard path: the base rate, then one line per
      charge or surcharge that applies. */
  function StandardLines(weight: real, zone: Zone): seq<ShippingLine> {
    var base := BaseRate + (if weight > 0.0 then weight * RatePerLb else 0.0);
    [BaseRateLine(BaseRate)]
    + (if weight > 0.0 then [WeightChargeLine(weight, RatePerLb, weight * RatePerLb)] else [])
    + (if weight > HeavyPackageThreshold then [HeavySurchargeLine(base * 0.5)] else [])
    + (if weight > OversizedThreshold then [OversizedLine] else [])
    + (if ZoneMultiplier(zone) != 1.0 then [ZoneAdjustmentLine(zone, WeightCost(weight) * (ZoneMultiplier(zone) - 1.0))] else [])
  }

  // ---------------------------------------------------------------------------
  // The calculation.
  // ---------------------------------------------------------------------------

  /** The standard-rate path, from the base rate to the zone adjustment. */
  method StandardQuote(weight: real, destination: string) returns (cost: real, zone: Zone, breakdown: seq<ShippingLine>)
    ensures zone == ZoneOf(destination)
    ensures cost == StandardCost(weight, zone)
    ensures breakdown == StandardLines(weight, zone)
  {
    var shippingCost := BaseRate;
    breakdown := [BaseRateLine(BaseRate)];

    if weight > 0.0 {
      var weightCost := weight * RatePerLb;
      shippingCost := shippingCost + weightCost;
      breakdown := breakdown + [WeightChargeLine(weight, RatePerLb, weightCost)];
    }

    if weight > HeavyPackageThreshold {
      var surcharge := shippingCost * 0.5;
      shippingCost := shippingCost + surcharge;
      breakdown := breakdown + [HeavySurchargeLine(surcharge)];
    }

    if weight > OversizedThreshold {
      shippingCost := shippingCost * 2.0;
      breakdown := breakdown + [OversizedLine];
    }
    assert shippingCost == WeightCost(weight);

    zone := National;
    if destination in InternationalCountries {
      zone := International;
    } else if destination in RemoteRegions {
      zone := Remote;
    }

    var zoneMultiplier := ZoneMultiplier(zone);
    if zoneMultiplier != 1.0 {
      var zoneCost := shippingCost * (zoneMultiplier - 1.0);
      shippingCost := shippingCost * zoneMultiplier;
      breakdown := breakdown + [ZoneAdjustmentLine(zone, zoneCost)];
    }
    cost := shippingCost;
  }

  method CalculateShipping(ctx: ShippingContext) returns (r: ShippingResult)
    ensures ctx.orderTotal >= PremiumFreeShippingMinimum && !ctx.isPriority ==>
      r == ShippingResult(0.0, PremiumFreeShipping, 3, true, [PremiumFreeLine(PremiumFreeShippingMinimum)])
    ensures !(ctx.orderTotal >= PremiumFreeShippingMinimum && !ctx.isPriority)
            && ctx.orderTotal >= FreeShippingMinimum && !ctx.isExpedited && !ctx.isPriority ==>
      r == ShippingResult(0.0, StandardFreeShipping, 5, true, [StandardFreeLine(FreeShippingMinimum)])
    ensures r.shippingMethod == PriorityOvernight <==> ctx.isPriority
    ensures r.shippingMethod == ExpressShipping <==>
              ctx.isExpedited && !ctx.isPriority && ctx.orderTotal < PremiumFreeShippingMinimum
    ensures r.shippingMethod == StandardShipping <==>
              !ctx.isExpedited && !ctx.isPriority && ctx.orderTotal < FreeShippingMinimum
    ensures ctx.isPriority ==>
      && r.cost == RoundCents(PriorityCost(ctx.totalWeight)) && r.estimatedDays == 1
      && r.breakdown == [PriorityBaseLine(PriorityRate)]
                        + (if ctx.totalWeight > 10.0
                           then [WeightSurchargeLine(ctx.totalWeight - 10.0, (ctx.totalWeight - 10.0) * 1.5)] else [])
    ensures r.shippingMethod == ExpressShipping ==>
      r == ShippingResult(ExpressRate, ExpressShipping, 2, false, [ExpressBaseLine(ExpressRate)])
    ensures r.shippingMethod == StandardShipping ==>
      && r.cost == RoundCents(StandardCost(ctx.totalWeight, ZoneOf(ctx.destination)))
      && r.estimatedDays == StandardDays(ZoneOf(ctx.destination))
      && r.breakdown == StandardLines(ctx.totalWeight, ZoneOf(ctx.destination))
    ensures r.freeShipping <==> r.shippingMethod in {PremiumFreeShipping, StandardFreeShipping}
    ensures r.freeShipping <==> r.cost == 0.0
    ensures r.freeShipping ==> IsEligibleForFreeShipping(ctx.orderTotal)
    ensures IsEligibleForFreeShipping(ctx.orderTotal) && !ctx.isExpedited && !ctx.isPriority ==> r.freeShipping
  {
    if ctx.orderTotal >= PremiumFreeShippingMinimum && !ctx.isPriority {
      return ShippingResult(0.0, PremiumFreeShipping, 3, true, [PremiumFreeLine(PremiumFreeShippingMinimum)]);
    }

    if ctx.orderTotal >= FreeShippingMinimum && !ctx.isExpedited && !ctx.isPriority {
      return ShippingResult(0.0, StandardFreeShipping, 5, true, [StandardFreeLine(FreeShippingMinimum)]);
    }

    if ctx.isPriority {
      var cost := PriorityRate;
      var breakdown := [PriorityBaseLine(PriorityRate)];
      if ctx.totalWeight > 10.0 {
        var surcharge := (ctx.totalWeight - 10.0) * 1.5;
        cost := cost + surcharge;
        breakdown := breakdown + [WeightSurchargeLine(ctx.totalWeight - 10.0, surcharge)];
      }
      PositiveCostIsNotFree(cost);
      return ShippingResult(RoundCents(cost), PriorityOvernight, 1, false, breakdown);
    }

    if ctx.isExpedited {
      return ShippingResult(ExpressRate, ExpressShipping, 2, false, [ExpressBaseLine(ExpressRate)]);
    }

    var cost, zone, breakdown := StandardQuote(ctx.totalWeight, ctx.destination);
    StandardCostAtLeast(ctx.totalWeight, zone);
    PositiveCostIsNotFree(cost);
    r := ShippingResult(RoundCents(cost), StandardShipping, StandardDays(zone), false, breakdown);
  }

  // ---------------------------------------------------------------------------
  // Properties.
  // ---------------------------------------------------------------------------

  /** A cost of at least a cent never rounds to zero. */
  lemma PositiveCostIsNotFree(cost: real)
    requires cost >= 0.01
    ensures RoundCents(cost) > 0.0
  {
  }

  /** The standard rate is at least the base rate times the national
      multiplier, whatever the weight; nothing on that path is free. */
  lemma StandardCostAtLeast(weight: real, zone: Zone)
    requires zone != Local && zone != Regional
    ensures StandardCost(weight, zone) >= BaseRate * 1.5
  {
    assert WeightCost(weight) >= BaseRate;
    assert ZoneMultiplier(zone) >= 1.5;
  }

  /** The standard cost by weight band: base plus 0.5 per pound, +50% above
      50 pounds and doubled again above 100 pounds (3 times in all), before
      the zone multiplier of 2.5 international, 3.0 remote and 1.5 otherwise. */
  lemma StandardCostBands(weight: real, destination: string)
    requires weight > 0.0
    ensures var base := 5.99 + 0.5 * weight;
      var m := if destination in InternationalCountries then 2.5 else if destination in RemoteRegions then 3.0 else 1.5;
      StandardCost(weight, ZoneOf(destination))
      == (if weight > 100.0 then base * 3.0 else if weight > 50.0 then base * 1.5 else base) * m
  {
  }

  /** Standard delivery takes 10 days abroad, 7 to remote regions and 5
      elsewhere. */
  lemma StandardDaysByZone(destination: string)
    ensures StandardDays(ZoneOf(destination))
            == if destination in InternationalCountries then 10 else if destination in RemoteRegions then 7 else 5
  {
  }

  /** The free-shipping screen uses the threshold its getter reports, and the
      premium minimum passes it. (`CalculateShipping` ties the screen to the
      free paths.) */
  lemma FreeShippingScreen(ctx: ShippingContext)
    ensures ctx.orderTotal >= PremiumFreeShippingMinimum ==> IsEligibleForFreeShipping(ctx.orderTotal)
    ensures IsEligibleForFreeShipping(ctx.orderTotal) <==> ctx.orderTotal >= GetFreeShippingThreshold()
  {
  }
}
