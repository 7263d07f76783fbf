/** Unit pricing: a tier discount, one of two quantity discounts, a loyalty
    bonus for high lifetime spend, applied to base price times quantity and
    rounded to cents, with a warning below the minimum order value. */
module Pricing {
  import opened Commerce

  datatype Customer = Customer(id: string, tier: Tier, lifetimeSpend: real, orderCount: int)

  /** `isHoliday` is carried but no rule reads it. */
  datatype PricingContext = PricingContext(customer: Customer, quantity: int, basePrice: real, isHoliday: bool)

  /** The breakdown lines, one token each (the comment gives the text). */
  datatype PriceLine =
    | EnterpriseTierLine            // "Enterprise tier: 20% off"
    | VipTierLine                   // "VIP tier: 10% off"
    | PremiumTierLine               // "Premium tier: 5% off"
    | VolumeDiscountLine            // "Volume discount (100+ units): 10% off"
    | BulkOrderLine                 // "Bulk order discount (500+ units): 15% off"
    | LoyaltyBonusLine              // "Loyalty bonus (>$1000 lifetime): 3% off"
    | MinimumOrderWarning(min: real) // "Warning: Order below minimum ($<min>)"

  datatype PriceResult = PriceResult(finalPrice: real, discount: real, breakdown: seq<PriceLine>)

  const VipThreshold := 1000.0
  const MinOrderValue := 25.0
  const VolumeDiscountThreshold := 100
  const BulkOrderThreshold := 500

  /** The tier rate table. */
  function GetTierDiscount(tier: Tier): real {
    match tier
    case Basic => 0.0
    case Premium => 0.05
    case Vip => 0.10
    case Enterprise => 0.20
  }

  function GetMinimumOrderValue(): real { MinOrderValue }

  function GetVipThreshold(): real { VipThreshold }

  // ---------------------------------------------------------------------------
  // Reference definitions of the rules.
  // ---------------------------------------------------------------------------

  /** The rate a rule adds and the line it records. */
  datatype RuleEffect = RuleEffect(rate: real, lines: seq<PriceLine>)

  const NoEffect := RuleEffect(0.0, [])

  /** The tier branch of the calculation (its own if-chain, not the table). */
  function TierRule(tier: Tier): RuleEffect {
    if tier == Enterprise then RuleEffect(0.20, [EnterpriseTierLine])
    else if tier == Vip then RuleEffect(0.10, [VipTierLine])
    else if tier == Premium then RuleEffect(0.05, [PremiumTierLine])
    else NoEffect
  }

  function VolumeRule(quantity: int): RuleEffect {
    if VolumeDiscountThreshold <= quantity < BulkOrderThreshold then RuleEffect(0.10, [VolumeDiscountLine])
    else NoEffect
  }

  function BulkRule(quantity: int): RuleEffect {
    if quantity >= BulkOrderThreshold then RuleEffect(0.15, [BulkOrderLine]) else NoEffect
  }

  function LoyaltyRule(lifetimeSpend: real): RuleEffect {
    if lifetimeSpend > VipThreshold then RuleEffect(0.03, [LoyaltyBonusLine]) else NoEffect
  }

  function TotalDiscount(ctx: PricingContext): real {
    TierRule(ctx.customer.tier).rate + VolumeRule(ctx.quantity).rate
    + BulkRule(ctx.quantity).rate + LoyaltyRule(ctx.customer.lifetimeSpend).rate
  }

  function RuleLines(ctx: PricingContext): seq<PriceLine> {
    TierRule(ctx.customer.tier).lines + VolumeRule(ctx.quantity).lines
    + BulkRule(ctx.quantity).lines + LoyaltyRule(ctx.customer.lifetimeSpend).lines
  }

  /** Base price times quantity. */
  function Gross(ctx: PricingContext): real { ctx.basePrice * ctx.quantity as real }

  /** A price with a fractional discount taken off. */
  function Discounted(price: real, discount: real): real { price * (1.0 - discount) }

  // ---------------------------------------------------------------------------
  // The calculation.
  // ---------------------------------------------------------------------------

  method CalculatePrice(ctx: PricingContext) returns (r: PriceResult)
    ensures r.discount == TotalDiscount(ctx)
    ensures 0.0 <= r.discount <= 0.38
    ensures r.finalPrice == RoundCents(Discounted(Gross(ctx), r.discount))
    ensures r.breakdown == RuleLines(ctx)
              + (if Discounted(Gross(ctx), r.discount) < MinOrderValue then [MinimumOrderWarning(MinOrderValue)] else [])
  {
    ghost var tierRule, volume, bulk := TierRule(ctx.customer.tier), VolumeRule(ctx.quantity), BulkRule(ctx.quantity);
    var price := Gross(ctx);
    var discount := 0.0;
    var breakdown: seq<PriceLine> := [];

    if ctx.customer.tier == Enterprise {
      discount := discount + 0.20;
      breakdown := breakdown + [EnterpriseTierLine];
    } else if ctx.customer.tier == Vip {
      discount := discount + 0.10;
      breakdown := breakdown + [VipTierLine];
    } else if ctx.customer.tier == Premium {
      discount := discount + 0.05;
      breakdown := breakdown + [PremiumTierLine];
    }
    assert breakdown == tierRule.lines;

    if ctx.quantity >= VolumeDiscountThreshold && ctx.quantity < BulkOrderThreshold {
      discount := discount + 0.10;
      breakdown := breakdown + [VolumeDiscountLine];
    }
    assert breakdown == tierRule.lines + volume.lines;

    if ctx.quantity >= BulkOrderThreshold {
      discount := discount + 0.15;
      breakdown := breakdown + [BulkOrderLine];
    }
    assert breakdown == tierRule.lines + volume.lines + bulk.lines;

    if ctx.customer.lifetimeSpend > VipThreshold {
      discount := discount + 0.03;
      breakdown := breakdown + [LoyaltyBonusLine];
    }
    assert breakdown == RuleLines(ctx);

    var finalPrice := Discounted(price, discount);

    if finalPrice < MinOrderValue {
      breakdown := breakdown + [MinimumOrderWarning(MinOrderValue)];
    }

    r := PriceResult(RoundCents(finalPrice), discount, breakdown);
  }

  // ---------------------------------------------------------------------------
  // Properties.
  // ---------------------------------------------------------------------------

  /** A non-basic tier adds exactly one line and the rate of the tier table;
      basic adds nothing. */
  lemma TierRatesAgree(tier: Tier)
    ensures TierRule(tier).rate == GetTierDiscount(tier)
    ensures |TierRule(tier).lines| == if tier == Basic then 0 else 1
  {
  }

  /** The volume and bulk discounts never both apply; together they give 10%
      from 100 to 499 units and 15% from 500. */
  lemma QuantityDiscountsExclusive(quantity: int)
    ensures VolumeRule(quantity).lines == [] || BulkRule(quantity).lines == []
    ensures VolumeRule(quantity).rate + BulkRule(quantity).rate
            == if quantity >= 500 then 0.15 else if quantity >= 100 then 0.10 else 0.0
  {
  }

  /** The loyalty bonus needs a lifetime spend strictly above the VIP threshold. */
  lemma LoyaltyStrictlyAboveThreshold(lifetimeSpend: real)
    ensures LoyaltyRule(lifetimeSpend).lines != [] <==> lifetimeSpend > GetVipThreshold()
    ensures LoyaltyRule(GetVipThreshold()).rate == 0.0
  {
  }

  /** The discount lies in [0, 0.38], and 0.38 is reached by an enterprise
      customer with a bulk order and a lifetime spend above the threshold. */
  lemma DiscountRange(ctx: PricingContext)
    ensures 0.0 <= TotalDiscount(ctx) <= 0.38
    ensures ctx.customer.tier == Enterprise && ctx.quantity >= 500 && ctx.customer.lifetimeSpend > 1000.0
            ==> TotalDiscount(ctx) == 0.38
  {
  }

  /** The warning is given exactly below the minimum order value of the getter,
      and the rounded price is within half a cent of the discounted one. */
  lemma WarningAndRounding(ctx: PricingContext)
    ensures var unrounded := Discounted(Gross(ctx), TotalDiscount(ctx));
      && (MinimumOrderWarning(GetMinimumOrderValue())
            in RuleLines(ctx) + (if unrounded < MinOrderValue then [MinimumOrderWarning(MinOrderValue)] else [])
          <==> unrounded < GetMinimumOrderValue())
      && unrounded - 0.005 < RoundCents(unrounded) <= unrounded + 0.005
  {
    var lines := RuleLines(ctx);
    assert MinimumOrderWarning(MinOrderValue) !in lines;
  }

  /** With a discount in [0, 0.38], a non-negative gross price is reduced to
      between 62% of itself and itself. */
  lemma DiscountedWithinGross(price: real, discount: real)
    requires price >= 0.0 && 0.0 <= discount <= 0.38
    ensures 0.62 * price <= Discounted(price, discount) <= price
  {
    assert Discounted(price, discount) == price - price * discount;
    assert 0.0 <= price * discount;
    assert price * discount <= price * 0.38;
  }
}
