/** The customer-profile discount stacker: an ordered list of percentage
    discounts (first order, loyalty tier, holiday, promo code, referral), a
    50% cap on their sum, and conversion to money rounded to cents. */
module Discounts {
  import opened Commerce

  /** An absent `promoCode` or `referralCode` is the empty string: the source
      only tests them for truthiness, and "" is falsy like a missing field. */
  datatype DiscountContext = DiscountContext(
    customerId: string,
    orderCount: int,
    lifetimeSpend: real,
    isFirstOrder: bool,
    cartTotal: real,
    promoCode: string,
    isHolidaySeason: bool,
    referralCode: string)

  /** Names of the applied discounts; a promo entry carries its code. */
  datatype DiscountName =
    | FirstOrder          // "First Order Discount"
    | PlatinumLoyalty     // "Platinum Loyalty"
    | GoldLoyalty         // "Gold Loyalty"
    | SilverLoyalty       // "Silver Loyalty"
    | BronzeLoyalty       // "Bronze Loyalty"
    | HolidaySeason       // "Holiday Season"
    | Promo(code: string) // "Promo: <code>"
    | ReferralBonus       // "Referral Bonus"

  datatype AppliedDiscount = AppliedDiscount(name: DiscountName, amount: real, kind: string)

  datatype DiscountResult = DiscountResult(
    totalDiscount: real,
    discountPercentage: real,
    appliedDiscounts: seq<AppliedDiscount>,
    finalTotal: real)

  datatype PromoCode = PromoCode(discount: real, minOrder: real, maxUses: Option<int>)

  /** The value `getLoyaltyTier` returns, one token per tier name. */
  datatype LoyaltyTier = Platinum | Gold | Silver | Bronze | NoLoyaltyTier

  const Percentage := "percentage"

  const HolidayDiscount := 0.15
  const FirstOrderDiscount := 0.10
  const ReferralDiscount := 0.15
  const MaxDiscountPercentage := 0.50

  const BronzeThreshold := 500.0
  const SilverThreshold := 2000.0
  const GoldThreshold := 5000.0
  const PlatinumThreshold := 10000.0

  const PromoCodes: map<string, PromoCode> := map[
    "SAVE10" := PromoCode(0.10, 50.0, None),
    "WELCOME20" := PromoCode(0.20, 100.0, Some(1)),
    "VIP30" := PromoCode(0.30, 200.0, None),
    "FLASH50" := PromoCode(0.50, 500.0, None)]

  /** Discount rate of a loyalty tier. */
  function LoyaltyRate(tier: LoyaltyTier): real {
    match tier
    case Platinum => 0.12
    case Gold => 0.08
    case Silver => 0.05
    case Bronze => 0.03
    case NoLoyaltyTier => 0.0
  }

  /** The highest loyalty tier whose threshold the lifetime spend meets. */
  function GetLoyaltyTier(lifetimeSpend: real): (tier: LoyaltyTier)
    ensures tier == Platinum <==> lifetimeSpend >= 10000.0
    ensures tier == Gold <==> 5000.0 <= lifetimeSpend < 10000.0
    ensures tier == Silver <==> 2000.0 <= lifetimeSpend < 5000.0
    ensures tier == Bronze <==> 500.0 <= lifetimeSpend < 2000.0
    ensures tier == NoLoyaltyTier <==> lifetimeSpend < 500.0
  {
    if lifetimeSpend >= PlatinumThreshold then Platinum
    else if lifetimeSpend >= GoldThreshold then Gold
    else if lifetimeSpend >= SilverThreshold then Silver
    else if lifetimeSpend >= BronzeThreshold then Bronze
    else NoLoyaltyTier
  }

  datatype PromoMessage =
    | InvalidPromoCode                  // "Invalid promo code"
    | MinimumOrderRequired(minOrder: real) // "Minimum order of $<minOrder> required"
    | DiscountApplied(percent: real)    // "<percent>% discount applied!"

  datatype PromoValidation = PromoValidation(valid: bool, discount: Option<real>, message: PromoMessage)

  /** Checks a code against the promo table and its minimum order. */
  function ValidatePromoCode(code: string, cartTotal: real): (v: PromoValidation)
    ensures v.valid <==> code in PromoCodes && cartTotal >= PromoCodes[code].minOrder
    ensures v.valid ==> v.discount == Some(PromoCodes[code].discount)
                        && v.message == DiscountApplied(PromoCodes[code].discount * 100.0)
    ensures !v.valid ==> v.discount == None
    ensures code !in PromoCodes ==> v.message == InvalidPromoCode
    ensures code in PromoCodes && !v.valid ==> v.message == MinimumOrderRequired(PromoCodes[code].minOrder)
  {
    if code !in PromoCodes then
      PromoValidation(false, None, InvalidPromoCode)
    else
      var promo := PromoCodes[code];
      if cartTotal < promo.minOrder then
        PromoValidation(false, None, MinimumOrderRequired(promo.minOrder))
      else
        PromoValidation(true, Some(promo.discount), DiscountApplied(promo.discount * 100.0))
  }

  // ---------------------------------------------------------------------------
  // Reference definition: the discounts that apply, segment by segment, in the
  // order the stacker considers them.
  // ---------------------------------------------------------------------------

  function FirstOrderSegment(ctx: DiscountContext): seq<AppliedDiscount> {
    if ctx.isFirstOrder || ctx.orderCount == 0 then [AppliedDiscount(FirstOrder, FirstOrderDiscount, Percentage)]
    else []
  }

  predicate IsLoyaltyName(name: DiscountName) {
    name in {PlatinumLoyalty, GoldLoyalty, SilverLoyalty, BronzeLoyalty}
  }

  function LoyaltyName(tier: LoyaltyTier): (name: DiscountName)
    requires tier != NoLoyaltyTier
    ensures IsLoyaltyName(name)
  {
    match tier
    case Platinum => PlatinumLoyalty
    case Gold => GoldLoyalty
    case Silver => SilverLoyalty
    case Bronze => BronzeLoyalty
  }

  /** The loyalty entry of the tier `GetLoyaltyTier` picks, if any. */
  function LoyaltySegment(lifetimeSpend: real): seq<AppliedDiscount> {
    var tier := GetLoyaltyTier(lifetimeSpend);
    if tier == NoLoyaltyTier then [] else [AppliedDiscount(LoyaltyName(tier), LoyaltyRate(tier), Percentage)]
  }

  function HolidaySegment(ctx: DiscountContext): seq<AppliedDiscount> {
    if ctx.isHolidaySeason then [AppliedDiscount(HolidaySeason, HolidayDiscount, Percentage)] else []
  }

  /** The promo entry, when `ValidatePromoCode` accepts a non-empty code. */
  function PromoSegment(code: string, cartTotal: real): seq<AppliedDiscount> {
    var v := ValidatePromoCode(code, cartTotal);
    if code != "" && v.valid then [AppliedDiscount(Promo(code), v.discount.value, Percentage)] else []
  }

  function ReferralSegment(ctx: DiscountContext): seq<AppliedDiscount> {
    if ctx.referralCode != "" then [AppliedDiscount(ReferralBonus, ReferralDiscount, Percentage)] else []
  }

  function ExpectedDiscounts(ctx: DiscountContext): seq<AppliedDiscount> {
    FirstOrderSegment(ctx) + LoyaltySegment(ctx.lifetimeSpend) + HolidaySegment(ctx)
    + PromoSegment(ctx.promoCode, ctx.cartTotal) + ReferralSegment(ctx)
  }

  /** Sum of the amounts of a list of discounts, last entry outermost. */
  function SumAmounts(ds: seq<AppliedDiscount>): real {
    if ds == [] then 0.0 else SumAmounts(ds[..|ds| - 1]) + ds[|ds| - 1].amount
  }

  /** The part of an amount a percentage (as a fraction) stands for. */
  function PercentOf(amount: real, fraction: real): real { amount * fraction }

  function MinReal(a: real, b: real): real { if a <= b then a else b }

  // ---------------------------------------------------------------------------
  // The stacker.
  // ---------------------------------------------------------------------------

  // Each step pushes its entry, if any, and adds its amount to the running
  // percentage.

  /** First-time buyer discount. */
  method FirstOrderStep(ctx: DiscountContext, applied0: seq<AppliedDiscount>, total0: real)
    returns (applied: seq<AppliedDiscount>, total: real)
    ensures applied == applied0 + FirstOrderSegment(ctx) && total == total0 + SumAmounts(FirstOrderSegment(ctx))
  {
    applied, total := applied0, total0;
    if ctx.isFirstOrder || ctx.orderCount == 0 {
      applied := applied + [AppliedDiscount(FirstOrder, FirstOrderDiscount, Percentage)];
      total := total + FirstOrderDiscount;
    }
    SingleAmount(FirstOrderSegment(ctx));
  }

  /** Loyalty discount for the highest threshold the lifetime spend meets. */
  method LoyaltyStep(ctx: DiscountContext, applied0: seq<AppliedDiscount>, total0: real)
    returns (applied: seq<AppliedDiscount>, total: real)
    ensures applied == applied0 + LoyaltySegment(ctx.lifetimeSpend) && total == total0 + SumAmounts(LoyaltySegment(ctx.lifetimeSpend))
  {
    applied, total := applied0, total0;
    if ctx.lifetimeSpend >= PlatinumThreshold {
      applied := applied + [AppliedDiscount(PlatinumLoyalty, 0.12, Percentage)];
      total := total + 0.12;
    } else if ctx.lifetimeSpend >= GoldThreshold {
      applied := applied + [AppliedDiscount(GoldLoyalty, 0.08, Percentage)];
      total := total + 0.08;
    } else if ctx.lifetimeSpend >= SilverThreshold {
      applied := applied + [AppliedDiscount(SilverLoyalty, 0.05, Percentage)];
      total := total + 0.05;
    } else if ctx.lifetimeSpend >= BronzeThreshold {
      applied := applied + [AppliedDiscount(BronzeLoyalty, 0.03, Percentage)];
      total := total + 0.03;
    }
    SingleAmount(LoyaltySegment(ctx.lifetimeSpend));
  }

  /** Holiday season discount. */
  method HolidayStep(ctx: DiscountContext, applied0: seq<AppliedDiscount>, total0: real)
    returns (applied: seq<AppliedDiscount>, total: real)
    ensures applied == applied0 + HolidaySegment(ctx) && total == total0 + SumAmounts(HolidaySegment(ctx))
  {
    applied, total := applied0, total0;
    if ctx.isHolidaySeason {
      applied := applied + [AppliedDiscount(HolidaySeason, HolidayDiscount, Percentage)];
      total := total + HolidayDiscount;
    }
    SingleAmount(HolidaySegment(ctx));
  }

  /** Promo code discount: a known code whose minimum order the cart meets. */
  method PromoStep(ctx: DiscountContext, applied0: seq<AppliedDiscount>, total0: real)
    returns (applied: seq<AppliedDiscount>, total: real)
    ensures applied == applied0 + PromoSegment(ctx.promoCode, ctx.cartTotal) && total == total0 + SumAmounts(PromoSegment(ctx.promoCode, ctx.cartTotal))
  {
    applied, total := applied0, total0;
    if ctx.promoCode != "" && ctx.promoCode in PromoCodes {
      var promo := PromoCodes[ctx.promoCode];
      if ctx.cartTotal >= promo.minOrder {
        applied := applied + [AppliedDiscount(Promo(ctx.promoCode), promo.discount, Percentage)];
        total := total + promo.discount;
      }
    }
    SingleAmount(PromoSegment(ctx.promoCode, ctx.cartTotal));
  }

  /** Referral discount for any non-empty referral code. */
  method ReferralStep(ctx: DiscountContext, applied0: seq<AppliedDiscount>, total0: real)
    returns (applied: seq<AppliedDiscount>, total: real)
    ensures applied == applied0 + ReferralSegment(ctx) && total == total0 + SumAmounts(ReferralSegment(ctx))
  {
    applied, total := applied0, total0;
    if ctx.referralCode != "" {
      applied := applied + [AppliedDiscount(ReferralBonus, ReferralDiscount, Percentage)];
      total := total + ReferralDiscount;
    }
    SingleAmount(ReferralSegment(ctx));
  }

  /** Converts the capped percentage to money; both amounts are rounded to
      cents only at this point. */
  method ToMoney(cartTotal: real, percentage: real) returns (totalDiscount: real, finalTotal: real)
    ensures totalDiscount == RoundCents(PercentOf(cartTotal, percentage))
    ensures finalTotal == RoundCents(cartTotal - PercentOf(cartTotal, percentage))
    ensures -0.01 < totalDiscount + finalTotal - cartTotal <= 0.01
  {
    RoundedPartsWithinACent(PercentOf(cartTotal, percentage), cartTotal - PercentOf(cartTotal, percentage));
    var discount := PercentOf(cartTotal, percentage);
    var remaining := cartTotal - discount;
    totalDiscount, finalTotal := RoundCents(discount), RoundCents(remaining);
  }

  method CalculateDiscounts(ctx: DiscountContext) returns (r: DiscountResult)
    ensures r.appliedDiscounts == ExpectedDiscounts(ctx)
    ensures r.discountPercentage == MinReal(SumAmounts(r.appliedDiscounts), MaxDiscountPercentage)
    ensures 0.0 <= r.discountPercentage <= MaxDiscountPercentage
    ensures r.totalDiscount == RoundCents(PercentOf(ctx.cartTotal, r.discountPercentage))
    ensures r.finalTotal == RoundCents(ctx.cartTotal - PercentOf(ctx.cartTotal, r.discountPercentage))
    ensures -0.01 < r.totalDiscount + r.finalTotal - ctx.cartTotal <= 0.01
  {
    var appliedDiscounts, totalDiscountPercentage := FirstOrderStep(ctx, [], 0.0);
    assert appliedDiscounts == FirstOrderSegment(ctx);
    appliedDiscounts, totalDiscountPercentage := LoyaltyStep(ctx, appliedDiscounts, totalDiscountPercentage);
    appliedDiscounts, totalDiscountPercentage := HolidayStep(ctx, appliedDiscounts, totalDiscountPercentage);
    appliedDiscounts, totalDiscountPercentage := PromoStep(ctx, appliedDiscounts, totalDiscountPercentage);
    appliedDiscounts, totalDiscountPercentage := ReferralStep(ctx, appliedDiscounts, totalDiscountPercentage);
    SumOfSegments(ctx);
    SumOfExpectedInRange(ctx);

    if totalDiscountPercentage > MaxDiscountPercentage {
      totalDiscountPercentage := MaxDiscountPercentage;
    }

    var totalDiscount, finalTotal := ToMoney(ctx.cartTotal, totalDiscountPercentage);
    r := DiscountResult(totalDiscount, totalDiscountPercentage, appliedDiscounts, finalTotal);
  }

  // ---------------------------------------------------------------------------
  // Properties.
  // ---------------------------------------------------------------------------

  /** Appending a block of entries adds their amounts. */
  lemma {:induction false} SumAmountsAppend(ds: seq<AppliedDiscount>, es: seq<AppliedDiscount>)
    ensures SumAmounts(ds + es) == SumAmounts(ds) + SumAmounts(es)
    decreases |es|
  {
    if es == [] {
      assert ds + es == ds;
    } else {
      var last := |es| - 1;
      assert (ds + es)[..|ds + es| - 1] == ds + es[..last];
      SumAmountsAppend(ds, es[..last]);
    }
  }

  /** A segment holds at most one entry, so its sum is that entry's amount. */
  lemma SingleAmount(ds: seq<AppliedDiscount>)
    requires |ds| <= 1
    ensures SumAmounts(ds) == if ds == [] then 0.0 else ds[0].amount
  {
    if ds != [] {
      assert ds[..0] == [];
    }
  }

  /** The sum of the applied amounts is the sum of the five segments' amounts. */
  lemma SumOfSegments(ctx: DiscountContext)
    ensures SumAmounts(ExpectedDiscounts(ctx))
            == SumAmounts(FirstOrderSegment(ctx)) + SumAmounts(LoyaltySegment(ctx.lifetimeSpend))
             + SumAmounts(HolidaySegment(ctx)) + SumAmounts(PromoSegment(ctx.promoCode, ctx.cartTotal))
             + SumAmounts(ReferralSegment(ctx))
  {
    var a, b, c := FirstOrderSegment(ctx), LoyaltySegment(ctx.lifetimeSpend), HolidaySegment(ctx);
    var d, e := PromoSegment(ctx.promoCode, ctx.cartTotal), ReferralSegment(ctx);
    SumAmountsAppend(a, b);
    SumAmountsAppend(a + b, c);
    SumAmountsAppend(a + b + c, d);
    SumAmountsAppend(a + b + c + d, e);
  }

  /** Each segment adds between 0 and its largest rate, so before the cap the
      applied amounts sum to a value in [0, 1.02]. */
  lemma SumOfExpectedInRange(ctx: DiscountContext)
    ensures 0.0 <= SumAmounts(ExpectedDiscounts(ctx)) <= 1.02
  {
    SumOfSegments(ctx);
    PromoRatesAtMostHalf(ctx.promoCode);
    SingleAmount(FirstOrderSegment(ctx));
    SingleAmount(LoyaltySegment(ctx.lifetimeSpend));
    SingleAmount(HolidaySegment(ctx));
    SingleAmount(PromoSegment(ctx.promoCode, ctx.cartTotal));
    SingleAmount(ReferralSegment(ctx));
  }

  /** Every promo rate is a positive fraction of at most one half. */
  lemma PromoRatesAtMostHalf(code: string)
    ensures code in PromoCodes ==> 0.0 < PromoCodes[code].discount <= 0.5
  {
  }

  /** An entry is applied exactly when one of the five segments holds it. */
  lemma EntryFromASegment(ctx: DiscountContext, x: AppliedDiscount)
    ensures x in ExpectedDiscounts(ctx) <==>
      || x in FirstOrderSegment(ctx) || x in LoyaltySegment(ctx.lifetimeSpend) || x in HolidaySegment(ctx)
      || x in PromoSegment(ctx.promoCode, ctx.cartTotal) || x in ReferralSegment(ctx)
  {
  }

  /** The first-order discount of 10% is applied exactly to a first order or a
      customer with no orders. */
  lemma FirstOrderDiscountExactly(ctx: DiscountContext)
    ensures AppliedDiscount(FirstOrder, 0.10, Percentage) in ExpectedDiscounts(ctx)
            <==> ctx.isFirstOrder || ctx.orderCount == 0
  {
    EntryFromASegment(ctx, AppliedDiscount(FirstOrder, 0.10, Percentage));
  }

  /** Holiday and referral discounts, 15% each, follow their flags. */
  lemma HolidayAndReferralExactly(ctx: DiscountContext)
    ensures AppliedDiscount(HolidaySeason, 0.15, Percentage) in ExpectedDiscounts(ctx) <==> ctx.isHolidaySeason
    ensures AppliedDiscount(ReferralBonus, 0.15, Percentage) in ExpectedDiscounts(ctx) <==> ctx.referralCode != ""
  {
    EntryFromASegment(ctx, AppliedDiscount(HolidaySeason, 0.15, Percentage));
    EntryFromASegment(ctx, AppliedDiscount(ReferralBonus, 0.15, Percentage));
  }

  /** A promo entry is applied exactly when the code is non-empty, in the
      table, and the cart meets its minimum order; that is the gate of
      `ValidatePromoCode`, and the amount is the discount it reports. */
  lemma PromoAgreesWithValidation(ctx: DiscountContext)
    ensures (exists d :: d in ExpectedDiscounts(ctx) && d.name == Promo(ctx.promoCode))
            <==> ctx.promoCode != "" && ctx.promoCode in PromoCodes
                 && ctx.cartTotal >= PromoCodes[ctx.promoCode].minOrder
    ensures forall d :: d in ExpectedDiscounts(ctx) && d.name.Promo? ==>
              d.name.code == ctx.promoCode && ValidatePromoCode(d.name.code, ctx.cartTotal).discount == Some(d.amount)
  {
    var seg := PromoSegment(ctx.promoCode, ctx.cartTotal);
    forall d | d in ExpectedDiscounts(ctx)
      ensures d.name.Promo? <==> d in seg
    {
      EntryFromASegment(ctx, d);
    }
    if seg != [] {
      assert seg[0] in ExpectedDiscounts(ctx) by { EntryFromASegment(ctx, seg[0]); }
    }
  }

  /** Where an entry sits in the order the stacker considers discounts. */
  function Position(name: DiscountName): nat {
    match name
    case FirstOrder => 0
    case PlatinumLoyalty => 1
    case GoldLoyalty => 1
    case SilverLoyalty => 1
    case BronzeLoyalty => 1
    case HolidaySeason => 2
    case Promo(_) => 3
    case ReferralBonus => 4
  }

  /** Entries strictly ordered by position, all of type "percentage". */
  predicate InOrder(ds: seq<AppliedDiscount>) {
    && (forall i, j :: 0 <= i < j < |ds| ==> Position(ds[i].name) < Position(ds[j].name))
    && (forall i :: 0 <= i < |ds| ==> ds[i].kind == Percentage)
  }

  /** Every entry sits before position k. */
  predicate AllBefore(ds: seq<AppliedDiscount>, k: nat) {
    forall i :: 0 <= i < |ds| ==> Position(ds[i].name) < k
  }

  /** A segment: at most one percentage entry, at position k. */
  predicate SegmentAt(seg: seq<AppliedDiscount>, k: nat) {
    |seg| <= 1 && forall i :: 0 <= i < |seg| ==> Position(seg[i].name) == k && seg[i].kind == Percentage
  }

  /** Appending a segment at position k to entries before k keeps the order. */
  lemma AppendInOrder(ds: seq<AppliedDiscount>, seg: seq<AppliedDiscount>, k: nat)
    requires InOrder(ds) && AllBefore(ds, k) && SegmentAt(seg, k)
    ensures InOrder(ds + seg) && AllBefore(ds + seg, k + 1)
  {
  }

  /** Each segment of the reference definition sits at its own position. */
  lemma SegmentsPositioned(ctx: DiscountContext)
    ensures SegmentAt(FirstOrderSegment(ctx), 0) && SegmentAt(LoyaltySegment(ctx.lifetimeSpend), 1)
    ensures SegmentAt(HolidaySegment(ctx), 2) && SegmentAt(PromoSegment(ctx.promoCode, ctx.cartTotal), 3)
    ensures SegmentAt(ReferralSegment(ctx), 4)
  {
  }

  /** Applied entries appear in the order first order, loyalty, holiday, promo,
      referral, and every one of them is a percentage. */
  lemma AppliedInOrder(ctx: DiscountContext)
    ensures InOrder(ExpectedDiscounts(ctx))
  {
    var a, b, c := FirstOrderSegment(ctx), LoyaltySegment(ctx.lifetimeSpend), HolidaySegment(ctx);
    var d, e := PromoSegment(ctx.promoCode, ctx.cartTotal), ReferralSegment(ctx);
    SegmentsPositioned(ctx);
    AppendInOrder([], a, 0);
    assert [] + a == a;
    AppendInOrder(a, b, 1);
    AppendInOrder(a + b, c, 2);
    AppendInOrder(a + b + c, d, 3);
    AppendInOrder(a + b + c + d, e, 4);
  }

  /** At most one loyalty entry is applied, and it is the one for the highest
      threshold the lifetime spend meets, as `GetLoyaltyTier` names it. */
  lemma OneLoyaltyEntry(ctx: DiscountContext)
    ensures forall i, j :: 0 <= i < j < |ExpectedDiscounts(ctx)| ==>
              !(IsLoyaltyName(ExpectedDiscounts(ctx)[i].name) && IsLoyaltyName(ExpectedDiscounts(ctx)[j].name))
    ensures forall d :: d in ExpectedDiscounts(ctx) && IsLoyaltyName(d.name) ==>
              GetLoyaltyTier(ctx.lifetimeSpend) != NoLoyaltyTier
              && d.name == LoyaltyName(GetLoyaltyTier(ctx.lifetimeSpend))
              && d.amount == LoyaltyRate(GetLoyaltyTier(ctx.lifetimeSpend))
    ensures ctx.lifetimeSpend >= 500.0 ==>
              LoyaltySegment(ctx.lifetimeSpend)[0] in ExpectedDiscounts(ctx)
  {
    AppliedInOrder(ctx);
    var seg := LoyaltySegment(ctx.lifetimeSpend);
    forall d | d in ExpectedDiscounts(ctx) && IsLoyaltyName(d.name)
      ensures d in seg
    {
      EntryFromASegment(ctx, d);
    }
    if ctx.lifetimeSpend >= 500.0 {
      EntryFromASegment(ctx, seg[0]);
    }
  }

  /** A first order from a platinum customer in the holiday season with the
      FLASH50 code and a referral stacks to 102% and is capped at 50%. */
  lemma AllRulesScenario()
    ensures var ctx := DiscountContext("c1", 0, 20000.0, true, 1000.0, "FLASH50", true, "friend");
      && |ExpectedDiscounts(ctx)| == 5
      && SumAmounts(ExpectedDiscounts(ctx)) == 1.02
      && MinReal(SumAmounts(ExpectedDiscounts(ctx)), MaxDiscountPercentage) == 0.5
  {
    var ctx := DiscountContext("c1", 0, 20000.0, true, 1000.0, "FLASH50", true, "friend");
    assert "FLASH50" in PromoCodes;
    SumOfSegments(ctx);
    SingleAmount(FirstOrderSegment(ctx));
    SingleAmount(LoyaltySegment(ctx.lifetimeSpend));
    SingleAmount(HolidaySegment(ctx));
    SingleAmount(PromoSegment(ctx.promoCode, ctx.cartTotal));
    SingleAmount(ReferralSegment(ctx));
  }
}
