/** The cart-weighted discount engine: a promo code held as state and changed
    by applying or removing a code, and a calculation that stacks a tier
    discount, weighted per-category discounts, three "first matching tier
    wins" bonuses and the held promo, caps the total at 40% and converts it to
    money. */
module DiscountEngine {
  import opened Commerce

  datatype CartItem = CartItem(id: string, name: string, price: real, quantity: int, category: string)

  /** `memberSince` is not a field: the months of membership it yields are an
      input of the calculation. */
  datatype CustomerProfile = CustomerProfile(id: string, tier: Tier, lifetimeSpend: real, orderCount: int)

  /** Names of the discount lines; each carries what the source interpolates. */
  datatype DiscountName =
    | TierDiscount(tier: Tier)              // "<Tier> Tier"
    | CategoryDiscount(category: string)    // "<Category> Category"
    | BundleDiscount(minItems: real)        // "Bundle (<minItems>+ items)"
    | SpendBonus(minSpend: real)            // "Spend Bonus ($<minSpend>+)"
    | LoyaltyBonus(months: real)            // "Loyalty (<months>+ months)"
    | PromoDiscount(code: string)           // "Promo: <code>"

  datatype Discount = Discount(name: DiscountName, amount: real, percentage: real)

  /** The savings text: "$0.00" for an empty cart, otherwise the unrounded
      discount and the rounded whole percentage. */
  datatype Savings = ZeroSavings | Savings(amount: real, percent: int)

  datatype DiscountCalculation = DiscountCalculation(
    subtotal: real,
    discounts: seq<Discount>,
    totalDiscount: real,
    finalTotal: real,
    savings: Savings)

  const ZeroCalculation := DiscountCalculation(0.0, [], 0.0, 0.0, ZeroSavings)

  /** A row of a threshold table: the minimum to reach and the rate it gives. */
  datatype Threshold = Threshold(min: real, rate: real)

  const BundleThresholds: seq<Threshold> := [Threshold(10.0, 0.15), Threshold(5.0, 0.10), Threshold(3.0, 0.05)]
  const SpendBonusThresholds: seq<Threshold> := [Threshold(500.0, 0.10), Threshold(250.0, 0.05), Threshold(100.0, 0.02)]
  /** The loyalty-duration table after sorting its keys in descending order. */
  const LoyaltyDurationBonus: seq<Threshold> := [Threshold(24.0, 0.05), Threshold(12.0, 0.03), Threshold(6.0, 0.01)]

  const MaxTotalDiscount := 0.40

  const ValidPromoCodes: map<string, real> :=
    map["SAVE10" := 0.10, "WELCOME" := 0.15, "VIP25" := 0.25, "FLASH20" := 0.20, "LOYALTY5" := 0.05]

  function TierRate(tier: Tier): real {
    match tier
    case Basic => 0.0
    case Premium => 0.05
    case Vip => 0.10
    case Enterprise => 0.15
  }

  /** Category rate; a category missing from the table has rate 0. */
  function CategoryRate(category: string): real {
    if category == "electronics" then 0.05
    else if category == "clothing" then 0.10
    else if category == "clearance" then 0.30
    else if category == "seasonal" then 0.20
    else 0.0
  }

  // ---------------------------------------------------------------------------
  // Arithmetic kept behind names, so that products and quotients of unknowns
  // stay out of the proofs that only move them around.
  // ---------------------------------------------------------------------------

  /** The part of an amount a rate (as a fraction) stands for. */
  function PercentOf(amount: real, rate: real): real { amount * rate }

  /** The fraction of the whole an amount makes up. */
  function Share(amount: real, whole: real): real
    requires whole != 0.0
  {
    amount / whole
  }

  function LineTotal(item: CartItem): real { item.price * item.quantity as real }

  function MinReal(a: real, b: real): real { if a <= b then a else b }

  /** `Math.round(fraction * 100)`: the whole percentage, halves rounded up. */
  function RoundPercent(fraction: real): int { (fraction * 100.0 + 0.5).Floor }

  // ---------------------------------------------------------------------------
  // Promo codes: upper-casing.
  // ---------------------------------------------------------------------------

  function UpperChar(c: char): char {
    if 'a' <= c <= 'z' then (c as int - 32) as char else c
  }

  /** Upper-casing of the ASCII letters; other characters are kept. */
  function ToUpper(s: string): (u: string)
    ensures |u| == |s|
  {
    seq(|s|, i requires 0 <= i < |s| => UpperChar(s[i]))
  }

  /** Upper-casing twice is upper-casing once, and every known code is
      already upper case, so a code that was applied applies to itself. */
  lemma ToUpperIdempotent(s: string)
    ensures ToUpper(ToUpper(s)) == ToUpper(s)
    ensures forall k :: k in ValidPromoCodes ==> ToUpper(k) == k
  {
    assert ToUpper("SAVE10") == "SAVE10";
    assert ToUpper("WELCOME") == "WELCOME";
    assert ToUpper("VIP25") == "VIP25";
    assert ToUpper("FLASH20") == "FLASH20";
    assert ToUpper("LOYALTY5") == "LOYALTY5";
  }

  datatype PromoMessage = PromoApplied(code: string) | InvalidPromoCode
  datatype PromoResult = PromoResult(valid: bool, message: PromoMessage)

  // ---------------------------------------------------------------------------
  // Reference definitions of the calculation.
  // ---------------------------------------------------------------------------

  /** Sum of the line totals, last item outermost. */
  function Subtotal(cart: seq<CartItem>): real {
    if cart == [] then 0.0 else Subtotal(cart[..|cart| - 1]) + LineTotal(cart[|cart| - 1])
  }

  function TotalItems(cart: seq<CartItem>): int {
    if cart == [] then 0 else TotalItems(cart[..|cart| - 1]) + cart[|cart| - 1].quantity
  }

  /** The distinct categories in order of first appearance: the key order of
      the per-category dictionary. */
  function CategoryOrder(cart: seq<CartItem>): seq<string> {
    if cart == [] then []
    else
      var prefix := CategoryOrder(cart[..|cart| - 1]);
      var c := cart[|cart| - 1].category;
      if c in prefix then prefix else prefix + [c]
  }

  /** Sum of the line totals of the items in one category. */
  function CategoryTotal(cart: seq<CartItem>, category: string): real {
    if cart == [] then 0.0
    else
      CategoryTotal(cart[..|cart| - 1], category)
      + (if cart[|cart| - 1].category == category then LineTotal(cart[|cart| - 1]) else 0.0)
  }

  /** First row of the table whose minimum the value reaches. */
  function FirstMatch(table: seq<Threshold>, value: real): Option<Threshold> {
    if table == [] then None
    else if value >= table[0].min then Some(table[0])
    else FirstMatch(table[1..], value)
  }

  /** The lines one rule adds and the fraction of the subtotal it adds. */
  datatype Contribution = Contribution(lines: seq<Discount>, share: real)

  const NoContribution := Contribution([], 0.0)

  function TierContribution(tier: Tier, subtotal: real): Contribution {
    if TierRate(tier) > 0.0 then
      Contribution([Discount(TierDiscount(tier), PercentOf(subtotal, TierRate(tier)), TierRate(tier))], TierRate(tier))
    else NoContribution
  }

  /** One line per listed category with a positive rate, in list order; each
      adds its category total times its rate, over the subtotal. */
  function CategoryLines(categories: seq<string>, cart: seq<CartItem>, subtotal: real): Contribution
    requires subtotal != 0.0
  {
    if categories == [] then NoContribution
    else
      var prev := CategoryLines(categories[..|categories| - 1], cart, subtotal);
      var c := categories[|categories| - 1];
      var rate := CategoryRate(c);
      if rate > 0.0 then
        var amount := PercentOf(CategoryTotal(cart, c), rate);
        Contribution(prev.lines + [Discount(CategoryDiscount(c), amount, rate)], prev.share + Share(amount, subtotal))
      else prev
  }

  function BundleContribution(totalItems: int, subtotal: real): Contribution {
    match FirstMatch(BundleThresholds, totalItems as real)
    case None => NoContribution
    case Some(t) => Contribution([Discount(BundleDiscount(t.min), PercentOf(subtotal, t.rate), t.rate)], t.rate)
  }

  function SpendContribution(subtotal: real): Contribution {
    match FirstMatch(SpendBonusThresholds, subtotal)
    case None => NoContribution
    case Some(t) => Contribution([Discount(SpendBonus(t.min), PercentOf(subtotal, t.rate), t.rate)], t.rate)
  }

  function LoyaltyContribution(memberMonths: int, subtotal: real): Contribution {
    match FirstMatch(LoyaltyDurationBonus, memberMonths as real)
    case None => NoContribution
    case Some(t) => Contribution([Discount(LoyaltyBonus(t.min), PercentOf(subtotal, t.rate), t.rate)], t.rate)
  }

  function PromoContribution(code: string, rate: real, subtotal: real): Contribution {
    if rate > 0.0 then Contribution([Discount(PromoDiscount(code), PercentOf(subtotal, rate), rate)], rate)
    else NoContribution
  }

  /** The lines of the six rules, in the order the engine applies them. */
  function ExpectedLines(cart: seq<CartItem>, customer: CustomerProfile, memberMonths: int,
                         promoCode: string, promoDiscount: real): seq<Discount>
    requires Subtotal(cart) != 0.0
  {
    var subtotal := Subtotal(cart);
    TierContribution(customer.tier, subtotal).lines
    + CategoryLines(CategoryOrder(cart), cart, subtotal).lines
    + BundleContribution(TotalItems(cart), subtotal).lines
    + SpendContribution(subtotal).lines
    + LoyaltyContribution(memberMonths, subtotal).lines
    + PromoContribution(promoCode, promoDiscount, subtotal).lines
  }

  /** The uncapped fraction of the subtotal the six rules add up to. */
  function ExpectedShare(cart: seq<CartItem>, customer: CustomerProfile, memberMonths: int,
                         promoCode: string, promoDiscount: real): real
    requires Subtotal(cart) != 0.0
  {
    var subtotal := Subtotal(cart);
    TierContribution(customer.tier, subtotal).share
    + CategoryLines(CategoryOrder(cart), cart, subtotal).share
    + BundleContribution(TotalItems(cart), subtotal).share
    + SpendContribution(subtotal).share
    + LoyaltyContribution(memberMonths, subtotal).share
    + PromoContribution(promoCode, promoDiscount, subtotal).share
  }

  // ---------------------------------------------------------------------------
  // Loops of the calculation.
  // ---------------------------------------------------------------------------

  method ComputeSubtotal(cart: seq<CartItem>) returns (subtotal: real)
    ensures subtotal == Subtotal(cart)
  {
    subtotal := 0.0;
    for i := 0 to |cart|
      invariant subtotal == Subtotal(cart[..i])
    {
      assert cart[..i + 1][..i] == cart[..i];
      subtotal := subtotal + LineTotal(cart[i]);
    }
    assert cart[..|cart|] == cart;
  }

  method CountItems(cart: seq<CartItem>) returns (totalItems: int)
    ensures totalItems == TotalItems(cart)
  {
    totalItems := 0;
    for i := 0 to |cart|
      invariant totalItems == TotalItems(cart[..i])
    {
      assert cart[..i + 1][..i] == cart[..i];
      totalItems := totalItems + cart[i].quantity;
    }
    assert cart[..|cart|] == cart;
  }

  /** Fills the per-category dictionary; `order` is its key order. */
  method GroupByCategory(cart: seq<CartItem>) returns (order: seq<string>, totals: map<string, real>)
    ensures order == CategoryOrder(cart)
    ensures forall c :: c in totals <==> c in order
    ensures forall c :: c in totals ==> totals[c] == CategoryTotal(cart, c)
  {
    order, totals := [], map[];
    for i := 0 to |cart|
      invariant order == CategoryOrder(cart[..i])
      invariant forall c :: c in totals <==> c in order
      invariant forall c :: c in totals ==> totals[c] == CategoryTotal(cart[..i], c)
    {
      assert cart[..i + 1][..i] == cart[..i];
      var category := cart[i].category;
      var previous := if category in totals then totals[category] else 0.0;
      CategoryTotalOfAbsent(cart[..i], category);
      totals := totals[category := previous + LineTotal(cart[i])];
      if category !in order {
        order := order + [category];
      }
    }
    assert cart[..|cart|] == cart;
  }

  /** The scan of a threshold table that stops at the first row reached. */
  method FirstMatchingTier(table: seq<Threshold>, value: real) returns (m: Option<Threshold>)
    ensures m == FirstMatch(table, value)
  {
    m := None;
    var i := 0;
    while i < |table|
      invariant 0 <= i <= |table|
      invariant FirstMatch(table, value) == FirstMatch(table[i..], value)
    {
      if value >= table[i].min {
        m := Some(table[i]);
        break;
      }
      assert table[i..][1..] == table[i + 1..];
      i := i + 1;
    }
  }

  // ---------------------------------------------------------------------------
  // Steps of the calculation: each pushes its lines and adds its fraction.
  // ---------------------------------------------------------------------------

  method CategoryStep(cart: seq<CartItem>, order: seq<string>, totals: map<string, real>, subtotal: real,
                      lines0: seq<Discount>, share0: real)
    returns (lines: seq<Discount>, share: real)
    requires subtotal != 0.0
    requires forall c :: c in order ==> c in totals && totals[c] == CategoryTotal(cart, c)
    ensures lines == lines0 + CategoryLines(order, cart, subtotal).lines
    ensures share == share0 + CategoryLines(order, cart, subtotal).share
  {
    lines, share := lines0, share0;
    for i := 0 to |order|
      invariant lines == lines0 + CategoryLines(order[..i], cart, subtotal).lines
      invariant share == share0 + CategoryLines(order[..i], cart, subtotal).share
    {
      assert order[..i + 1][..i] == order[..i];
      var category := order[i];
      var total := totals[category];
      var categoryDiscount := CategoryRate(category);
      if categoryDiscount > 0.0 {
        var discountAmount := PercentOf(total, categoryDiscount);
        lines := lines + [Discount(CategoryDiscount(category), discountAmount, categoryDiscount)];
        share := share + Share(discountAmount, subtotal);
      }
    }
    assert order[..|order|] == order;
  }

  /** Adds the tier's line and share when its rate is positive. */
  method TierStep(tier: Tier, subtotal: real, lines0: seq<Discount>, share0: real)
    returns (lines: seq<Discount>, share: real)
    ensures lines == lines0 + TierContribution(tier, subtotal).lines
    ensures share == share0 + TierContribution(tier, subtotal).share
  {
    lines, share := lines0, share0;
    var tierDiscount := TierRate(tier);
    if tierDiscount > 0.0 {
      lines := lines + [Discount(TierDiscount(tier), PercentOf(subtotal, tierDiscount), tierDiscount)];
      share := share + tierDiscount;
    }
  }

  /** Adds the line of the first matching bundle row, under the name it gets. */
  method BundleStep(totalItems: int, subtotal: real, lines0: seq<Discount>, share0: real)
    returns (lines: seq<Discount>, share: real)
    ensures lines == lines0 + BundleContribution(totalItems, subtotal).lines
    ensures share == share0 + BundleContribution(totalItems, subtotal).share
  {
    lines, share := lines0, share0;
    var m := FirstMatchingTier(BundleThresholds, totalItems as real);
    if m.Some? {
      lines := lines + [Discount(BundleDiscount(m.value.min), PercentOf(subtotal, m.value.rate), m.value.rate)];
      share := share + m.value.rate;
    }
  }

  /** Adds the line of the first matching spend-bonus row, under the name it gets. */
  method SpendStep(subtotal: real, lines0: seq<Discount>, share0: real)
    returns (lines: seq<Discount>, share: real)
    ensures lines == lines0 + SpendContribution(subtotal).lines
    ensures share == share0 + SpendContribution(subtotal).share
  {
    lines, share := lines0, share0;
    var m := FirstMatchingTier(SpendBonusThresholds, subtotal);
    if m.Some? {
      lines := lines + [Discount(SpendBonus(m.value.min), PercentOf(subtotal, m.value.rate), m.value.rate)];
      share := share + m.value.rate;
    }
  }

  /** Adds the line of the first matching membership row, under the name it gets. */
  method LoyaltyStep(memberMonths: int, subtotal: real, lines0: seq<Discount>, share0: real)
    returns (lines: seq<Discount>, share: real)
    ensures lines == lines0 + LoyaltyContribution(memberMonths, subtotal).lines
    ensures share == share0 + LoyaltyContribution(memberMonths, subtotal).share
  {
    lines, share := lines0, share0;
    var m := FirstMatchingTier(LoyaltyDurationBonus, memberMonths as real);
    if m.Some? {
      lines := lines + [Discount(LoyaltyBonus(m.value.min), PercentOf(subtotal, m.value.rate), m.value.rate)];
      share := share + m.value.rate;
    }
  }

  method PromoStep(code: string, rate: real, subtotal: real, lines0: seq<Discount>, share0: real)
    returns (lines: seq<Discount>, share: real)
    ensures lines == lines0 + PromoContribution(code, rate, subtotal).lines
    ensures share == share0 + PromoContribution(code, rate, subtotal).share
  {
    lines, share := lines0, share0;
    if rate > 0.0 {
      lines := lines + [Discount(PromoDiscount(code), PercentOf(subtotal, rate), rate)];
      share := share + rate;
    }
  }

  method ToMoney(subtotal: real, fraction: real) returns (totalDiscount: real, finalTotal: real, savings: Savings)
    ensures totalDiscount == RoundCents(PercentOf(subtotal, fraction))
    ensures finalTotal == RoundCents(subtotal - PercentOf(subtotal, fraction))
    ensures savings == Savings(PercentOf(subtotal, fraction), RoundPercent(fraction))
    ensures -0.01 < totalDiscount + finalTotal - subtotal <= 0.01
  {
    var discount := PercentOf(subtotal, fraction);
    var remaining := subtotal - discount;
    RoundedPartsWithinACent(discount, remaining);
    totalDiscount, finalTotal := RoundCents(discount), RoundCents(remaining);
    savings := Savings(discount, RoundPercent(fraction));
  }

  /** The six rules in order, on a cart with a non-zero subtotal. */
  method ApplyRules(cart: seq<CartItem>, customer: CustomerProfile, memberMonths: int,
                    promoCode: string, promoDiscount: real, subtotal: real)
    returns (discounts: seq<Discount>, totalDiscountPercentage: real)
    requires subtotal == Subtotal(cart) && subtotal != 0.0
    ensures discounts == ExpectedLines(cart, customer, memberMonths, promoCode, promoDiscount)
    ensures totalDiscountPercentage == ExpectedShare(cart, customer, memberMonths, promoCode, promoDiscount)
  {
    discounts, totalDiscountPercentage := TierStep(customer.tier, subtotal, [], 0.0);
    assert discounts == TierContribution(customer.tier, subtotal).lines;
    var order, categoryTotals := GroupByCategory(cart);
    discounts, totalDiscountPercentage :=
      CategoryStep(cart, order, categoryTotals, subtotal, discounts, totalDiscountPercentage);
    var totalItems := CountItems(cart);
    discounts, totalDiscountPercentage := BundleStep(totalItems, subtotal, discounts, totalDiscountPercentage);
    discounts, totalDiscountPercentage := SpendStep(subtotal, discounts, totalDiscountPercentage);
    discounts, totalDiscountPercentage := LoyaltyStep(memberMonths, subtotal, discounts, totalDiscountPercentage);
    discounts, totalDiscountPercentage := PromoStep(promoCode, promoDiscount, subtotal, discounts, totalDiscountPercentage);
  }

  // ---------------------------------------------------------------------------
  // The engine and its promo state.
  // ---------------------------------------------------------------------------

  class Engine {
    var promoCode: string
    var promoDiscount: real

    /** No promo, or a known code with its rate. */
    predicate Valid()
      reads this
    {
      (promoCode == "" && promoDiscount == 0.0)
      || (promoCode in ValidPromoCodes && promoDiscount == ValidPromoCodes[promoCode])
    }

    constructor()
      ensures Valid() && promoCode == "" && promoDiscount == 0.0
    {
      promoCode, promoDiscount := "", 0.0;
    }

    /** A known code, after upper-casing, becomes the held promo; an unknown
        one changes nothing. */
    method ApplyPromoCode(code: string) returns (result: PromoResult)
      modifies this
      ensures ToUpper(code) in ValidPromoCodes ==>
        && promoCode == ToUpper(code) && promoDiscount == ValidPromoCodes[ToUpper(code)]
        && result == PromoResult(true, PromoApplied(ToUpper(code)))
      ensures ToUpper(code) !in ValidPromoCodes ==>
        && promoCode == old(promoCode) && promoDiscount == old(promoDiscount)
        && result == PromoResult(false, InvalidPromoCode)
      ensures old(Valid()) ==> Valid()
    {
      var upperCode := ToUpper(code);
      if upperCode in ValidPromoCodes {
        promoCode := upperCode;
        promoDiscount := ValidPromoCodes[upperCode];
        return PromoResult(true, PromoApplied(upperCode));
      }
      return PromoResult(false, InvalidPromoCode);
    }

    method RemovePromoCode()
      modifies this
      ensures promoCode == "" && promoDiscount == 0.0
      ensures Valid()
    {
      promoCode := "";
      promoDiscount := 0.0;
    }

    method CalculateDiscounts(cart: seq<CartItem>, customer: CustomerProfile, memberMonths: int)
      returns (result: DiscountCalculation)
      requires Valid()
      ensures Subtotal(cart) == 0.0 ==> result == ZeroCalculation
      ensures Subtotal(cart) != 0.0 ==>
        var fraction := MinReal(ExpectedShare(cart, customer, memberMonths, promoCode, promoDiscount), MaxTotalDiscount);
        && result.subtotal == Subtotal(cart)
        && result.discounts == ExpectedLines(cart, customer, memberMonths, promoCode, promoDiscount)
        && result.totalDiscount == RoundCents(PercentOf(result.subtotal, fraction))
        && result.finalTotal == RoundCents(result.subtotal - PercentOf(result.subtotal, fraction))
        && result.savings == Savings(PercentOf(result.subtotal, fraction), RoundPercent(fraction))
        && result.savings.percent <= 40
        && -0.01 < result.totalDiscount + result.finalTotal - result.subtotal <= 0.01
      ensures NonNegativeCart(cart) && Subtotal(cart) != 0.0 ==>
        0.0 <= result.totalDiscount && 0.0 <= result.finalTotal && 0 <= result.savings.percent
    {
      var subtotal := ComputeSubtotal(cart);
      if subtotal == 0.0 {
        return ZeroCalculation;
      }
      var discounts, totalDiscountPercentage := ApplyRules(cart, customer, memberMonths, promoCode, promoDiscount, subtotal);

      if NonNegativeCart(cart) {
        HeldPromoRates(promoCode);
        UncappedShareBounds(cart, customer, memberMonths, promoCode, promoDiscount);
        SubtotalNonNegative(cart);
      }

      if totalDiscountPercentage > MaxTotalDiscount {
        totalDiscountPercentage := MaxTotalDiscount;
      }

      CappedPercent(totalDiscountPercentage);
      if NonNegativeCart(cart) {
        PartWithinWhole(subtotal, totalDiscountPercentage);
      }
      var totalDiscount, finalTotal, savings := ToMoney(subtotal, totalDiscountPercentage);
      result := DiscountCalculation(subtotal, discounts, totalDiscount, finalTotal, savings);
    }
  }

  // ---------------------------------------------------------------------------
  // Properties.
  // ---------------------------------------------------------------------------

  /** A category absent from the order has no items, so its total is 0. */
  lemma {:induction false} CategoryTotalOfAbsent(cart: seq<CartItem>, category: string)
    ensures category !in CategoryOrder(cart) ==> CategoryTotal(cart, category) == 0.0
    decreases |cart|
  {
    if cart != [] {
      CategoryTotalOfAbsent(cart[..|cart| - 1], category);
    }
  }

  // First-match-wins tables.

  /** Rows strictly descending by minimum. */
  ghost predicate Descending(table: seq<Threshold>) {
    forall i, j :: 0 <= i < j < |table| ==> table[j].min < table[i].min
  }

  lemma ThresholdTablesDescending()
    ensures Descending(BundleThresholds) && Descending(SpendBonusThresholds) && Descending(LoyaltyDurationBonus)
  {
  }

  /** On a descending table the first row reached is the row with the largest
      minimum the value reaches; there is none exactly when the value is below
      every minimum. */
  lemma {:induction false} FirstMatchIsHighestReached(table: seq<Threshold>, value: real)
    requires Descending(table)
    ensures FirstMatch(table, value).None? <==> forall i :: 0 <= i < |table| ==> value < table[i].min
    ensures FirstMatch(table, value).Some? ==>
      var t := FirstMatch(table, value).value;
      && t in table && t.min <= value
      && forall i :: 0 <= i < |table| && table[i].min <= value ==> table[i].min <= t.min
  {
    if table != [] && value < table[0].min {
      FirstMatchIsHighestReached(table[1..], value);
      assert forall i :: 1 <= i < |table| ==> table[i] == table[1..][i - 1];
    }
  }

  // How many lines each rule contributes.

  datatype Rule = TierRule | CategoryRule | BundleRule | SpendRule | LoyaltyRule | PromoRule

  function RuleOf(name: DiscountName): Rule {
    match name
    case TierDiscount(_) => TierRule
    case CategoryDiscount(_) => CategoryRule
    case BundleDiscount(_) => BundleRule
    case SpendBonus(_) => SpendRule
    case LoyaltyBonus(_) => LoyaltyRule
    case PromoDiscount(_) => PromoRule
  }

  /** Number of lines a rule produced. */
  function Count(lines: seq<Discount>, rule: Rule): nat {
    if lines == [] then 0
    else Count(lines[..|lines| - 1], rule) + (if RuleOf(lines[|lines| - 1].name) == rule then 1 else 0)
  }

  lemma {:induction false} CountAppend(a: seq<Discount>, b: seq<Discount>, rule: Rule)
    ensures Count(a + b, rule) == Count(a, rule) + Count(b, rule)
    decreases |b|
  {
    if b == [] {
      assert a + b == a;
    } else {
      assert (a + b)[..|a + b| - 1] == a + b[..|b| - 1];
      assert (a + b)[|a + b| - 1] == b[|b| - 1];
      CountAppend(a, b[..|b| - 1], rule);
    }
  }

  /** Number of listed categories with a positive rate. */
  function RatedCategories(categories: seq<string>): nat {
    if categories == [] then 0
    else RatedCategories(categories[..|categories| - 1])
         + (if CategoryRate(categories[|categories| - 1]) > 0.0 then 1 else 0)
  }

  /** The category rule adds one line per listed category with a positive
      rate, and no line of any other rule. */
  lemma {:induction false} CategoryLinesCount(categories: seq<string>, cart: seq<CartItem>, subtotal: real, rule: Rule)
    requires subtotal != 0.0
    ensures Count(CategoryLines(categories, cart, subtotal).lines, rule)
            == if rule == CategoryRule then RatedCategories(categories) else 0
    decreases |categories|
  {
    if categories != [] {
      CategoryLinesCount(categories[..|categories| - 1], cart, subtotal, rule);
      var prev := CategoryLines(categories[..|categories| - 1], cart, subtotal);
      var c := categories[|categories| - 1];
      if CategoryRate(c) > 0.0 {
        var line := Discount(CategoryDiscount(c), PercentOf(CategoryTotal(cart, c), CategoryRate(c)), CategoryRate(c));
        CountAppend(prev.lines, [line], rule);
      }
    }
  }

  /** Each rule's lines counted over the whole list. */
  lemma CountOverRules(cart: seq<CartItem>, customer: CustomerProfile, memberMonths: int,
                       promoCode: string, promoDiscount: real, rule: Rule)
    requires Subtotal(cart) != 0.0
    ensures
      var subtotal := Subtotal(cart);
      Count(ExpectedLines(cart, customer, memberMonths, promoCode, promoDiscount), rule)
      == Count(TierContribution(customer.tier, subtotal).lines, rule)
       + Count(CategoryLines(CategoryOrder(cart), cart, subtotal).lines, rule)
       + Count(BundleContribution(TotalItems(cart), subtotal).lines, rule)
       + Count(SpendContribution(subtotal).lines, rule)
       + Count(LoyaltyContribution(memberMonths, subtotal).lines, rule)
       + Count(PromoContribution(promoCode, promoDiscount, subtotal).lines, rule)
  {
    var subtotal := Subtotal(cart);
    var t, c := TierContribution(customer.tier, subtotal).lines, CategoryLines(CategoryOrder(cart), cart, subtotal).lines;
    var b, s := BundleContribution(TotalItems(cart), subtotal).lines, SpendContribution(subtotal).lines;
    var l, p := LoyaltyContribution(memberMonths, subtotal).lines, PromoContribution(promoCode, promoDiscount, subtotal).lines;
    CountAppend(t, c, rule);
    CountAppend(t + c, b, rule);
    CountAppend(t + c + b, s, rule);
    CountAppend(t + c + b + s, l, rule);
    CountAppend(t + c + b + s + l, p, rule);
  }

  /** The scan of a three-row table, written out. */
  lemma FirstMatchOfThree(table: seq<Threshold>, value: real)
    requires |table| == 3
    ensures FirstMatch(table, value)
            == if value >= table[0].min then Some(table[0])
               else if value >= table[1].min then Some(table[1])
               else if value >= table[2].min then Some(table[2])
               else None
  {
    var rest1, rest2 := table[1..], table[2..];
    assert rest1[0] == table[1] && rest1[1..] == rest2;
    assert rest2[0] == table[2] && rest2[1..] == [];
    assert FirstMatch(rest2, value) == if value >= table[2].min then Some(table[2]) else None;
  }

  /** A list of at most one line holds one line of a rule exactly when its
      line is of that rule. */
  lemma CountAtMostOne(lines: seq<Discount>, rule: Rule)
    requires |lines| <= 1
    ensures Count(lines, rule) == if lines != [] && RuleOf(lines[0].name) == rule then 1 else 0
  {
    if lines != [] {
      assert lines[..0] == [];
    }
  }

  /** Lines of the single-line rules: each produces at most one line, of its
      own rule, exactly when it fires. */
  lemma SingleLineCounts(tier: Tier, subtotal: real, code: string, rate: real, rule: Rule)
    ensures Count(TierContribution(tier, subtotal).lines, rule) == if rule == TierRule && tier != Basic then 1 else 0
    ensures Count(PromoContribution(code, rate, subtotal).lines, rule) == if rule == PromoRule && rate > 0.0 then 1 else 0
  {
    CountAtMostOne(TierContribution(tier, subtotal).lines, rule);
    CountAtMostOne(PromoContribution(code, rate, subtotal).lines, rule);
  }

  lemma BundleCount(totalItems: int, subtotal: real, rule: Rule)
    ensures Count(BundleContribution(totalItems, subtotal).lines, rule) == if rule == BundleRule && totalItems >= 3 then 1 else 0
  {
    FirstMatchOfThree(BundleThresholds, totalItems as real);
    CountAtMostOne(BundleContribution(totalItems, subtotal).lines, rule);
  }

  lemma SpendCount(subtotal: real, rule: Rule)
    ensures Count(SpendContribution(subtotal).lines, rule) == if rule == SpendRule && subtotal >= 100.0 then 1 else 0
  {
    FirstMatchOfThree(SpendBonusThresholds, subtotal);
    CountAtMostOne(SpendContribution(subtotal).lines, rule);
  }

  lemma LoyaltyCount(memberMonths: int, subtotal: real, rule: Rule)
    ensures Count(LoyaltyContribution(memberMonths, subtotal).lines, rule) == if rule == LoyaltyRule && memberMonths >= 6 then 1 else 0
  {
    FirstMatchOfThree(LoyaltyDurationBonus, memberMonths as real);
    CountAtMostOne(LoyaltyContribution(memberMonths, subtotal).lines, rule);
  }

  /** Every rule's lines counted, rule by rule. */
  lemma CountByRule(cart: seq<CartItem>, customer: CustomerProfile, memberMonths: int,
                    promoCode: string, promoDiscount: real, rule: Rule)
    requires Subtotal(cart) != 0.0
    ensures Count(ExpectedLines(cart, customer, memberMonths, promoCode, promoDiscount), rule)
            == (if rule == TierRule && customer.tier != Basic then 1 else 0)
             + (if rule == CategoryRule then RatedCategories(CategoryOrder(cart)) else 0)
             + (if rule == BundleRule && TotalItems(cart) >= 3 then 1 else 0)
             + (if rule == SpendRule && Subtotal(cart) >= 100.0 then 1 else 0)
             + (if rule == LoyaltyRule && memberMonths >= 6 then 1 else 0)
             + (if rule == PromoRule && promoDiscount > 0.0 then 1 else 0)
  {
    var subtotal := Subtotal(cart);
    CountOverRules(cart, customer, memberMonths, promoCode, promoDiscount, rule);
    SingleLineCounts(customer.tier, subtotal, promoCode, promoDiscount, rule);
    CategoryLinesCount(CategoryOrder(cart), cart, subtotal, rule);
    BundleCount(TotalItems(cart), subtotal, rule);
    SpendCount(subtotal, rule);
    LoyaltyCount(memberMonths, subtotal, rule);
  }

  /** A tier line exactly when the tier is not basic. */
  lemma TierLine(cart: seq<CartItem>, customer: CustomerProfile, memberMonths: int, promoCode: string, promoDiscount: real)
    requires Subtotal(cart) != 0.0
    ensures Count(ExpectedLines(cart, customer, memberMonths, promoCode, promoDiscount), TierRule)
            == if customer.tier != Basic then 1 else 0
  {
    CountByRule(cart, customer, memberMonths, promoCode, promoDiscount, TierRule);
  }

  /** One category line per distinct category with a positive rate. */
  lemma CategoryLinesPerCategory(cart: seq<CartItem>, customer: CustomerProfile, memberMonths: int, promoCode: string, promoDiscount: real)
    requires Subtotal(cart) != 0.0
    ensures Count(ExpectedLines(cart, customer, memberMonths, promoCode, promoDiscount), CategoryRule)
            == RatedCategories(CategoryOrder(cart))
  {
    CountByRule(cart, customer, memberMonths, promoCode, promoDiscount, CategoryRule);
  }

  /** A bundle line exactly when at least 3 items are bought, and never two. */
  lemma BundleLine(cart: seq<CartItem>, customer: CustomerProfile, memberMonths: int, promoCode: string, promoDiscount: real)
    requires Subtotal(cart) != 0.0
    ensures Count(ExpectedLines(cart, customer, memberMonths, promoCode, promoDiscount), BundleRule)
            == if TotalItems(cart) >= 3 then 1 else 0
  {
    CountByRule(cart, customer, memberMonths, promoCode, promoDiscount, BundleRule);
  }

  /** A spend-bonus line exactly when the subtotal reaches 100, and never two. */
  lemma SpendLine(cart: seq<CartItem>, customer: CustomerProfile, memberMonths: int, promoCode: string, promoDiscount: real)
    requires Subtotal(cart) != 0.0
    ensures Count(ExpectedLines(cart, customer, memberMonths, promoCode, promoDiscount), SpendRule)
            == if Subtotal(cart) >= 100.0 then 1 else 0
  {
    CountByRule(cart, customer, memberMonths, promoCode, promoDiscount, SpendRule);
  }

  /** A loyalty line exactly when membership reaches 6 months, and never two. */
  lemma LoyaltyLine(cart: seq<CartItem>, customer: CustomerProfile, memberMonths: int, promoCode: string, promoDiscount: real)
    requires Subtotal(cart) != 0.0
    ensures Count(ExpectedLines(cart, customer, memberMonths, promoCode, promoDiscount), LoyaltyRule)
            == if memberMonths >= 6 then 1 else 0
  {
    CountByRule(cart, customer, memberMonths, promoCode, promoDiscount, LoyaltyRule);
  }

  /** A promo line exactly when a promo rate is held. */
  lemma PromoLine(cart: seq<CartItem>, customer: CustomerProfile, memberMonths: int, promoCode: string, promoDiscount: real)
    requires Subtotal(cart) != 0.0
    ensures Count(ExpectedLines(cart, customer, memberMonths, promoCode, promoDiscount), PromoRule)
            == if promoDiscount > 0.0 then 1 else 0
  {
    CountByRule(cart, customer, memberMonths, promoCode, promoDiscount, PromoRule);
  }

  /** Once the promo is removed (code "" and rate 0) no promo line is added. */
  lemma NoPromoLineAfterRemoval(cart: seq<CartItem>, customer: CustomerProfile, memberMonths: int)
    requires Subtotal(cart) != 0.0
    ensures Count(ExpectedLines(cart, customer, memberMonths, "", 0.0), PromoRule) == 0
  {
    PromoLine(cart, customer, memberMonths, "", 0.0);
  }

  // The cap.

  /** Every rate the engine can hold is positive and at most 25%, so a valid
      engine meets the promo bound of the share lemmas below. */
  lemma HeldPromoRates(code: string)
    ensures code in ValidPromoCodes ==> 0.0 < ValidPromoCodes[code] <= 0.25
  {
  }

  /** The capped fraction is at most 40%, so the whole percentage shown is at
      most 40; a fraction that is not negative shows a percentage that is not
      negative. */
  lemma CappedPercent(fraction: real)
    ensures MinReal(fraction, MaxTotalDiscount) <= 0.40
    ensures MinReal(fraction, MaxTotalDiscount) <= 0.40 ==> RoundPercent(MinReal(fraction, MaxTotalDiscount)) <= 40
    ensures fraction >= 0.0 ==> RoundPercent(MinReal(fraction, MaxTotalDiscount)) >= 0
  {
  }

  // Categories.

  ghost predicate Distinct(s: seq<string>) {
    forall i, j :: 0 <= i < j < |s| ==> s[i] != s[j]
  }

  /** The category order lists each category of the cart, once. */
  lemma {:induction false} CategoryOrderDistinct(cart: seq<CartItem>)
    ensures Distinct(CategoryOrder(cart))
    ensures forall i :: 0 <= i < |cart| ==> cart[i].category in CategoryOrder(cart)
    ensures forall c :: c in CategoryOrder(cart) ==> exists i :: 0 <= i < |cart| && cart[i].category == c
    decreases |cart|
  {
    if cart != [] {
      var init := cart[..|cart| - 1];
      CategoryOrderDistinct(init);
      forall i | 0 <= i < |init|
        ensures cart[i].category in CategoryOrder(cart)
      {
        assert init[i] == cart[i];
      }
      forall c | c in CategoryOrder(init)
        ensures exists i :: 0 <= i < |cart| && cart[i].category == c
      {
        var i :| 0 <= i < |init| && init[i].category == c;
        assert cart[i].category == c;
      }
    }
  }

  /** Sum of the per-category totals of the listed categories. */
  function SumTotals(categories: seq<string>, cart: seq<CartItem>): real {
    if categories == [] then 0.0
    else SumTotals(categories[..|categories| - 1], cart) + CategoryTotal(cart, categories[|categories| - 1])
  }

  /** One more item adds its line total to the sum of distinct categories
      exactly when its category is listed. */
  lemma {:induction false} SumTotalsExtend(categories: seq<string>, cart: seq<CartItem>, item: CartItem)
    requires Distinct(categories)
    ensures SumTotals(categories, cart + [item])
            == SumTotals(categories, cart) + (if item.category in categories then LineTotal(item) else 0.0)
    decreases |categories|
  {
    if categories != [] {
      var prev := categories[..|categories| - 1];
      var c := categories[|categories| - 1];
      assert Distinct(prev);
      assert c !in prev;
      assert item.category in categories <==> item.category in prev || item.category == c by {
        assert categories == prev + [c];
      }
      SumTotalsExtend(prev, cart, item);
      assert (cart + [item])[..|cart + [item]| - 1] == cart;
    }
  }

  /** The per-category totals add up to the subtotal. */
  lemma {:induction false} CategoryTotalsSumToSubtotal(cart: seq<CartItem>)
    ensures SumTotals(CategoryOrder(cart), cart) == Subtotal(cart)
    decreases |cart|
  {
    if cart != [] {
      var init, item := cart[..|cart| - 1], cart[|cart| - 1];
      var order := CategoryOrder(init);
      assert cart == init + [item];
      CategoryTotalsSumToSubtotal(init);
      CategoryOrderDistinct(init);
      SumTotalsExtend(order, init, item);
      if item.category !in order {
        CategoryTotalOfAbsent(init, item.category);
        assert CategoryOrder(cart)[..|CategoryOrder(cart)| - 1] == order;
      }
    }
  }

  /** No price and no quantity is negative. */
  ghost predicate NonNegativeCart(cart: seq<CartItem>) {
    forall i :: 0 <= i < |cart| ==> 0.0 <= cart[i].price && 0 <= cart[i].quantity
  }

  lemma {:induction false} CategoryTotalNonNegative(cart: seq<CartItem>, category: string)
    requires NonNegativeCart(cart)
    ensures CategoryTotal(cart, category) >= 0.0
    decreases |cart|
  {
    if cart != [] {
      var item := cart[|cart| - 1];
      assert 0.0 <= item.price && 0 <= item.quantity;
      assert LineTotal(item) >= 0.0;
      CategoryTotalNonNegative(cart[..|cart| - 1], category);
    }
  }

  /** What the category rule adds in money: each listed category with a
      positive rate adds its total times its rate. */
  function WeightedAmount(categories: seq<string>, cart: seq<CartItem>): real {
    if categories == [] then 0.0
    else
      var c := categories[|categories| - 1];
      WeightedAmount(categories[..|categories| - 1], cart)
      + (if CategoryRate(c) > 0.0 then PercentOf(CategoryTotal(cart, c), CategoryRate(c)) else 0.0)
  }

  /** A fraction in [0, 1] of a non-negative amount lies between 0 and the amount. */
  lemma PartWithinWhole(amount: real, fraction: real)
    requires amount >= 0.0 && 0.0 <= fraction <= 1.0
    ensures 0.0 <= PercentOf(amount, fraction) <= amount
  {
    assert amount * fraction <= amount * 1.0;
  }

  lemma ShareAdd(a: real, b: real, whole: real)
    requires whole != 0.0
    ensures Share(a, whole) + Share(b, whole) == Share(a + b, whole)
  {
  }

  /** The category rule's fraction is its money amount over the subtotal:
      each line contributes its category total times its rate, divided by the
      subtotal. */
  lemma {:induction false} CategoryShareIsWeighted(categories: seq<string>, cart: seq<CartItem>, subtotal: real)
    requires subtotal != 0.0
    ensures CategoryLines(categories, cart, subtotal).share == Share(WeightedAmount(categories, cart), subtotal)
    decreases |categories|
  {
    if categories != [] {
      var prev := categories[..|categories| - 1];
      var c := categories[|categories| - 1];
      CategoryShareIsWeighted(prev, cart, subtotal);
      if CategoryRate(c) > 0.0 {
        ShareAdd(WeightedAmount(prev, cart), PercentOf(CategoryTotal(cart, c), CategoryRate(c)), subtotal);
      }
    }
  }

  /** With no negative category total, the category rule adds at most 30%
      (the largest category rate) of the listed categories' totals. */
  lemma {:induction false} WeightedAmountBound(categories: seq<string>, cart: seq<CartItem>)
    requires forall c :: c in categories ==> CategoryTotal(cart, c) >= 0.0
    ensures 0.0 <= WeightedAmount(categories, cart) <= 0.30 * SumTotals(categories, cart)
    decreases |categories|
  {
    if categories != [] {
      var prev := categories[..|categories| - 1];
      assert forall c :: c in prev ==> c in categories;
      WeightedAmountBound(prev, cart);
    }
  }

  lemma ShareWithin(amount: real, whole: real, bound: real)
    requires whole > 0.0 && 0.0 <= amount <= bound * whole
    ensures 0.0 <= Share(amount, whole) <= bound
  {
  }

  /** The single-line rules add at most 15%, 10% and 5%; tier at most 15%. */
  lemma SingleLineShares(tier: Tier, totalItems: int, subtotal: real, memberMonths: int)
    ensures 0.0 <= TierContribution(tier, subtotal).share <= 0.15
    ensures 0.0 <= BundleContribution(totalItems, subtotal).share <= 0.15
    ensures 0.0 <= SpendContribution(subtotal).share <= 0.10
    ensures 0.0 <= LoyaltyContribution(memberMonths, subtotal).share <= 0.05
  {
    FirstMatchOfThree(BundleThresholds, totalItems as real);
    FirstMatchOfThree(SpendBonusThresholds, subtotal);
    FirstMatchOfThree(LoyaltyDurationBonus, memberMonths as real);
  }

  /** On a cart with no negative price or quantity, the category lines add
      between 0 and 30% of the subtotal. */
  lemma CategoryShareAtMost30(cart: seq<CartItem>)
    requires NonNegativeCart(cart) && Subtotal(cart) != 0.0
    ensures 0.0 <= CategoryLines(CategoryOrder(cart), cart, Subtotal(cart)).share <= 0.30
  {
    var subtotal := Subtotal(cart);
    var order := CategoryOrder(cart);
    forall c | c in order
      ensures CategoryTotal(cart, c) >= 0.0
    {
      CategoryTotalNonNegative(cart, c);
    }
    CategoryTotalsSumToSubtotal(cart);
    SubtotalNonNegative(cart);
    WeightedAmountBound(order, cart);
    CategoryShareIsWeighted(order, cart, subtotal);
    ShareWithin(WeightedAmount(order, cart), subtotal, 0.30);
  }

  /** On a cart with no negative price or quantity and a promo rate of the
      table, the six rules add up to between 0 and 100% of the subtotal,
      before the cap brings it down to 40%. */
  lemma UncappedShareBounds(cart: seq<CartItem>, customer: CustomerProfile, memberMonths: int,
                            promoCode: string, promoDiscount: real)
    requires NonNegativeCart(cart) && Subtotal(cart) != 0.0
    requires 0.0 <= promoDiscount <= 0.25
    ensures 0.0 <= ExpectedShare(cart, customer, memberMonths, promoCode, promoDiscount) <= 1.0
  {
    CategoryShareAtMost30(cart);
    SingleLineShares(customer.tier, TotalItems(cart), Subtotal(cart), memberMonths);
  }

  lemma {:induction false} SubtotalNonNegative(cart: seq<CartItem>)
    requires NonNegativeCart(cart)
    ensures Subtotal(cart) >= 0.0
    decreases |cart|
  {
    if cart != [] {
      var item := cart[|cart| - 1];
      assert 0.0 <= item.price && 0 <= item.quantity;
      assert LineTotal(item) >= 0.0;
      SubtotalNonNegative(cart[..|cart| - 1]);
    }
  }
}
