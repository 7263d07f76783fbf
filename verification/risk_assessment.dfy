/** Real-time transaction risk scoring (the `assessRisk` callback of the risk
    assessment hook): a blocked-country short circuit, seven additive penalty
    rules on a running integer score, a clamp to [0, 100], a four-band
    classification and one generic follow-up action for high and critical
    results that have none yet. */
module RiskAssessment {
  import opened Commerce

  datatype RiskFactors = RiskFactors(
    transactionAmount: real,
    customerAge: int,        // days since the account was created
    previousOrders: int,
    failedPayments: int,
    countryCode: string,
    paymentMethod: string)

  datatype Recommendation = Approve | Review | Decline

  /** The hook's flag messages, one token each (the comment gives the text). */
  datatype Flag =
    | BlockedCountry          // "Blocked country"
    | VeryLargeTransaction    // "Very large transaction amount"
    | LargeTransaction        // "Large transaction amount"
    | VeryNewCustomer         // "Very new customer (< 7 days)"
    | NewCustomer             // "New customer (< 30 days)"
    | FirstTimeBuyer          // "First-time buyer"
    | MultipleFailedPayments  // "Multiple failed payments"
    | PreviousFailedPayment   // "Previous failed payment"
    | HighRiskRegion          // "High-risk region"
    | HighRiskPaymentMethod   // "High-risk payment method"
    | LargeFirstOrder         // "Large first order"

  /** The hook's required-action messages. */
  datatype Action =
    | CannotProcessRegion            // "Order cannot be processed from this region"
    | RequireAdditionalVerification  // "Require additional verification"
    | LimitOrderValue                // "Limit order value"
    | RequireUpfrontPayment          // "Require upfront payment"
    | EnhancedVerification           // "Enhanced verification required"
    | AdditionalPaymentVerification  // "Additional payment verification"
    | ManualReviewByRiskTeam         // "Manual review by risk team required"
    | ManagerApprovalRequired        // "Manager approval required"

  datatype Assessment = Assessment(
    score: int,
    level: RiskLevel,
    flags: seq<Flag>,
    recommendation: Recommendation,
    requiredActions: seq<Action>)

  const LowRiskThreshold := 25
  const MediumRiskThreshold := 50
  const HighRiskThreshold := 75

  const LargeTransactionThreshold := 5000.0
  const VeryLargeTransactionThreshold := 25000.0

  const NewCustomerThreshold := 30
  const VeryNewCustomerThreshold := 7

  const HighRiskCountries: seq<string> := ["NG", "PH", "IN", "BR", "RO"]
  const BlockedCountries: seq<string> := ["NK", "IR", "SY"]
  const HighRiskPaymentMethods: seq<string> := ["crypto", "gift_card", "prepaid"]

  predicate IsBlockedCountry(code: string) { code in BlockedCountries }
  predicate IsHighRiskCountry(code: string) { code in HighRiskCountries }
  predicate IsHighRiskPaymentMethod(paymentMethod: string) { paymentMethod in HighRiskPaymentMethods }

  /** The fixed answer for a blocked country. */
  const BlockedAssessment := Assessment(100, Critical, [BlockedCountry], Decline,
                                        [CannotProcessRegion])

  // ---------------------------------------------------------------------------
  // Reference definition: what each rule contributes on its own. The assessment
  // is the composition of the seven rules, in the order the hook applies them.
  // ---------------------------------------------------------------------------

  /** Points, flags and required actions contributed by one rule. */
  datatype RuleEffect = RuleEffect(points: int, flags: seq<Flag>, actions: seq<Action>)

  const NoEffect := RuleEffect(0, [], [])

  function AmountRule(amount: real): RuleEffect {
    if amount >= VeryLargeTransactionThreshold then
      RuleEffect(30, [VeryLargeTransaction], [RequireAdditionalVerification])
    else if amount >= LargeTransactionThreshold then
      RuleEffect(15, [LargeTransaction], [])
    else NoEffect
  }

  function AgeRule(age: int): RuleEffect {
    if age <= VeryNewCustomerThreshold then
      RuleEffect(25, [VeryNewCustomer], [LimitOrderValue])
    else if age <= NewCustomerThreshold then
      RuleEffect(10, [NewCustomer], [])
    else NoEffect
  }

  function HistoryRule(previousOrders: int): RuleEffect {
    if previousOrders == 0 then RuleEffect(15, [FirstTimeBuyer], [])
    else if previousOrders >= 10 then RuleEffect(-10, [], [])
    else NoEffect
  }

  function FailedPaymentRule(failedPayments: int): RuleEffect {
    if failedPayments >= 3 then
      RuleEffect(35, [MultipleFailedPayments], [RequireUpfrontPayment])
    else if failedPayments >= 1 then
      RuleEffect(15, [PreviousFailedPayment], [])
    else NoEffect
  }

  function CountryRule(countryCode: string): RuleEffect {
    if IsHighRiskCountry(countryCode) then
      RuleEffect(20, [HighRiskRegion], [EnhancedVerification])
    else NoEffect
  }

  function PaymentMethodRule(paymentMethod: string): RuleEffect {
    if IsHighRiskPaymentMethod(paymentMethod) then
      RuleEffect(25, [HighRiskPaymentMethod], [AdditionalPaymentVerification])
    else NoEffect
  }

  function VelocityRule(previousOrders: int, amount: real): RuleEffect {
    if previousOrders == 0 && amount > 1000.0 then RuleEffect(20, [LargeFirstOrder], [])
    else NoEffect
  }

  /** Sum of the points of the seven rules. */
  function RulePoints(f: RiskFactors): int {
    AmountRule(f.transactionAmount).points + AgeRule(f.customerAge).points
    + HistoryRule(f.previousOrders).points + FailedPaymentRule(f.failedPayments).points
    + CountryRule(f.countryCode).points + PaymentMethodRule(f.paymentMethod).points
    + VelocityRule(f.previousOrders, f.transactionAmount).points
  }

  /** The flags of the seven rules, in evaluation order. */
  function RuleFlags(f: RiskFactors): seq<Flag> {
    AmountRule(f.transactionAmount).flags + AgeRule(f.customerAge).flags
    + HistoryRule(f.previousOrders).flags + FailedPaymentRule(f.failedPayments).flags
    + CountryRule(f.countryCode).flags + PaymentMethodRule(f.paymentMethod).flags
    + VelocityRule(f.previousOrders, f.transactionAmount).flags
  }

  /** The required actions of the seven rules, in evaluation order. */
  function RuleActions(f: RiskFactors): seq<Action> {
    AmountRule(f.transactionAmount).actions + AgeRule(f.customerAge).actions
    + HistoryRule(f.previousOrders).actions + FailedPaymentRule(f.failedPayments).actions
    + CountryRule(f.countryCode).actions + PaymentMethodRule(f.paymentMethod).actions
    + VelocityRule(f.previousOrders, f.transactionAmount).actions
  }

  /** Band of a clamped score. */
  function LevelFor(score: int): RiskLevel {
    if score >= HighRiskThreshold then Critical
    else if score >= MediumRiskThreshold then High
    else if score >= LowRiskThreshold then Medium
    else Low
  }

  function RecommendationFor(level: RiskLevel): Recommendation {
    match level
    case Critical => Decline
    case High => Review
    case Medium => Review
    case Low => Approve
  }

  /** The generic action appended for a high or critical result whose rules
      required no action. */
  function GenericActions(level: RiskLevel, actions: seq<Action>): seq<Action> {
    if actions != [] then []
    else if level == Critical then [ManualReviewByRiskTeam]
    else if level == High then [ManagerApprovalRequired]
    else []
  }

  // ---------------------------------------------------------------------------
  // The scorer, step by step as the hook computes it.
  // ---------------------------------------------------------------------------

  // Steps 2 to 8 of the scorer. Each rule updates the running score, flags and
  // required actions in place; each is stated against its RuleEffect.

  /** Transaction amount risk: very large (25000 and over) or large (5000 and over). */
  method TransactionAmountStep(factors: RiskFactors, score0: int, flags0: seq<Flag>, actions0: seq<Action>)
    returns (score: int, flags: seq<Flag>, actions: seq<Action>)
    ensures score == score0 + AmountRule(factors.transactionAmount).points
    ensures flags == flags0 + AmountRule(factors.transactionAmount).flags
    ensures actions == actions0 + AmountRule(factors.transactionAmount).actions
  {
    score, flags, actions := score0, flags0, actions0;
    if factors.transactionAmount >= VeryLargeTransactionThreshold {
      score := score + 30;
      flags := flags + [VeryLargeTransaction];
      actions := actions + [RequireAdditionalVerification];
    } else if factors.transactionAmount >= LargeTransactionThreshold {
      score := score + 15;
      flags := flags + [LargeTransaction];
    }
  }

  /** New customer risk: at most 7 days old, or at most 30. */
  method NewCustomerStep(factors: RiskFactors, score0: int, flags0: seq<Flag>, actions0: seq<Action>)
    returns (score: int, flags: seq<Flag>, actions: seq<Action>)
    ensures score == score0 + AgeRule(factors.customerAge).points
    ensures flags == flags0 + AgeRule(factors.customerAge).flags
    ensures actions == actions0 + AgeRule(factors.customerAge).actions
  {
    score, flags, actions := score0, flags0, actions0;
    if factors.customerAge <= VeryNewCustomerThreshold {
      score := score + 25;
      flags := flags + [VeryNewCustomer];
      actions := actions + [LimitOrderValue];
    } else if factors.customerAge <= NewCustomerThreshold {
      score := score + 10;
      flags := flags + [NewCustomer];
    }
  }

  /** Order history: first-time buyer penalty, trusted customer bonus. */
  method OrderHistoryStep(factors: RiskFactors, score0: int, flags0: seq<Flag>, actions0: seq<Action>)
    returns (score: int, flags: seq<Flag>, actions: seq<Action>)
    ensures score == score0 + HistoryRule(factors.previousOrders).points
    ensures flags == flags0 + HistoryRule(factors.previousOrders).flags
    ensures actions == actions0 + HistoryRule(factors.previousOrders).actions
  {
    score, flags, actions := score0, flags0, actions0;
    if factors.previousOrders == 0 {
      score := score + 15;
      flags := flags + [FirstTimeBuyer];
    } else if factors.previousOrders >= 10 {
      score := score - 10;  // trusted customer bonus
    }
  }

  /** Failed payment history: three or more, or at least one. */
  method FailedPaymentStep(factors: RiskFactors, score0: int, flags0: seq<Flag>, actions0: seq<Action>)
    returns (score: int, flags: seq<Flag>, actions: seq<Action>)
    ensures score == score0 + FailedPaymentRule(factors.failedPayments).points
    ensures flags == flags0 + FailedPaymentRule(factors.failedPayments).flags
    ensures actions == actions0 + FailedPaymentRule(factors.failedPayments).actions
  {
    score, flags, actions := score0, flags0, actions0;
    if factors.failedPayments >= 3 {
      score := score + 35;
      flags := flags + [MultipleFailedPayments];
      actions := actions + [RequireUpfrontPayment];
    } else if factors.failedPayments >= 1 {
      score := score + 15;
      flags := flags + [PreviousFailedPayment];
    }
  }

  /** Country risk. */
  method CountryStep(factors: RiskFactors, score0: int, flags0: seq<Flag>, actions0: seq<Action>)
    returns (score: int, flags: seq<Flag>, actions: seq<Action>)
    ensures score == score0 + CountryRule(factors.countryCode).points
    ensures flags == flags0 + CountryRule(factors.countryCode).flags
    ensures actions == actions0 + CountryRule(factors.countryCode).actions
  {
    score, flags, actions := score0, flags0, actions0;
    if IsHighRiskCountry(factors.countryCode) {
      score := score + 20;
      flags := flags + [HighRiskRegion];
      actions := actions + [EnhancedVerification];
    }
  }

  /** Payment method risk. */
  method PaymentMethodStep(factors: RiskFactors, score0: int, flags0: seq<Flag>, actions0: seq<Action>)
    returns (score: int, flags: seq<Flag>, actions: seq<Action>)
    ensures score == score0 + PaymentMethodRule(factors.paymentMethod).points
    ensures flags == flags0 + PaymentMethodRule(factors.paymentMethod).flags
    ensures actions == actions0 + PaymentMethodRule(factors.paymentMethod).actions
  {
    score, flags, actions := score0, flags0, actions0;
    if IsHighRiskPaymentMethod(factors.paymentMethod) {
      score := score + 25;
      flags := flags + [HighRiskPaymentMethod];
      actions := actions + [AdditionalPaymentVerification];
    }
  }

  /** Velocity check: a large first order. */
  method VelocityStep(factors: RiskFactors, score0: int, flags0: seq<Flag>, actions0: seq<Action>)
    returns (score: int, flags: seq<Flag>, actions: seq<Action>)
    ensures score == score0 + VelocityRule(factors.previousOrders, factors.transactionAmount).points
    ensures flags == flags0 + VelocityRule(factors.previousOrders, factors.transactionAmount).flags
    ensures actions == actions0 + VelocityRule(factors.previousOrders, factors.transactionAmount).actions
  {
    score, flags, actions := score0, flags0, actions0;
    if factors.previousOrders == 0 && factors.transactionAmount > 1000.0 {
      score := score + 20;
      flags := flags + [LargeFirstOrder];
    }
  }

  /** The seven rules in evaluation order, starting from a zero score. */
  method ApplyRules(factors: RiskFactors) returns (score: int, flags: seq<Flag>, actions: seq<Action>)
    ensures score == RulePoints(factors)
    ensures flags == RuleFlags(factors)
    ensures actions == RuleActions(factors)
  {
    ghost var amount, age, history, failed := AmountRule(factors.transactionAmount), AgeRule(factors.customerAge),
                                              HistoryRule(factors.previousOrders), FailedPaymentRule(factors.failedPayments);
    ghost var country, payment := CountryRule(factors.countryCode), PaymentMethodRule(factors.paymentMethod);
    // Each step's contribution is asserted as it lands, so that the final
    // equalities follow by congruence rather than by a case split over all rules.
    score, flags, actions := TransactionAmountStep(factors, 0, [], []);
    assert flags == amount.flags && actions == amount.actions;
    score, flags, actions := NewCustomerStep(factors, score, flags, actions);
    assert flags == amount.flags + age.flags && actions == amount.actions + age.actions;
    score, flags, actions := OrderHistoryStep(factors, score, flags, actions);
    assert flags == amount.flags + age.flags + history.flags;
    assert actions == amount.actions + age.actions + history.actions;
    score, flags, actions := FailedPaymentStep(factors, score, flags, actions);
    assert flags == amount.flags + age.flags + history.flags + failed.flags;
    assert actions == amount.actions + age.actions + history.actions + failed.actions;
    score, flags, actions := CountryStep(factors, score, flags, actions);
    assert flags == amount.flags + age.flags + history.flags + failed.flags + country.flags;
    assert actions == amount.actions + age.actions + history.actions + failed.actions + country.actions;
    score, flags, actions := PaymentMethodStep(factors, score, flags, actions);
    assert flags == amount.flags + age.flags + history.flags + failed.flags + country.flags + payment.flags;
    assert actions == amount.actions + age.actions + history.actions + failed.actions + country.actions + payment.actions;
    score, flags, actions := VelocityStep(factors, score, flags, actions);
  }

  method AssessRisk(factors: RiskFactors) returns (a: Assessment)
    ensures IsBlockedCountry(factors.countryCode) ==> a == BlockedAssessment
    ensures 0 <= a.score <= 100
    ensures a.level == LevelFor(a.score) && a.recommendation == RecommendationFor(a.level)
    ensures !IsBlockedCountry(factors.countryCode) ==>
      && a.score == Clamp(RulePoints(factors), 0, 100)
      && a.flags == RuleFlags(factors)
      && a.requiredActions == RuleActions(factors) + GenericActions(a.level, RuleActions(factors))
  {
    if IsBlockedCountry(factors.countryCode) {
      return BlockedAssessment;
    }

    var score, flags, requiredActions := ApplyRules(factors);

    score := Clamp(score, 0, 100);

    var level: RiskLevel;
    var recommendation: Recommendation;
    if score >= HighRiskThreshold {
      level, recommendation := Critical, Decline;
      if |requiredActions| == 0 {
        requiredActions := requiredActions + [ManualReviewByRiskTeam];
      }
    } else if score >= MediumRiskThreshold {
      level, recommendation := High, Review;
      if |requiredActions| == 0 {
        requiredActions := requiredActions + [ManagerApprovalRequired];
      }
    } else if score >= LowRiskThreshold {
      level, recommendation := Medium, Review;
    } else {
      level, recommendation := Low, Approve;
    }

    a := Assessment(score, level, flags, recommendation, requiredActions);
  }

  // ---------------------------------------------------------------------------
  // Properties of the rules and of the classification.
  // ---------------------------------------------------------------------------

  /** The level is a non-decreasing function of the score, and the bands are
      exactly 75..100 critical, 50..74 high, 25..49 medium, below 25 low. */
  lemma LevelBands(s: int, t: int)
    requires s <= t
    ensures Rank(LevelFor(s)) <= Rank(LevelFor(t))
    ensures LevelFor(s) == Critical <==> s >= 75
    ensures LevelFor(s) == High <==> 50 <= s < 75
    ensures LevelFor(s) == Medium <==> 25 <= s < 50
    ensures LevelFor(s) == Low <==> s < 25
  {
  }

  /** A generic action is added only to a high or critical result whose rules
      required nothing; a medium or low result keeps its rule actions as they are. */
  lemma GenericActionOnlyWhenNoneYet(level: RiskLevel, actions: seq<Action>)
    ensures |GenericActions(level, actions)| <= 1
    ensures GenericActions(level, actions) != [] <==> actions == [] && Rank(level) >= 2
    ensures Rank(level) >= 2 ==> actions + GenericActions(level, actions) != []
  {
  }

  /** A flag is raised exactly when one of the seven rules raises it. */
  lemma FlagRaisedByARule(f: RiskFactors, x: Flag)
    ensures x in RuleFlags(f) <==>
      || x in AmountRule(f.transactionAmount).flags || x in AgeRule(f.customerAge).flags
      || x in HistoryRule(f.previousOrders).flags || x in FailedPaymentRule(f.failedPayments).flags
      || x in CountryRule(f.countryCode).flags || x in PaymentMethodRule(f.paymentMethod).flags
      || x in VelocityRule(f.previousOrders, f.transactionAmount).flags
  {
  }

  /** An action is required exactly when one of the seven rules requires it. */
  lemma ActionRequiredByARule(f: RiskFactors, x: Action)
    ensures x in RuleActions(f) <==>
      || x in AmountRule(f.transactionAmount).actions || x in AgeRule(f.customerAge).actions
      || x in HistoryRule(f.previousOrders).actions || x in FailedPaymentRule(f.failedPayments).actions
      || x in CountryRule(f.countryCode).actions || x in PaymentMethodRule(f.paymentMethod).actions
      || x in VelocityRule(f.previousOrders, f.transactionAmount).actions
  {
  }

  /** The two amount rules exclude each other; only the very large one asks
      for an action. Both thresholds are inclusive. */
  lemma AmountRulesExclusive(f: RiskFactors)
    ensures VeryLargeTransaction in RuleFlags(f) <==> f.transactionAmount >= 25000.0
    ensures LargeTransaction in RuleFlags(f) <==> 5000.0 <= f.transactionAmount < 25000.0
    ensures RequireAdditionalVerification in RuleActions(f) <==> f.transactionAmount >= 25000.0
    ensures AmountRule(f.transactionAmount).points == (if f.transactionAmount >= 25000.0 then 30
                                                       else if f.transactionAmount >= 5000.0 then 15 else 0)
  {
    FlagRaisedByARule(f, VeryLargeTransaction);
    FlagRaisedByARule(f, LargeTransaction);
    ActionRequiredByARule(f, RequireAdditionalVerification);
  }

  /** The two age rules exclude each other; both bounds are inclusive (`<=`). */
  lemma AgeRulesExclusive(f: RiskFactors)
    ensures VeryNewCustomer in RuleFlags(f) <==> f.customerAge <= 7
    ensures NewCustomer in RuleFlags(f) <==> 7 < f.customerAge <= 30
    ensures LimitOrderValue in RuleActions(f) <==> f.customerAge <= 7
    ensures AgeRule(f.customerAge).points == (if f.customerAge <= 7 then 25
                                              else if f.customerAge <= 30 then 10 else 0)
  {
    FlagRaisedByARule(f, VeryNewCustomer);
    FlagRaisedByARule(f, NewCustomer);
    ActionRequiredByARule(f, LimitOrderValue);
  }

  /** Order history: a first order costs 15 points and is flagged; ten or more
      orders earn 10 points back with no flag. */
  lemma OrderHistoryRules(f: RiskFactors)
    ensures FirstTimeBuyer in RuleFlags(f) <==> f.previousOrders == 0
    ensures HistoryRule(f.previousOrders).points == (if f.previousOrders == 0 then 15
                                                     else if f.previousOrders >= 10 then -10 else 0)
    ensures f.previousOrders >= 10 ==> HistoryRule(f.previousOrders).flags == []
  {
    FlagRaisedByARule(f, FirstTimeBuyer);
  }

  /** Failed payments: three or more cost 35 and demand upfront payment, one
      or two cost 15 and are only flagged. */
  lemma FailedPaymentRules(f: RiskFactors)
    ensures MultipleFailedPayments in RuleFlags(f) <==> f.failedPayments >= 3
    ensures PreviousFailedPayment in RuleFlags(f) <==> 1 <= f.failedPayments <= 2
    ensures RequireUpfrontPayment in RuleActions(f) <==> f.failedPayments >= 3
    ensures FailedPaymentRule(f.failedPayments).points == (if f.failedPayments >= 3 then 35
                                                           else if f.failedPayments >= 1 then 15 else 0)
  {
    FlagRaisedByARule(f, MultipleFailedPayments);
    FlagRaisedByARule(f, PreviousFailedPayment);
    ActionRequiredByARule(f, RequireUpfrontPayment);
  }

  /** The high-risk country (+20), risky payment method (+25) and large first
      order (+20) penalties each stack on top of whatever else applies, and a
      large first order carries the first-time-buyer flag as well. */
  lemma IndependentPenaltiesStack(f: RiskFactors)
    ensures RulePoints(f) == RulePoints(f.(countryCode := "")) + (if f.countryCode in HighRiskCountries then 20 else 0)
    ensures RulePoints(f) == RulePoints(f.(paymentMethod := "")) + (if f.paymentMethod in HighRiskPaymentMethods then 25 else 0)
    ensures f.previousOrders == 0 && f.transactionAmount > 1000.0 ==>
      FirstTimeBuyer in RuleFlags(f) && LargeFirstOrder in RuleFlags(f)
  {
    assert "" !in HighRiskCountries;
    assert "" !in HighRiskPaymentMethods;
  }

  /** Before clamping the rules sum to a value in [-10, 170]. */
  lemma RulePointsRange(f: RiskFactors)
    ensures -10 <= RulePoints(f) <= 170
  {
  }

  /** A large, brand-new, first order from an ordinary country: 30 + 25 + 15 + 20
      points, which is critical and declined. */
  lemma NewCustomerLargeOrderScenario()
    ensures var f := RiskFactors(30000.0, 3, 0, 0, "US", "credit_card");
      && RulePoints(f) == 90
      && LevelFor(Clamp(RulePoints(f), 0, 100)) == Critical
      && RecommendationFor(Critical) == Decline
  {
    var f := RiskFactors(30000.0, 3, 0, 0, "US", "credit_card");
    assert f.countryCode !in HighRiskCountries;
    assert f.paymentMethod !in HighRiskPaymentMethods;
  }
}
