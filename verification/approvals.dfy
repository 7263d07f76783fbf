/** Order approval routing: two early rejections, an effective auto-approve
    limit built from four modifiers in a fixed order, a restricted-category
    gate, and a ladder of fixed value tiers that decides who must sign off. */
module Approvals {
  import opened Commerce

  datatype PaymentMethod = CreditCard | WireTransfer | Net30 | Net60

  datatype ApprovalContext = ApprovalContext(
    orderTotal: real,
    customerId: string,
    customerTier: Tier,
    isNewCustomer: bool,
    riskLevel: RiskLevel,
    paymentMethod: PaymentMethod,
    productCategory: Option<string>)

  datatype ApprovalStatus =
    | AutoApproved | ManagerApproval | DirectorApproval | VpApproval | CfoApproval | Rejected

  /** The `approverLevel` of a result. */
  datatype ApproverLevel = SystemLevel | ManagerLevel | DirectorLevel | VpLevel | CfoLevel

  /** Members of an escalation path. */
  datatype Role = SalesManager | SalesDirector | VpOfSales | ChiefFinancialOfficer | RiskTeam | ComplianceTeam

  /** The condition messages, one token each; a message that interpolates a
      value carries it. */
  datatype Condition =
    | FlaggedCriticalRisk               // "Customer flagged as critical risk"
    | NewCustomerLimitExceeded          // "New customer order limit exceeded"
    | EnterpriseDoubleLimit             // "Enterprise tier: 2x auto-approve limit"
    | VipLimitAndHalf                   // "VIP tier: 1.5x auto-approve limit"
    | NewCustomerLimited(limit: real)   // "New customer: limited to $<limit>"
    | HighRiskLimited(limit: real)      // "High risk: limited to $<limit>"
    | MediumRiskReduction               // "Medium risk: 25% reduction in limits"
    | NetTermsReduction                 // "Net terms: 50% reduction in auto-approve limit"
    | RestrictedCategory(category: string) // "Restricted category (<category>): requires manager approval"

  /** The reason messages. */
  datatype Reason =
    | CriticalRiskCannotProcess                 // "Critical risk level - order cannot be processed"
    | NewCustomersLimitedTo(limit: real)        // "New customers limited to $<limit> orders"
    | RestrictedCategoryReview                  // "Restricted product category requires manager review"
    | WithinAutoApprovalLimits                  // "Order within auto-approval limits"
    | ManagerRange(low: real, high: real)       // "Orders between $<low> and $<high> require manager approval"
    | DirectorRange(low: real, high: real)      // "... require director approval"
    | VpRange(low: real, high: real)            // "... require VP approval"
    | OverVpLimit(limit: real)                  // "Orders over $<limit> require CFO approval"

  datatype ApprovalResult = ApprovalResult(
    status: ApprovalStatus,
    approverLevel: ApproverLevel,
    reason: Reason,
    conditions: seq<Condition>,
    escalationPath: seq<Role>)

  const AutoApproveLimit := 10000.0
  const ManagerApprovalLimit := 50000.0
  const DirectorApprovalLimit := 100000.0
  const VpApprovalLimit := 250000.0

  const NewCustomerAutoLimit := 2500.0
  const NewCustomerMaxLimit := 25000.0

  const HighRiskAutoLimit := 5000.0

  const NetTermsMultiplier := 0.5

  const RestrictedCategories: seq<string> := ["hazardous", "controlled", "high_value", "export_controlled"]

  const CriticalRejection := ApprovalResult(Rejected, SystemLevel, CriticalRiskCannotProcess,
                                            [FlaggedCriticalRisk], [RiskTeam, ComplianceTeam])

  const NewCustomerRejection := ApprovalResult(Rejected, SystemLevel, NewCustomersLimitedTo(NewCustomerMaxLimit),
                                               [NewCustomerLimitExceeded], [SalesManager, RiskTeam])

  /** The sign-off ladder; every escalation path on the value tiers is a prefix of it. */
  const EscalationLadder: seq<Role> := [SalesManager, SalesDirector, VpOfSales, ChiefFinancialOfficer]

  function Min(a: real, b: real): real { if a <= b then a else b }

  predicate IsNetTerms(pm: PaymentMethod) { pm == Net30 || pm == Net60 }

  /** A present, non-empty category that is on the restricted list. */
  predicate IsRestricted(category: Option<string>) {
    category.Some? && category.value != "" && category.value in RestrictedCategories
  }

  /** The two rejections that come before any limit is computed. */
  predicate EarlyRejected(ctx: ApprovalContext) {
    ctx.riskLevel == Critical || (ctx.isNewCustomer && ctx.orderTotal > NewCustomerMaxLimit)
  }

  /** The restricted-category gate that sends small orders to a manager. */
  predicate RestrictedGate(ctx: ApprovalContext) {
    IsRestricted(ctx.productCategory) && ctx.orderTotal < ManagerApprovalLimit
  }

  // ---------------------------------------------------------------------------
  // Reference definitions.
  // ---------------------------------------------------------------------------

  /** The auto-approve limit after the tier, new-customer, risk and net-terms
      modifiers, applied in that order. */
  function EffectiveAutoLimit(ctx: ApprovalContext): (r: real)
    ensures 0.0 < r <= 20000.0
    ensures ctx.isNewCustomer ==> r <= NewCustomerAutoLimit
    ensures ctx.riskLevel == High ==> r <= HighRiskAutoLimit
    ensures IsNetTerms(ctx.paymentMethod) ==> r <= 10000.0
  {
    var tiered := if ctx.customerTier == Enterprise then AutoApproveLimit * 2.0
                  else if ctx.customerTier == Vip then AutoApproveLimit * 1.5
                  else AutoApproveLimit;
    var forNew := if ctx.isNewCustomer then Min(tiered, NewCustomerAutoLimit) else tiered;
    var forRisk := if ctx.riskLevel == High then Min(forNew, HighRiskAutoLimit)
                   else if ctx.riskLevel == Medium then forNew * 0.75
                   else forNew;
    if IsNetTerms(ctx.paymentMethod) then forRisk * NetTermsMultiplier else forRisk
  }

  function TierConditions(tier: Tier): seq<Condition> {
    if tier == Enterprise then [EnterpriseDoubleLimit]
    else if tier == Vip then [VipLimitAndHalf]
    else []
  }

  function NewCustomerConditions(isNewCustomer: bool): seq<Condition> {
    if isNewCustomer then [NewCustomerLimited(NewCustomerAutoLimit)] else []
  }

  function RiskConditions(level: RiskLevel): seq<Condition> {
    if level == High then [HighRiskLimited(HighRiskAutoLimit)]
    else if level == Medium then [MediumRiskReduction]
    else []
  }

  function NetTermsConditions(pm: PaymentMethod): seq<Condition> {
    if IsNetTerms(pm) then [NetTermsReduction] else []
  }

  /** One condition per modifier that fired, in the order tier, new customer,
      risk, net terms. */
  function ModifierConditions(ctx: ApprovalContext): seq<Condition> {
    TierConditions(ctx.customerTier) + NewCustomerConditions(ctx.isNewCustomer)
    + RiskConditions(ctx.riskLevel) + NetTermsConditions(ctx.paymentMethod)
  }

  /** The restricted-category condition, when it applies. */
  function CategoryConditions(category: Option<string>): seq<Condition> {
    if IsRestricted(category) then [RestrictedCategory(category.value)] else []
  }

  /** The status decided by the order total against the effective limit and
      the fixed 50k / 100k / 250k tiers. */
  function RoutedStatus(total: real, limit: real): ApprovalStatus {
    if total <= limit then AutoApproved
    else if total <= ManagerApprovalLimit then ManagerApproval
    else if total <= DirectorApprovalLimit then DirectorApproval
    else if total <= VpApprovalLimit then VpApproval
    else CfoApproval
  }

  /** How many rungs of the escalation ladder a routed status climbs (the two
      rejections carry their own fixed paths). */
  function PathLength(status: ApprovalStatus): (n: nat)
    requires status != Rejected
    ensures n <= |EscalationLadder|
    ensures n == 0 <==> status == AutoApproved
  {
    if status == AutoApproved then 0
    else if status == ManagerApproval then 1
    else if status == DirectorApproval then 2
    else if status == VpApproval then 3
    else 4
  }

  function ApproverFor(status: ApprovalStatus): ApproverLevel {
    match status
    case AutoApproved => SystemLevel
    case ManagerApproval => ManagerLevel
    case DirectorApproval => DirectorLevel
    case VpApproval => VpLevel
    case CfoApproval => CfoLevel
    case Rejected => SystemLevel
  }

  function RoutedReason(status: ApprovalStatus, limit: real): Reason {
    match status
    case AutoApproved => WithinAutoApprovalLimits
    case ManagerApproval => ManagerRange(limit, ManagerApprovalLimit)
    case DirectorApproval => DirectorRange(ManagerApprovalLimit, DirectorApprovalLimit)
    case VpApproval => VpRange(DirectorApprovalLimit, VpApprovalLimit)
    case CfoApproval => OverVpLimit(VpApprovalLimit)
    case Rejected => CriticalRiskCannotProcess
  }

  // ---------------------------------------------------------------------------
  // The router.
  // ---------------------------------------------------------------------------

  /** The four limit modifiers, in the order tier, new customer, risk, net terms. */
  method ApplyModifiers(ctx: ApprovalContext) returns (effectiveAutoLimit: real, conditions: seq<Condition>)
    ensures effectiveAutoLimit == EffectiveAutoLimit(ctx)
    ensures conditions == ModifierConditions(ctx)
  {
    conditions := [];
    effectiveAutoLimit := AutoApproveLimit;

    if ctx.customerTier == Enterprise {
      effectiveAutoLimit := effectiveAutoLimit * 2.0;
      conditions := conditions + [EnterpriseDoubleLimit];
    } else if ctx.customerTier == Vip {
      effectiveAutoLimit := effectiveAutoLimit * 1.5;
      conditions := conditions + [VipLimitAndHalf];
    }
    assert conditions == TierConditions(ctx.customerTier);

    if ctx.isNewCustomer {
      effectiveAutoLimit := Min(effectiveAutoLimit, NewCustomerAutoLimit);
      conditions := conditions + [NewCustomerLimited(NewCustomerAutoLimit)];
    }
    assert conditions == TierConditions(ctx.customerTier) + NewCustomerConditions(ctx.isNewCustomer);

    if ctx.riskLevel == High {
      effectiveAutoLimit := Min(effectiveAutoLimit, HighRiskAutoLimit);
      conditions := conditions + [HighRiskLimited(HighRiskAutoLimit)];
    } else if ctx.riskLevel == Medium {
      effectiveAutoLimit := effectiveAutoLimit * 0.75;
      conditions := conditions + [MediumRiskReduction];
    }
    assert conditions == TierConditions(ctx.customerTier) + NewCustomerConditions(ctx.isNewCustomer)
                         + RiskConditions(ctx.riskLevel);

    if ctx.paymentMethod == Net30 || ctx.paymentMethod == Net60 {
      effectiveAutoLimit := effectiveAutoLimit * NetTermsMultiplier;
      conditions := conditions + [NetTermsReduction];
    }
  }

  method DetermineApprovalLevel(ctx: ApprovalContext) returns (r: ApprovalResult)
    ensures ctx.riskLevel == Critical ==> r == CriticalRejection
    ensures ctx.riskLevel != Critical && ctx.isNewCustomer && ctx.orderTotal > NewCustomerMaxLimit ==>
      r == NewCustomerRejection
    ensures r.status == Rejected <==> EarlyRejected(ctx)
    ensures !EarlyRejected(ctx) ==>
      r.conditions == ModifierConditions(ctx) + CategoryConditions(ctx.productCategory)
    ensures !EarlyRejected(ctx) && RestrictedGate(ctx) ==>
      && r.status == ManagerApproval && r.approverLevel == ManagerLevel
      && r.reason == RestrictedCategoryReview && r.escalationPath == [SalesManager, ComplianceTeam]
    ensures !EarlyRejected(ctx) && !RestrictedGate(ctx) ==>
      && r.status == RoutedStatus(ctx.orderTotal, EffectiveAutoLimit(ctx))
      && r.approverLevel == ApproverFor(r.status)
      && r.reason == RoutedReason(r.status, EffectiveAutoLimit(ctx))
      && r.escalationPath == EscalationLadder[..PathLength(r.status)]
  {
    var conditions: seq<Condition> := [];
    var escalationPath: seq<Role> := [];

    if ctx.riskLevel == Critical {
      return CriticalRejection;
    }

    if ctx.isNewCustomer && ctx.orderTotal > NewCustomerMaxLimit {
      return NewCustomerRejection;
    }

    var effectiveAutoLimit: real;
    effectiveAutoLimit, conditions := ApplyModifiers(ctx);

    if ctx.productCategory.Some? && ctx.productCategory.value != ""
       && ctx.productCategory.value in RestrictedCategories {
      conditions := conditions + [RestrictedCategory(ctx.productCategory.value)];
      if ctx.orderTotal < ManagerApprovalLimit {
        return ApprovalResult(ManagerApproval, ManagerLevel, RestrictedCategoryReview,
                              conditions, [SalesManager, ComplianceTeam]);
      }
    }

    if ctx.orderTotal <= effectiveAutoLimit {
      return ApprovalResult(AutoApproved, SystemLevel, WithinAutoApprovalLimits, conditions, []);
    }

    if ctx.orderTotal <= ManagerApprovalLimit {
      escalationPath := escalationPath + [SalesManager];
      return ApprovalResult(ManagerApproval, ManagerLevel,
                            ManagerRange(effectiveAutoLimit, ManagerApprovalLimit),
                            conditions, escalationPath);
    }

    if ctx.orderTotal <= DirectorApprovalLimit {
      escalationPath := escalationPath + [SalesManager, SalesDirector];
      return ApprovalResult(DirectorApproval, DirectorLevel,
                            DirectorRange(ManagerApprovalLimit, DirectorApprovalLimit),
                            conditions, escalationPath);
    }

    if ctx.orderTotal <= VpApprovalLimit {
      escalationPath := escalationPath + [SalesManager, SalesDirector, VpOfSales];
      return ApprovalResult(VpApproval, VpLevel, VpRange(DirectorApprovalLimit, VpApprovalLimit),
                            conditions, escalationPath);
    }

    escalationPath := escalationPath + [SalesManager, SalesDirector, VpOfSales, ChiefFinancialOfficer];
    return ApprovalResult(CfoApproval, CfoLevel, OverVpLimit(VpApprovalLimit), conditions, escalationPath);
  }

  // ---------------------------------------------------------------------------
  // The published thresholds and the stand-alone auto-approve check.
  // ---------------------------------------------------------------------------

  datatype Thresholds = Thresholds(autoApprove: real, manager: real, director: real, vp: real)

  /** The four value thresholds, strictly increasing. */
  function GetApprovalThresholds(): (t: Thresholds)
    ensures 0.0 < t.autoApprove < t.manager < t.director < t.vp
    ensures t.autoApprove == AutoApproveLimit && t.vp == VpApprovalLimit
  {
    Thresholds(AutoApproveLimit, ManagerApprovalLimit, DirectorApprovalLimit, VpApprovalLimit)
  }

  /** The auto-approve limit `canAutoApprove` uses for a tier name. */
  function TierAutoLimit(customerTier: string): real {
    if customerTier == "enterprise" then AutoApproveLimit * 2.0
    else if customerTier == "vip" then AutoApproveLimit * 1.5
    else AutoApproveLimit
  }

  /** The tier names as the rest of the system spells them. */
  function TierName(tier: Tier): string {
    match tier
    case Basic => "basic"
    case Premium => "premium"
    case Vip => "vip"
    case Enterprise => "enterprise"
  }

  method CanAutoApprove(orderTotal: real, customerTier: string) returns (ok: bool)
    ensures ok <==> orderTotal <= TierAutoLimit(customerTier)
    ensures orderTotal <= AutoApproveLimit ==> ok
    ensures orderTotal > 2.0 * AutoApproveLimit ==> !ok
  {
    var limit := AutoApproveLimit;
    if customerTier == "enterprise" {
      limit := limit * 2.0;
    }
    if customerTier == "vip" {
      limit := limit * 1.5;
    }
    return orderTotal <= limit;
  }

  // ---------------------------------------------------------------------------
  // Properties.
  // ---------------------------------------------------------------------------

  /** The tier and new-customer modifiers each contribute their condition
      exactly when they fire. */
  lemma TierAndNewCustomerConditions(ctx: ApprovalContext)
    ensures EnterpriseDoubleLimit in ModifierConditions(ctx) <==> ctx.customerTier == Enterprise
    ensures VipLimitAndHalf in ModifierConditions(ctx) <==> ctx.customerTier == Vip
    ensures NewCustomerLimited(NewCustomerAutoLimit) in ModifierConditions(ctx) <==> ctx.isNewCustomer
  {
  }

  /** The risk and net-terms modifiers each contribute their condition exactly
      when they fire. */
  lemma RiskAndNetTermsConditions(ctx: ApprovalContext)
    ensures HighRiskLimited(HighRiskAutoLimit) in ModifierConditions(ctx) <==> ctx.riskLevel == High
    ensures MediumRiskReduction in ModifierConditions(ctx) <==> ctx.riskLevel == Medium
    ensures NetTermsReduction in ModifierConditions(ctx) <==> IsNetTerms(ctx.paymentMethod)
  {
  }

  /** No modifier contributes more than one condition, so there are exactly as
      many conditions as modifiers that fired. */
  lemma OneConditionPerModifier(ctx: ApprovalContext)
    ensures |ModifierConditions(ctx)|
            == (if ctx.customerTier in {Enterprise, Vip} then 1 else 0)
             + (if ctx.isNewCustomer then 1 else 0)
             + (if ctx.riskLevel in {High, Medium} then 1 else 0)
             + (if IsNetTerms(ctx.paymentMethod) then 1 else 0)
  {
  }

  /** Outside the early rejections and the category gate, an order is
      auto-approved exactly when it is within the effective limit, and then
      nobody is on its escalation path. */
  lemma AutoApprovedExactlyWithinLimit(total: real, limit: real)
    ensures RoutedStatus(total, limit) == AutoApproved <==> total <= limit
    ensures PathLength(RoutedStatus(total, limit)) == 0 <==> total <= limit
  {
  }

  /** Manager, director, VP and CFO paths have lengths 1 to 4 and each is a
      prefix of the next: a larger order never has a shorter path. */
  lemma EscalationPathsNested(total1: real, total2: real, limit: real)
    requires total1 <= total2
    ensures PathLength(RoutedStatus(total1, limit)) <= PathLength(RoutedStatus(total2, limit))
    ensures EscalationLadder[..PathLength(RoutedStatus(total1, limit))]
            <= EscalationLadder[..PathLength(RoutedStatus(total2, limit))]
  {
  }

  /** Since no effective limit exceeds 20000, the 50k / 100k / 250k boundaries
      do not depend on tier, new-customer status, risk or payment method. */
  lemma FixedTiersIgnoreModifiers(ctx1: ApprovalContext, ctx2: ApprovalContext, total: real)
    requires total > 20000.0
    ensures RoutedStatus(total, EffectiveAutoLimit(ctx1)) == RoutedStatus(total, EffectiveAutoLimit(ctx2))
    ensures RoutedStatus(total, EffectiveAutoLimit(ctx1)) == ManagerApproval <==> total <= 50000.0
    ensures RoutedStatus(total, EffectiveAutoLimit(ctx1)) == CfoApproval <==> total > 250000.0
  {
  }

  /** An existing low-risk customer paying up front gets exactly the limit of
      the stand-alone `canAutoApprove` check for its tier. */
  lemma RouterBaselineMatchesCanAutoApprove(ctx: ApprovalContext)
    requires !ctx.isNewCustomer && ctx.riskLevel == Low && !IsNetTerms(ctx.paymentMethod)
    ensures EffectiveAutoLimit(ctx) == TierAutoLimit(TierName(ctx.customerTier))
  {
  }

  /** The new-customer cap rejects only above 25000, so an order of exactly
      25000 goes on to routing. The restricted-category gate only ever takes
      orders the fixed tiers would auto-approve or send to a manager anyway;
      above the largest effective limit it changes the reason and path, not
      the status. */
  lemma GateAndCapBoundaries(ctx: ApprovalContext)
    ensures ctx.riskLevel != Critical && ctx.isNewCustomer ==> (EarlyRejected(ctx) <==> ctx.orderTotal > 25000.0)
    ensures RestrictedGate(ctx) ==>
      RoutedStatus(ctx.orderTotal, EffectiveAutoLimit(ctx)) == AutoApproved
      || RoutedStatus(ctx.orderTotal, EffectiveAutoLimit(ctx)) == ManagerApproval
    ensures RestrictedGate(ctx) && ctx.orderTotal > 20000.0 ==>
      RoutedStatus(ctx.orderTotal, EffectiveAutoLimit(ctx)) == ManagerApproval
  {
  }
}
