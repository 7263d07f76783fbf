# E-commerce decision rules, modelled in Dafny

This project models the decision code of a small e-commerce back office. Each part is a sequential rule engine with no I/O once the clock is taken as an input:

- **Transaction risk assessor** (`RiskAssessment`, risk_assessment.dfy). A blocked-country short circuit comes first. Then seven additive penalty rules append flags and required actions. The score is clamped to [0, 100] and banded into low, medium, high or critical. High and critical get one generic action when no rule asked for one.
- **Order approval router** (`Approvals`, approvals.dfy). Critical risk is rejected early, and so are new customers above 25,000. An effective auto-approve limit is then built from four modifiers: tier, new customer, risk, and net terms. A restricted-category gate sends orders to a manager. The fixed 50k/100k/250k tiers give a growing escalation ladder.
- **Customer-profile discount stacker** (`Discounts`, discounts.dfy). Rules are applied in order: first order, loyalty tier, holiday, promo code, referral. The total is capped at 50% and converted to money rounded to cents.
- **Cart-weighted discount engine** (`DiscountEngine`, discount_engine.dfy). The rules are tier, per-category (weighted by each category's share of the subtotal), bundle size, spend bonus, membership length and promo code. Bundle, spend and membership each take only the first matching row of a threshold table. The total is capped at 40%. The promo code held by the engine is state, changed by applying or removing a code (class `DiscountEngine.Engine`).
- **Customer credit-style score** (`Scoring`, scoring.dfy). It starts at 500, applies six adjustments, is clamped to [300, 850] and is banded. Two boolean screens for high-risk customers and manual review sit beside it.
- **Eligibility gate** (`Eligibility`, eligibility.dfy). Five checks run in a fixed order. An informational credit check never blocks the order. There are also financing predicates and a B2B e-mail domain check.
- **Unit pricing** (`Pricing`, pricing.dfy). It applies a tier discount, one of two quantity discounts and a loyalty bonus, rounds to cents, and warns when the price falls below the minimum order value.
- **Shipping quote** (`Shipping`, shipping.dfy). There are two free paths, priority overnight and flat-rate express. Standard shipping is priced by weight, with heavy and oversized surcharges and a zone multiplier.

`Commerce` (commerce.dfy) holds what these share: the customer tier, the risk level, clamping and rounding to cents.

Representation:
- Money and rates are `real`, and scores and counts are `int`.
- `Math.round(x * 100) / 100` is `Commerce.RoundCents`, which rounds halves up as JavaScript does.
- Human-readable messages and breakdown lines are datatype tokens carrying the interpolated values. Each token's comment gives the text.
- An optional string the code tests for truthiness is a `string` in which `""` means absent.

Each imperative routine is a method that builds its result step by step, as the code does. One step method per rule appends that rule's lines and adds its amount. Each method is proved equal to a reference definition: one function per rule, concatenated or summed in rule order. The lemmas then state the promised properties about those reference functions.

Two facts about the risk assessor are worth stating outright:
- The "multiple failed payments" rule fires at 3 or more failed payments (src/hooks/useRiskAssessment.ts:101).
- A 30000 first order from a 3-day-old account scores 90 before clamping (`RiskAssessment.NewCustomerLargeOrderScenario`).

## Model

| member | source | states |
|---|---|---|
| Commerce.Clamp | src/hooks/useRiskAssessment.ts:131 | the result lies in [lo, hi], equals x inside the range and the nearer bound outside it |
| Commerce.RoundCents | src/services/discounts.ts:137-144 | the result is a whole number of cents within half a cent of x (round half up), and never negative for a non-negative x |
| Commerce.RoundedPartsWithinACent | src/services/discounts.ts:137-144 | two amounts rounded separately sum to within one cent of their exact sum |
| RiskAssessment.TransactionAmountStep | src/hooks/useRiskAssessment.ts:73-80 | adds the amount rule's points, flag and action to the running state |
| RiskAssessment.NewCustomerStep | src/hooks/useRiskAssessment.ts:83-90 | adds the account-age rule's points, flag and action |
| RiskAssessment.OrderHistoryStep | src/hooks/useRiskAssessment.ts:93-98 | adds the order-history rule's points and flag |
| RiskAssessment.FailedPaymentStep | src/hooks/useRiskAssessment.ts:101-108 | adds the failed-payment rule's points, flag and action |
| RiskAssessment.CountryStep | src/hooks/useRiskAssessment.ts:111-115 | adds the high-risk-country penalty, flag and action |
| RiskAssessment.PaymentMethodStep | src/hooks/useRiskAssessment.ts:117-122 | adds the risky-payment-method penalty, flag and action |
| RiskAssessment.VelocityStep | src/hooks/useRiskAssessment.ts:124-128 | adds the large-first-order penalty and flag |
| RiskAssessment.ApplyRules | src/hooks/useRiskAssessment.ts:73-128 | the score, flags and actions are the seven rules' contributions, summed and concatenated in rule order |
| RiskAssessment.AssessRisk | src/hooks/useRiskAssessment.ts:51-168 | a blocked country gives the fixed decline; otherwise the score is the clamped rule total in [0, 100], the flags and actions are the rules' own, and level, recommendation and the generic action follow from the clamped score alone |
| RiskAssessment.LevelBands | src/hooks/useRiskAssessment.ts:137-155 | critical iff score >= 75, high iff 50..74, medium iff 25..49, low iff < 25; the level is monotone in the score |
| RiskAssessment.GenericActionOnlyWhenNoneYet | src/hooks/useRiskAssessment.ts:140-148 | at most one generic action; one is added iff no action exists yet and the level is high or critical; high and critical always end with some action |
| RiskAssessment.FlagRaisedByARule | src/hooks/useRiskAssessment.ts:73-128 | a flag is raised iff one of the seven rules raises it |
| RiskAssessment.ActionRequiredByARule | src/hooks/useRiskAssessment.ts:73-128 | an action is required iff one of the seven rules requires it |
| RiskAssessment.AmountRulesExclusive | src/hooks/useRiskAssessment.ts:73-80 | the very-large flag iff amount >= 25000, the large flag iff 5000 <= amount < 25000, verification required iff amount >= 25000; points are 30, 15 or 0 |
| RiskAssessment.AgeRulesExclusive | src/hooks/useRiskAssessment.ts:83-90 | the very-new flag iff age <= 7, the new flag iff 7 < age <= 30, the order limit iff age <= 7; points are 25, 10 or 0 |
| RiskAssessment.OrderHistoryRules | src/hooks/useRiskAssessment.ts:93-98 | the first-time-buyer flag iff no previous orders; points are 15, -10 from 10 orders on, else 0; no flag from 10 orders on |
| RiskAssessment.FailedPaymentRules | src/hooks/useRiskAssessment.ts:101-108 | the multiple flag and upfront payment iff failures >= 3; the single flag iff 1..2 failures; points are 35, 15 or 0 |
| RiskAssessment.IndependentPenaltiesStack | src/hooks/useRiskAssessment.ts:111-128 | the country, payment-method and large-first-order penalties each add their points whatever the other fields are |
| RiskAssessment.RulePointsRange | src/hooks/useRiskAssessment.ts:73-128 | the unclamped total lies in [-10, 170] |
| RiskAssessment.NewCustomerLargeOrderScenario | src/hooks/useRiskAssessment.ts:73-155 | a 30000 first order from a 3-day-old account scores 90, critical, decline |
| Approvals.EffectiveAutoLimit | src/services/approvals.ts:81-111 | the limit is positive and at most 20000; at most 2500 for a new customer, 5000 for high risk, 10000 on net terms |
| Approvals.PathLength | src/services/approvals.ts:128-179 | the escalation path of a routed status is a prefix of the ladder, empty exactly for auto-approved (the rejections carry their own fixed paths) |
| Approvals.ApplyModifiers | src/services/approvals.ts:81-111 | the step-by-step limit equals the effective limit and the conditions are one per fired modifier in fixed order |
| Approvals.DetermineApprovalLevel | src/services/approvals.ts:53-180 | critical risk and new customers over 25000 are rejected with their fixed paths, and only they are rejected; otherwise the conditions are the modifiers' then the category's, a restricted category under 50000 goes to the manager with the compliance path, and every other order is routed by total against the effective limit and the fixed tiers |
| Approvals.GetApprovalThresholds | src/services/approvals.ts:182-189 | the thresholds strictly increase from the auto limit to the VP limit |
| Approvals.CanAutoApprove | src/services/approvals.ts:191-196 | true iff the total is within the tier's limit (2x enterprise, 1.5x VIP, 1x others); always within 10000, never above 20000 |
| Approvals.TierAndNewCustomerConditions | src/services/approvals.ts:84-96 | the tier condition is listed iff the tier is enterprise or VIP; the new-customer condition iff the customer is new |
| Approvals.RiskAndNetTermsConditions | src/services/approvals.ts:99-111 | the high-risk cap condition is listed iff risk is high, the medium-risk reduction iff risk is medium, the net-terms condition iff the payment is on net terms |
| Approvals.OneConditionPerModifier | src/services/approvals.ts:84-111 | one condition per fired modifier: enterprise or VIP tier, new customer, high or medium risk, net terms |
| Approvals.AutoApprovedExactlyWithinLimit | src/services/approvals.ts:128-136 | outside the early exits and the gate, auto-approved iff total <= effective limit, with an empty path |
| Approvals.EscalationPathsNested | src/services/approvals.ts:138-179 | manager, director, VP and CFO paths have lengths 1 to 4 and each is a prefix of the next |
| Approvals.FixedTiersIgnoreModifiers | src/services/approvals.ts:138-179 | above 20000 the status depends on the total alone, not on tier, risk or payment: manager iff at most 50000, CFO iff above 250000 |
| Approvals.RouterBaselineMatchesCanAutoApprove | src/services/approvals.ts:84-90 | with no new-customer, risk or net-terms modifier, the router's effective limit is CanAutoApprove's tier limit |
| Approvals.GateAndCapBoundaries | src/services/approvals.ts:70-125 | a non-critical new customer is rejected early iff the total exceeds 25000 (so exactly 25000 is routed); the restricted gate (applied unless rejected early) only takes orders the tiers would auto-approve or send to a manager, and above 20000 it leaves the status at manager approval |
| Discounts.GetLoyaltyTier | src/services/discounts.ts:170-176 | platinum iff >= 10000, gold iff 5000..9999.99, silver iff 2000..4999.99, bronze iff 500..1999.99, none below 500 |
| Discounts.ValidatePromoCode | src/services/discounts.ts:148-168 | valid iff the code is known and the cart reaches its minimum; a valid code carries its discount and message; an invalid one carries none and says why |
| Discounts.LoyaltyName | src/services/discounts.ts:69-97 | every loyalty tier has a loyalty entry name |
| Discounts.FirstOrderStep | src/services/discounts.ts:59-66 | appends the first-order entry when it applies and adds its amount |
| Discounts.LoyaltyStep | src/services/discounts.ts:69-97 | appends the entry of the highest loyalty threshold met, if any |
| Discounts.HolidayStep | src/services/discounts.ts:100-107 | appends the holiday entry when it applies |
| Discounts.PromoStep | src/services/discounts.ts:110-120 | appends the promo entry when the code validates |
| Discounts.ReferralStep | src/services/discounts.ts:123-130 | appends the referral entry when a referral code is given |
| Discounts.ToMoney | src/services/discounts.ts:137-144 | the discount and the final total are rounded to cents and sum to within a cent of the cart total |
| Discounts.CalculateDiscounts | src/services/discounts.ts:54-146 | the entries are the five rules' in order; the percentage is min(sum of entries, 0.50) and lies in [0, 0.50]; the money amounts are rounded at the end and add back to the cart total within a cent |
| Discounts.SumAmountsAppend | src/services/discounts.ts:58-135 | the summed percentage of concatenated entries is the sum of the parts |
| Discounts.SingleAmount | src/services/discounts.ts:58-130 | a segment of at most one entry sums to that entry's amount |
| Discounts.SumOfSegments | src/services/discounts.ts:58-135 | the uncapped percentage is the sum of the five rules' amounts |
| Discounts.SumOfExpectedInRange | src/services/discounts.ts:58-135 | the uncapped percentage lies in [0, 1.02] |
| Discounts.PromoRatesAtMostHalf | src/services/discounts.ts:41-46 | every promo code's rate lies in (0, 0.5] |
| Discounts.EntryFromASegment | src/services/discounts.ts:58-130 | an entry is applied iff one of the five rules yields it |
| Discounts.FirstOrderDiscountExactly | src/services/discounts.ts:59-66 | the 10% first-order entry is applied iff first order or no previous orders |
| Discounts.HolidayAndReferralExactly | src/services/discounts.ts:100-130 | the 15% holiday entry iff holiday season; the 15% referral entry iff a referral code is given |
| Discounts.PromoAgreesWithValidation | src/services/discounts.ts:110-120 | a promo entry is applied iff the code is known and the cart reaches its minimum; its rate is the one ValidatePromoCode returns |
| Discounts.AppendInOrder | src/services/discounts.ts:58-130 | appending a rule's segment after earlier rules keeps the entries ordered and all percentages |
| Discounts.SegmentsPositioned | src/services/discounts.ts:58-130 | each rule yields at most one percentage entry at its own position |
| Discounts.AppliedInOrder | src/services/discounts.ts:58-130 | entries appear in the order first order, loyalty, holiday, promo, referral, all of type percentage |
| Discounts.OneLoyaltyEntry | src/services/discounts.ts:69-97 | at most one loyalty entry; it is the tier GetLoyaltyTier gives, at that tier's rate, and present whenever spend >= 500 |
| Discounts.AllRulesScenario | src/services/discounts.ts:54-135 | a context meeting every rule gets five entries summing to 1.02, capped to 0.50 |
| DiscountEngine.ToUpper | src/hooks/useDiscountEngine.ts:86 | upper-casing keeps the length |
| DiscountEngine.ToUpperIdempotent | src/hooks/useDiscountEngine.ts:77-93 | upper-casing twice is upper-casing once, and every held promo code is already upper case |
| DiscountEngine.ComputeSubtotal | src/hooks/useDiscountEngine.ts:107 | the loop sums price times quantity over the cart |
| DiscountEngine.CountItems | src/hooks/useDiscountEngine.ts:153 | the loop sums the quantities over the cart |
| DiscountEngine.GroupByCategory | src/hooks/useDiscountEngine.ts:133-137 | the dictionary holds exactly the cart's categories, in first-appearance order, each with its category total |
| DiscountEngine.FirstMatchingTier | src/hooks/useDiscountEngine.ts:154-164 | the loop returns the first table row whose minimum the value reaches |
| DiscountEngine.CategoryStep | src/hooks/useDiscountEngine.ts:139-150 | appends one line per listed category with a positive rate and adds each one's share of the subtotal |
| DiscountEngine.TierStep | src/hooks/useDiscountEngine.ts:122-130 | appends the tier line and rate when the tier rate is positive |
| DiscountEngine.BundleStep | src/hooks/useDiscountEngine.ts:153-164 | appends the first matching bundle row's line and rate |
| DiscountEngine.SpendStep | src/hooks/useDiscountEngine.ts:167-177 | appends the first matching spend row's line and rate |
| DiscountEngine.LoyaltyStep | src/hooks/useDiscountEngine.ts:180-193 | appends the first matching membership row's line and rate |
| DiscountEngine.PromoStep | src/hooks/useDiscountEngine.ts:196-203 | appends the promo line and rate when a promo discount is held |
| DiscountEngine.ToMoney | src/hooks/useDiscountEngine.ts:210-219 | discount and final total are rounded to cents and add back to the subtotal within a cent; the savings carry the unrounded amount and the whole percentage |
| DiscountEngine.ApplyRules | src/hooks/useDiscountEngine.ts:119-203 | the lines and the uncapped percentage are the six rules' contributions in order |
| DiscountEngine.Engine.constructor | src/hooks/useDiscountEngine.ts:73-74 | the engine starts with no promo code and a zero promo discount |
| DiscountEngine.Engine.ApplyPromoCode | src/hooks/useDiscountEngine.ts:85-93 | a known upper-cased code is stored with its rate and reported valid; an unknown code leaves the state unchanged and is reported invalid |
| DiscountEngine.Engine.RemovePromoCode | src/hooks/useDiscountEngine.ts:95-98 | the state is reset to no code and a zero discount |
| DiscountEngine.Engine.CalculateDiscounts | src/hooks/useDiscountEngine.ts:100-220 | a zero subtotal gives the all-zero result; otherwise the lines are the rules', the percentage is capped at 0.40, the savings percent is at most 40, and the money amounts are rounded and add back within a cent; given the engine's invariant (no code, or a known code with its rate) and non-negative prices, the discount, the final total and the savings percent are non-negative |
| DiscountEngine.CategoryTotalOfAbsent | src/hooks/useDiscountEngine.ts:133-137 | a category not in the cart totals zero |
| DiscountEngine.ThresholdTablesDescending | src/hooks/useDiscountEngine.ts:48-67 | the bundle, spend and membership tables are scanned from the highest minimum down |
| DiscountEngine.FirstMatchIsHighestReached | src/hooks/useDiscountEngine.ts:154-193 | on a descending table, no match iff the value is below every minimum; a match is a row whose minimum is reached and is the largest one reached |
| DiscountEngine.CountAppend | src/hooks/useDiscountEngine.ts:119-203 | the per-rule line count of a concatenation is the sum of the counts |
| DiscountEngine.CategoryLinesCount | src/hooks/useDiscountEngine.ts:139-150 | the category rule adds one line per listed rated category and no line of another rule |
| DiscountEngine.CountOverRules | src/hooks/useDiscountEngine.ts:119-203 | the per-rule count over all lines is the sum over the six rules' lines |
| DiscountEngine.FirstMatchOfThree | src/hooks/useDiscountEngine.ts:154-164 | on a three-row table the first match is the first row reached, scanning in order |
| DiscountEngine.CountAtMostOne | src/hooks/useDiscountEngine.ts:119-203 | a segment of at most one line counts one for its own rule only |
| DiscountEngine.SingleLineCounts | src/hooks/useDiscountEngine.ts:122-203 | the tier rule adds one line iff the tier is not basic; the promo rule one line iff a promo rate is held |
| DiscountEngine.BundleCount | src/hooks/useDiscountEngine.ts:153-164 | the bundle rule adds one line iff at least 3 items |
| DiscountEngine.SpendCount | src/hooks/useDiscountEngine.ts:167-177 | the spend rule adds one line iff the subtotal is at least 100 |
| DiscountEngine.LoyaltyCount | src/hooks/useDiscountEngine.ts:180-193 | the membership rule adds one line iff at least 6 months |
| DiscountEngine.CountByRule | src/hooks/useDiscountEngine.ts:119-203 | the number of lines of each rule, in terms of the inputs |
| DiscountEngine.TierLine | src/hooks/useDiscountEngine.ts:122-130 | exactly one tier line iff the tier is not basic, none otherwise |
| DiscountEngine.CategoryLinesPerCategory | src/hooks/useDiscountEngine.ts:139-150 | one category line per distinct rated category of the cart |
| DiscountEngine.BundleLine | src/hooks/useDiscountEngine.ts:153-164 | at most one bundle line, present iff at least 3 items |
| DiscountEngine.SpendLine | src/hooks/useDiscountEngine.ts:167-177 | at most one spend line, present iff the subtotal is at least 100 |
| DiscountEngine.LoyaltyLine | src/hooks/useDiscountEngine.ts:180-193 | at most one membership line, present iff at least 6 months |
| DiscountEngine.PromoLine | src/hooks/useDiscountEngine.ts:196-203 | one promo line iff a positive promo rate is held |
| DiscountEngine.NoPromoLineAfterRemoval | src/hooks/useDiscountEngine.ts:95-98 | with the state RemovePromoCode leaves, no promo line is added |
| DiscountEngine.HeldPromoRates | src/hooks/useDiscountEngine.ts:77-83 | every promo code's rate lies in (0, 0.25] |
| DiscountEngine.CappedPercent | src/hooks/useDiscountEngine.ts:206-218 | the capped percentage is at most 0.40 and its whole-percent savings figure lies in [0, 40] |
| DiscountEngine.CategoryOrderDistinct | src/hooks/useDiscountEngine.ts:133-139 | the dictionary keys are distinct and are exactly the cart's categories |
| DiscountEngine.SumTotalsExtend | src/hooks/useDiscountEngine.ts:133-137 | one more item adds its line total to the sum over distinct categories iff its category is listed |
| DiscountEngine.CategoryTotalsSumToSubtotal | src/hooks/useDiscountEngine.ts:107-137 | the per-category totals sum to the subtotal |
| DiscountEngine.CategoryTotalNonNegative | src/hooks/useDiscountEngine.ts:133-137 | with non-negative prices and quantities, every category total is non-negative |
| DiscountEngine.PartWithinWhole | src/hooks/useDiscountEngine.ts:210-211 | a capped fraction of a non-negative subtotal lies between 0 and the subtotal |
| DiscountEngine.ShareAdd | src/hooks/useDiscountEngine.ts:148 | shares of the subtotal add |
| DiscountEngine.CategoryShareIsWeighted | src/hooks/useDiscountEngine.ts:139-150 | the category rule adds the sum of category total times rate, over the subtotal |
| DiscountEngine.WeightedAmountBound | src/hooks/useDiscountEngine.ts:139-150 | the weighted category amount is between 0 and 30% of the category totals |
| DiscountEngine.ShareWithin | src/hooks/useDiscountEngine.ts:148 | an amount within a bound times the subtotal has a share within that bound |
| DiscountEngine.SingleLineShares | src/hooks/useDiscountEngine.ts:122-193 | tier, bundle, spend and membership add at most 0.15, 0.15, 0.10 and 0.05 |
| DiscountEngine.CategoryShareAtMost30 | src/hooks/useDiscountEngine.ts:139-150 | with non-negative prices the category rule adds between 0 and 0.30 |
| DiscountEngine.UncappedShareBounds | src/hooks/useDiscountEngine.ts:119-203 | with non-negative prices and a held promo rate, the uncapped percentage lies in [0, 1] |
| DiscountEngine.SubtotalNonNegative | src/hooks/useDiscountEngine.ts:107 | with non-negative prices and quantities the subtotal is non-negative |
| Scoring.IsHighRiskCustomer | src/services/scoring.ts:126-132 | more than 30 days overdue, 3 or more failed payments, or more than 2 disputes |
| Scoring.RequiresManualReview | src/services/scoring.ts:134-140 | more than 60 days overdue, 5 or more failed payments, or 3 or more disputes |
| Scoring.OverdueStep | src/services/scoring.ts:50-59 | applies the overdue penalty and its factor |
| Scoring.FailedPaymentStep | src/services/scoring.ts:62-68 | applies the failed-payment penalty and its factor |
| Scoring.VerificationStep | src/services/scoring.ts:71-77 | applies the verification bonus or penalty and its factor |
| Scoring.DisputeStep | src/services/scoring.ts:80-84 | applies the dispute penalty and its factor |
| Scoring.LoyaltyStep | src/services/scoring.ts:87-90 | applies the order-count bonus and its factor |
| Scoring.HighValueStep | src/services/scoring.ts:93-96 | applies the lifetime-spend bonus and its factor |
| Scoring.CalculateRiskLevel | src/services/scoring.ts:41-114 | the score is the clamped raw score in [300, 850], the level its band, and the factors the six adjustments' in order |
| Scoring.LevelBands | src/services/scoring.ts:103-111 | critical iff < 400, high iff 400..499, medium iff 500..649, low from 650; a higher score never gives a worse level |
| Scoring.OverduePenaltiesExclusive | src/services/scoring.ts:50-59 | at most one overdue factor; -150 from 60 days, -100 from 31 to 59, -50 from 16 to 30, none up to 15 |
| Scoring.FailedPaymentPenalties | src/services/scoring.ts:62-68 | -90 from 5 failures, -30 per failure at 3 or 4, none below 3; 4 failures cost more than 5 |
| Scoring.FactorFromAnAdjustment | src/services/scoring.ts:47-96 | a factor is listed iff one of the six adjustments lists it |
| Scoring.OneVerificationFactor | src/services/scoring.ts:71-77 | the verified factor iff verified, the unverified factor iff not |
| Scoring.FurtherAdjustments | src/services/scoring.ts:80-96 | -25 per dispute, +15 from 10 orders, +25 from 5000 lifetime spend |
| Scoring.RawScoreRange | src/services/scoring.ts:47-96 | before clamping, the score lies between 220 and 560 plus the dispute penalty |
| Scoring.ScoreNonIncreasingInDisputes | src/services/scoring.ts:80-84 | more disputes never raise the raw score |
| Scoring.ManualReviewImpliesHighRisk | src/services/scoring.ts:126-140 | every customer needing manual review is high risk |
| Scoring.HighRiskCustomerScoresHighOrCritical | src/services/scoring.ts:41-132 | a high-risk customer's level is high or critical |
| Scoring.CriticalWithoutHighRiskSignal | src/services/scoring.ts:41-132 | a customer with two disputes and 20 days overdue is critical without being flagged high risk |
| Eligibility.FirstFailed | src/services/eligibility.ts:137-141 | no message iff every check passed; otherwise the message of some failed check |
| Eligibility.CheckCustomerEligibility | src/services/eligibility.ts:39-142 | the checks are the five in fixed order; eligible iff age, country, account age and e-mail verification pass; the reason is absent when eligible and otherwise the first failed check's message |
| Eligibility.IndexOf | src/services/eligibility.ts:152-155 | finds the first occurrence of a character, or none iff it is absent |
| Eligibility.IsEligibleForFinancing | src/services/eligibility.ts:144-146 | a credit score of at least 600 |
| Eligibility.IsPremiumCreditEligible | src/services/eligibility.ts:148-150 | a credit score of at least 720 |
| Eligibility.DomainPart | src/services/eligibility.ts:153 | the second '@'-separated segment: present iff the address holds an '@', and itself free of '@' |
| Eligibility.IsB2BEligible | src/services/eligibility.ts:152-155 | the domain segment exists and is company.com, enterprise.io or corp.net |
| Eligibility.ChecksInOrder | src/services/eligibility.ts:44-135 | exactly five checks: age, country, account age, credit, e-mail |
| Eligibility.EligibleExactlyWhenNonCreditChecksPass | src/services/eligibility.ts:48-128 | eligible iff the four checks other than credit pass |
| Eligibility.CreditMessages | src/services/eligibility.ts:100-119 | credit fails iff < 600, premium iff >= 720, standard iff 600..719; passing agrees with isEligibleForFinancing |
| Eligibility.PremiumImpliesFinancing | src/services/eligibility.ts:144-150 | premium credit implies financing eligibility |
| Eligibility.IneligibleHasAReason | src/services/eligibility.ts:137-141 | an ineligible customer always gets a reason |
| Eligibility.CreditMessageCanBeTheReason | src/services/eligibility.ts:100-141 | an unverified user with a low credit score gets the credit message as the reason |
| Eligibility.B2BDomains | src/services/eligibility.ts:152-155 | an address local@domain is B2B iff the domain is allowed; no '@' is never B2B |
| Eligibility.SecondAtIgnored | src/services/eligibility.ts:152-155 | only the segment between the first and second '@' is compared |
| Pricing.GetTierDiscount | src/services/pricing.ts:101-103 | the tier table: 0 basic, 0.05 premium, 0.10 VIP, 0.20 enterprise |
| Pricing.GetMinimumOrderValue | src/services/pricing.ts:93-95 | the minimum order value, 25 |
| Pricing.GetVipThreshold | src/services/pricing.ts:97-99 | the VIP lifetime-spend threshold, 1000 |
| Pricing.CalculatePrice | src/services/pricing.ts:38-91 | the discount is the four rules' total in [0, 0.38]; the price is gross times (1 - discount) rounded to cents; the breakdown is the rules' lines plus the warning iff the unrounded price is below 25 |
| Pricing.TierRatesAgree | src/services/pricing.ts:49-58 | the tier branch adds the getTierDiscount rate and one line for a non-basic tier, nothing for basic |
| Pricing.QuantityDiscountsExclusive | src/services/pricing.ts:61-70 | volume and bulk never both apply: 15% from 500 units, 10% from 100, else 0 |
| Pricing.LoyaltyStrictlyAboveThreshold | src/services/pricing.ts:73-76 | the loyalty bonus iff lifetime spend is strictly above the VIP threshold |
| Pricing.DiscountRange | src/services/pricing.ts:45-76 | the discount lies in [0, 0.38] and reaches 0.38 for an enterprise bulk order with high spend |
| Pricing.WarningAndRounding | src/services/pricing.ts:79-87 | the warning iff the unrounded price is below the minimum order value; rounding moves the price by at most half a cent |
| Pricing.DiscountedWithinGross | src/services/pricing.ts:79 | a non-negative gross price is reduced to between 62% of itself and itself |
| Shipping.ZoneMultiplier | src/services/shipping.ts:43-49 | the zone table: 1.0 local, 1.25 regional, 1.5 national, 2.5 international, 3.0 remote |
| Shipping.ZoneOf | src/services/shipping.ts:140-145 | international iff the destination is listed abroad, remote iff listed remote and not abroad, national otherwise; never local or regional |
| Shipping.GetFreeShippingThreshold | src/services/shipping.ts:163-165 | the free-shipping minimum, 50 |
| Shipping.GetExpressRate | src/services/shipping.ts:167-169 | the express rate, 15.99 |
| Shipping.IsEligibleForFreeShipping | src/services/shipping.ts:171-173 | the order total is at least 50 |
| Shipping.StandardQuote | src/services/shipping.ts:116-157 | the zone, the standard cost and the breakdown lines follow from weight and destination |
| Shipping.CalculateShipping | src/services/shipping.ts:55-161 | the two free paths, priority iff priority, express iff expedited below 150, standard otherwise, each with its cost, days and breakdown; free iff one of the free paths iff cost 0; a free result needs a total isEligibleForFreeShipping accepts, and such a total without expedited or priority delivery always ships free |
| Shipping.PositiveCostIsNotFree | src/services/shipping.ts:93-155 | a cost of at least a cent stays positive after rounding |
| Shipping.StandardCostAtLeast | src/services/shipping.ts:116-152 | a standard quote outside the local and regional zones costs at least 1.5 times the base rate |
| Shipping.StandardCostBands | src/services/shipping.ts:116-152 | standard cost is (5.99 + 0.5 x weight), x1.5 over 50 lbs, x3 over 100 lbs, times 2.5 abroad, 3.0 remote, 1.5 otherwise |
| Shipping.StandardDaysByZone | src/services/shipping.ts:157 | standard delivery takes 10 days abroad, 7 to remote regions, 5 elsewhere |
| Shipping.FreeShippingScreen | src/services/shipping.ts:171-173 | the screen's threshold is the one getFreeShippingThreshold reports, and the premium minimum passes it |

## Left out

- The remote-evaluator hooks (src/hooks/useBrain*.ts) are not part of this model. They are network I/O with a local fallback.
- React plumbing is not modelled: `useState`, `useCallback`, `useMemo`, the assessing flag, the last-assessment state and `resetAssessment`. The engine's promo code and rate are plain fields of `DiscountEngine.Engine`.
- `getRiskColor` (in useRiskAssessment.ts and scoring.ts) is a UI colour table and is not modelled.
- The clock: membership months and account age in days are inputs, not computed from `Date.now()`.
- Number formatting is not modelled: `toLocaleString`, `toFixed`, the savings text and capitalised entry names. Messages and lines are tokens carrying the interpolated numbers.
- Floating point: amounts are exact reals and `Math.round` is round-half-up on reals, so IEEE-754 representation error is not captured.
- DiscountEngine.ToUpper: upper-cases ASCII letters only, not the full Unicode case mapping of `toUpperCase`.
- The per-code `maxUses` of the profile stacker's promo table is carried by no rule. The code does not enforce it either.
- The unused constants are not modelled: the `isHoliday` pricing field, the approval constant `HIGH_RISK_REQUIRES_REVIEW`, and the Black Friday and summer-sale rates.
- JavaScript prototype keys (looking up a code such as `toString` in an object literal) are not modelled. A lookup succeeds only for the listed keys.
- The engine's category dictionary lists categories in first-appearance order. JavaScript orders integer-like keys first; that is not modelled.
- The membership-bonus table is modelled as already sorted from 24 months down, which is what the code's sort produces.
- Counts the code types as `number` (orders, days, failures, quantities, credit score, age) are integers.
- Shipping.ZoneMultiplier: the local and regional zones exist in the multiplier table, but no destination selects them.
- DiscountEngine.UncappedShareBounds: stated only for carts with non-negative prices and quantities. The code does not reject negative ones.
