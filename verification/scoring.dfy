/** Credit-style customer scoring: a base score of 500 adjusted by overdue
    days, failed payments, verification, disputes, order count and lifetime
    spend, clamped to [300, 850] and classified into four levels; plus the two
    boolean screens for high-risk customers and manual review. */
module Scoring {
  import opened Commerce

  datatype CustomerRiskProfile = CustomerRiskProfile(
    id: string,
    daysOverdue: int,
    failedPayments: int,
    verified: bool,
    orderCount: int,
    disputeCount: int,
    lifetimeSpend: real)

  /** The factor messages, one token each, carrying what the text interpolates. */
  datatype Factor =
    | CriticalOverdue(days: int)            // "Critical: <d> days overdue"
    | HighRiskOverdue(days: int)            // "High risk: <d> days overdue"
    | MediumRiskOverdue(days: int)          // "Medium risk: <d> days overdue"
    | CriticalFailedPayments(count: int)    // "Critical: <n> failed payments"
    | WarningFailedPayments(count: int)     // "Warning: <n> failed payments"
    | VerifiedAccount                       // "Verified account: +20 points"
    | UnverifiedAccount                     // "Unverified account: risk factor"
    | Disputes(count: int, penalty: int)    // "<n> disputes: -<p> points"
    | LoyalCustomer(orders: int, bonus: int) // "Loyal customer (<n> orders): +<b> points"
    | HighValueCustomer(bonus: int)         // "High value customer: +<b> points"

  datatype ScoreResult = ScoreResult(level: RiskLevel, score: int, factors: seq<Factor>)

  const HighRiskDaysOverdue := 30
  const MediumRiskDaysOverdue := 15
  const CriticalRiskDaysOverdue := 60

  const MaxFailedPayments := 3
  const CriticalFailedPaymentCount := 5

  const BaseScore := 500
  const MaxScore := 850
  const MinScore := 300

  const VerifiedBonus := 20
  const FailedPaymentPenalty := 30
  const DisputePenalty := 25
  const LoyaltyBonusThreshold := 10
  const LoyaltyBonus := 15
  const HighValueBonusThreshold := 5000.0
  const HighValueBonus := 25

  // ---------------------------------------------------------------------------
  // Reference definitions: what each adjustment adds and which factor it records.
  // ---------------------------------------------------------------------------

  datatype Adjustment = Adjustment(points: int, factors: seq<Factor>)

  const NoAdjustment := Adjustment(0, [])

  function OverdueAdjustment(days: int): Adjustment {
    if days >= CriticalRiskDaysOverdue then Adjustment(-150, [CriticalOverdue(days)])
    else if days > HighRiskDaysOverdue then Adjustment(-100, [HighRiskOverdue(days)])
    else if days > MediumRiskDaysOverdue then Adjustment(-50, [MediumRiskOverdue(days)])
    else NoAdjustment
  }

  function FailedPaymentAdjustment(failed: int): Adjustment {
    if failed >= CriticalFailedPaymentCount then Adjustment(-(FailedPaymentPenalty * 3), [CriticalFailedPayments(failed)])
    else if failed >= MaxFailedPayments then Adjustment(-(FailedPaymentPenalty * failed), [WarningFailedPayments(failed)])
    else NoAdjustment
  }

  function VerificationAdjustment(verified: bool): Adjustment {
    if verified then Adjustment(VerifiedBonus, [VerifiedAccount]) else Adjustment(-10, [UnverifiedAccount])
  }

  function DisputeAdjustment(disputes: int): Adjustment {
    if disputes > 0 then Adjustment(-(DisputePenalty * disputes), [Disputes(disputes, DisputePenalty * disputes)])
    else NoAdjustment
  }

  function LoyaltyAdjustment(orders: int): Adjustment {
    if orders >= LoyaltyBonusThreshold then Adjustment(LoyaltyBonus, [LoyalCustomer(orders, LoyaltyBonus)])
    else NoAdjustment
  }

  function HighValueAdjustment(lifetimeSpend: real): Adjustment {
    if lifetimeSpend >= HighValueBonusThreshold then Adjustment(HighValueBonus, [HighValueCustomer(HighValueBonus)])
    else NoAdjustment
  }

  /** The score before clamping. */
  function RawScore(p: CustomerRiskProfile): int {
    BaseScore
    + OverdueAdjustment(p.daysOverdue).points + FailedPaymentAdjustment(p.failedPayments).points
    + VerificationAdjustment(p.verified).points + DisputeAdjustment(p.disputeCount).points
    + LoyaltyAdjustment(p.orderCount).points + HighValueAdjustment(p.lifetimeSpend).points
  }

  /** The recorded factors, in evaluation order. */
  function ProfileFactors(p: CustomerRiskProfile): seq<Factor> {
    OverdueAdjustment(p.daysOverdue).factors + FailedPaymentAdjustment(p.failedPayments).factors
    + VerificationAdjustment(p.verified).factors + DisputeAdjustment(p.disputeCount).factors
    + LoyaltyAdjustment(p.orderCount).factors + HighValueAdjustment(p.lifetimeSpend).factors
  }

  /** The level bands of the clamped score. */
  function LevelFor(score: int): RiskLevel {
    if score < 400 then Critical
    else if score < 500 then High
    else if score < 650 then Medium
    else Low
  }

  // ---------------------------------------------------------------------------
  // The calculation, step by step.
  // ---------------------------------------------------------------------------

  method OverdueStep(p: CustomerRiskProfile, score0: int, factors0: seq<Factor>) returns (score: int, factors: seq<Factor>)
    ensures score == score0 + OverdueAdjustment(p.daysOverdue).points
    ensures factors == factors0 + OverdueAdjustment(p.daysOverdue).factors
  {
    score, factors := score0, factors0;
    if p.daysOverdue >= CriticalRiskDaysOverdue {
      factors := factors + [CriticalOverdue(p.daysOverdue)];
      score := score - 150;
    } else if p.daysOverdue > HighRiskDaysOverdue {
      factors := factors + [HighRiskOverdue(p.daysOverdue)];
      score := score - 100;
    } else if p.daysOverdue > MediumRiskDaysOverdue {
      factors := factors + [MediumRiskOverdue(p.daysOverdue)];
      score := score - 50;
    }
  }

  method FailedPaymentStep(p: CustomerRiskProfile, score0: int, factors0: seq<Factor>) returns (score: int, factors: seq<Factor>)
    ensures score == score0 + FailedPaymentAdjustment(p.failedPayments).points
    ensures factors == factors0 + FailedPaymentAdjustment(p.failedPayments).factors
  {
    score, factors := score0, factors0;
    if p.failedPayments >= CriticalFailedPaymentCount {
      factors := factors + [CriticalFailedPayments(p.failedPayments)];
      score := score - FailedPaymentPenalty * 3;
    } else if p.failedPayments >= MaxFailedPayments {
      factors := factors + [WarningFailedPayments(p.failedPayments)];
      score := score - FailedPaymentPenalty * p.failedPayments;
    }
  }

  method VerificationStep(p: CustomerRiskProfile, score0: int, factors0: seq<Factor>) returns (score: int, factors: seq<Factor>)
    ensures score == score0 + VerificationAdjustment(p.verified).points
    ensures factors == factors0 + VerificationAdjustment(p.verified).factors
  {
    score, factors := score0, factors0;
    if p.verified {
      factors := factors + [VerifiedAccount];
      score := score + VerifiedBonus;
    } else {
      factors := factors + [UnverifiedAccount];
      score := score - 10;
    }
  }

  method DisputeStep(p: CustomerRiskProfile, score0: int, factors0: seq<Factor>) returns (score: int, factors: seq<Factor>)
    ensures score == score0 + DisputeAdjustment(p.disputeCount).points
    ensures factors == factors0 + DisputeAdjustment(p.disputeCount).factors
  {
    score, factors := score0, factors0;
    if p.disputeCount > 0 {
      var penalty := DisputePenalty * p.disputeCount;
      factors := factors + [Disputes(p.disputeCount, penalty)];
      score := score - penalty;
    }
  }

  method LoyaltyStep(p: CustomerRiskProfile, score0: int, factors0: seq<Factor>) returns (score: int, factors: seq<Factor>)
    ensures score == score0 + LoyaltyAdjustment(p.orderCount).points
    ensures factors == factors0 + LoyaltyAdjustment(p.orderCount).factors
  {
    score, factors := score0, factors0;
    if p.orderCount >= LoyaltyBonusThreshold {
      factors := factors + [LoyalCustomer(p.orderCount, LoyaltyBonus)];
      score := score + LoyaltyBonus;
    }
  }

  method HighValueStep(p: CustomerRiskProfile, score0: int, factors0: seq<Factor>) returns (score: int, factors: seq<Factor>)
    ensures score == score0 + HighValueAdjustment(p.lifetimeSpend).points
    ensures factors == factors0 + HighValueAdjustment(p.lifetimeSpend).factors
  {
    score, factors := score0, factors0;
    if p.lifetimeSpend >= HighValueBonusThreshold {
      factors := factors + [HighValueCustomer(HighValueBonus)];
      score := score + HighValueBonus;
    }
  }

  method CalculateRiskLevel(p: CustomerRiskProfile) returns (r: ScoreResult)
    ensures MinScore <= r.score <= MaxScore
    ensures r.score == Clamp(RawScore(p), MinScore, MaxScore)
    ensures r.level == LevelFor(r.score)
    ensures r.factors == ProfileFactors(p)
  {
    ghost var overdue, failed := OverdueAdjustment(p.daysOverdue).factors, FailedPaymentAdjustment(p.failedPayments).factors;
    ghost var verification, disputes := VerificationAdjustment(p.verified).factors, DisputeAdjustment(p.disputeCount).factors;
    ghost var loyalty := LoyaltyAdjustment(p.orderCount).factors;
    var score, factors := OverdueStep(p, BaseScore, []);
    assert factors == overdue;
    score, factors := FailedPaymentStep(p, score, factors);
    score, factors := VerificationStep(p, score, factors);
    assert factors == overdue + failed + verification;
    score, factors := DisputeStep(p, score, factors);
    assert factors == overdue + failed + verification + disputes;
    score, factors := LoyaltyStep(p, score, factors);
    assert factors == overdue + failed + verification + disputes + loyalty;
    score, factors := HighValueStep(p, score, factors);

    score := Clamp(score, MinScore, MaxScore);

    var level: RiskLevel;
    if score < 400 {
      level := Critical;
    } else if score < 500 {
      level := High;
    } else if score < 650 {
      level := Medium;
    } else {
      level := Low;
    }
    r := ScoreResult(level, score, factors);
  }

  /** Overdue more than 30 days, three or more failed payments, or more than
      two disputes. */
  predicate IsHighRiskCustomer(p: CustomerRiskProfile) {
    p.daysOverdue > HighRiskDaysOverdue || p.failedPayments >= MaxFailedPayments || p.disputeCount > 2
  }

  /** Overdue more than 60 days, five or more failed payments, or three or
      more disputes. */
  predicate RequiresManualReview(p: CustomerRiskProfile) {
    if p.daysOverdue > CriticalRiskDaysOverdue then true
    else if p.failedPayments >= CriticalFailedPaymentCount then true
    else p.disputeCount >= 3
  }

  // ---------------------------------------------------------------------------
  // Properties.
  // ---------------------------------------------------------------------------

  /** The level is a non-increasing function of the score (a higher score is
      less risky), with bands below 400, 400..499, 500..649 and 650 up. */
  lemma LevelBands(s: int, t: int)
    requires s <= t
    ensures Rank(LevelFor(t)) <= Rank(LevelFor(s))
    ensures LevelFor(s) == Critical <==> s < 400
    ensures LevelFor(s) == High <==> 400 <= s < 500
    ensures LevelFor(s) == Medium <==> 500 <= s < 650
    ensures LevelFor(s) == Low <==> s >= 650
  {
  }

  /** The three overdue penalties exclude each other: at most one overdue
      factor, of the band the days fall in. */
  lemma OverduePenaltiesExclusive(days: int)
    ensures |OverdueAdjustment(days).factors| <= 1
    ensures OverdueAdjustment(days).points
            == if days >= 60 then -150 else if 30 < days then -100 else if 15 < days then -50 else 0
    ensures OverdueAdjustment(days).factors == [] <==> days <= 15
  {
  }

  /** Five or more failed payments cost exactly 90; three or four cost 30 per
      payment; fewer cost nothing. So four failed payments cost more than five. */
  lemma FailedPaymentPenalties(failed: int)
    ensures FailedPaymentAdjustment(failed).points
            == if failed >= 5 then -90 else if failed >= 3 then -30 * failed else 0
    ensures FailedPaymentAdjustment(4).points < FailedPaymentAdjustment(5).points
  {
  }

  /** A factor is recorded exactly when one of the six adjustments records it. */
  lemma FactorFromAnAdjustment(p: CustomerRiskProfile, f: Factor)
    ensures f in ProfileFactors(p) <==>
      || f in OverdueAdjustment(p.daysOverdue).factors || f in FailedPaymentAdjustment(p.failedPayments).factors
      || f in VerificationAdjustment(p.verified).factors || f in DisputeAdjustment(p.disputeCount).factors
      || f in LoyaltyAdjustment(p.orderCount).factors || f in HighValueAdjustment(p.lifetimeSpend).factors
  {
  }

  /** Exactly one of the two verification factors is recorded. */
  lemma OneVerificationFactor(p: CustomerRiskProfile)
    ensures VerifiedAccount in ProfileFactors(p) <==> p.verified
    ensures UnverifiedAccount in ProfileFactors(p) <==> !p.verified
  {
    FactorFromAnAdjustment(p, VerifiedAccount);
    FactorFromAnAdjustment(p, UnverifiedAccount);
  }

  /** Each dispute costs 25, ten or more orders add 15 and a lifetime spend of
      5000 or more adds 25. */
  lemma FurtherAdjustments(p: CustomerRiskProfile)
    ensures DisputeAdjustment(p.disputeCount).points == if p.disputeCount > 0 then -25 * p.disputeCount else 0
    ensures LoyaltyAdjustment(p.orderCount).points == if p.orderCount >= 10 then 15 else 0
    ensures HighValueAdjustment(p.lifetimeSpend).points == if p.lifetimeSpend >= 5000.0 then 25 else 0
  {
  }

  /** Every adjustment but the disputes is bounded, so the unclamped score
      lies between 220 and 560 less 25 per dispute. */
  lemma RawScoreRange(p: CustomerRiskProfile)
    ensures var d := DisputeAdjustment(p.disputeCount).points;
            220 + d <= RawScore(p) <= 560 + d
  {
  }

  /** More disputes never raise the score. */
  lemma ScoreNonIncreasingInDisputes(p: CustomerRiskProfile, more: int)
    requires more >= p.disputeCount
    ensures RawScore(p.(disputeCount := more)) <= RawScore(p)
  {
  }

  /** Manual review is only asked for customers that are high risk. */
  lemma ManualReviewImpliesHighRisk(p: CustomerRiskProfile)
    ensures RequiresManualReview(p) ==> IsHighRiskCustomer(p)
  {
  }

  /** A high-risk customer never scores medium or low: every high-risk signal
      costs at least 75 points, which the bonuses (at most 60) cannot make up. */
  lemma HighRiskCustomerScoresHighOrCritical(p: CustomerRiskProfile)
    requires IsHighRiskCustomer(p)
    ensures Rank(LevelFor(Clamp(RawScore(p), MinScore, MaxScore))) >= 2
  {
    assert RawScore(p) < 500;
  }

  /** The screens and the score are not the same test: an unverified customer
      20 days overdue with two disputes scores critical without being a
      high-risk customer. */
  lemma CriticalWithoutHighRiskSignal()
    ensures var p := CustomerRiskProfile("c", 20, 0, false, 0, 2, 0.0);
            && LevelFor(Clamp(RawScore(p), MinScore, MaxScore)) == Critical
            && !IsHighRiskCustomer(p)
  {
  }
}
