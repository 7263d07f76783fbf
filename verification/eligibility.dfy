/** Customer eligibility: five checks recorded in a fixed order (age, country,
    account age for large orders, credit, email verification), of which all
    but the credit check can make the customer ineligible; the reason given is
    the message of the first failed check. Also the credit screens and the B2B
    e-mail domain test. */
module Eligibility {
  import opened Commerce

  /** `accountCreatedAt` is not a field: the account's age in whole days is an
      input of the check. */
  datatype User = User(id: string, age: int, verified: bool, country: string, email: string)

  datatype CheckName = AgeVerification | CountryCheck | AccountAge | CreditCheck | EmailVerification

  /** The check messages, one token each (the comment gives the text). */
  datatype Message =
    | MinimumAgeRequired(years: int)       // "Customer must be at least <n> years old"
    | AgeRequirementMet                    // "Age requirement met"
    | RegionUnavailable                    // "Orders not available in this region"
    | RegionApproved                       // "Region approved"
    | AccountTooNew(days: int)             // "Account must be <n>+ days old for orders over $5000"
    | AccountAgeRequirementMet             // "Account age requirement met"
    | MinimumCreditScoreRequired(score: int) // "Minimum credit score of <n> required"
    | PremiumFinancingAvailable            // "Premium financing available"
    | StandardFinancingAvailable           // "Standard financing available"
    | EmailMustBeVerified                  // "Email must be verified to complete purchase"
    | EmailVerified                        // "Email verified"

  datatype Check = Check(name: CheckName, passed: bool, message: Message)

  /** `reason` is None where the source leaves it undefined. */
  datatype EligibilityResult = EligibilityResult(eligible: bool, reason: Option<Message>, checks: seq<Check>)

  const MinimumAge := 18
  const AccountAgeDays := 30
  const CreditScoreMinimum := 600
  const PremiumCreditThreshold := 720
  const LargeOrderTotal := 5000.0

  const RestrictedCountries: seq<string> := ["NK", "IR", "SY", "CU"]
  const AllowedB2BDomains: seq<string> := ["company.com", "enterprise.io", "corp.net"]

  // ---------------------------------------------------------------------------
  // Reference definitions of the five checks.
  // ---------------------------------------------------------------------------

  function AgeCheck(user: User): Check {
    if user.age < MinimumAge then Check(AgeVerification, false, MinimumAgeRequired(MinimumAge))
    else Check(AgeVerification, true, AgeRequirementMet)
  }

  function CountryCheckOf(user: User): Check {
    if user.country in RestrictedCountries then Check(CountryCheck, false, RegionUnavailable)
    else Check(CountryCheck, true, RegionApproved)
  }

  function AccountAgeCheck(orderTotal: real, accountAgeDays: int): Check {
    if orderTotal > LargeOrderTotal && accountAgeDays < AccountAgeDays then
      Check(AccountAge, false, AccountTooNew(AccountAgeDays))
    else Check(AccountAge, true, AccountAgeRequirementMet)
  }

  function CreditCheckOf(creditScore: int): Check {
    if creditScore < CreditScoreMinimum then Check(CreditCheck, false, MinimumCreditScoreRequired(CreditScoreMinimum))
    else if creditScore >= PremiumCreditThreshold then Check(CreditCheck, true, PremiumFinancingAvailable)
    else Check(CreditCheck, true, StandardFinancingAvailable)
  }

  function EmailCheck(user: User): Check {
    if !user.verified then Check(EmailVerification, false, EmailMustBeVerified)
    else Check(EmailVerification, true, EmailVerified)
  }

  function ExpectedChecks(user: User, creditScore: int, orderTotal: real, accountAgeDays: int): seq<Check> {
    [AgeCheck(user), CountryCheckOf(user), AccountAgeCheck(orderTotal, accountAgeDays),
     CreditCheckOf(creditScore), EmailCheck(user)]
  }

  /** The conditions that make a customer ineligible; the credit score is not one. */
  predicate Eligible(user: User, orderTotal: real, accountAgeDays: int) {
    && user.age >= MinimumAge
    && user.country !in RestrictedCountries
    && !(orderTotal > LargeOrderTotal && accountAgeDays < AccountAgeDays)
    && user.verified
  }

  /** `checks.find(c => !c.passed)?.message`. */
  function FirstFailed(checks: seq<Check>): (r: Option<Message>)
    ensures r.None? <==> forall i :: 0 <= i < |checks| ==> checks[i].passed
    ensures r.Some? ==> exists i :: 0 <= i < |checks| && !checks[i].passed && checks[i].message == r.value
                                    && forall j :: 0 <= j < i ==> checks[j].passed
  {
    if checks == [] then None
    else if !checks[0].passed then Some(checks[0].message)
    else
      var rest := FirstFailed(checks[1..]);
      assert forall i :: 1 <= i < |checks| ==> checks[i] == checks[1..][i - 1];
      if rest.Some? then
        assert exists i :: 0 <= i < |checks| - 1 && !checks[1..][i].passed && checks[1..][i].message == rest.value
                           && forall j :: 0 <= j < i ==> checks[1..][j].passed;
        var i :| 0 <= i < |checks| - 1 && !checks[1..][i].passed && checks[1..][i].message == rest.value
                 && forall j :: 0 <= j < i ==> checks[1..][j].passed;
        assert !checks[i + 1].passed && checks[i + 1].message == rest.value;
        rest
      else rest
  }

  // ---------------------------------------------------------------------------
  // The check.
  // ---------------------------------------------------------------------------

  method CheckCustomerEligibility(user: User, creditScore: int, orderTotal: real, accountAgeDays: int)
    returns (result: EligibilityResult)
    ensures result.checks == ExpectedChecks(user, creditScore, orderTotal, accountAgeDays)
    ensures result.eligible <==> Eligible(user, orderTotal, accountAgeDays)
    ensures result.reason == if result.eligible then None else FirstFailed(result.checks)
  {
    var checks: seq<Check> := [];
    var eligible := true;

    // Age verification.
    if user.age < MinimumAge {
      checks := checks + [Check(AgeVerification, false, MinimumAgeRequired(MinimumAge))];
      eligible := false;
    } else {
      checks := checks + [Check(AgeVerification, true, AgeRequirementMet)];
    }

    // Country check.
    if user.country in RestrictedCountries {
      checks := checks + [Check(CountryCheck, false, RegionUnavailable)];
      eligible := false;
    } else {
      checks := checks + [Check(CountryCheck, true, RegionApproved)];
    }
    assert checks == [AgeCheck(user), CountryCheckOf(user)];

    // Account age for large orders.
    if orderTotal > LargeOrderTotal && accountAgeDays < AccountAgeDays {
      checks := checks + [Check(AccountAge, false, AccountTooNew(AccountAgeDays))];
      eligible := false;
    } else {
      checks := checks + [Check(AccountAge, true, AccountAgeRequirementMet)];
    }

    // Credit check: recorded, but it does not change eligibility.
    if creditScore < CreditScoreMinimum {
      checks := checks + [Check(CreditCheck, false, MinimumCreditScoreRequired(CreditScoreMinimum))];
    } else if creditScore >= PremiumCreditThreshold {
      checks := checks + [Check(CreditCheck, true, PremiumFinancingAvailable)];
    } else {
      checks := checks + [Check(CreditCheck, true, StandardFinancingAvailable)];
    }
    assert checks == [AgeCheck(user), CountryCheckOf(user), AccountAgeCheck(orderTotal, accountAgeDays),
                      CreditCheckOf(creditScore)];

    // Email verification.
    if !user.verified {
      checks := checks + [Check(EmailVerification, false, EmailMustBeVerified)];
      eligible := false;
    } else {
      checks := checks + [Check(EmailVerification, true, EmailVerified)];
    }

    result := EligibilityResult(eligible, if eligible then None else FirstFailed(checks), checks);
  }

  predicate IsEligibleForFinancing(creditScore: int) { creditScore >= CreditScoreMinimum }

  predicate IsPremiumCreditEligible(creditScore: int) { creditScore >= PremiumCreditThreshold }

  // ---------------------------------------------------------------------------
  // B2B e-mail domains.
  // ---------------------------------------------------------------------------

  /** Index of the first occurrence of a character. */
  function IndexOf(s: string, c: char): (r: Option<nat>)
    ensures r.None? <==> c !in s
    ensures r.Some? ==> r.value < |s| && s[r.value] == c && c !in s[..r.value]
  {
    if s == [] then None
    else if s[0] == c then Some(0)
    else
      var rest := IndexOf(s[1..], c);
      if rest.Some? then
        assert s[..rest.value + 1] == [s[0]] + s[1..][..rest.value];
        Some(rest.value + 1)
      else None
  }

  /** `email.split("@")[1]`: the text between the first '@' and the next one
      (or the end); None where the source reads past the end of the split. */
  function DomainPart(email: string): (domain: Option<string>)
    ensures domain.Some? <==> '@' in email
    ensures domain.Some? ==> '@' !in domain.value && |domain.value| < |email|
  {
    match IndexOf(email, '@')
    case None => None
    case Some(i) =>
      var rest := email[i + 1..];
      match IndexOf(rest, '@')
      case None => Some(rest)
      case Some(j) => Some(rest[..j])
  }

  predicate IsB2BEligible(email: string) {
    var domain := DomainPart(email);
    domain.Some? && domain.value in AllowedB2BDomains
  }

  // ---------------------------------------------------------------------------
  // Properties.
  // ---------------------------------------------------------------------------

  /** Five checks, always in the order age, country, account age, credit, email. */
  lemma ChecksInOrder(user: User, creditScore: int, orderTotal: real, accountAgeDays: int)
    ensures var checks := ExpectedChecks(user, creditScore, orderTotal, accountAgeDays);
      && |checks| == 5
      && checks[0].name == AgeVerification && checks[1].name == CountryCheck && checks[2].name == AccountAge
      && checks[3].name == CreditCheck && checks[4].name == EmailVerification
  {
  }

  /** Every check but the credit check passes exactly when its condition for
      eligibility holds, so a customer is eligible exactly when those four
      pass, whatever the credit check says. */
  lemma EligibleExactlyWhenNonCreditChecksPass(user: User, creditScore: int, orderTotal: real, accountAgeDays: int)
    ensures var checks := ExpectedChecks(user, creditScore, orderTotal, accountAgeDays);
      Eligible(user, orderTotal, accountAgeDays)
      <==> forall i :: 0 <= i < 5 && i != 3 ==> checks[i].passed
  {
    var checks := ExpectedChecks(user, creditScore, orderTotal, accountAgeDays);
    assert checks[0] == AgeCheck(user) && checks[1] == CountryCheckOf(user);
    assert checks[2] == AccountAgeCheck(orderTotal, accountAgeDays) && checks[4] == EmailCheck(user);
  }

  /** The credit check's three outcomes. */
  lemma CreditMessages(creditScore: int)
    ensures !CreditCheckOf(creditScore).passed <==> creditScore < 600
    ensures CreditCheckOf(creditScore).message == PremiumFinancingAvailable <==> creditScore >= 720
    ensures CreditCheckOf(creditScore).message == StandardFinancingAvailable <==> 600 <= creditScore < 720
    ensures CreditCheckOf(creditScore).passed <==> IsEligibleForFinancing(creditScore)
  {
  }

  /** Premium credit implies financing. */
  lemma PremiumImpliesFinancing(creditScore: int)
    ensures IsPremiumCreditEligible(creditScore) ==> IsEligibleForFinancing(creditScore)
  {
  }

  /** An ineligible customer always gets a reason, and it is the message of a
      failed check that every earlier check passed. */
  lemma IneligibleHasAReason(user: User, creditScore: int, orderTotal: real, accountAgeDays: int)
    requires !Eligible(user, orderTotal, accountAgeDays)
    ensures var checks := ExpectedChecks(user, creditScore, orderTotal, accountAgeDays);
      FirstFailed(checks).Some?
  {
    EligibleExactlyWhenNonCreditChecksPass(user, creditScore, orderTotal, accountAgeDays);
  }

  /** The reason can be the credit message even though the credit check does
      not make anyone ineligible: a low score is reported ahead of the
      unverified e-mail that is what actually fails the customer. */
  lemma CreditMessageCanBeTheReason()
    ensures var user := User("u", 30, false, "US", "a@b.c");
      && !Eligible(user, 100.0, 365)
      && FirstFailed(ExpectedChecks(user, 550, 100.0, 365)) == Some(MinimumCreditScoreRequired(600))
  {
  }

  /** An address with one '@' is a B2B address exactly when its domain is one
      of the three allowed ones; an address without '@' never is. */
  lemma B2BDomains(local: string, domain: string)
    requires '@' !in local && '@' !in domain
    ensures IsB2BEligible(local + "@" + domain) <==> domain in AllowedB2BDomains
    ensures !IsB2BEligible(local)
  {
    var email := local + "@" + domain;
    assert email[|local|] == '@';
    assert email[..|local|] == local;
    assert IndexOf(email, '@') == Some(|local|);
    assert email[|local| + 1..] == domain;
  }

  /** Only the text up to a second '@' is compared: what follows it is ignored. */
  lemma SecondAtIgnored(local: string, domain: string, tail: string)
    requires '@' !in local && '@' !in domain
    ensures IsB2BEligible(local + "@" + domain + "@" + tail) <==> domain in AllowedB2BDomains
  {
    var email := local + "@" + domain + "@" + tail;
    assert email[|local|] == '@';
    assert email[..|local|] == local;
    assert IndexOf(email, '@') == Some(|local|);
    var rest := email[|local| + 1..];
    assert rest == domain + "@" + tail;
    assert rest[|domain|] == '@' && rest[..|domain|] == domain;
    assert IndexOf(rest, '@') == Some(|domain|);
  }
}
