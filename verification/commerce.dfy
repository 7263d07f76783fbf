/** Vocabulary shared by the decision engines: optional values, customer tiers,
    the four risk levels, integer clamping and rounding of money to cents. */
module Commerce {

  datatype Option<+T> = None | Some(value: T)

  /** Customer tier, shared by approvals, pricing and the cart discount engine. */
  datatype Tier = Basic | Premium | Vip | Enterprise

  /** Categorical risk, produced by the risk scorer and consumed by approval routing. */
  datatype RiskLevel = Low | Medium | High | Critical

  /** Position of a risk level on the scale low < medium < high < critical. */
  function Rank(level: RiskLevel): (r: nat)
    ensures r <= 3
    ensures level == Low <==> r == 0
    ensures level == Critical <==> r == 3
  {
    match level
    case Low => 0
    case Medium => 1
    case High => 2
    case Critical => 3
  }

  /** `Math.max(lo, Math.min(hi, x))`. */
  function Clamp(x: int, lo: int, hi: int): (r: int)
    requires lo <= hi
    ensures lo <= r <= hi
    ensures lo <= x <= hi ==> r == x
    ensures x < lo ==> r == lo
    ensures x > hi ==> r == hi
  {
    if x < lo then lo else if x > hi then hi else x
  }

  /** `Math.round(x * 100) / 100` on exact reals: JavaScript's Math.round rounds
      halves upwards, which is the floor of x*100 + 1/2. */
  function RoundCents(x: real): (r: real)
    ensures x - 0.005 < r <= x + 0.005
    ensures (r * 100.0).Floor as real == r * 100.0
    ensures x >= 0.0 ==> r >= 0.0
  {
    (x * 100.0 + 0.5).Floor as real / 100.0
  }

  /** Rounding to cents never moves a value by more than half a cent, so two
      rounded parts of a whole add up to the whole within one cent. */
  lemma RoundedPartsWithinACent(a: real, b: real)
    ensures -0.01 < RoundCents(a) + RoundCents(b) - (a + b) <= 0.01
  {
  }
}
