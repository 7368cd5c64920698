/** The credit-score formula of the credit mini-game.

    Five factors, each on a 0..100 scale, are weighted 35/30/15/10/10 over the
    550-point span above a base of 300. Utilization and inquiries are inverted:
    a low value scores well. Every weight times 550/100 is a multiple of 1/200,
    so the model keeps the sum exact as `Scaled`, 200 times the real score, and
    truncates once at the end. */
module CreditScore {

  const MinScore := 300
  const MaxScore := 850
  const TargetScore := 750
  const FactorMax := 100

  datatype Factors = Factors(
    paymentHistory: int,  // weight 35%
    utilization: int,     // weight 30%, lower is better
    creditAge: int,       // weight 15%
    creditMix: int,       // weight 10%
    inquiries: int)       // weight 10%, lower is better

  predicate InRange(v: int) {
    0 <= v <= FactorMax
  }

  /** Every factor lies on the 0..100 scale. */
  predicate Bounded(f: Factors) {
    && InRange(f.paymentHistory)
    && InRange(f.utilization)
    && InRange(f.creditAge)
    && InRange(f.creditMix)
    && InRange(f.inquiries)
  }

  /** `min(100, v + d)`: every upward nudge of a factor. */
  function Raise(v: int, d: nat): (r: int)
    ensures r <= FactorMax
    ensures InRange(v) ==> InRange(r) && v <= r
    ensures v + d <= FactorMax ==> r == v + d
  {
    if v + d < FactorMax then v + d else FactorMax
  }

  /** `max(0, v - d)`: every downward nudge of a factor. */
  function Lower(v: int, d: nat): (r: int)
    ensures 0 <= r
    ensures InRange(v) ==> InRange(r) && r <= v
    ensures 0 <= v - d ==> r == v - d
  {
    if v - d > 0 then v - d else 0
  }

  /** Two nudges in a row equal one nudge by the sum: the cap is absorbing. */
  lemma RaiseTwice(v: int, d: nat, e: nat)
    ensures Raise(Raise(v, d), e) == Raise(v, d + e)
  {
  }

  /** `max(0, v)`, applied by the source to each inverted factor. */
  function NonNegative(v: int): int {
    if v < 0 then 0 else v
  }

  /** 200 times the untruncated score. */
  function Scaled(f: Factors): int {
    200 * MinScore
    + 385 * f.paymentHistory
    + 330 * NonNegative(FactorMax - f.utilization)
    + 165 * f.creditAge
    + 110 * f.creditMix
    + 110 * NonNegative(FactorMax - f.inquiries)
  }

  /** The credit score: the weighted sum truncated to an integer and clamped
      to [300, 850]. The source truncates toward zero and Dafny's division
      floors; the two differ only on a negative sum, which the clamp sends to
      300 either way. */
  function Score(f: Factors): (r: int)
    ensures MinScore <= r <= MaxScore
  {
    var raw := Scaled(f) / 200;
    if raw < MinScore then MinScore else if raw > MaxScore then MaxScore else raw
  }

  /** On factors within 0..100 the clamp never acts: the weighted sum already
      lies between 300 and 850. */
  lemma ClampInactive(f: Factors)
    requires Bounded(f)
    ensures 200 * MinScore <= Scaled(f) <= 200 * MaxScore
    ensures Score(f) == Scaled(f) / 200
  {
  }

  /** The profile with the positive factors maxed and the inverted ones at 0. */
  function Best(): Factors {
    Factors(100, 0, 100, 100, 0)
  }

  /** The profile a new game starts with: every factor 0. */
  function Fresh(): Factors {
    Factors(0, 0, 0, 0, 0)
  }

  /** A bounded profile scores 850 exactly when it is the best profile. */
  lemma TopScoreOnlyForBest(f: Factors)
    requires Bounded(f)
    ensures Score(f) == MaxScore <==> f == Best()
  {
  }

  /** A fresh profile scores 520, not 300: utilization and inquiries at 0
      already earn their full 40% of the span. */
  lemma FreshScore()
    ensures Score(Fresh()) == 520
    ensures Score(Factors(0, 100, 0, 0, 100)) == MinScore
  {
  }

  /** `f` is at least as good as `g` on every factor. */
  predicate NoWorse(f: Factors, g: Factors) {
    && f.paymentHistory >= g.paymentHistory
    && f.utilization <= g.utilization
    && f.creditAge >= g.creditAge
    && f.creditMix >= g.creditMix
    && f.inquiries <= g.inquiries
  }

  /** The score is non-decreasing in payment history, credit age and credit
      mix, and non-increasing in utilization and inquiries. */
  lemma ScoreMonotone(f: Factors, g: Factors)
    requires NoWorse(f, g)
    ensures Score(f) >= Score(g)
  {
  }
}
