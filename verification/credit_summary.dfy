/** The end-of-game summary of the credit mini-game: the final score, the
    factors that are in a healthy range (listed only on a win), and one
    improvement suggestion for every factor that is not. */
module CreditSummary {
  import opened CreditScore
  import opened CreditGame

  datatype Factor = PaymentHistory | Utilization | CreditAge | CreditMix | Inquiries

  /** The five factors in the order the summary lists them. */
  const AllFactors: seq<Factor> := [PaymentHistory, Utilization, CreditAge, CreditMix, Inquiries]

  lemma AllFactorsListed()
    ensures forall k: Factor :: k in AllFactors
  {
    forall k: Factor ensures k in AllFactors {
      if k.PaymentHistory? {
        assert k == AllFactors[0];
      } else if k.Utilization? {
        assert k == AllFactors[1];
      } else if k.CreditAge? {
        assert k == AllFactors[2];
      } else if k.CreditMix? {
        assert k == AllFactors[3];
      } else {
        assert k == AllFactors[4];
      }
    }
  }

  /** The fixed threshold for each factor: payment history at least 80,
      utilization at most 30, credit age at least 60, credit mix at least 50,
      inquiries at most 20. */
  predicate Healthy(f: Factors, k: Factor) {
    match k
    case PaymentHistory => f.paymentHistory >= 80
    case Utilization => f.utilization <= 30
    case CreditAge => f.creditAge >= 60
    case CreditMix => f.creditMix >= 50
    case Inquiries => f.inquiries <= 20
  }

  /** The factors of `ks`, in order, whose health is `healthy`. */
  function Select(ks: seq<Factor>, f: Factors, healthy: bool): (r: seq<Factor>)
    ensures forall k :: k in r <==> k in ks && Healthy(f, k) == healthy
    ensures |r| <= |ks|
  {
    if ks == [] then []
    else (if Healthy(f, ks[0]) == healthy then [ks[0]] else []) + Select(ks[1..], f, healthy)
  }

  /** Every factor of `ks` lands in exactly one of the two selections. */
  lemma {:induction false} SelectSplits(ks: seq<Factor>, f: Factors)
    ensures |Select(ks, f, true)| + |Select(ks, f, false)| == |ks|
  {
    if ks != [] {
      SelectSplits(ks[1..], f);
    }
  }

  /** "Key Success Factors". */
  function Strengths(f: Factors): (r: seq<Factor>)
    ensures forall k :: k in r <==> Healthy(f, k)
  {
    AllFactorsListed();
    Select(AllFactors, f, true)
  }

  /** "Areas for Improvement": one suggestion per unhealthy factor. */
  function Improvements(f: Factors): (r: seq<Factor>)
    ensures forall k :: k in r <==> !Healthy(f, k)
    ensures r == [] <==> forall k :: Healthy(f, k)
  {
    AllFactorsListed();
    var r := Select(AllFactors, f, false);
    assert r != [] ==> r[0] in r && !Healthy(f, r[0]);
    r
  }

  /** Strengths and improvements split the five factors between them. */
  lemma StrengthsAndImprovementsPartition(f: Factors)
    ensures |Strengths(f)| + |Improvements(f)| == 5
    ensures forall k :: k in Strengths(f) <==> k !in Improvements(f)
  {
    SelectSplits(AllFactors, f);
  }

  datatype Summary = Summary(
    won: bool,
    score: int,
    factors: Factors,
    strengths: seq<Factor>,
    improvements: seq<Factor>)

  /** The summary shown when the game ends. Strengths are listed only on a
      win; improvements always, and an empty list reads "All credit factors
      are in excellent range!". */
  function EndGame(g: Game, won: bool): (s: Summary)
    ensures MinScore <= s.score <= MaxScore
    ensures s.factors == g.factors && s.won == won
    ensures !won ==> s.strengths == []
    ensures won ==> forall k :: k in s.strengths <==> Healthy(g.factors, k)
    ensures forall k :: k in s.improvements <==> !Healthy(g.factors, k)
  {
    Summary(won, Score(g.factors), g.factors,
            if won then Strengths(g.factors) else [],
            Improvements(g.factors))
  }

  /** The best profile has no improvement left to suggest. */
  lemma BestNeedsNothing()
    ensures Improvements(Best()) == []
  {
  }
}
