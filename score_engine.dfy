/**
 * The fraud score: the merchant risk indicator scaled by 100 plus the two
 * rule risks, compared against a threshold with a strict `>`. The detector
 * and the tester use different thresholds, so the threshold is a parameter.
 */
module ScoreEngine {
  import opened RiskRules

  /** Threshold of the production detector. */
  const DetectorThreshold: real := 50.0

  /** Threshold of the accuracy tester. */
  const TesterThreshold: real := 0.0

  /** `RiskScore * 100 + amountRisk + locationRisk`. */
  function FraudScore(riskScore: real, amountRisk: int, locationRisk: int): real {
    riskScore * 100.0 + amountRisk as real + locationRisk as real
  }

  /** The score of one transaction under the two rules. */
  function TransactionScore(amount: real, riskScore: real, location: string): (r: real)
    ensures riskScore * 100.0 <= r <= riskScore * 100.0 + 70.0
  {
    FraudScore(riskScore, AmountRisk(amount), LocationRisk(location))
  }

  /** The decision: flagged exactly when the score exceeds the threshold. */
  predicate Flagged(score: real, threshold: real) {
    score > threshold
  }

  /** The score never decreases in any of its three terms. */
  lemma FraudScoreMonotone(r1: real, r2: real, a1: int, a2: int, l1: int, l2: int)
    requires r1 <= r2 && a1 <= a2 && l1 <= l2
    ensures FraudScore(r1, a1, l1) <= FraudScore(r2, a2, l2)
  {
  }

  /** A transaction's score never decreases in its amount or its risk indicator. */
  lemma TransactionScoreMonotone(amount1: real, amount2: real, risk1: real, risk2: real, location: string)
    requires amount1 <= amount2 && risk1 <= risk2
    ensures TransactionScore(amount1, risk1, location) <= TransactionScore(amount2, risk2, location)
  {
    AmountRiskMonotone(amount1, amount2);
  }

  /**
   * With the default risk indicator 0 the detector flags only amounts above
   * 3000 in a high-risk city: a 20-point amount in a high-risk city scores
   * exactly 50, which is not flagged.
   */
  lemma DefaultRiskDetectorDecision(amount: real, location: string)
    ensures Flagged(TransactionScore(amount, 0.0, location), DetectorThreshold)
            <==> amount > 3000.0 && location in HighRiskLocations
  {
  }

  /** Worked examples, including the boundary score of exactly 50. */
  lemma ScoreExamples()
    ensures TransactionScore(3500.0, 0.1, "Tokyo") == 80.0
    ensures Flagged(TransactionScore(3500.0, 0.1, "Tokyo"), DetectorThreshold)
    ensures TransactionScore(500.0, 0.1, "New York") == 10.0
    ensures !Flagged(TransactionScore(500.0, 0.1, "New York"), DetectorThreshold)
    ensures TransactionScore(2000.0, 0.0, "London") == 50.0
    ensures !Flagged(50.0, DetectorThreshold)
  {
  }
}
