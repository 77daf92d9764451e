/**
 * The accuracy tester: it re-scores labelled test transactions with its own
 * inline copy of the two rules, sorts each into one cell of a confusion
 * matrix, and derives accuracy, precision, recall and F1 as percentages,
 * each 0 when its denominator is 0.
 */
module FraudTester {
  import opened ScoreEngine
  import FraudDetection

  /** A labelled test transaction (the timestamp is not modelled). */
  datatype TestTransaction = TestTransaction(
    transactionId: string,
    userId: string,
    amount: real,
    merchant: string,
    category: string,
    paymentMethod: string,
    location: string,
    riskScore: real,
    status: string,
    isActualFraud: bool)

  /** The tester's own statement of the scoring rules. */
  function TesterScore(t: TestTransaction): real {
    var locationRisk := if t.location in ["Dubai", "Tokyo", "London"] then 30 else 0;
    var amountRisk := if t.amount > 3000.0 then 40 else (if t.amount > 1000.0 then 20 else 0);
    t.riskScore * 100.0 + amountRisk as real + locationRisk as real
  }

  /** The tester scores a transaction exactly as the detector's rules do. */
  lemma TesterScoreMatchesDetector(t: TestTransaction)
    ensures TesterScore(t) == TransactionScore(t.amount, t.riskScore, t.location)
  {
  }

  predicate IsFlaggedFraud(t: TestTransaction, threshold: real) {
    Flagged(TesterScore(t), threshold)
  }

  /** A positive risk indicator alone makes the tester flag a transaction. */
  lemma PositiveRiskIsFlagged(t: TestTransaction)
    requires t.riskScore > 0.0
    ensures IsFlaggedFraud(t, TesterThreshold)
  {
  }

  /**
   * Whatever the detector flags, the tester flags too when it re-scores a test
   * transaction with the stored amount, city and risk indicator (missing ones
   * at the detector's defaults).
   */
  lemma DetectorFlagImpliesTesterFlag(stored: FraudDetection.StoredTransaction, t: TestTransaction)
    requires t.amount == stored.amount
    requires t.location == FraudDetection.LocationOf(stored)
    requires t.riskScore == FraudDetection.RiskScoreOf(stored)
    ensures TesterScore(t) == FraudDetection.ScoreOf(stored)
    ensures Flagged(FraudDetection.ScoreOf(stored), DetectorThreshold) ==> IsFlaggedFraud(t, TesterThreshold)
  {
    TesterScoreMatchesDetector(t);
  }

  datatype Confusion = Confusion(
    truePositives: nat,
    falsePositives: nat,
    trueNegatives: nat,
    falseNegatives: nat)

  function Total(c: Confusion): nat {
    c.truePositives + c.falsePositives + c.trueNegatives + c.falseNegatives
  }

  /** The if/elif chain that bumps one counter per transaction. */
  function Classify(c: Confusion, flagged: bool, actual: bool): (r: Confusion)
    ensures Total(r) == Total(c) + 1
    ensures r.truePositives + r.falsePositives == c.truePositives + c.falsePositives + (if flagged then 1 else 0)
    ensures r.truePositives + r.falseNegatives == c.truePositives + c.falseNegatives + (if actual then 1 else 0)
  {
    if flagged && actual then c.(truePositives := c.truePositives + 1)
    else if flagged && !actual then c.(falsePositives := c.falsePositives + 1)
    else if !flagged && !actual then c.(trueNegatives := c.trueNegatives + 1)
    else c.(falseNegatives := c.falseNegatives + 1)
  }

  /** The counters after processing `data` in order. */
  function Tally(data: seq<TestTransaction>, threshold: real): Confusion {
    if data == [] then Confusion(0, 0, 0, 0)
    else
      var t := data[|data| - 1];
      Classify(Tally(data[..|data| - 1], threshold), IsFlaggedFraud(t, threshold), t.isActualFraud)
  }

  /** Number of transactions whose flag is `flagged` and whose label is `actual`. */
  function CountCell(data: seq<TestTransaction>, threshold: real, flagged: bool, actual: bool): nat {
    if data == [] then 0
    else
      var t := data[|data| - 1];
      CountCell(data[..|data| - 1], threshold, flagged, actual)
      + (if IsFlaggedFraud(t, threshold) == flagged && t.isActualFraud == actual then 1 else 0)
  }

  /** Number of transactions labelled as actual fraud. */
  function CountActualFraud(data: seq<TestTransaction>): nat {
    if data == [] then 0
    else CountActualFraud(data[..|data| - 1]) + (if data[|data| - 1].isActualFraud then 1 else 0)
  }

  /** Number of transactions the tester flags. */
  function CountFlagged(data: seq<TestTransaction>, threshold: real): nat {
    if data == [] then 0
    else CountFlagged(data[..|data| - 1], threshold) + (if IsFlaggedFraud(data[|data| - 1], threshold) then 1 else 0)
  }

  /** Each counter counts exactly its own cell of the confusion matrix. */
  lemma {:induction false} TallyIsConfusionMatrix(data: seq<TestTransaction>, threshold: real)
    ensures Tally(data, threshold) == Confusion(
              CountCell(data, threshold, true, true),
              CountCell(data, threshold, true, false),
              CountCell(data, threshold, false, false),
              CountCell(data, threshold, false, true))
  {
    if data != [] {
      TallyIsConfusionMatrix(data[..|data| - 1], threshold);
    }
  }

  /** Every transaction lands in exactly one counter: the counters sum to the batch size. */
  lemma {:induction false} TallyTotal(data: seq<TestTransaction>, threshold: real)
    ensures Total(Tally(data, threshold)) == |data|
  {
    if data != [] {
      TallyTotal(data[..|data| - 1], threshold);
    }
  }

  /** TP+FN is the number of transactions labelled as actual fraud. */
  lemma {:induction false} TallyActualFraud(data: seq<TestTransaction>, threshold: real)
    ensures Tally(data, threshold).truePositives + Tally(data, threshold).falseNegatives == CountActualFraud(data)
  {
    if data != [] {
      TallyActualFraud(data[..|data| - 1], threshold);
    }
  }

  /** TP+FP is the number of transactions the tester flags. */
  lemma {:induction false} TallyFlagged(data: seq<TestTransaction>, threshold: real)
    ensures Tally(data, threshold).truePositives + Tally(data, threshold).falsePositives == CountFlagged(data, threshold)
  {
    if data != [] {
      TallyFlagged(data[..|data| - 1], threshold);
    }
  }

  /** `num / den`, or 0 when `den` is 0. */
  function Ratio(num: nat, den: nat): (r: real)
    ensures den == 0 ==> r == 0.0
    ensures num <= den ==> 0.0 <= r <= 1.0
    ensures den > 0 ==> (r == 1.0 <==> num == den)
    ensures r == 0.0 <==> num == 0 || den == 0
  {
    if den > 0 then num as real / den as real else 0.0
  }

  /** The F1 score: harmonic mean of precision and recall, or 0 when their sum is not positive. */
  function F1(precision: real, recall: real): (r: real)
    ensures precision + recall <= 0.0 ==> r == 0.0
    ensures 0.0 <= precision <= recall && 0.0 < recall ==> precision <= r <= recall
    ensures 0.0 <= recall <= precision && 0.0 < precision ==> recall <= r <= precision
  {
    if precision + recall > 0.0 then
      HarmonicMeanBetween(precision, recall);
      HarmonicMeanBetween(recall, precision);
      2.0 * (precision * recall) / (precision + recall)
    else 0.0
  }

  /** The harmonic mean of two non-negative numbers lies between them. */
  lemma HarmonicMeanBetween(low: real, high: real)
    ensures 0.0 <= low <= high && 0.0 < high ==> low <= 2.0 * (low * high) / (low + high) <= high
    ensures low + high != 0.0 ==> 2.0 * (high * low) / (high + low) == 2.0 * (low * high) / (low + high)
  {
    if !(0.0 <= low <= high && 0.0 < high) { return; }
    var s := low + high;
    var f := 2.0 * (low * high) / s;
    assert f * s == 2.0 * (low * high);
    assert low * (high - low) >= 0.0;
    assert low * s <= f * s;
    assert high * (high - low) >= 0.0;
    assert f * s <= high * s;
  }

  /** On ratios, F1 is 1 exactly when precision and recall are both 1. */
  lemma F1IsOneIffBothOne(precision: real, recall: real)
    requires 0.0 <= precision <= 1.0 && 0.0 <= recall <= 1.0
    ensures 0.0 <= F1(precision, recall) <= 1.0
    ensures F1(precision, recall) == 1.0 <==> precision == 1.0 && recall == 1.0
  {
    if F1(precision, recall) == 1.0 {
      var s := precision + recall;
      assert s > 0.0;
      assert 2.0 * (precision * recall) == s;
      assert precision * (1.0 - recall) + recall * (1.0 - precision) == 0.0;
      assert precision * (1.0 - recall) >= 0.0 && recall * (1.0 - precision) >= 0.0;
    }
  }

  /** The tester's report (the timestamp is not modelled). */
  datatype EvaluationResult = EvaluationResult(
    algorithm: string,
    accuracy: real,
    precision: real,
    recall: real,
    f1Score: real,
    truePositives: nat,
    falsePositives: nat,
    trueNegatives: nat,
    falseNegatives: nat)

  /** The metric block: guarded ratios, reported as percentages, with the raw counts. */
  function Metrics(c: Confusion): (r: EvaluationResult)
    ensures r.algorithm == "rule_based"
    ensures r.truePositives == c.truePositives && r.falsePositives == c.falsePositives
    ensures r.trueNegatives == c.trueNegatives && r.falseNegatives == c.falseNegatives
    ensures 0.0 <= r.accuracy <= 100.0 && 0.0 <= r.precision <= 100.0
    ensures 0.0 <= r.recall <= 100.0 && 0.0 <= r.f1Score <= 100.0
    ensures Total(c) == 0 ==> r.accuracy == 0.0
    ensures c.truePositives + c.falsePositives == 0 ==> r.precision == 0.0
    ensures c.truePositives + c.falseNegatives == 0 ==> r.recall == 0.0
    ensures Total(c) > 0 ==> (r.accuracy == 100.0 <==> c.falsePositives == 0 && c.falseNegatives == 0)
    ensures r.precision == 100.0 <==> c.truePositives > 0 && c.falsePositives == 0
    ensures r.recall == 100.0 <==> c.truePositives > 0 && c.falseNegatives == 0
    ensures r.f1Score == 100.0 <==> c.truePositives > 0 && c.falsePositives == 0 && c.falseNegatives == 0
    ensures r.f1Score == 0.0 <==> c.truePositives == 0
  {
    var accuracy := Ratio(c.truePositives + c.trueNegatives, Total(c));
    var precision := Ratio(c.truePositives, c.truePositives + c.falsePositives);
    var recall := Ratio(c.truePositives, c.truePositives + c.falseNegatives);
    F1IsOneIffBothOne(precision, recall);
    var f1 := F1(precision, recall);
    EvaluationResult(
      "rule_based",
      accuracy * 100.0, precision * 100.0, recall * 100.0, f1 * 100.0,
      c.truePositives, c.falsePositives, c.trueNegatives, c.falseNegatives)
  }

  /**
   * When nothing is predicted negative, precision equals accuracy (both are
   * the share of actual frauds) and recall is 100 once one fraud is found.
   */
  lemma MetricsWithoutNegatives(c: Confusion)
    requires c.trueNegatives == 0 && c.falseNegatives == 0
    ensures Metrics(c).precision == Metrics(c).accuracy
    ensures Total(c) > 0 ==> Metrics(c).accuracy == 100.0 * (c.truePositives as real / Total(c) as real)
    ensures c.truePositives > 0 ==> Metrics(c).recall == 100.0
  {
    assert c.truePositives + c.trueNegatives == c.truePositives;
    assert Total(c) == c.truePositives + c.falsePositives;
  }

  /** The tester's evaluation loop and metric block, at the tester's threshold of 0. */
  method TestRuleBasedAlgorithm(testData: seq<TestTransaction>) returns (result: EvaluationResult)
    ensures result == Metrics(Tally(testData, TesterThreshold))
    ensures result.truePositives + result.falsePositives + result.trueNegatives + result.falseNegatives == |testData|
    ensures result.truePositives + result.falseNegatives == CountActualFraud(testData)
    ensures result.truePositives + result.falsePositives == CountFlagged(testData, TesterThreshold)
  {
    var truePositives, falsePositives, trueNegatives, falseNegatives := 0, 0, 0, 0;
    for i := 0 to |testData|
      invariant Confusion(truePositives, falsePositives, trueNegatives, falseNegatives)
                == Tally(testData[..i], TesterThreshold)
    {
      var transaction := testData[i];
      var locationRisk := if transaction.location in ["Dubai", "Tokyo", "London"] then 30 else 0;
      var amount := transaction.amount;
      var amountRisk := if amount > 3000.0 then 40 else (if amount > 1000.0 then 20 else 0);
      var fraudScore := transaction.riskScore * 100.0 + amountRisk as real + locationRisk as real;
      var isFlaggedFraud := fraudScore > TesterThreshold;
      var isActualFraud := transaction.isActualFraud;
      assert testData[..i + 1][..i] == testData[..i];
      if isFlaggedFraud && isActualFraud {
        truePositives := truePositives + 1;
      } else if isFlaggedFraud && !isActualFraud {
        falsePositives := falsePositives + 1;
      } else if !isFlaggedFraud && !isActualFraud {
        trueNegatives := trueNegatives + 1;
      } else if !isFlaggedFraud && isActualFraud {
        falseNegatives := falseNegatives + 1;
      }
    }
    assert testData[..|testData|] == testData;
    TallyTotal(testData, TesterThreshold);
    TallyActualFraud(testData, TesterThreshold);
    TallyFlagged(testData, TesterThreshold);
    result := Metrics(Confusion(truePositives, falsePositives, trueNegatives, falseNegatives));
  }
}
