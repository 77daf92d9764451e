/**
 * The tester's entry point: generate 100 labelled transactions, evaluate
 * them at the tester's threshold of 0, and report the accuracy, the batch
 * size and the number of fraud cases. Storing the transactions and the
 * results is I/O and is not modelled.
 *
 * Because every merchant weight is positive, the tester flags every
 * generated transaction; the lemmas here work out what the reported
 * metrics then are.
 */
module TesterHandler {
  import opened ScoreEngine
  import opened FraudTester
  import opened TestData

  predicate AllPositiveRisk(data: seq<TestTransaction>) {
    forall k :: 0 <= k < |data| ==> data[k].riskScore > 0.0
  }

  /** Every prefix of a positive-risk batch is a positive-risk batch. */
  lemma PrefixPositiveRisk(data: seq<TestTransaction>, n: nat)
    requires AllPositiveRisk(data) && n <= |data|
    ensures AllPositiveRisk(data[..n])
  {
  }

  /** A batch of positive-risk transactions is all positives: TP counts the frauds, FP the rest. */
  lemma {:induction false} PositiveRiskBatchTally(data: seq<TestTransaction>)
    requires AllPositiveRisk(data)
    ensures CountActualFraud(data) <= |data|
    ensures Tally(data, TesterThreshold)
            == Confusion(CountActualFraud(data), |data| - CountActualFraud(data), 0, 0)
  {
    if data != [] {
      var n := |data| - 1;
      var t := data[n];
      PrefixPositiveRisk(data, n);
      PositiveRiskBatchTally(data[..n]);
      PositiveRiskIsFlagged(t);
      var f := CountActualFraud(data[..n]);
      assert Tally(data[..n], TesterThreshold) == Confusion(f, n - f, 0, 0);
      assert Tally(data, TesterThreshold)
             == Classify(Tally(data[..n], TesterThreshold), IsFlaggedFraud(t, TesterThreshold), t.isActualFraud);
      assert CountActualFraud(data) == f + (if t.isActualFraud then 1 else 0);
      if t.isActualFraud {
        assert Tally(data, TesterThreshold) == Confusion(f + 1, n - f, 0, 0);
        assert CountActualFraud(data) == f + 1;
      } else {
        assert Tally(data, TesterThreshold) == Confusion(f, n - f + 1, 0, 0);
        assert CountActualFraud(data) == f;
      }
    }
  }

  /**
   * On a positive-risk batch there are no negatives: recall is 100 as soon
   * as one fraud case exists, and accuracy and precision both equal the
   * percentage of fraud cases.
   */
  lemma PositiveRiskBatchMetrics(data: seq<TestTransaction>)
    requires AllPositiveRisk(data)
    ensures Metrics(Tally(data, TesterThreshold)).trueNegatives == 0
    ensures Metrics(Tally(data, TesterThreshold)).falseNegatives == 0
    ensures Metrics(Tally(data, TesterThreshold)).truePositives == CountActualFraud(data)
    ensures CountActualFraud(data) > 0 ==> Metrics(Tally(data, TesterThreshold)).recall == 100.0
    ensures |data| > 0 ==>
              Metrics(Tally(data, TesterThreshold)).accuracy
              == 100.0 * (CountActualFraud(data) as real / |data| as real)
    ensures Metrics(Tally(data, TesterThreshold)).precision == Metrics(Tally(data, TesterThreshold)).accuracy
  {
    PositiveRiskBatchTally(data);
    var c := Tally(data, TesterThreshold);
    assert Total(c) == |data| && c.truePositives == CountActualFraud(data);
    MetricsWithoutNegatives(c);
  }

  /**
   * A positive-risk batch with no fraud case at all scores 0 on every metric:
   * every transaction is a false positive.
   */
  lemma AllLegitimateBatchMetrics(data: seq<TestTransaction>)
    requires AllPositiveRisk(data) && CountActualFraud(data) == 0
    ensures var r := Metrics(Tally(data, TesterThreshold));
            && r.falsePositives == |data| && r.truePositives == 0
            && r.accuracy == 0.0 && r.precision == 0.0 && r.recall == 0.0 && r.f1Score == 0.0
  {
    PositiveRiskBatchTally(data);
    assert Tally(data, TesterThreshold) == Confusion(0, |data|, 0, 0);
    OnlyFalsePositivesMetrics(|data|);
  }

  /** A confusion matrix made only of false positives scores 0 on every metric. */
  lemma OnlyFalsePositivesMetrics(n: nat)
    ensures var r := Metrics(Confusion(0, n, 0, 0));
            && r.falsePositives == n && r.truePositives == 0
            && r.accuracy == 0.0 && r.precision == 0.0 && r.recall == 0.0 && r.f1Score == 0.0
  {
    assert Total(Confusion(0, n, 0, 0)) == n;
  }

  /** Number of draws that make a fraud case. */
  function CountFraudDraws(draws: seq<Draw>): nat {
    if draws == [] then 0
    else CountFraudDraws(draws[..|draws| - 1]) + (if IsFraudDraw(draws[|draws| - 1]) then 1 else 0)
  }

  /** A batch labelled draw by draw has as many fraud cases as there are fraud draws. */
  lemma {:induction false} LabelledFraudCount(data: seq<TestTransaction>, draws: seq<Draw>)
    requires |data| == |draws|
    requires forall k :: 0 <= k < |data| ==> data[k].isActualFraud == IsFraudDraw(draws[k])
    ensures CountActualFraud(data) == CountFraudDraws(draws)
  {
    if data != [] {
      var n := |data| - 1;
      assert forall k :: 0 <= k < n ==> data[..n][k].isActualFraud == IsFraudDraw(draws[..n][k]);
      LabelledFraudCount(data[..n], draws[..n]);
    }
  }

  /** Number of transactions one tester run generates. */
  const TestBatchSize: nat := 100

  /** On a run of 100 positive-risk transactions the accuracy percentage is the fraud count. */
  lemma FullRunAccuracy(data: seq<TestTransaction>)
    requires |data| == TestBatchSize && AllPositiveRisk(data)
    ensures Metrics(Tally(data, TesterThreshold)).accuracy == CountActualFraud(data) as real
  {
    PositiveRiskBatchTally(data);
    var c := Tally(data, TesterThreshold);
    MetricsWithoutNegatives(c);
    var f := c.truePositives as real;
    assert Total(c) == 100;
    assert Metrics(c).accuracy == 100.0 * (f / 100.0);
  }

  /**
   * One tester run. With 100 transactions the reported accuracy (a
   * percentage) equals the number of fraud cases drawn.
   */
  method LambdaHandler(draws: seq<Draw>)
    returns (statusCode: int, ruleBasedAccuracy: real, totalTransactions: nat, fraudTransactions: nat)
    requires |draws| == TestBatchSize && ValidDraws(draws)
    ensures statusCode == 200
    ensures totalTransactions == TestBatchSize
    ensures fraudTransactions == CountFraudDraws(draws)
    ensures ruleBasedAccuracy == fraudTransactions as real
  {
    var testData := GenerateTestData(TestBatchSize, draws);
    var ruleBasedResults := TestRuleBasedAlgorithm(testData);
    statusCode := 200;
    ruleBasedAccuracy := ruleBasedResults.accuracy;
    totalTransactions := |testData|;
    fraudTransactions := CountActualFraud(testData);
    LabelledFraudCount(testData, draws);
    assert AllPositiveRisk(testData);
    FullRunAccuracy(testData);
  }
}
