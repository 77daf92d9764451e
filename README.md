# PhishNet rule-based fraud scoring, modelled in Dafny

PhishNet is a toy transaction-fraud pipeline. A queue handler
(`PhishNetFraudDetection/FraudDetectionLambda.py`) looks up each queued
transaction, scores it with two static rules plus the merchant's risk
indicator, and, above a threshold of 50, marks it "Sent to User" and sends an
alert. An accuracy tester (`PhishNetFraudTester/FraudTesterLambda.py`)
generates labelled synthetic transactions and re-scores them, using the same
rules and a threshold of 0. It fills a confusion matrix and reports accuracy,
precision, recall and F1 as percentages.

This project models that scoring and evaluation logic:

- `risk_rules.dfy` (module `RiskRules`): location risk (30 for Dubai, Tokyo
  or London, else 0) and the three-tier amount risk (40 above 3000, 20 above
  1000, else 0, always with strict `>`).
- `score_engine.dfy` (module `ScoreEngine`): the score
  `RiskScore*100 + amountRisk + locationRisk` and the strict-threshold
  decision. Both thresholds are named constants: 50 for the detector, 0 for
  the tester.
- `fraud_detection.dfy` (module `FraudDetection`): the detector's batch
  loop. `Handle` is its record-by-record specification and
  `LambdaHandler` is the loop with `continue` and an early `return`.
  Decoding, the transaction store and the notifier are abstract. A record
  arrives decoded or undecodable, the store is a map, and the status update
  and the alert are returned as a log of actions.
- `fraud_tester.dfy` (module `FraudTester`): the tester's inline copy of the
  rules, the four-counter loop `TestRuleBasedAlgorithm`, its specification
  `Tally`, and the guarded metrics.
- `test_data.dfy` (module `TestData`): the generator. It holds the merchant
  weight table and the stable sort by weight that ranks merchants. Each
  transaction is built from a caller-supplied `Draw` of random values.
- `tester_handler.dfy` (module `TesterHandler`): the tester's entry point
  and what the metrics come to on generated data.
- `wrappers.dfy`: an `Option` type for fields read with a default.

Randomness and `uuid` are inputs. The clock is not modelled: it feeds only
the `Timestamp` field, which the model drops. Each transaction's random
values arrive as a `Draw`, whose ranges `ValidDraw` states. The uuid hex
suffix is a caller-supplied 10-character string. Amounts, weights and metrics are Dafny
`real`s.

Two consequences of the code are worth stating up front:

- `check_location_risk` (PhishNetFraudDetection/FraudDetectionLambda.py:79-83)
  takes only the location. The `Travel Mode` field that
  `PhishNetNewUser/PhishNetAddUser.py:45` writes to a user record is never
  read by the detector, so no location is ever trusted.
- Every merchant weight is positive, so at threshold 0 the tester flags every
  generated transaction. A generated batch with no fraud case therefore scores
  0 on every metric (`TesterHandler.AllLegitimateBatchMetrics`). In exact
  arithmetic, the reported accuracy of a 100-transaction run equals the
  number of fraud cases drawn (`TesterHandler.LambdaHandler`). Python's
  floats can differ in the last digit: 7 frauds give 7.000000000000001.

## Model

| member | source | states |
|---|---|---|
| RiskRules.LocationRisk | PhishNetFraudDetection/FraudDetectionLambda.py:79-83 | 30 exactly for "Dubai", "Tokyo" or "London", 0 for every other string |
| RiskRules.AmountRisk | PhishNetFraudDetection/FraudDetectionLambda.py:85-91 | result is 0, 20 or 40; 40 iff amount > 3000; 20 iff 1000 < amount <= 3000; 0 iff amount <= 1000 |
| RiskRules.AmountRiskMonotone | PhishNetFraudDetection/FraudDetectionLambda.py:85-91 | a larger amount never gets a lower amount risk |
| RiskRules.AmountRiskBoundaries | PhishNetFraudDetection/FraudDetectionLambda.py:86-91 | 3000 gives 20 and 1000 gives 0 (the boundary belongs to the lower tier); 3000.01 gives 40 and 1000.01 gives 20 |
| RiskRules.UnknownLocationIsLowRisk | PhishNetFraudDetection/FraudDetectionLambda.py:52 | the default location "Unknown" and the empty string score 0 |
| ScoreEngine.FraudScore | PhishNetFraudDetection/FraudDetectionLambda.py:59 | definition: `RiskScore*100 + amountRisk + locationRisk`, the sum on line 59 |
| ScoreEngine.Flagged | PhishNetFraudDetection/FraudDetectionLambda.py:62-65 | definition: a score is flagged exactly when it is strictly above the threshold |
| ScoreEngine.TransactionScore | PhishNetFraudDetection/FraudDetectionLambda.py:56-59 | the two rules add between 0 and 70 points to `RiskScore*100` |
| ScoreEngine.FraudScoreMonotone | PhishNetFraudDetection/FraudDetectionLambda.py:59 | the score never decreases in the risk indicator, the amount risk or the location risk |
| ScoreEngine.TransactionScoreMonotone | PhishNetFraudDetection/FraudDetectionLambda.py:50-59 | a transaction's score never decreases in its amount or its risk indicator |
| ScoreEngine.DefaultRiskDetectorDecision | PhishNetFraudDetection/FraudDetectionLambda.py:51-65 | with RiskScore at its default 0, the detector flags iff amount > 3000 and the city is high-risk; 20+30 = 50 is not flagged |
| ScoreEngine.ScoreExamples | PhishNetFraudDetection/FraudDetectionLambda.py:59-65 | 3500 in Tokyo at 0.1 scores 80 and is flagged; 500 in New York at 0.1 scores 10 and is not; a score of exactly 50 is not flagged |
| FraudDetection.RiskScoreOf | PhishNetFraudDetection/FraudDetectionLambda.py:51 | definition: the stored RiskScore, or 0 when the item has none |
| FraudDetection.LocationOf | PhishNetFraudDetection/FraudDetectionLambda.py:52 | the stored Location, or "Unknown"; a city earning the 30 location points was stored, never defaulted |
| FraudDetection.UserOf | PhishNetFraudDetection/FraudDetectionLambda.py:53 | definition: the stored UserID, or "Unknown" |
| FraudDetection.ScoreOf | PhishNetFraudDetection/FraudDetectionLambda.py:50-59 | the detector score of a stored item; with no stored RiskScore it is flagged iff amount > 3000 and the city is Dubai, Tokyo or London |
| FraudDetection.MissingId | PhishNetFraudDetection/FraudDetectionLambda.py:34-38 | definition: the ID is absent or empty, the values `not transaction_id` rejects among strings |
| FraudDetection.RecordActions | PhishNetFraudDetection/FraudDetectionLambda.py:34-75 | definition: no action for a missing ID or an unstored transaction or a score of at most 50; otherwise the status update to "Sent to User" followed by the alert with the stored amount and user |
| FraudDetection.Handle | PhishNetFraudDetection/FraudDetectionLambda.py:22-77 | the response is always 200 "Processing complete" or 400 "Invalid JSON"; records are handled in order, an undecodable one ends the batch |
| FraudDetection.LambdaHandler | PhishNetFraudDetection/FraudDetectionLambda.py:22-77 | the loop's response and action log equal `Handle` of the records |
| FraudDetection.HandleResponse | PhishNetFraudDetection/FraudDetectionLambda.py:26-77 | the batch answers 400 "Invalid JSON" iff some record is undecodable, else 200 "Processing complete" |
| FraudDetection.HandleAppend | PhishNetFraudDetection/FraudDetectionLambda.py:22-47 | after a fully decodable prefix, processing continues: the prefix's actions come first, then the rest's |
| FraudDetection.DecodeErrorStopsBatch | PhishNetFraudDetection/FraudDetectionLambda.py:30-32 | an undecodable record returns 400; earlier records keep their effects and later records have none |
| FraudDetection.SkippedRecordHasNoEffect | PhishNetFraudDetection/FraudDetectionLambda.py:34-47 | a record with a missing or empty ID, or whose transaction is not stored, adds nothing and the next record is processed |
| FraudDetection.ActionsOnlyForFlagged | PhishNetFraudDetection/FraudDetectionLambda.py:64-75 | every status update and alert is for a stored transaction scoring above 50; the status is "Sent to User" and the alert carries the stored amount and user |
| FraudDetection.FlaggedRecordIsAlerted | PhishNetFraudDetection/FraudDetectionLambda.py:62-75 | a stored, flagged transaction named by a record with no undecodable record before it gets both its status update and its alert |
| FraudTester.TesterScore | PhishNetFraudTester/FraudTesterLambda.py:123-133 | definition: the tester's inline copy of the location rule, the amount tiers and the sum |
| FraudTester.TesterScoreMatchesDetector | PhishNetFraudTester/FraudTesterLambda.py:128-133 | the tester's inline rules give exactly the detector's score |
| FraudTester.DetectorFlagImpliesTesterFlag | PhishNetFraudTester/FraudTesterLambda.py:133-136 | a stored transaction the detector flags (score > 50) is flagged by the tester (score > 0) when re-scored with the same amount, city and risk indicator; both scores are equal |
| FraudTester.IsFlaggedFraud | PhishNetFraudTester/FraudTesterLambda.py:136 | definition: the tester score is strictly above the given threshold |
| FraudTester.PositiveRiskIsFlagged | PhishNetFraudTester/FraudTesterLambda.py:133-136 | a positive risk indicator alone makes the tester flag a transaction |
| FraudTester.Classify | PhishNetFraudTester/FraudTesterLambda.py:139-147 | one transaction adds exactly one to the counters; TP+FP grows iff it is flagged and TP+FN grows iff it is labelled fraud |
| FraudTester.Tally | PhishNetFraudTester/FraudTesterLambda.py:121-147 | definition: the counters after classifying the transactions in order, from all zeros |
| FraudTester.CountActualFraud | PhishNetFraudTester/FraudTesterLambda.py:28 | definition: the number of transactions labelled IsActualFraud, the `fraud_transactions` the handler reports |
| FraudTester.TallyIsConfusionMatrix | PhishNetFraudTester/FraudTesterLambda.py:139-147 | each counter counts exactly its own (flagged, actual) cell |
| FraudTester.TallyTotal | PhishNetFraudTester/FraudTesterLambda.py:139-150 | TP+FP+TN+FN equals the number of transactions processed |
| FraudTester.TallyActualFraud | PhishNetFraudTester/FraudTesterLambda.py:137-147 | TP+FN equals the number labelled IsActualFraud |
| FraudTester.TallyFlagged | PhishNetFraudTester/FraudTesterLambda.py:136-147 | TP+FP equals the number flagged |
| FraudTester.Ratio | PhishNetFraudTester/FraudTesterLambda.py:151-153 | 0 when the denominator is 0; in [0, 1] when num <= den; 1 iff num = den > 0 |
| FraudTester.F1 | PhishNetFraudTester/FraudTesterLambda.py:154 | 0 when precision + recall is not positive; otherwise between precision and recall (harmonic mean) |
| FraudTester.HarmonicMeanBetween | PhishNetFraudTester/FraudTesterLambda.py:154 | `2pr/(p+r)` lies between two non-negative p and r and is symmetric |
| FraudTester.F1IsOneIffBothOne | PhishNetFraudTester/FraudTesterLambda.py:154 | on ratios, F1 lies in [0, 1] and is 1 iff precision and recall are both 1 |
| FraudTester.Metrics | PhishNetFraudTester/FraudTesterLambda.py:149-165 | counts returned unscaled; every percentage in [0, 100]; each 0 on a zero denominator (an empty batch included); accuracy 100 iff no FP and no FN; precision 100 iff TP > 0 and FP = 0; recall 100 iff TP > 0 and FN = 0; F1 100 iff both; F1 0 iff TP = 0 |
| FraudTester.MetricsWithoutNegatives | PhishNetFraudTester/FraudTesterLambda.py:151-153 | with TN = FN = 0, precision equals accuracy (the share of TP) and recall is 100 once TP > 0 |
| FraudTester.TestRuleBasedAlgorithm | PhishNetFraudTester/FraudTesterLambda.py:114-167 | the loop's report is `Metrics(Tally(data, 0))`; counters sum to the batch size, TP+FN = actual frauds, TP+FP = flagged |
| TestData.Insert | PhishNetFraudTester/FraudTesterLambda.py:72 | places an item before the first one it may precede, so equal weights keep their order; one longer than its input |
| TestData.SortByWeight | PhishNetFraudTester/FraudTesterLambda.py:71-72 | the stable ranking by weight; as long as the table |
| TestData.SortByWeightSorted | PhishNetFraudTester/FraudTesterLambda.py:71-77 | the ranking is ordered by weight, descending for fraud and ascending otherwise |
| TestData.SortByWeightPermutes | PhishNetFraudTester/FraudTesterLambda.py:71-77 | the ranking is a permutation of the weight table |
| TestData.SortPreservesCount | PhishNetFraudTester/FraudTesterLambda.py:71-77 | ranking does not change how many merchants reach a given weight |
| TestData.RankingPrefixReaches | PhishNetFraudTester/FraudTesterLambda.py:71-78 | if k merchants reach a weight, the first k of the ranking all do |
| TestData.TopWeightCount | PhishNetFraudTester/FraudTesterLambda.py:45-59 | six merchants weigh at least 0.3 |
| TestData.BottomWeightCount | PhishNetFraudTester/FraudTesterLambda.py:45-59 | five merchants weigh at most 0.2 |
| TestData.TableWeightsPositive | PhishNetFraudTester/FraudTesterLambda.py:45-59 | every weight in the table is positive |
| TestData.TableNamesUnique | PhishNetFraudTester/FraudTesterLambda.py:45-59 | merchant names are distinct, as dictionary keys are |
| TestData.TopShortlistWeights | PhishNetFraudTester/FraudTesterLambda.py:69-73 | each of the five heaviest merchants weighs at least 0.3 |
| TestData.BottomShortlistWeights | PhishNetFraudTester/FraudTesterLambda.py:74-78 | each of the five lightest merchants weighs at most 0.2 |
| TestData.WeightOf | PhishNetFraudTester/FraudTesterLambda.py:102 | definition: the weight of the first entry with the given name, defined only when such an entry exists (the dictionary lookup) |
| TestData.WeightOfEntry | PhishNetFraudTester/FraudTesterLambda.py:102 | with distinct names, looking a table entry's name up returns its own weight |
| TestData.RankedMerchantIsEntry | PhishNetFraudTester/FraudTesterLambda.py:71-78 | every merchant in a ranking is an entry of the table |
| TestData.RoundCents | PhishNetFraudTester/FraudTesterLambda.py:82-84 | the rounded amount is within half a cent of the drawn one |
| TestData.UniformAmount | PhishNetFraudTester/FraudTesterLambda.py:82-84 | definition: `low + (high - low) * roll`, rounded to cents |
| TestData.RoundCentsWithin | PhishNetFraudTester/FraudTesterLambda.py:82-84 | rounding to cents keeps an amount within whole-unit bounds |
| TestData.IsFraudDraw | PhishNetFraudTester/FraudTesterLambda.py:66 | definition: the fraud roll is below 0.2 |
| TestData.PicksHighRiskCity | PhishNetFraudTester/FraudTesterLambda.py:87 | definition: a fraud draw whose location roll is below 0.7 |
| TestData.ChosenMerchant | PhishNetFraudTester/FraudTesterLambda.py:68-78 | definition: the pick-th merchant of the ranking, descending for a fraud draw and ascending otherwise; the pick is below 5 |
| TestData.ChosenAmount | PhishNetFraudTester/FraudTesterLambda.py:80-84 | definition: a uniform amount in [800, 5000] for a fraud draw and in [10, 700] otherwise |
| TestData.ChosenLocation | PhishNetFraudTester/FraudTesterLambda.py:86-90 | the city earns the 30 location points iff the draw is fraud and wins the 70% roll; a legitimate draw gets New York, Los Angeles, Chicago or Miami |
| TestData.ChosenMerchantIsEntry | PhishNetFraudTester/FraudTesterLambda.py:68-102 | the drawn merchant is a table entry with positive weight, and the lookup by name returns that weight |
| TestData.ChosenMerchantWeight | PhishNetFraudTester/FraudTesterLambda.py:68-78 | fraud draws pick a merchant weighing at least 0.3, legitimate draws one weighing at most 0.2 |
| TestData.ChosenAmountRange | PhishNetFraudTester/FraudTesterLambda.py:80-84 | fraud amounts lie in [800, 5000], legitimate ones in [10, 700] |
| TestData.DecimalString | PhishNetFraudTester/FraudTesterLambda.py:95 | `str(i)`: decimal digits that spell `n` (their value is `n`), never empty, no leading zero, one digit exactly for numbers below 10 |
| TestData.DecimalStringInjective | PhishNetFraudTester/FraudTesterLambda.py:95 | different numbers get different decimal strings |
| TestData.DistinctUserIds | PhishNetFraudTester/FraudTesterLambda.py:95 | transactions built at different positions carry different `test_user_` IDs |
| TestData.BuildTransaction | PhishNetFraudTester/FraudTesterLambda.py:93-105 | definition: the record built from one draw: ID prefix, user index, amount, merchant, category, payment method, city, the looked-up weight, "Pending" and the label |
| TestData.BuildTransactionFields | PhishNetFraudTester/FraudTesterLambda.py:92-105 | label, merchant, weight, amount, location, "Pending" status and `test_user_` ID of a built transaction in terms of its draw and position |
| TestData.GeneratedLabelAndWeight | PhishNetFraudTester/FraudTesterLambda.py:92-105 | IsActualFraud is the drawn `is_fraud`; (Merchant, RiskScore) is a table entry; RiskScore > 0; the tester flags it |
| TestData.GeneratedFraudCase | PhishNetFraudTester/FraudTesterLambda.py:69-84 | a fraud case has weight >= 0.3 and amount in [800, 5000] |
| TestData.GeneratedLegitimateCase | PhishNetFraudTester/FraudTesterLambda.py:74-90 | a legitimate case has weight <= 0.2, amount in [10, 700] and a city among New York, Los Angeles, Chicago and Miami |
| TestData.GenerateTestData | PhishNetFraudTester/FraudTesterLambda.py:40-112 | exactly `num_transactions` items, the k-th built from the k-th draw, each labelled with its draw and with positive risk |
| TesterHandler.PositiveRiskBatchTally | PhishNetFraudTester/FraudTesterLambda.py:136-147 | on positive-risk data TP = actual frauds, FP = the rest, TN = FN = 0 |
| TesterHandler.PositiveRiskBatchMetrics | PhishNetFraudTester/FraudTesterLambda.py:136-154 | on positive-risk data TN = FN = 0; recall is 100 once one fraud exists; accuracy = precision = 100 x frauds / total |
| TesterHandler.AllLegitimateBatchMetrics | PhishNetFraudTester/FraudTesterLambda.py:136-154 | a positive-risk batch without fraud, the empty one included, has FP = batch size and 0 on every metric |
| TesterHandler.OnlyFalsePositivesMetrics | PhishNetFraudTester/FraudTesterLambda.py:150-154 | counters with only false positives, none included, give accuracy, precision, recall and F1 all 0 |
| TesterHandler.LabelledFraudCount | PhishNetFraudTester/FraudTesterLambda.py:28 | the number of IsActualFraud transactions equals the number of fraud draws |
| TesterHandler.FullRunAccuracy | PhishNetFraudTester/FraudTesterLambda.py:150-158 | on 100 positive-risk transactions the accuracy percentage equals the number of fraud cases |
| TesterHandler.LambdaHandler | PhishNetFraudTester/FraudTesterLambda.py:13-30 | status 200, total 100, the fraud count is the number of fraud draws, and the reported accuracy equals that count |

## Left out

- DynamoDB reads and writes, the SQS queue and the SNS publish are external I/O. The store is a map. `update_transaction_status` and `send_fraud_alert` become entries in a returned action log. Both catch their own errors, so a failed call never stops the batch, and the log reflects that.
- `store_test_transaction` and `store_test_results` are writes to external tables and are not modelled.
- JSON parsing is abstract. A record body is either decoded or undecodable; double-encoded bodies count as decoded.
- Uncaught exceptions in the detector loop are not modelled. Each would end the invocation mid-batch. Records before it keep their effects; later records are never processed. The model's lookups and conversions never fail, so `FraudDetection.HandleAppend`, `FraudDetection.SkippedRecordHasNoEffect` and `FraudDetection.FlaggedRecordIsAlerted` promise that later records are processed only because these paths are absent. The paths are:
  - a decoded body that is not an object, which fails at `message.get` (PhishNetFraudDetection/FraudDetectionLambda.py:33);
  - a failing `get_item` call (:43), which sits outside any `try`; the model's store is a total map, so a lookup always answers "found" or "not found";
  - a stored item with no `Amount`, which fails with a `KeyError` at the subscript `transaction['Amount']` (:50); one whose `Amount` is not numeric fails in `float(...)`; the stored amount is always a real;
  - a stored `RiskScore` that is NULL (a `TypeError`) or a non-numeric string (a `ValueError`), which fails in `float(transaction.get('RiskScore', 0))` (:51); `riskScore` is an `Option<real>`, which cannot hold those values.
- Transaction IDs are strings. A non-string ID such as the number 0, which Python treats as falsy, is not modelled.
- Logging (`print`), timestamps and the Lambda `context` argument are left out.
- Python floats are modelled as exact reals, both for the `float(...)` conversions and for the metric divisions.
- TestData.RoundCentsWithin: `round(x, 2)` rounds half-to-even on the binary value. The model rounds half a cent up. Only the bounds are proved, and they hold under either rule.
- TestData.SortByWeightSorted: Python's `list.sort` is an in-place library sort. The model ranks merchants with a pure stable insertion sort on a sequence. Only order and permutation are proved; stability holds by construction but is not stated.
- The uuid-based transaction ID suffix is a caller-supplied string. `random.uniform` is modelled as `low + (high - low) * roll` with `roll` in [0, 1].
- The model draws a location roll for every transaction; Python draws it only for fraud cases. The unused `locations` list at PhishNetFraudTester/FraudTesterLambda.py:61 is not modelled.
- The stray `a` at PhishNetFraudTester/FraudTesterLambda.py:188 would fail at import and has no behaviour.
- `twilio/send_sms.py`, `PhishNetNewUser/PhishNetAddUser.py`, `PhishNetProcessTransaction/ProcessTransactionLambda.py` and `generate_data.py` are notification, user-record and data-generation glue and are not part of this model.
- Travel mode, trusted locations and a machine-learning classifier are not modelled, because no code in these files implements them.
