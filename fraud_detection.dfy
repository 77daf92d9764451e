/**
 * The detector's batch handler. Each queue record is decoded, its
 * transaction looked up in the store, scored, and, when flagged, marked
 * "Sent to User" and reported by an alert. JSON decoding, the store and the
 * notifier are abstract: a record arrives already decoded (or undecodable),
 * the store is a map from transaction ID to item, and the two outbound calls
 * are returned as a log of actions.
 */
module FraudDetection {
  import opened Wrappers
  import opened RiskRules
  import opened ScoreEngine

  /** A queue record body after JSON decoding (twice, for a double-encoded body). */
  datatype Message = Undecodable | Decoded(transactionId: Option<string>)

  /** The stored item's fields the handler reads; missing optional fields are None. */
  datatype StoredTransaction = StoredTransaction(
    amount: real,
    riskScore: Option<real>,
    location: Option<string>,
    userId: Option<string>)

  /** The outbound calls of the handler, in the order it makes them. */
  datatype Action =
    | UpdateStatus(transactionId: string, status: string)
    | SendAlert(transactionId: string, amount: real, userId: string)

  datatype Response = Response(statusCode: int, body: string)

  const Complete: Response := Response(200, "Processing complete")
  const InvalidJson: Response := Response(400, "Invalid JSON")

  /** Status written to a flagged transaction. */
  const FlaggedStatus: string := "Sent to User"

  /** The handler's response with the actions it performed before returning it. */
  datatype Outcome = Outcome(response: Response, actions: seq<Action>)

  function RiskScoreOf(t: StoredTransaction): real {
    t.riskScore.GetOr(0.0)
  }

  /** The stored city, or "Unknown"; a missing city never earns location points. */
  function LocationOf(t: StoredTransaction): (r: string)
    ensures LocationRisk(r) == 30 ==> t.location == Some(r)
  {
    t.location.GetOr(UnknownLocation)
  }

  function UserOf(t: StoredTransaction): string {
    t.userId.GetOr("Unknown")
  }

  /** The detector's score of a stored transaction, with the documented defaults. */
  function ScoreOf(t: StoredTransaction): (r: real)
    ensures t.riskScore.None? ==>
              (Flagged(r, DetectorThreshold) <==> t.amount > 3000.0 && LocationOf(t) in HighRiskLocations)
  {
    DefaultRiskDetectorDecision(t.amount, LocationOf(t));
    TransactionScore(t.amount, RiskScoreOf(t), LocationOf(t))
  }

  /** An absent or empty ID: the record is skipped. */
  predicate MissingId(id: Option<string>) {
    id.None? || id.value == ""
  }

  /** The actions for one decoded record. */
  function RecordActions(id: Option<string>, store: map<string, StoredTransaction>): seq<Action> {
    if MissingId(id) || id.value !in store then []
    else
      var t := store[id.value];
      if Flagged(ScoreOf(t), DetectorThreshold) then
        [UpdateStatus(id.value, FlaggedStatus), SendAlert(id.value, t.amount, UserOf(t))]
      else []
  }

  /** What the handler does with a batch of records, record by record. */
  function Handle(records: seq<Message>, store: map<string, StoredTransaction>): (r: Outcome)
    ensures r.response == Complete || r.response == InvalidJson
  {
    if records == [] then Outcome(Complete, [])
    else match records[0]
      case Undecodable => Outcome(InvalidJson, [])
      case Decoded(id) =>
        var rest := Handle(records[1..], store);
        Outcome(rest.response, RecordActions(id, store) + rest.actions)
  }

  predicate AllDecoded(records: seq<Message>) {
    forall k :: 0 <= k < |records| ==> records[k].Decoded?
  }

  /** Handling a batch from a decoded record on: that record's actions, then the rest. */
  lemma HandleFrom(records: seq<Message>, i: nat, store: map<string, StoredTransaction>)
    requires i < |records| && records[i].Decoded?
    ensures Handle(records[i..], store)
            == Outcome(Handle(records[i + 1..], store).response,
                       RecordActions(records[i].transactionId, store) + Handle(records[i + 1..], store).actions)
  {
    assert records[i..][1..] == records[i + 1..];
  }

  /** A decoded record that is skipped or scores at most 50 adds no action after `before`. */
  lemma QuietRecordStep(records: seq<Message>, i: nat, store: map<string, StoredTransaction>, before: seq<Action>)
    requires i < |records| && records[i].Decoded?
    requires var id := records[i].transactionId;
             MissingId(id) || id.value !in store || ScoreOf(store[id.value]) <= DetectorThreshold
    ensures Handle(records[i..], store).response == Handle(records[i + 1..], store).response
    ensures before + Handle(records[i..], store).actions == before + Handle(records[i + 1..], store).actions
  {
    HandleFrom(records, i, store);
  }

  /**
   * A decoded record naming a stored transaction that scores above 50 adds
   * its status update and then its alert after `before`.
   */
  lemma FlaggedRecordStep(records: seq<Message>, i: nat, store: map<string, StoredTransaction>, before: seq<Action>)
    requires i < |records| && records[i].Decoded?
    requires var id := records[i].transactionId;
             !MissingId(id) && id.value in store && ScoreOf(store[id.value]) > DetectorThreshold
    ensures var id := records[i].transactionId.value;
            var t := store[id];
            && Handle(records[i..], store).response == Handle(records[i + 1..], store).response
            && before + Handle(records[i..], store).actions
               == before + [UpdateStatus(id, FlaggedStatus)] + [SendAlert(id, t.amount, UserOf(t))]
                  + Handle(records[i + 1..], store).actions
  {
    HandleFrom(records, i, store);
    var id := records[i].transactionId.value;
    var t := store[id];
    var rest := Handle(records[i + 1..], store).actions;
    assert RecordActions(records[i].transactionId, store) == [UpdateStatus(id, FlaggedStatus), SendAlert(id, t.amount, UserOf(t))];
    assert before + [UpdateStatus(id, FlaggedStatus)] + [SendAlert(id, t.amount, UserOf(t))] + rest
           == before + ([UpdateStatus(id, FlaggedStatus), SendAlert(id, t.amount, UserOf(t))] + rest);
  }

  /** The handler loop: skip bad IDs and unknown transactions, stop at the first undecodable record. */
  method LambdaHandler(records: seq<Message>, store: map<string, StoredTransaction>)
    returns (response: Response, actions: seq<Action>)
    ensures Outcome(response, actions) == Handle(records, store)
  {
    actions := [];
    for i := 0 to |records|
      invariant Handle(records, store)
                == Outcome(Handle(records[i..], store).response, actions + Handle(records[i..], store).actions)
    {
      var message := records[i];
      if message.Undecodable? {
        response := InvalidJson;
        return;
      }
      var transactionId := message.transactionId;
      if MissingId(transactionId) {
        QuietRecordStep(records, i, store, actions);
        continue;
      }
      if transactionId.value !in store {
        QuietRecordStep(records, i, store, actions);
        continue;
      }
      var transaction := store[transactionId.value];
      var amount := transaction.amount;
      var fraudScore := TransactionScore(amount, RiskScoreOf(transaction), LocationOf(transaction));
      if fraudScore > DetectorThreshold {
        FlaggedRecordStep(records, i, store, actions);
        actions := actions + [UpdateStatus(transactionId.value, FlaggedStatus)];
        actions := actions + [SendAlert(transactionId.value, amount, UserOf(transaction))];
      } else {
        QuietRecordStep(records, i, store, actions);
      }
    }
    response := Complete;
  }

  /** The batch answers 400 exactly when one of its records cannot be decoded, and 200 otherwise. */
  lemma {:induction false} HandleResponse(records: seq<Message>, store: map<string, StoredTransaction>)
    ensures Handle(records, store).response == (if AllDecoded(records) then Complete else InvalidJson)
  {
    if records != [] {
      HandleResponse(records[1..], store);
      assert AllDecoded(records) <==> records[0].Decoded? && AllDecoded(records[1..]) by {
        if records[0].Decoded? && AllDecoded(records[1..]) {
          forall k | 0 <= k < |records| ensures records[k].Decoded? {
            if k > 0 { assert records[k] == records[1..][k - 1]; }
          }
        }
      }
    }
  }

  /** A decodable prefix is processed in full and the rest of the batch continues after it. */
  lemma {:induction false} HandleAppend(a: seq<Message>, b: seq<Message>, store: map<string, StoredTransaction>)
    requires AllDecoded(a)
    ensures Handle(a + b, store)
            == Outcome(Handle(b, store).response, Handle(a, store).actions + Handle(b, store).actions)
  {
    if a == [] {
      assert a + b == b;
    } else {
      assert (a + b)[1..] == a[1..] + b;
      assert a[0].Decoded?;
      HandleAppend(a[1..], b, store);
    }
  }

  /** An undecodable record returns 400 and no record after it has any effect. */
  lemma DecodeErrorStopsBatch(a: seq<Message>, b: seq<Message>, store: map<string, StoredTransaction>)
    requires AllDecoded(a)
    ensures Handle(a + [Undecodable] + b, store) == Outcome(InvalidJson, Handle(a, store).actions)
  {
    assert a + [Undecodable] + b == a + ([Undecodable] + b);
    HandleAppend(a, [Undecodable] + b, store);
  }

  /** A record without an ID, or whose transaction is not stored, has no effect: processing goes on with the next. */
  lemma SkippedRecordHasNoEffect(id: Option<string>, rest: seq<Message>, store: map<string, StoredTransaction>)
    requires MissingId(id) || id.value !in store
    ensures Handle([Decoded(id)] + rest, store) == Handle(rest, store)
  {
    assert ([Decoded(id)] + rest)[1..] == rest;
  }

  /**
   * Every status update and every alert is for a stored transaction that the
   * detector flags, and every status written is "Sent to User".
   */
  lemma {:induction false} ActionsOnlyForFlagged(records: seq<Message>, store: map<string, StoredTransaction>)
    ensures forall a | a in Handle(records, store).actions ::
              a.transactionId in store && Flagged(ScoreOf(store[a.transactionId]), DetectorThreshold)
              && (a.UpdateStatus? ==> a.status == FlaggedStatus)
              && (a.SendAlert? ==> a.amount == store[a.transactionId].amount
                                   && a.userId == UserOf(store[a.transactionId]))
  {
    if records != [] {
      ActionsOnlyForFlagged(records[1..], store);
    }
  }

  /**
   * A flagged, stored transaction named by a record that no undecodable
   * record precedes gets its status update and its alert.
   */
  lemma {:induction false} FlaggedRecordIsAlerted(records: seq<Message>, store: map<string, StoredTransaction>, i: nat)
    requires i < |records| && AllDecoded(records[..i + 1])
    requires records[i].Decoded? && !MissingId(records[i].transactionId)
    requires records[i].transactionId.value in store
    requires Flagged(ScoreOf(store[records[i].transactionId.value]), DetectorThreshold)
    ensures var id := records[i].transactionId.value;
            var t := store[id];
            UpdateStatus(id, FlaggedStatus) in Handle(records, store).actions
            && SendAlert(id, t.amount, UserOf(t)) in Handle(records, store).actions
  {
    assert records[0] == records[..i + 1][0];
    if i > 0 {
      assert records[1..][..i] == records[..i + 1][1..];
      assert AllDecoded(records[1..][..i]) by {
        forall k | 0 <= k < i ensures records[1..][..i][k].Decoded? {
          assert records[1..][..i][k] == records[..i + 1][k + 1];
        }
      }
      FlaggedRecordIsAlerted(records[1..], store, i - 1);
    }
  }
}
