/**
 * The labelled test-data generator. Randomness is supplied by the caller:
 * one Draw per transaction holds the values the generator would have drawn.
 * Fraud cases take a merchant among the five heaviest by fraud weight, an
 * amount in [800, 5000] and, 70% of the time, a high-risk city; legitimate
 * cases take one of the five lightest merchants, an amount in [10, 700] and
 * a low-risk city.
 */
module TestData {
  import opened RiskRules
  import opened ScoreEngine
  import opened FraudTester

  datatype WeightedMerchant = WeightedMerchant(name: string, weight: real)

  /** The merchant fraud weight table, in its declaration order. */
  const MerchantFraudWeights: seq<WeightedMerchant> := [
    WeightedMerchant("Amazon", 0.2),
    WeightedMerchant("Walmart", 0.15),
    WeightedMerchant("Target", 0.2),
    WeightedMerchant("Starbucks", 0.1),
    WeightedMerchant("McDonald's", 0.1),
    WeightedMerchant("Best Buy", 0.3),
    WeightedMerchant("Apple Store", 0.25),
    WeightedMerchant("Gas Station", 0.25),
    WeightedMerchant("Grocery Store", 0.3),
    WeightedMerchant("Restaurant", 0.3),
    WeightedMerchant("Hotel", 0.5),
    WeightedMerchant("Airline", 0.7),
    WeightedMerchant("Online Service", 0.55)
  ]

  const HighRiskPool: seq<string> := ["London", "Tokyo", "Dubai"]
  const LowRiskPool: seq<string> := ["New York", "Los Angeles", "Chicago", "Miami"]
  const Categories: seq<string> := ["Shopping", "Food", "Travel", "Entertainment", "Utilities", "Other"]
  const PaymentMethods: seq<string> := ["Credit Card", "Debit Card", "Mobile Payment", "Online"]

  const FraudRate: real := 0.2
  const HighRiskLocationRate: real := 0.7
  /** How many merchants at the top or bottom of the ranking are eligible. */
  const Shortlist: nat := 5

  const FraudAmountLow: real := 800.0
  const FraudAmountHigh: real := 5000.0
  const LegitAmountLow: real := 10.0
  const LegitAmountHigh: real := 700.0

  // ---------------------------------------------------------------------
  // Ranking merchants by weight
  // ---------------------------------------------------------------------

  /** `a` may precede `b` in a ranking that is descending (or ascending) by weight. */
  predicate InOrder(a: WeightedMerchant, b: WeightedMerchant, descending: bool) {
    if descending then a.weight >= b.weight else a.weight <= b.weight
  }

  predicate SortedBy(s: seq<WeightedMerchant>, descending: bool) {
    forall i, j :: 0 <= i < j < |s| ==> InOrder(s[i], s[j], descending)
  }

  /** Places `x` before the first element it may precede, so equal weights keep their order. */
  function Insert(x: WeightedMerchant, s: seq<WeightedMerchant>, descending: bool): (r: seq<WeightedMerchant>)
    ensures |r| == |s| + 1
  {
    if s == [] || InOrder(x, s[0], descending) then [x] + s
    else [s[0]] + Insert(x, s[1..], descending)
  }

  /** A stable sort by weight, as Python's `list.sort(key=weight, reverse=descending)`. */
  function SortByWeight(s: seq<WeightedMerchant>, descending: bool): (r: seq<WeightedMerchant>)
    ensures |r| == |s|
  {
    if s == [] then [] else Insert(s[0], SortByWeight(s[1..], descending), descending)
  }

  lemma {:induction false} InsertPermutes(x: WeightedMerchant, s: seq<WeightedMerchant>, descending: bool)
    ensures multiset(Insert(x, s, descending)) == multiset(s) + multiset{x}
  {
    if s != [] && !InOrder(x, s[0], descending) {
      InsertPermutes(x, s[1..], descending);
      assert s == [s[0]] + s[1..];
    }
  }

  /** The ranking is a permutation of the table. */
  lemma {:induction false} SortByWeightPermutes(s: seq<WeightedMerchant>, descending: bool)
    ensures multiset(SortByWeight(s, descending)) == multiset(s)
  {
    if s != [] {
      SortByWeightPermutes(s[1..], descending);
      InsertPermutes(s[0], SortByWeight(s[1..], descending), descending);
      assert s == [s[0]] + s[1..];
    }
  }

  /** Prepending an element that may precede every element of a ranking keeps it a ranking. */
  lemma ConsSorted(a: WeightedMerchant, s: seq<WeightedMerchant>, descending: bool)
    requires SortedBy(s, descending)
    requires forall k :: 0 <= k < |s| ==> InOrder(a, s[k], descending)
    ensures SortedBy([a] + s, descending)
  {
    var r := [a] + s;
    forall i, j | 0 <= i < j < |r| ensures InOrder(r[i], r[j], descending) {
      if i == 0 { assert r[j] == s[j - 1]; } else { assert r[i] == s[i - 1] && r[j] == s[j - 1]; }
    }
  }

  /** An element that may precede all of a ranking may precede it after another insertion too. */
  lemma {:induction false} InsertKeepsHead(a: WeightedMerchant, x: WeightedMerchant, s: seq<WeightedMerchant>, descending: bool)
    requires forall k :: 0 <= k < |s| ==> InOrder(a, s[k], descending)
    requires InOrder(a, x, descending)
    ensures forall k :: 0 <= k < |Insert(x, s, descending)| ==> InOrder(a, Insert(x, s, descending)[k], descending)
  {
    var tail := Insert(x, s, descending);
    InsertPermutes(x, s, descending);
    forall k | 0 <= k < |tail| ensures InOrder(a, tail[k], descending) {
      assert tail[k] in multiset(tail);
      if tail[k] != x {
        assert tail[k] in multiset(s);
        var j :| 0 <= j < |s| && s[j] == tail[k];
      }
    }
  }

  lemma {:induction false} InsertSorted(x: WeightedMerchant, s: seq<WeightedMerchant>, descending: bool)
    requires SortedBy(s, descending)
    ensures SortedBy(Insert(x, s, descending), descending)
  {
    if s != [] && !InOrder(x, s[0], descending) {
      assert SortedBy(s[1..], descending) by {
        forall a, b | 0 <= a < b < |s[1..]| ensures InOrder(s[1..][a], s[1..][b], descending) {
          assert s[1..][a] == s[a + 1] && s[1..][b] == s[b + 1];
        }
      }
      InsertSorted(x, s[1..], descending);
      assert forall k :: 0 <= k < |s[1..]| ==> InOrder(s[0], s[1..][k], descending) by {
        forall k | 0 <= k < |s[1..]| ensures InOrder(s[0], s[1..][k], descending) {
          assert s[1..][k] == s[k + 1];
        }
      }
      InsertKeepsHead(s[0], x, s[1..], descending);
      ConsSorted(s[0], Insert(x, s[1..], descending), descending);
    }
  }

  /** The sort yields a ranking ordered by weight. */
  lemma {:induction false} SortByWeightSorted(s: seq<WeightedMerchant>, descending: bool)
    ensures SortedBy(SortByWeight(s, descending), descending)
  {
    if s != [] {
      SortByWeightSorted(s[1..], descending);
      InsertSorted(s[0], SortByWeight(s[1..], descending), descending);
    }
  }

  /** `x` counts towards the top (weight at least `w`) or the bottom (weight at most `w`). */
  predicate Reaches(x: WeightedMerchant, w: real, descending: bool) {
    if descending then x.weight >= w else x.weight <= w
  }

  /** Number of merchants whose weight reaches `w`. */
  function CountReaching(s: seq<WeightedMerchant>, w: real, descending: bool): nat {
    if s == [] then 0 else (if Reaches(s[0], w, descending) then 1 else 0) + CountReaching(s[1..], w, descending)
  }

  lemma {:induction false} InsertCount(x: WeightedMerchant, s: seq<WeightedMerchant>, w: real, descending: bool, d: bool)
    ensures CountReaching(Insert(x, s, d), w, descending)
            == CountReaching(s, w, descending) + (if Reaches(x, w, descending) then 1 else 0)
  {
    if s != [] && !InOrder(x, s[0], d) {
      InsertCount(x, s[1..], w, descending, d);
      assert ([s[0]] + Insert(x, s[1..], d))[1..] == Insert(x, s[1..], d);
    } else {
      assert ([x] + s)[1..] == s;
    }
  }

  /** Sorting does not change how many merchants reach a weight. */
  lemma {:induction false} SortPreservesCount(s: seq<WeightedMerchant>, w: real, descending: bool, d: bool)
    ensures CountReaching(SortByWeight(s, d), w, descending) == CountReaching(s, w, descending)
  {
    if s != [] {
      SortPreservesCount(s[1..], w, descending, d);
      InsertCount(s[0], SortByWeight(s[1..], d), w, descending, d);
    }
  }

  /** In a ranking, if `k` merchants reach `w`, the first `k` of them all do. */
  lemma {:induction false} RankedPrefixReaches(s: seq<WeightedMerchant>, w: real, descending: bool, k: nat, j: nat)
    requires SortedBy(s, descending) && j < k <= CountReaching(s, w, descending)
    ensures j < |s| && Reaches(s[j], w, descending)
  {
    if !Reaches(s[0], w, descending) {
      NoneReach(s, w, descending);
      assert false;
    }
    if j > 0 {
      assert SortedBy(s[1..], descending) by {
        forall a, b | 0 <= a < b < |s[1..]| ensures InOrder(s[1..][a], s[1..][b], descending) {
          assert s[1..][a] == s[a + 1] && s[1..][b] == s[b + 1];
        }
      }
      RankedPrefixReaches(s[1..], w, descending, k - 1, j - 1);
    }
  }

  /** If the first of a ranking does not reach `w`, none does. */
  lemma {:induction false} NoneReach(s: seq<WeightedMerchant>, w: real, descending: bool)
    requires SortedBy(s, descending) && s != [] && !Reaches(s[0], w, descending)
    ensures CountReaching(s, w, descending) == 0
  {
    if |s| > 1 {
      assert SortedBy(s[1..], descending) by {
        forall a, b | 0 <= a < b < |s[1..]| ensures InOrder(s[1..][a], s[1..][b], descending) {
          assert s[1..][a] == s[a + 1] && s[1..][b] == s[b + 1];
        }
      }
      assert InOrder(s[0], s[1], descending);
      NoneReach(s[1..], w, descending);
    }
  }

  /** Six merchants weigh at least 0.3. */
  lemma TopWeightCount()
    ensures CountReaching(MerchantFraudWeights, 0.3, true) == 6
  {
  }

  /** Five merchants weigh at most 0.2. */
  lemma BottomWeightCount()
    ensures CountReaching(MerchantFraudWeights, 0.2, false) == 5
  {
  }

  /** In the ranking of any table with at least `k` merchants reaching `w`, the first `k` all reach it. */
  lemma RankingPrefixReaches(t: seq<WeightedMerchant>, w: real, descending: bool, k: nat, j: nat)
    requires j < k <= CountReaching(t, w, descending)
    ensures j < |t| && Reaches(SortByWeight(t, descending)[j], w, descending)
  {
    SortByWeightSorted(t, descending);
    SortPreservesCount(t, w, descending, descending);
    RankedPrefixReaches(SortByWeight(t, descending), w, descending, k, j);
  }

  /** The five heaviest merchants all weigh at least 0.3. */
  lemma TopShortlistWeights(k: nat)
    requires k < Shortlist
    ensures SortByWeight(MerchantFraudWeights, true)[k].weight >= 0.3
  {
    TopWeightCount();
    RankingPrefixReaches(MerchantFraudWeights, 0.3, true, Shortlist, k);
  }

  /** The five lightest merchants all weigh at most 0.2. */
  lemma BottomShortlistWeights(k: nat)
    requires k < Shortlist
    ensures SortByWeight(MerchantFraudWeights, false)[k].weight <= 0.2
  {
    BottomWeightCount();
    RankingPrefixReaches(MerchantFraudWeights, 0.2, false, Shortlist, k);
  }

  // ---------------------------------------------------------------------
  // Looking a merchant up in the weight table
  // ---------------------------------------------------------------------

  predicate HasMerchant(t: seq<WeightedMerchant>, name: string) {
    exists i :: 0 <= i < |t| && t[i].name == name
  }

  predicate UniqueNames(t: seq<WeightedMerchant>) {
    forall i, j :: 0 <= i < j < |t| ==> t[i].name != t[j].name
  }

  /** The weight of the merchant called `name` (a dictionary lookup). */
  function WeightOf(t: seq<WeightedMerchant>, name: string): real
    requires HasMerchant(t, name)
  {
    if t[0].name == name then t[0].weight
    else
      assert HasMerchant(t[1..], name) by {
        var i :| 0 <= i < |t| && t[i].name == name;
        assert t[1..][i - 1] == t[i];
      }
      WeightOf(t[1..], name)
  }

  /** With unique names, looking up a table entry's name gives back its weight. */
  lemma {:induction false} WeightOfEntry(t: seq<WeightedMerchant>, m: WeightedMerchant)
    requires UniqueNames(t) && m in t
    ensures HasMerchant(t, m.name) && WeightOf(t, m.name) == m.weight
  {
    var i :| 0 <= i < |t| && t[i] == m;
    if t[0].name != m.name {
      assert t[1..][i - 1] == m;
      assert UniqueNames(t[1..]) by {
        forall a, b | 0 <= a < b < |t[1..]| ensures t[1..][a].name != t[1..][b].name {
          assert t[1..][a] == t[a + 1] && t[1..][b] == t[b + 1];
        }
      }
      WeightOfEntry(t[1..], m);
    }
  }

  /** Each merchant in a ranking of the table is an entry of the table. */
  lemma RankedMerchantIsEntry(t: seq<WeightedMerchant>, descending: bool, k: nat)
    requires k < |t|
    ensures SortByWeight(t, descending)[k] in t
  {
    var ranked := SortByWeight(t, descending);
    SortByWeightPermutes(t, descending);
    assert ranked[k] in multiset(ranked);
  }

  /** Every table entry has a positive weight. */
  lemma TableWeightsPositive()
    ensures forall m | m in MerchantFraudWeights :: m.weight > 0.0
  {
  }

  /** Every table entry has its own name. */
  lemma TableNamesUnique()
    ensures UniqueNames(MerchantFraudWeights)
  {
    // names of equal length already differ in their first letter
    var t := MerchantFraudWeights;
    forall i, j | 0 <= i < j < |t| ensures t[i].name != t[j].name {
      assert |t[i].name| != |t[j].name| || t[i].name[0] != t[j].name[0];
    }
  }

  // ---------------------------------------------------------------------
  // Drawing one transaction
  // ---------------------------------------------------------------------

  /** `round(x, 2)`, rounding half a cent up. */
  function RoundCents(x: real): (r: real)
    ensures x - 0.005 < r <= x + 0.005
  {
    (x * 100.0 + 0.5).Floor as real / 100.0
  }

  /** Rounding to cents keeps a value within whole-unit bounds. */
  lemma RoundCentsWithin(x: real, low: int, high: int)
    requires low as real <= x <= high as real
    ensures low as real <= RoundCents(x) <= high as real
  {
    var y := x * 100.0 + 0.5;
    assert (100 * low) as real + 0.5 <= y <= (100 * high) as real + 0.5;
    assert 100 * low <= y.Floor <= 100 * high;
  }

  /** `random.uniform(low, high)` for a draw `roll` in [0, 1], rounded to cents. */
  function UniformAmount(low: real, high: real, roll: real): real {
    RoundCents(low + (high - low) * roll)
  }

  /** The random values one transaction consumes. */
  datatype Draw = Draw(
    fraudRoll: real,
    merchantPick: nat,
    amountRoll: real,
    locationRoll: real,
    locationPick: nat,
    categoryPick: nat,
    paymentPick: nat,
    idHex: string)

  predicate IsFraudDraw(d: Draw) {
    d.fraudRoll < FraudRate
  }

  predicate PicksHighRiskCity(d: Draw) {
    IsFraudDraw(d) && d.locationRoll < HighRiskLocationRate
  }

  /** The ranges a draw's values come from. */
  predicate ValidDraw(d: Draw) {
    && 0.0 <= d.fraudRoll < 1.0
    && d.merchantPick < Shortlist
    && 0.0 <= d.amountRoll <= 1.0
    && 0.0 <= d.locationRoll < 1.0
    && d.locationPick < (if PicksHighRiskCity(d) then |HighRiskPool| else |LowRiskPool|)
    && d.categoryPick < |Categories|
    && d.paymentPick < |PaymentMethods|
    && |d.idHex| == 10
  }

  /** The value of one decimal digit. */
  function DigitValue(c: char): nat {
    if '0' <= c <= '9' then (c as int - '0' as int) as nat else 0
  }

  /** The number a string of decimal digits spells, most significant digit first. */
  function DigitsValue(s: string): nat {
    if s == [] then 0 else 10 * DigitsValue(s[..|s| - 1]) + DigitValue(s[|s| - 1])
  }

  /** Decimal digits of `n`, as Python's `str`: they spell `n`, with no leading zero. */
  function DecimalString(n: nat): (r: string)
    ensures 1 <= |r|
    ensures forall k :: 0 <= k < |r| ==> '0' <= r[k] <= '9'
    ensures n < 10 <==> |r| == 1
    ensures DigitsValue(r) == n
    ensures |r| > 1 ==> r[0] != '0'
  {
    var digit := ('0' as int + n % 10) as char;
    if n < 10 then [digit]
    else
      var r := DecimalString(n / 10) + [digit];
      assert r[..|r| - 1] == DecimalString(n / 10);
      r
  }

  /** Different numbers have different decimal strings. */
  lemma DecimalStringInjective(m: nat, n: nat)
    ensures DecimalString(m) == DecimalString(n) ==> m == n
  {
  }

  /** The merchant drawn: one of the five first in the ranking for the drawn label. */
  function ChosenMerchant(d: Draw): WeightedMerchant
    requires ValidDraw(d)
  {
    // `random.choice(weighted_merchants[:5])`: the pick is below Shortlist
    SortByWeight(MerchantFraudWeights, IsFraudDraw(d))[d.merchantPick]
  }

  /** The amount drawn for the drawn label. */
  function ChosenAmount(d: Draw): real {
    if IsFraudDraw(d) then UniformAmount(FraudAmountLow, FraudAmountHigh, d.amountRoll)
    else UniformAmount(LegitAmountLow, LegitAmountHigh, d.amountRoll)
  }

  /** The city drawn: high-risk only for a fraud case that also wins the 70% draw. */
  function ChosenLocation(d: Draw): (r: string)
    requires ValidDraw(d)
    ensures PicksHighRiskCity(d) <==> LocationRisk(r) == 30
    ensures !IsFraudDraw(d) ==> r in LowRiskPool
  {
    if PicksHighRiskCity(d) then HighRiskPool[d.locationPick] else LowRiskPool[d.locationPick]
  }

  /** The drawn merchant is a table entry, so looking its name up gives its own weight. */
  lemma ChosenMerchantIsEntry(d: Draw)
    requires ValidDraw(d)
    ensures ChosenMerchant(d) in MerchantFraudWeights
    ensures HasMerchant(MerchantFraudWeights, ChosenMerchant(d).name)
    ensures WeightOf(MerchantFraudWeights, ChosenMerchant(d).name) == ChosenMerchant(d).weight
    ensures ChosenMerchant(d).weight > 0.0
  {
    RankedMerchantIsEntry(MerchantFraudWeights, IsFraudDraw(d), d.merchantPick);
    TableWeightsPositive();
    TableNamesUnique();
    WeightOfEntry(MerchantFraudWeights, ChosenMerchant(d));
  }

  /** Fraud cases draw a merchant weighing at least 0.3, legitimate ones at most 0.2. */
  lemma ChosenMerchantWeight(d: Draw)
    requires ValidDraw(d)
    ensures IsFraudDraw(d) ==> ChosenMerchant(d).weight >= 0.3
    ensures !IsFraudDraw(d) ==> ChosenMerchant(d).weight <= 0.2
  {
    if IsFraudDraw(d) {
      TopShortlistWeights(d.merchantPick);
    } else {
      BottomShortlistWeights(d.merchantPick);
    }
  }

  /** Fraud amounts lie in [800, 5000], legitimate ones in [10, 700]. */
  lemma ChosenAmountRange(d: Draw)
    requires ValidDraw(d)
    ensures IsFraudDraw(d) ==> FraudAmountLow <= ChosenAmount(d) <= FraudAmountHigh
    ensures !IsFraudDraw(d) ==> LegitAmountLow <= ChosenAmount(d) <= LegitAmountHigh
  {
    if IsFraudDraw(d) {
      RoundCentsWithin(FraudAmountLow + (FraudAmountHigh - FraudAmountLow) * d.amountRoll, 800, 5000);
    } else {
      RoundCentsWithin(LegitAmountLow + (LegitAmountHigh - LegitAmountLow) * d.amountRoll, 10, 700);
    }
  }

  /** The `i`-th transaction the generator builds from draw `d`. */
  function BuildTransaction(i: nat, d: Draw): TestTransaction
    requires ValidDraw(d)
  {
    var merchant := ChosenMerchant(d).name;
    ChosenMerchantIsEntry(d);
    TestTransaction(
      "test_txn_" + d.idHex,
      "test_user_" + DecimalString(i),
      ChosenAmount(d),
      merchant,
      Categories[d.categoryPick],
      PaymentMethods[d.paymentPick],
      ChosenLocation(d),
      WeightOf(MerchantFraudWeights, merchant),
      "Pending",
      IsFraudDraw(d))
  }

  /** What a built transaction holds, field by field, in terms of the draw. */
  lemma BuildTransactionFields(i: nat, d: Draw)
    requires ValidDraw(d)
    ensures var t := BuildTransaction(i, d);
            && t.isActualFraud == IsFraudDraw(d)
            && t.merchant == ChosenMerchant(d).name
            && t.riskScore == ChosenMerchant(d).weight
            && t.amount == ChosenAmount(d)
            && t.location == ChosenLocation(d)
            && t.status == "Pending"
            && t.userId == "test_user_" + DecimalString(i)
  {
    ChosenMerchantIsEntry(d);
  }

  /** Two strings behind the same prefix are equal only if they are equal on their own. */
  lemma SamePrefixCancels(prefix: string, a: string, b: string)
    ensures prefix + a == prefix + b ==> a == b
  {
    if prefix + a == prefix + b {
      assert a == (prefix + a)[|prefix|..];
    }
  }

  /** Transactions built at different positions belong to different test users. */
  lemma DistinctUserIds(i: nat, j: nat, d: Draw, e: Draw)
    requires ValidDraw(d) && ValidDraw(e) && i != j
    ensures BuildTransaction(i, d).userId != BuildTransaction(j, e).userId
  {
    BuildTransactionFields(i, d);
    BuildTransactionFields(j, e);
    SamePrefixCancels("test_user_", DecimalString(i), DecimalString(j));
    DecimalStringInjective(i, j);
  }

  /**
   * A generated transaction is labelled with its fraud draw, names a table
   * merchant and carries that merchant's weight, which is positive, so the
   * tester flags every generated transaction.
   */
  lemma GeneratedLabelAndWeight(i: nat, d: Draw)
    requires ValidDraw(d)
    ensures var t := BuildTransaction(i, d);
            && t.isActualFraud == (d.fraudRoll < FraudRate)
            && WeightedMerchant(t.merchant, t.riskScore) in MerchantFraudWeights
            && t.riskScore > 0.0
            && IsFlaggedFraud(t, TesterThreshold)
  {
    BuildTransactionFields(i, d);
    ChosenMerchantIsEntry(d);
    var t := BuildTransaction(i, d);
    assert WeightedMerchant(t.merchant, t.riskScore) == ChosenMerchant(d);
    PositiveRiskIsFlagged(t);
  }

  /** A fraud case has a merchant weighing at least 0.3 and an amount in [800, 5000]. */
  lemma GeneratedFraudCase(i: nat, d: Draw)
    requires ValidDraw(d) && IsFraudDraw(d)
    ensures var t := BuildTransaction(i, d);
            t.isActualFraud && t.riskScore >= 0.3 && FraudAmountLow <= t.amount <= FraudAmountHigh
  {
    BuildTransactionFields(i, d);
    ChosenMerchantWeight(d);
    ChosenAmountRange(d);
  }

  /**
   * A legitimate case has a merchant weighing at most 0.2, an amount in
   * [10, 700] and a low-risk city.
   */
  lemma GeneratedLegitimateCase(i: nat, d: Draw)
    requires ValidDraw(d) && !IsFraudDraw(d)
    ensures var t := BuildTransaction(i, d);
            && !t.isActualFraud && t.riskScore <= 0.2
            && LegitAmountLow <= t.amount <= LegitAmountHigh
            && t.location in LowRiskPool
  {
    BuildTransactionFields(i, d);
    ChosenMerchantWeight(d);
    ChosenAmountRange(d);
  }

  // ---------------------------------------------------------------------
  // The generator loop
  // ---------------------------------------------------------------------

  predicate ValidDraws(draws: seq<Draw>) {
    forall k :: 0 <= k < |draws| ==> ValidDraw(draws[k])
  }

  /** Builds `numTransactions` labelled transactions, one per draw, in order. */
  method GenerateTestData(numTransactions: nat, draws: seq<Draw>) returns (testData: seq<TestTransaction>)
    requires |draws| == numTransactions && ValidDraws(draws)
    ensures |testData| == numTransactions
    ensures forall k :: 0 <= k < numTransactions ==> testData[k] == BuildTransaction(k, draws[k])
    ensures forall k :: 0 <= k < numTransactions ==>
              testData[k].isActualFraud == IsFraudDraw(draws[k]) && testData[k].riskScore > 0.0
  {
    testData := [];
    for i := 0 to numTransactions
      invariant |testData| == i
      invariant forall k :: 0 <= k < i ==> testData[k] == BuildTransaction(k, draws[k])
    {
      testData := testData + [BuildTransaction(i, draws[i])];
    }
    forall k | 0 <= k < numTransactions
      ensures testData[k].isActualFraud == IsFraudDraw(draws[k]) && testData[k].riskScore > 0.0
    {
      GeneratedLabelAndWeight(k, draws[k]);
    }
  }
}
