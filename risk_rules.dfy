/**
 * The two static risk rules of the fraud detector: a fixed list of
 * high-risk cities and a three-tier step on the transaction amount.
 * Both are total functions; every comparison is a strict `>`.
 */
module RiskRules {

  /** Cities whose transactions always carry location risk. */
  const HighRiskLocations: seq<string> := ["Dubai", "Tokyo", "London"]

  /** Location assumed when a stored transaction has none. */
  const UnknownLocation: string := "Unknown"

  /** Location risk: 30 for a high-risk city, 0 for every other string. */
  function LocationRisk(location: string): (r: int)
    ensures r == 30 <==> location == "Dubai" || location == "Tokyo" || location == "London"
    ensures r != 30 ==> r == 0
  {
    if location in HighRiskLocations then 30 else 0
  }

  /** Amount risk: 40 above 3000, 20 above 1000, otherwise 0. */
  function AmountRisk(amount: real): (r: int)
    ensures r == 0 || r == 20 || r == 40
    ensures r == 40 <==> amount > 3000.0
    ensures r == 20 <==> 1000.0 < amount <= 3000.0
    ensures r == 0 <==> amount <= 1000.0
  {
    if amount > 3000.0 then 40
    else if amount > 1000.0 then 20
    else 0
  }

  /** A larger amount never carries less risk. */
  lemma AmountRiskMonotone(a: real, b: real)
    requires a <= b
    ensures AmountRisk(a) <= AmountRisk(b)
  {
  }

  /** The tier boundaries belong to the lower tier. */
  lemma AmountRiskBoundaries()
    ensures AmountRisk(3000.0) == 20 && AmountRisk(1000.0) == 0
    ensures AmountRisk(3000.01) == 40 && AmountRisk(1000.01) == 20
  {
  }

  /** The default location and the empty string are not high-risk. */
  lemma UnknownLocationIsLowRisk()
    ensures LocationRisk(UnknownLocation) == 0 && LocationRisk("") == 0
  {
  }
}
