/** The tiered loyalty-points rule for a single purchase. */
module Points {

  /** Points earned by one purchase of `transactionAmount` dollars. The amount
      is first floored to whole dollars; the dollars from 51 to 100 earn one
      point each and every dollar above 100 earns two. Nothing is earned when
      the floored amount is 50 or less, negative amounts included. */
  function CalculatePoints(transactionAmount: real): (points: int)
    ensures points >= 0
    ensures points == 0 <==> transactionAmount.Floor <= 50
  {
    var intTransAmt := transactionAmount.Floor;
    if intTransAmt > 100 then
      var overOneHundred := intTransAmt - 100;
      overOneHundred * 2 + 50
    else if intTransAmt > 50 then
      var overFifty := intTransAmt - 50;
      overFifty
    else
      0
  }

  /** Points earned by the d-th whole dollar of a purchase. */
  function DollarRate(d: int): (rate: int)
  {
    if d > 100 then 2 else if d > 50 then 1 else 0
  }

  /** Reference definition of the rule, dollar by dollar: the sum of
      DollarRate over the dollars 1..n of a purchase (0 when n <= 0). */
  function PointsPerDollar(n: int): (total: int)
    decreases if n > 0 then n else 0
  {
    if n <= 0 then 0 else PointsPerDollar(n - 1) + DollarRate(n)
  }

  /** The dollar-by-dollar sum agrees with the tiered formula on whole amounts. */
  lemma {:induction false} PointsPerDollarIsTiered(n: int)
    ensures PointsPerDollar(n) == CalculatePoints(n as real)
    decreases if n > 0 then n else 0
  {
    if n > 0 {
      PointsPerDollarIsTiered(n - 1);
    }
  }

  /** The tiered formula is the sum of the per-dollar rates up to the floored amount. */
  lemma CalculatePointsIsPerDollarSum(amount: real)
    ensures CalculatePoints(amount) == PointsPerDollar(amount.Floor)
  {
    PointsPerDollarIsTiered(amount.Floor);
  }

  /** Fractions of a dollar never matter. */
  lemma FractionIsIgnored(amount: real)
    ensures CalculatePoints(amount) == CalculatePoints(amount.Floor as real)
  {
  }

  /** The three tiers, stated separately. */
  lemma Tiers(amount: real)
    ensures amount.Floor <= 50 ==> CalculatePoints(amount) == 0
    ensures 50 < amount.Floor <= 100 ==> CalculatePoints(amount) == amount.Floor - 50
    ensures amount.Floor > 100 ==> CalculatePoints(amount) == 50 + 2 * (amount.Floor - 100)
  {
  }

  /** Each further dollar adds the rate of that dollar. */
  lemma {:induction false} PointsPerDollarStep(n: int)
    ensures PointsPerDollar(n + 1) == PointsPerDollar(n) + (if n + 1 > 0 then DollarRate(n + 1) else 0)
  {
  }

  /** The dollar-by-dollar sum never decreases as dollars are added. */
  lemma {:induction false} PointsPerDollarMonotone(m: int, n: int)
    requires m <= n
    ensures PointsPerDollar(m) <= PointsPerDollar(n)
    decreases n - m
  {
    if m < n {
      PointsPerDollarMonotone(m, n - 1);
      PointsPerDollarStep(n - 1);
    }
  }

  /** Spending more never earns fewer points. */
  lemma CalculatePointsMonotone(x: real, y: real)
    requires x <= y
    ensures CalculatePoints(x) <= CalculatePoints(y)
  {
  }

  /** The boundary cases of the rule. */
  lemma BoundaryCases()
    ensures CalculatePoints(45.99) == 0
    ensures CalculatePoints(50.0) == 0
    ensures CalculatePoints(50.99) == 0
    ensures CalculatePoints(51.0) == 1
    ensures CalculatePoints(100.0) == 50
    ensures CalculatePoints(100.5) == 50
    ensures CalculatePoints(101.0) == 52
    ensures CalculatePoints(120.0) == 90
    ensures CalculatePoints(-3.5) == 0
  {
  }
}
