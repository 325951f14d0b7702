/**
 * The decision-support layer of the prediction endpoint: two categorical
 * advisories derived from the random-forest estimate and the ARIMA
 * one-step-ahead forecast (app.py:29-42). Everything here is total and
 * deterministic; the two model outputs are plain reals.
 */
module Decision {

  /** Groundwater level advisory, most severe first. */
  datatype LevelStatus = Critical | BelowAverage | Stable

  /** Recharge advisory. */
  datatype RechargeStatus = Improving | AtRisk

  /** Both advisories of one prediction. */
  datatype Insights = Insights(level: LevelStatus, recharge: RechargeStatus)

  /** Lower edge of the below-average bracket; anything under it is critical. */
  const BelowAverageFrom: real := 1.0

  /** Lower edge of the stable bracket. */
  const StableFrom: real := 3.0

  /** The bracket edges in increasing order. */
  const Thresholds: seq<real> := [BelowAverageFrom, StableFrom]

  /** Position of a status in the order Critical < BelowAverage < Stable. */
  function Rank(s: LevelStatus): nat
  {
    match s
    case Critical => 0
    case BelowAverage => 1
    case Stable => 2
  }

  /** The half-open interval of estimates that each level status stands for. */
  predicate InBracket(s: LevelStatus, estimate: real)
  {
    match s
    case Critical => estimate < BelowAverageFrom
    case BelowAverage => BelowAverageFrom <= estimate && estimate < StableFrom
    case Stable => StableFrom <= estimate
  }

  /**
   * How many of the edges `edges` the value `x` has reached, an edge being
   * reached when it is at most `x`: a reference description of the brackets
   * that does not mention the statuses.
   */
  function ThresholdsReached(edges: seq<real>, x: real): (n: nat)
    ensures n <= |edges|
  {
    if edges == [] then 0
    else (if edges[0] <= x then 1 else 0) + ThresholdsReached(edges[1..], x)
  }

  /** Reaching more edges never needs a smaller value. */
  lemma {:induction false} ThresholdsReachedMonotone(edges: seq<real>, a: real, b: real)
    requires a <= b
    ensures ThresholdsReached(edges, a) <= ThresholdsReached(edges, b)
  {
    if edges != [] {
      ThresholdsReachedMonotone(edges[1..], a, b);
    }
  }

  /**
   * The level status of a random-forest estimate (app.py:31-36). The status's
   * rank is the number of bracket edges the estimate has reached, so each
   * edge value itself belongs to the upper bracket.
   */
  function LevelStatusOf(estimate: real): (s: LevelStatus)
    ensures Rank(s) == ThresholdsReached(Thresholds, estimate)
  {
    assert Thresholds[1..] == [StableFrom];
    if estimate < BelowAverageFrom then Critical
    else if BelowAverageFrom <= estimate < StableFrom then BelowAverage
    else Stable
  }

  /**
   * The recharge status (app.py:39-42): improving only when the forecast is
   * strictly above the estimate.
   */
  function RechargeStatusOf(estimate: real, forecast: real): (s: RechargeStatus)
    ensures s == Improving <==> forecast > estimate
    ensures s == AtRisk <==> forecast <= estimate
  {
    if forecast > estimate then Improving else AtRisk
  }

  /**
   * Both advisories for one pair of model outputs (app.py:29-42): the level
   * status whose bracket holds for the estimate, and a recharge status that is
   * improving exactly when the forecast is strictly higher.
   */
  function Decide(estimate: real, forecast: real): (r: Insights)
    ensures InBracket(r.level, estimate)
    ensures r.recharge == Improving <==> forecast > estimate
  {
    LevelStatusIsOnlyBracket(estimate);
    Insights(LevelStatusOf(estimate), RechargeStatusOf(estimate, forecast))
  }

  /**
   * The brackets partition the reals: for every estimate, the chosen status
   * is the one and only status whose bracket holds.
   */
  lemma LevelStatusIsOnlyBracket(estimate: real)
    ensures InBracket(LevelStatusOf(estimate), estimate)
    ensures forall s :: InBracket(s, estimate) ==> s == LevelStatusOf(estimate)
  {
  }

  /** The edge values 1 and 3 fall into the upper of their two brackets. */
  lemma LevelBoundaries()
    ensures LevelStatusOf(BelowAverageFrom) == BelowAverage
    ensures LevelStatusOf(StableFrom) == Stable
  {
  }

  /** A larger estimate is never reported as more severe. */
  lemma LevelMonotone(a: real, b: real)
    requires a <= b
    ensures Rank(LevelStatusOf(a)) <= Rank(LevelStatusOf(b))
  {
    ThresholdsReachedMonotone(Thresholds, a, b);
  }

  /** Improving exactly when the forecast is strictly higher; a tie is at risk. */
  lemma RechargeRule(estimate: real, forecast: real)
    ensures RechargeStatusOf(estimate, forecast) == Improving <==> forecast > estimate
    ensures RechargeStatusOf(estimate, forecast) == AtRisk <==> forecast <= estimate
    ensures RechargeStatusOf(estimate, estimate) == AtRisk
  {
  }

  /** The level advisory depends only on the estimate, never on the forecast. */
  lemma DecideLevelIgnoresForecast(estimate: real, f1: real, f2: real)
    ensures Decide(estimate, f1).level == Decide(estimate, f2).level
  {
  }
}
